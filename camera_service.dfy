/**
 * The decision logic of `CameraService`: the setup result, the configured
 * and running flags, the flags the UI observes, the device selection when
 * switching cameras, and the map of in-flight photo captures.
 *
 * Every AVFoundation call is abstracted: what the framework answers (the
 * default devices, whether an input or output can be added, whether the
 * session runs after `startRunning`, the discovered devices) is a parameter.
 * The session queue and the main-thread hops are collapsed: each operation
 * runs to completion before the next one starts.
 */
module Camera {
  import opened Wrappers

  newtype int64 = x: int | -0x8000_0000_0000_0000 <= x < 0x8000_0000_0000_0000

  datatype SessionSetupResult = Success | NotAuthorized | ConfigurationFailed

  /** `AVAuthorizationStatus`; `FutureStatus` stands for a status added by a later SDK. */
  datatype AuthorizationStatus = Authorized | NotDetermined | Denied | Restricted | FutureStatus

  /** `AVCaptureDevice.Position`; `FuturePosition` stands for `@unknown default`. */
  datatype Position = Unspecified | Back | Front | FuturePosition

  /** The device types the discovery session looks for. */
  datatype DeviceType = BuiltInWideAngleCamera | BuiltInDualCamera | BuiltInTrueDepthCamera

  /** A capture device; a device input is identified with its device. */
  datatype Device = Device(uniqueID: string, position: Position, deviceType: DeviceType)

  /** Which of the two alerts `alertError` was last set to, if any. */
  datatype AlertError = NoAlert | CameraAccessAlert | CameraErrorAlert

  /** A capture delegate, identified by its requested settings' `uniqueID`. */
  datatype PhotoCaptureProcessor = PhotoCaptureProcessor(uniqueID: int64)

  datatype Photo = Photo(originalData: seq<bv8>)

  /** What the framework answers during `configureSession`. */
  datatype ConfigurationOutcome = ConfigurationOutcome(
    backWideAngle: Option<Device>,   // AVCaptureDevice.default(.builtInWideAngleCamera, .back)
    frontWideAngle: Option<Device>,  // AVCaptureDevice.default(.builtInWideAngleCamera, .front)
    inputCreationThrows: bool,       // AVCaptureDeviceInput(device:) throws
    canAddInput: bool,
    canAddOutput: bool,
    runningAfterStart: bool)         // session.isRunning after the nested start()

  /** The back camera when there is one, else the front camera. */
  function DefaultVideoDevice(outcome: ConfigurationOutcome): (r: Option<Device>)
    ensures outcome.backWideAngle.Some? ==> r == outcome.backWideAngle
    ensures outcome.backWideAngle.None? ==> r == outcome.frontWideAngle
  {
    if outcome.backWideAngle.Some? then outcome.backWideAngle else outcome.frontWideAngle
  }

  /** Configuration goes through when every framework call in it succeeds. */
  predicate ConfigurationSucceeds(outcome: ConfigurationOutcome) {
    DefaultVideoDevice(outcome).Some? && !outcome.inputCreationThrows
    && outcome.canAddInput && outcome.canAddOutput
  }

  /** The position `switchCamera` moves to: the back camera except when on the back. */
  function PreferredPosition(current: Position): (r: Position)
    ensures r == Front <==> current == Back
    ensures r == Back <==> current != Back
  {
    match current
    case Unspecified => Back
    case Front => Back
    case Back => Front
    case FuturePosition => Back
  }

  /** The device type `switchCamera` prefers: the wide-angle camera in every branch. */
  function PreferredDeviceType(current: Position): (r: DeviceType)
    ensures r == BuiltInWideAngleCamera
  {
    match current
    case Unspecified => BuiltInWideAngleCamera
    case Front => BuiltInWideAngleCamera
    case Back => BuiltInWideAngleCamera
    case FuturePosition => BuiltInWideAngleCamera
  }

  /**
   * The two `first(where:)` closures: a device at `position` of type
   * `deviceType` when one is given, or at `position` alone when it is none.
   */
  function Fits(d: Device, position: Position, deviceType: Option<DeviceType>): (r: bool)
    ensures r ==> d.position == position
    ensures deviceType.None? ==> (r <==> d.position == position)
    ensures deviceType.Some? ==> (r <==> d.position == position && d.deviceType == deviceType.value)
  {
    d.position == position && (deviceType.None? || d.deviceType == deviceType.value)
  }

  /** `i` is the index `first(where:)` would stop at. */
  predicate IsFirstFit(devices: seq<Device>, i: int, position: Position, deviceType: Option<DeviceType>) {
    0 <= i < |devices| && Fits(devices[i], position, deviceType)
    && forall j :: 0 <= j < i ==> !Fits(devices[j], position, deviceType)
  }

  /** `devices.first(where:)`, as the index of the first fitting device. */
  function FirstFit(devices: seq<Device>, position: Position, deviceType: Option<DeviceType>): (r: Option<nat>)
    ensures r.Some? ==> IsFirstFit(devices, r.value, position, deviceType)
    ensures r.None? ==> forall j :: 0 <= j < |devices| ==> !Fits(devices[j], position, deviceType)
    decreases |devices|
  {
    if devices == [] then None
    else if Fits(devices[0], position, deviceType) then Some(0)
    else match FirstFit(devices[1..], position, deviceType)
      case None => None
      case Some(i) => Some(i + 1)
  }

  /**
   * The new device `switchCamera` picks: the first device with the preferred
   * position and type, otherwise the first with the preferred position only,
   * otherwise none.
   */
  function SelectNewVideoDevice(devices: seq<Device>, position: Position, deviceType: DeviceType): (r: Option<Device>)
    ensures r.Some? ==> r.value in devices && r.value.position == position
    ensures r.None? <==> forall j :: 0 <= j < |devices| ==> devices[j].position != position
    ensures forall i :: IsFirstFit(devices, i, position, Some(deviceType)) ==> r == Some(devices[i])
    ensures (forall j :: 0 <= j < |devices| ==> !Fits(devices[j], position, Some(deviceType))) ==>
              forall i :: IsFirstFit(devices, i, position, None) ==> r == Some(devices[i])
  {
    match FirstFit(devices, position, Some(deviceType))
    case Some(i) => Some(devices[i])
    case None =>
      match FirstFit(devices, position, None)
      case Some(i) => Some(devices[i])
      case None => None
  }

  /** The flags the UI observes (`@Published`), and the alert last set. */
  datatype UiState = UiState(
    shouldShowAlertView: bool, isCameraButtonDisabled: bool, isCameraUnavailable: bool, alertError: AlertError)

  /** The session-queue state. */
  datatype SessionState = SessionState(
    setupResult: SessionSetupResult, isConfigured: bool, isSessionRunning: bool,
    videoDeviceInput: Option<Device>, sessionInputs: set<Device>, photoOutputAdded: bool)

  class CameraService {
    var shouldShowAlertView: bool
    var isCameraButtonDisabled: bool
    var isCameraUnavailable: bool
    var alertError: AlertError
    var photo: Option<Photo>

    var setupResult: SessionSetupResult
    var isConfigured: bool
    var isSessionRunning: bool
    /** `videoDeviceInput`, an implicitly unwrapped optional in the source. */
    var videoDeviceInput: Option<Device>
    /** The inputs attached to `session`. */
    var sessionInputs: set<Device>
    /** Whether `photoOutput` is attached to `session`. */
    var photoOutputAdded: bool
    var inProgressPhotoCaptureDelegates: map<int64, PhotoCaptureProcessor>

    ghost function Ui(): UiState
      reads this
    {
      UiState(shouldShowAlertView, isCameraButtonDisabled, isCameraUnavailable, alertError)
    }

    ghost function Session(): SessionState
      reads this
    {
      SessionState(setupResult, isConfigured, isSessionRunning, videoDeviceInput, sessionInputs, photoOutputAdded)
    }

    /**
     * A running session has been configured; a configured session has a video
     * input and the photo output; the current video input is always attached
     * to the session; each capture delegate is filed under its own id.
     */
    ghost predicate Valid()
      reads this
    {
      && (isSessionRunning ==> isConfigured)
      && (isConfigured ==> videoDeviceInput.Some? && photoOutputAdded)
      && (videoDeviceInput.Some? ==> videoDeviceInput.value in sessionInputs)
      && (forall id :: id in inProgressPhotoCaptureDelegates ==> inProgressPhotoCaptureDelegates[id].uniqueID == id)
    }

    constructor ()
      ensures Valid()
      ensures Ui() == UiState(false, true, true, NoAlert) && photo == None
      ensures Session() == SessionState(Success, false, false, None, {}, false)
      ensures inProgressPhotoCaptureDelegates == map[]
    {
      shouldShowAlertView, isCameraButtonDisabled, isCameraUnavailable, alertError := false, true, true, NoAlert;
      photo := None;
      setupResult, isConfigured, isSessionRunning := Success, false, false;
      videoDeviceInput, sessionInputs, photoOutputAdded := None, {}, false;
      inProgressPhotoCaptureDelegates := map[];
    }

    /**
     * `checkForPermissions`. `granted` is the user's answer to the access
     * request, used only when the status is not determined.
     */
    method CheckForPermissions(status: AuthorizationStatus, granted: bool)
      requires Valid()
      modifies this
      ensures Valid()
      ensures status == Authorized ==> Ui() == old(Ui()) && Session() == old(Session())
      ensures status == NotDetermined ==>
                Ui() == old(Ui()) && Session() == old(Session()).(setupResult := if granted then old(setupResult) else NotAuthorized)
      ensures status !in {Authorized, NotDetermined} ==>
                Ui() == UiState(true, true, true, CameraAccessAlert) && Session() == old(Session()).(setupResult := NotAuthorized)
      ensures inProgressPhotoCaptureDelegates == old(inProgressPhotoCaptureDelegates) && photo == old(photo)
    {
      match status {
        case Authorized =>
        case NotDetermined =>
          if !granted {
            setupResult := NotAuthorized;
          }
        case _ =>
          setupResult := NotAuthorized;
          alertError := CameraAccessAlert;
          shouldShowAlertView := true;
          isCameraUnavailable := true;
          isCameraButtonDisabled := true;
      }
    }

    /**
     * `start`: acts only on a configured session that is not running. With a
     * successful setup the running flag follows the session and the button
     * and camera become available when it runs; otherwise the error alert is
     * shown and the camera is marked unavailable.
     */
    method Start(runningAfterStart: bool)
      requires Valid()
      modifies this
      ensures Valid()
      ensures old(isSessionRunning || !isConfigured) ==> Ui() == old(Ui()) && Session() == old(Session())
      ensures old(!isSessionRunning && isConfigured && setupResult == Success) ==>
                Session() == old(Session()).(isSessionRunning := runningAfterStart)
                && Ui() == (if runningAfterStart then old(Ui()).(isCameraButtonDisabled := false, isCameraUnavailable := false) else old(Ui()))
      ensures old(!isSessionRunning && isConfigured && setupResult != Success) ==>
                Session() == old(Session()) && Ui() == UiState(true, true, true, CameraErrorAlert)
      ensures inProgressPhotoCaptureDelegates == old(inProgressPhotoCaptureDelegates) && photo == old(photo)
    {
      if !isSessionRunning && isConfigured {
        match setupResult {
          case Success =>
            isSessionRunning := runningAfterStart;
            if runningAfterStart {
              isCameraButtonDisabled := false;
              isCameraUnavailable := false;
            }
          case _ =>
            alertError := CameraErrorAlert;
            shouldShowAlertView := true;
            isCameraButtonDisabled := true;
            isCameraUnavailable := true;
        }
      }
    }

    /**
     * `configureSession`: nothing happens unless the setup result is success.
     * Any failing framework call sets the configuration-failed result and
     * leaves the session unconfigured; when every call succeeds the session
     * is configured with the default device and `start` runs.
     */
    method ConfigureSession(outcome: ConfigurationOutcome)
      requires Valid()
      modifies this
      ensures Valid()
      ensures old(setupResult) != Success ==> Ui() == old(Ui()) && Session() == old(Session())
      ensures old(setupResult) == Success && !ConfigurationSucceeds(outcome) ==>
                && Ui() == old(Ui())
                && setupResult == ConfigurationFailed
                && isConfigured == old(isConfigured) && isSessionRunning == old(isSessionRunning)
                && photoOutputAdded == old(photoOutputAdded)
                && (if DefaultVideoDevice(outcome).Some? && !outcome.inputCreationThrows && outcome.canAddInput
                    then videoDeviceInput == DefaultVideoDevice(outcome)
                         && sessionInputs == old(sessionInputs) + {DefaultVideoDevice(outcome).value}
                    else videoDeviceInput == old(videoDeviceInput) && sessionInputs == old(sessionInputs))
      ensures old(setupResult) == Success && ConfigurationSucceeds(outcome) ==>
                && setupResult == Success && isConfigured && photoOutputAdded
                && videoDeviceInput == DefaultVideoDevice(outcome)
                && sessionInputs == old(sessionInputs) + {DefaultVideoDevice(outcome).value}
                && (if old(isSessionRunning) then isSessionRunning && Ui() == old(Ui())
                    else isSessionRunning == outcome.runningAfterStart
                         && Ui() == (if outcome.runningAfterStart
                                     then old(Ui()).(isCameraButtonDisabled := false, isCameraUnavailable := false)
                                     else old(Ui())))
      ensures inProgressPhotoCaptureDelegates == old(inProgressPhotoCaptureDelegates) && photo == old(photo)
    {
      if setupResult != Success {
        return;
      }
      var defaultVideoDevice := DefaultVideoDevice(outcome);
      if defaultVideoDevice.None? {
        setupResult := ConfigurationFailed;
        return;
      }
      if outcome.inputCreationThrows {
        setupResult := ConfigurationFailed;
        return;
      }
      if outcome.canAddInput {
        sessionInputs := sessionInputs + {defaultVideoDevice.value};
        videoDeviceInput := defaultVideoDevice;
      } else {
        setupResult := ConfigurationFailed;
        return;
      }
      if outcome.canAddOutput {
        photoOutputAdded := true;
      } else {
        setupResult := ConfigurationFailed;
        return;
      }
      isConfigured := true;
      Start(outcome.runningAfterStart);
    }

    /**
     * `stop`: acts only on a running session with a successful setup. The
     * result says whether the completion handler is called, which happens
     * exactly when the session has actually stopped.
     */
    method Stop(runningAfterStop: bool) returns (completionCalled: bool)
      requires Valid()
      modifies this
      ensures Valid()
      ensures completionCalled <==> old(isSessionRunning) && old(setupResult) == Success && !runningAfterStop
      ensures !(old(isSessionRunning) && old(setupResult) == Success) ==> Ui() == old(Ui()) && Session() == old(Session())
      ensures old(isSessionRunning) && old(setupResult) == Success ==>
                Session() == old(Session()).(isSessionRunning := runningAfterStop)
                && Ui() == (if runningAfterStop then old(Ui())
                            else old(Ui()).(isCameraButtonDisabled := true, isCameraUnavailable := true))
      ensures inProgressPhotoCaptureDelegates == old(inProgressPhotoCaptureDelegates) && photo == old(photo)
    {
      completionCalled := false;
      if isSessionRunning && setupResult == Success {
        isSessionRunning := runningAfterStop;
        if !runningAfterStop {
          isCameraButtonDisabled := true;
          isCameraUnavailable := true;
          completionCalled := true;
        }
      }
    }

    /**
     * `switchCamera`. `devices` is what the discovery session reports;
     * `inputCreationThrows` and `canAddNewInput` are the framework's answers
     * for the new device. When the new input cannot be added, the old one is
     * put back; in every case the button ends enabled.
     */
    method SwitchCamera(devices: seq<Device>, inputCreationThrows: bool, canAddNewInput: bool)
      requires Valid()
      requires videoDeviceInput.Some?  // the source force-unwraps `videoDeviceInput`
      modifies this
      ensures Valid()
      ensures Ui() == old(Ui()).(isCameraButtonDisabled := false)
      ensures setupResult == old(setupResult) && isConfigured == old(isConfigured)
      ensures isSessionRunning == old(isSessionRunning) && photoOutputAdded == old(photoOutputAdded)
      ensures var current := old(videoDeviceInput).value;
              var next := SelectNewVideoDevice(devices, PreferredPosition(current.position), PreferredDeviceType(current.position));
              if next.None? || inputCreationThrows then
                videoDeviceInput == old(videoDeviceInput) && sessionInputs == old(sessionInputs)
              else if canAddNewInput then
                videoDeviceInput == next && sessionInputs == old(sessionInputs) - {current} + {next.value}
              else
                videoDeviceInput == old(videoDeviceInput) && sessionInputs == old(sessionInputs)
      ensures inProgressPhotoCaptureDelegates == old(inProgressPhotoCaptureDelegates) && photo == old(photo)
    {
      isCameraButtonDisabled := true;
      var current := videoDeviceInput.value;
      var newVideoDevice := SelectNewVideoDevice(devices, PreferredPosition(current.position), PreferredDeviceType(current.position));
      if newVideoDevice.Some? && !inputCreationThrows {
        sessionInputs := sessionInputs - {current};
        if canAddNewInput {
          sessionInputs := sessionInputs + {newVideoDevice.value};
          videoDeviceInput := newVideoDevice;
        } else {
          sessionInputs := sessionInputs + {current};
        }
      }
      isCameraButtonDisabled := false;
    }

    /**
     * `capturePhoto`: refused only after a failed configuration (a missing
     * authorization does not stop it). Otherwise the button is disabled and
     * the new delegate is filed under `uniqueID`, its settings' id.
     */
    method CapturePhoto(uniqueID: int64)
      requires Valid()
      // past the guard, the source force-unwraps `videoDeviceInput` for its flash check
      requires setupResult != ConfigurationFailed ==> videoDeviceInput.Some?
      modifies this
      ensures Valid()
      ensures old(setupResult) == ConfigurationFailed ==>
                Ui() == old(Ui()) && inProgressPhotoCaptureDelegates == old(inProgressPhotoCaptureDelegates)
      ensures old(setupResult) != ConfigurationFailed ==>
                Ui() == old(Ui()).(isCameraButtonDisabled := true)
                && inProgressPhotoCaptureDelegates == old(inProgressPhotoCaptureDelegates)[uniqueID := PhotoCaptureProcessor(uniqueID)]
      ensures Session() == old(Session()) && photo == old(photo)
    {
      if setupResult != ConfigurationFailed {
        isCameraButtonDisabled := true;
        var photoCaptureProcessor := PhotoCaptureProcessor(uniqueID);
        inProgressPhotoCaptureDelegates :=
          inProgressPhotoCaptureDelegates[photoCaptureProcessor.uniqueID := photoCaptureProcessor];
      }
    }

    /**
     * The capture's completion handler: keeps the photo when data arrived,
     * re-enables the button and drops exactly that capture's delegate.
     */
    method CompletePhotoCapture(processor: PhotoCaptureProcessor, photoData: Option<seq<bv8>>)
      requires Valid()
      modifies this
      ensures Valid()
      ensures photo == if photoData.Some? then Some(Photo(photoData.value)) else old(photo)
      ensures Ui() == old(Ui()).(isCameraButtonDisabled := false)
      ensures inProgressPhotoCaptureDelegates == old(inProgressPhotoCaptureDelegates) - {processor.uniqueID}
      ensures Session() == old(Session())
    {
      if photoData.Some? {
        photo := Some(Photo(photoData.value));
      }
      isCameraButtonDisabled := false;
      inProgressPhotoCaptureDelegates := inProgressPhotoCaptureDelegates - {processor.uniqueID};
    }
  }

  /** A capture whose id was not in flight, once completed, leaves the map as it was. */
  lemma CaptureThenCompleteRestores(delegates: map<int64, PhotoCaptureProcessor>, id: int64)
    requires id !in delegates
    ensures delegates[id := PhotoCaptureProcessor(id)] - {id} == delegates
  {
  }

  /**
   * A denied (or restricted) access, followed by `configureSession` and
   * `start`, never configures or starts the session, whatever the hardware
   * would answer: the setup result is not-authorized, the session keeps its
   * configured and running flags and its input, and the alert is up with the
   * button and camera disabled. The alert is the access alert, unless the
   * session had been configured earlier and is not running, in which case
   * `start` replaces it with the error alert.
   */
  method DeniedAccessBlocksConfiguration(camera: CameraService, status: AuthorizationStatus, outcome: ConfigurationOutcome)
    requires camera.Valid()
    requires status !in {Authorized, NotDetermined}
    modifies camera
    ensures camera.Valid()
    ensures camera.setupResult == NotAuthorized
    ensures camera.isConfigured == old(camera.isConfigured) && camera.isSessionRunning == old(camera.isSessionRunning)
    ensures camera.videoDeviceInput == old(camera.videoDeviceInput) && camera.sessionInputs == old(camera.sessionInputs)
    ensures camera.shouldShowAlertView && camera.isCameraButtonDisabled && camera.isCameraUnavailable
    ensures camera.alertError == if old(camera.isConfigured && !camera.isSessionRunning) then CameraErrorAlert else CameraAccessAlert
  {
    camera.CheckForPermissions(status, false);
    camera.ConfigureSession(outcome);
    camera.Start(outcome.runningAfterStart);
  }
}
