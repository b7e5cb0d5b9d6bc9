# SwiftDeveloperPackage state logic, in Dafny

This project models the self-contained state logic of a small collection of
iOS helpers. It covers three pieces:

- **The custom navigation stack**. `ScreenStack` is a last-in-first-out stack
  of screens. `NavigationControllerViewModel` pushes onto it and pops from it,
  records whether the last navigation was a push or a pop, and keeps
  `currentScreen` equal to the top of the stack. `NavigationControllerView`
  shows the root content when the stack is empty and the top screen otherwise.
- **The two service locators**. `ServiceLocator` maps a type name to an
  instance. `LazyServiceLocator` maps a type name to a factory that runs on
  every lookup. In both, the first registration under a type name wins; later
  ones are ignored. The module `Registry` states this shared rule once, and
  both classes are specified by it.
- **The camera service's decision logic**. This covers the setup result, the
  configured and running flags, the flags the UI observes, the permission
  outcomes, the configuration, start and stop guards, the device choice when
  switching cameras, and the map of in-flight photo captures.

The files:

- `wrappers.dfy`: Swift's optionals, as `Option`.
- `registry.dfy`: the first-wins registration rule.
- `service_locator.dfy`, `lazy_service_locator.dfy`: the two locator classes.
- `navigation_stack.dfy`: the navigation stack.
- `camera_service.dfy`: the camera service.

The source files change state in place, so the model does too. Each one is a
class with the source's fields, and its methods carry `modifies` clauses. Each
method's `ensures` states its whole new state in terms of the old one.

- `NavigationControllerViewModel.Valid()` is the `didSet` invariant:
  `currentScreen` is always the top of the stack.
- `CameraService.Valid()` is preserved by every operation. It says:
  - a running session has been configured;
  - a configured session has a video input and the photo output;
  - the current video input is always attached to the session;
  - every capture delegate is filed under its own request id.

Framework answers are parameters of the methods. These include the default
devices, whether an input or output can be added, whether the session runs
after `startRunning`/`stopRunning`, the discovered devices, the user's answer
to the access request, and a capture's `uniqueID`. The screen id, a fresh
UUID string in the source, is also a parameter. Swift's generic type
parameter in the locators becomes the type-name string the caller passes.

## Model

| member | source | states |
|---|---|---|
| `NavigationStack.SameScreen` | Sources/SwiftDevPackage/NavigationStack/NavigationStack.swift:10-12 | Swift's `==` on screens compares ids only: equal values are `==`, and between screens holding the same view `==` is value equality |
| `NavigationStack.SameScreenIgnoresView` | Sources/SwiftDevPackage/NavigationStack/NavigationStack.swift:10-12 | Two screens with the same id are equal under `==` even when their views differ, though they are different values |
| `NavigationStack.SameScreenIsEquivalence` | Sources/SwiftDevPackage/NavigationStack/NavigationStack.swift:10-12 | Screen `==` is reflexive, symmetric and transitive |
| `NavigationStack.Last` | Sources/SwiftDevPackage/NavigationStack/NavigationStack.swift:22 | `screens.last`: none exactly for an empty sequence, otherwise its last element |
| `NavigationStack.DropLast` | Sources/SwiftDevPackage/NavigationStack/NavigationStack.swift:29-31 | `popLast` leaves the sequence minus its last element, and an empty sequence stays empty |
| `NavigationStack.PushThenPopRestores` | Sources/SwiftDevPackage/NavigationStack/NavigationStack.swift:25-31 | Appending a screen and then popping the last one restores the previous stack |
| `NavigationStack.ScreenStack.constructor` | Sources/SwiftDevPackage/NavigationStack/NavigationStack.swift:19 | A new stack is empty |
| `NavigationStack.ScreenStack.Top` | Sources/SwiftDevPackage/NavigationStack/NavigationStack.swift:21-23 | `top()` is none exactly when the stack is empty, and otherwise the last screen pushed |
| `NavigationStack.ScreenStack.Push` | Sources/SwiftDevPackage/NavigationStack/NavigationStack.swift:25-27 | The stack becomes the old stack with `s` appended, and `top()` is `s` |
| `NavigationStack.ScreenStack.PopToPrevious` | Sources/SwiftDevPackage/NavigationStack/NavigationStack.swift:29-31 | Removes exactly the last screen; on an empty stack it changes nothing |
| `NavigationStack.ScreenStack.PopToRoot` | Sources/SwiftDevPackage/NavigationStack/NavigationStack.swift:33-35 | The stack is empty afterwards and `top()` is none |
| `NavigationStack.NavigationControllerViewModel.Valid` | Sources/SwiftDevPackage/NavigationStack/NavigationStack.swift:47-51 | The `didSet` invariant: `currentScreen` is the top of the stack, so there is no current screen exactly when the stack is empty |
| `NavigationStack.NavigationControllerViewModel.constructor` | Sources/SwiftDevPackage/NavigationStack/NavigationStack.swift:43-55 | Starts with the push navigation type, an empty stack and no current screen |
| `NavigationStack.NavigationControllerViewModel.Push` | Sources/SwiftDevPackage/NavigationStack/NavigationStack.swift:57-63 | Sets the navigation type to push and appends a screen with the given id and view, which becomes the current screen; the current screen stays the top |
| `NavigationStack.NavigationControllerViewModel.Pop` | Sources/SwiftDevPackage/NavigationStack/NavigationStack.swift:65-75 | Sets the navigation type to pop; `Root` empties the stack and clears the current screen; `Previous` removes only the last screen; the current screen stays the top |
| `NavigationStack.TransitionPair` | Sources/SwiftDevPackage/NavigationStack/NavigationStack.swift:95-100 | No transition means identity for both push and pop; a custom transition supplies both |
| `NavigationStack.Body` | Sources/SwiftDevPackage/NavigationStack/NavigationStack.swift:103-116 | The root content is shown exactly when the stack is empty, otherwise the top screen's view; the push transition follows a push and the pop transition a pop |
| `NavigationStack.PushThenPopRestoresView` | Sources/SwiftDevPackage/NavigationStack/NavigationStack.swift:57-116 | From any valid state, a push shows the pushed view with the push transition; popping back restores the stack and the current screen, and shows the root content exactly when the stack was empty before, with the pop transition |
| `Registry.Register` | Sources/iOSDevPackage/DependencyInjection/ServiceLocator.swift:14-19 | A registration stores the value under a fresh key, leaves the map unchanged when the key is taken, and never changes or adds any other key |
| `Registry.Lookup` | Sources/iOSDevPackage/DependencyInjection/ServiceLocator.swift:10-12 | A lookup yields the stored entry, and none exactly when the key is absent |
| `Registry.RegisterTwice` | Sources/iOSDevPackage/DependencyInjection/ServiceLocator.swift:16-18 | A second registration under the same key has no effect |
| `Registry.RegisterIsolated` | Sources/iOSDevPackage/DependencyInjection/ServiceLocator.swift:17 | Registering under one key does not change the lookup of any other key |
| `Registry.RegisterAllFirstWins` | Sources/iOSDevPackage/DependencyInjection/ServiceLocator.swift:14-19 | After any sequence of registrations, a key already present keeps its entry, and a fresh key holds its first registration's value, or is absent if never registered |
| `EagerLocator.ServiceLocator.constructor` | Sources/iOSDevPackage/DependencyInjection/ServiceLocator.swift:4-8 | The locator starts with no services |
| `EagerLocator.ServiceLocator.GetDependency` | Sources/iOSDevPackage/DependencyInjection/ServiceLocator.swift:10-12 | Returns the instance stored under the type name, and none exactly when nothing is registered there; it reads and never writes the map |
| `EagerLocator.ServiceLocator.AddDependency` | Sources/iOSDevPackage/DependencyInjection/ServiceLocator.swift:14-19 | Follows `Register` (first wins); afterwards the lookup yields the earlier instance if there was one, else the new one; other type names look up as before |
| `EagerLocator.AddTwiceKeepsFirst` | Sources/iOSDevPackage/DependencyInjection/ServiceLocator.swift:10-19 | From any state, two registrations under one type name leave the lookup at the earlier instance if there was one, else at the first of the two; other type names look up as before |
| `LazyLocator.LazyServiceLocator.constructor` | Sources/DependencyInjection/LazyServiceLocator.swift:4-8 | The locator starts with no factories and no factory calls |
| `LazyLocator.LazyServiceLocator.GetDependency` | Sources/DependencyInjection/LazyServiceLocator.swift:10-13 | Returns none, calling nothing, when no factory is registered; otherwise calls the stored factory once per lookup and returns its result; the map is unchanged |
| `LazyLocator.LazyServiceLocator.AddDependency` | Sources/DependencyInjection/LazyServiceLocator.swift:15-20 | Stores the factory only under a fresh type name, keeps every other entry, and calls no factory |
| `LazyLocator.AddTwiceThenLookUpTwice` | Sources/DependencyInjection/LazyServiceLocator.swift:10-20 | From any state, two registrations under one type name keep the earlier factory, else the first of the two; two lookups each run that factory, so two calls are logged (nothing is cached) |
| `Camera.DefaultVideoDevice` | Sources/iOSDevPackage/Services/Camera/CameraService.swift:105-116 | Configuration uses the back wide-angle camera when present, else the front one |
| `Camera.PreferredPosition` | Sources/iOSDevPackage/Services/Camera/CameraService.swift:238-252 | Switching goes to the front camera exactly when the current one is on the back, and to the back camera in every other case, an unknown position included |
| `Camera.PreferredDeviceType` | Sources/iOSDevPackage/Services/Camera/CameraService.swift:238-252 | Every branch of the position switch prefers the built-in wide-angle camera |
| `Camera.Fits` | Sources/iOSDevPackage/Services/Camera/CameraService.swift:258-260 | The two `first(where:)` closures: position and type when a type is given, position alone otherwise |
| `Camera.FirstFit` | Sources/iOSDevPackage/Services/Camera/CameraService.swift:257-262 | `first(where:)`: the index of the first device with the position (and type, when given), or none when no device fits |
| `Camera.SelectNewVideoDevice` | Sources/iOSDevPackage/Services/Camera/CameraService.swift:254-262 | The first device with both the preferred position and type; failing that, the first with the position; none exactly when no device has the position |
| `Camera.CameraService.constructor` | Sources/iOSDevPackage/Services/Camera/CameraService.swift:10-30 | The initial state: setup result success, not configured, not running, button disabled, camera unavailable, no alert, no captures in flight |
| `Camera.CameraService.CheckForPermissions` | Sources/iOSDevPackage/Services/Camera/CameraService.swift:48-93 | Authorized changes nothing. Not-determined sets not-authorized exactly when access is refused. Denied or restricted sets not-authorized, shows the access alert, and disables the button and the camera |
| `Camera.CameraService.ConfigureSession` | Sources/iOSDevPackage/Services/Camera/CameraService.swift:32-153 | Does nothing unless setup is success. Any failing framework call sets configuration-failed and leaves the configured and running flags as they were. When all succeed, it attaches the default device and the photo output, marks the session configured, and runs `start` |
| `Camera.CameraService.Start` | Sources/iOSDevPackage/Services/Camera/CameraService.swift:155-190 | Acts only on a configured session that is not running. With setup success, the running flag follows the session, and the button and camera become available exactly when it runs. Otherwise it shows the error alert and disables the button and camera |
| `Camera.CameraService.Stop` | Sources/iOSDevPackage/Services/Camera/CameraService.swift:192-210 | Acts only on a running session with setup success. When the session has stopped, it disables the button and camera; the completion is called exactly then |
| `Camera.CameraService.SwitchCamera` | Sources/iOSDevPackage/Services/Camera/CameraService.swift:228-299 | Replaces the session's input with the selected device when it can be added. When it cannot, it puts the old input back and keeps `videoDeviceInput`. Without a device, or when input creation throws, nothing changes. The button always ends enabled |
| `Camera.CameraService.CapturePhoto` | Sources/iOSDevPackage/Services/Camera/CameraService.swift:301-358 | Nothing happens after a failed configuration. Otherwise, not-authorized included, it disables the button and files the new delegate under its id; past that guard it requires a video input, which the source force-unwraps |
| `Camera.CameraService.CompletePhotoCapture` | Sources/iOSDevPackage/Services/Camera/CameraService.swift:340-348 | Keeps the photo when data arrived, re-enables the button, and removes exactly that capture's delegate |
| `Camera.CaptureThenCompleteRestores` | Sources/iOSDevPackage/Services/Camera/CameraService.swift:345-354 | A capture under a fresh id followed by its completion leaves the delegate map as it was |
| `Camera.DeniedAccessBlocksConfiguration` | Sources/iOSDevPackage/Services/Camera/CameraService.swift:68-187 | From any valid state, denied or restricted access followed by configuring and starting never configures or starts the session, whatever the hardware answers. The setup result is not-authorized, the alert is up, and the button and camera are disabled. The alert is the access alert, unless an earlier configuration left the session stopped, in which case `start` shows the error alert |

## Left out

- Animation (`withAnimation`, the easing value, transitions as visual effects) and the contents of `AnyView`/`AnyTransition`: these are opaque handles here.
- UUID generation: the screen id is a parameter of `NavigationControllerViewModel.Push`. The model does not assume it is fresh, and nothing in the stack depends on that.
- `NavigationStack.ScreenStack`: in the source it is a value type (a struct), so there is no aliasing. Here it is an object that only the view model holds, and the view model's constructor makes it fresh.
- Swift generics and the `as? T` cast in both locators. The key is the type-name string, and values are opaque. The model does not capture the case where two types share a name and the cast then fails.
- LazyLocator.LazyServiceLocator.GetDependency: factories are pure, total functions here, so two calls of one factory give equal results. The identity of a Swift factory's result and any effects of the factory are not modelled: a new instance on every call shows up only as one more entry in the `invocations` log.
- The `shared` singletons of the locators: each locator here is an object made by its constructor.
- Concurrency: the session queue, `suspend`/`resume` around the access request, the main-thread hops and `asyncAfter`. Each operation runs to completion in sequence. The nested `start()` at the end of a successful `configureSession` runs right after it.
- Every AVFoundation call (`beginConfiguration`/`commitConfiguration`, `startRunning`/`stopRunning`, device discovery, the session preset, photo-output settings, video stabilisation, orientation): the model keeps only their outcomes, as parameters.
- `capturePhoto`'s photo settings: HEVC codec, flash mode, high resolution, preview pixel format and quality.
- Camera.CameraService.CapturePhoto: the model requires a current video input past the configuration-failed guard, because the flash check in the source force-unwraps `videoDeviceInput`. Capturing with no input, for example after access was denied before configuration, would trap; the model does not describe that trap.
- The capture delegate's callbacks other than completion (the shutter animation toggle and the processing spinner), and `uniformTypeIdentifier` of the photo.
- `Camera.CameraService.SwitchCamera`: the model requires a current video input, because the source force-unwraps `videoDeviceInput`. Calling it before configuration would trap.
- The alert texts and actions: `alertError` is modelled as which of the two alerts was set.
- `set(zoom:)`: a floating-point clamp and a device lock.
- The speech recognizer, the photo capture processor's delegate callbacks, photo storage, image resizing, the text-field alert and the camera view model: framework plumbing outside this model.
