/**
 * The custom navigation stack: a last-in-first-out stack of screens, a view
 * model that records the kind of the last navigation and keeps the current
 * screen equal to the top of the stack, and the view that shows either the
 * root content or the current screen.
 *
 * Screen contents (`AnyView`) and transitions (`AnyTransition`) are opaque
 * handles; the screen id, a generated UUID string in the source, is passed in.
 */
module NavigationStack {
  import opened Wrappers

  /** An opaque SwiftUI view. */
  datatype AnyView = AnyView(handle: nat)

  /** An opaque SwiftUI transition; `Identity` is `AnyTransition.identity`. */
  datatype AnyTransition = Identity | Custom(handle: nat)

  datatype NavigationType = Push | Pop

  datatype PopDestination = Previous | Root

  datatype NavigationTransition = NoTransition | CustomTransition(push: AnyTransition, pop: AnyTransition)

  datatype Screen = Screen(id: string, nextScreen: AnyView)

  /** Swift's `==` on screens: only the ids are compared. */
  function SameScreen(lhs: Screen, rhs: Screen): (r: bool)
    ensures lhs == rhs ==> r
    ensures lhs.nextScreen == rhs.nextScreen ==> (r <==> lhs == rhs)
  {
    lhs.id == rhs.id
  }

  /** Two screens with the same id are equal, whatever views they hold. */
  lemma SameScreenIgnoresView(id: string, v: AnyView, w: AnyView)
    ensures SameScreen(Screen(id, v), Screen(id, w))
    ensures v != w ==> Screen(id, v) != Screen(id, w)
  {
  }

  /** `==` on screens is an equivalence relation. */
  lemma SameScreenIsEquivalence(a: Screen, b: Screen, c: Screen)
    ensures SameScreen(a, a)
    ensures SameScreen(a, b) ==> SameScreen(b, a)
    ensures SameScreen(a, b) && SameScreen(b, c) ==> SameScreen(a, c)
  {
  }

  /** `s.last`: the last element, or none for an empty sequence. */
  function Last<T>(s: seq<T>): (r: Option<T>)
    ensures r.None? <==> s == []
    ensures r.Some? ==> r.value == s[|s| - 1]
  {
    if s == [] then None else Some(s[|s| - 1])
  }

  /** What `popLast` leaves behind: the sequence without its last element; empty stays empty. */
  function DropLast<T>(s: seq<T>): (r: seq<T>)
    ensures s == [] ==> r == []
    ensures s != [] ==> r + [s[|s| - 1]] == s
  {
    if s == [] then [] else s[..|s| - 1]
  }

  /** Pushing and then popping to the previous screen restores the stack. */
  lemma PushThenPopRestores<T>(s: seq<T>, x: T)
    ensures DropLast(s + [x]) == s
  {
  }

  /** `ScreenStack`: the stack of screens pushed above the root content. */
  class ScreenStack {
    var screens: seq<Screen>

    constructor ()
      ensures screens == []
    {
      screens := [];
    }

    /** `top()`: the most recently pushed screen still on the stack, or none. */
    function Top(): (r: Option<Screen>)
      reads this
      ensures r.None? <==> screens == []
      ensures r.Some? ==> r.value == screens[|screens| - 1]
    {
      Last(screens)
    }

    method Push(s: Screen)
      modifies this
      ensures screens == old(screens) + [s]
      ensures Top() == Some(s)
    {
      screens := screens + [s];
    }

    /** On an empty stack `popLast` returns nil and nothing changes. */
    method PopToPrevious()
      modifies this
      ensures screens == DropLast(old(screens))
      ensures old(screens) == [] ==> screens == []
      ensures old(screens) != [] ==> |screens| == |old(screens)| - 1
    {
      screens := DropLast(screens);
    }

    method PopToRoot()
      modifies this
      ensures screens == []
      ensures Top() == None
    {
      screens := [];
    }
  }

  /** `NavigationControllerViewModel` (the easing animation is left out). */
  class NavigationControllerViewModel {
    var navigationType: NavigationType
    var currentScreen: Option<Screen>
    const screenStack: ScreenStack

    /** The `didSet` on `screenStack` keeps `currentScreen` equal to its top. */
    ghost predicate Valid()
      reads this, screenStack
      ensures Valid() ==> (currentScreen.None? <==> screenStack.screens == [])
    {
      currentScreen == screenStack.Top()
    }

    constructor ()
      ensures Valid() && fresh(screenStack)
      ensures navigationType == NavigationType.Push && screenStack.screens == [] && currentScreen == None
    {
      navigationType := NavigationType.Push;
      screenStack := new ScreenStack();
      currentScreen := None;
    }

    /** `push(_:)`: `id` is the freshly generated UUID string. */
    method Push(screenView: AnyView, id: string)
      requires Valid()
      modifies this, screenStack
      ensures Valid()
      ensures navigationType == NavigationType.Push
      ensures screenStack.screens == old(screenStack.screens) + [Screen(id, screenView)]
      ensures currentScreen == Some(Screen(id, screenView))
    {
      navigationType := NavigationType.Push;
      var screen := Screen(id, screenView);
      screenStack.Push(screen);
      currentScreen := screenStack.Top();
    }

    /** `pop(to:)`; Swift's default argument is `Previous`. */
    method Pop(to: PopDestination)
      requires Valid()
      modifies this, screenStack
      ensures Valid()
      ensures navigationType == NavigationType.Pop
      ensures to == Root ==> screenStack.screens == [] && currentScreen == None
      ensures to == Previous ==> screenStack.screens == DropLast(old(screenStack.screens))
    {
      navigationType := NavigationType.Pop;
      match to {
        case Root => screenStack.PopToRoot();
        case Previous => screenStack.PopToPrevious();
      }
      currentScreen := screenStack.Top();
    }
  }

  /** What `NavigationControllerView.body` shows, with the transition applied. */
  datatype Displayed = RootContent(transition: AnyTransition) | TopScreen(view: AnyView, transition: AnyTransition)

  /** The `(push, pop)` transition pair chosen in the view's initializer. */
  function TransitionPair(t: NavigationTransition): (r: (AnyTransition, AnyTransition))
    ensures t.NoTransition? ==> r == (Identity, Identity)
    ensures t.CustomTransition? ==> r == (t.push, t.pop)
  {
    match t
    case NoTransition => (Identity, Identity)
    case CustomTransition(push, pop) => (push, pop)
  }

  /**
   * `body`: the root content exactly when the stack is empty, otherwise the
   * top screen's view; the push transition after a push, the pop transition
   * after a pop.
   */
  function Body(viewModel: NavigationControllerViewModel, t: NavigationTransition): (d: Displayed)
    reads viewModel, viewModel.screenStack
    requires viewModel.Valid()
    ensures d.RootContent? <==> viewModel.screenStack.screens == []
    ensures d.TopScreen? ==> d.view == viewModel.screenStack.screens[|viewModel.screenStack.screens| - 1].nextScreen
    ensures d.transition == if viewModel.navigationType == NavigationType.Push then TransitionPair(t).0 else TransitionPair(t).1
  {
    var transition := if viewModel.navigationType == NavigationType.Push then TransitionPair(t).0 else TransitionPair(t).1;
    match viewModel.currentScreen
    case None => RootContent(transition)
    case Some(screen) => TopScreen(screen.nextScreen, transition)
  }

  /**
   * From any state, a push followed by a pop to the previous screen shows the
   * pushed view with the push transition and then restores the stack and the
   * current screen, shown with the pop transition.
   */
  method PushThenPopRestoresView(viewModel: NavigationControllerViewModel, view: AnyView, id: string, t: NavigationTransition)
    returns (pushed: Displayed, popped: Displayed)
    requires viewModel.Valid()
    modifies viewModel, viewModel.screenStack
    ensures viewModel.Valid()
    ensures pushed == TopScreen(view, TransitionPair(t).0)
    ensures viewModel.screenStack.screens == old(viewModel.screenStack.screens)
    ensures viewModel.currentScreen == old(viewModel.currentScreen)
    ensures popped.RootContent? <==> old(viewModel.screenStack.screens) == []
    ensures popped.TopScreen? ==> popped.view == old(viewModel.currentScreen).value.nextScreen
    ensures popped.transition == TransitionPair(t).1
  {
    viewModel.Push(view, id);
    pushed := Body(viewModel, t);
    viewModel.Pop(Previous);
    popped := Body(viewModel, t);
  }
}
