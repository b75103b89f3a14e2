/**
 The portfolio modal with crossfade and auto-advance, as a state machine.
 Timers are events: the 300 ms crossfade completion, the 3000 ms
 auto-advance tick and the 5000 ms pause cooldown each become a step
 function, and the state records which timers are still armed.
 */
module CarouselSteps {
  import opened Content
  import opened Gallery

  /** The answer to the request for a realisation's full content. */
  datatype LoadOutcome = Loaded(found: Option<Realisation>) | LoadFailed

  /**
   The modal's state cells and props, with the two kinds of timers that
   outlive the call that armed them:
   - `pauseTimeout`: the id of the armed cooldown timer, the one that
     `pauseTimeoutRef` holds; `timersIssued` numbers the cooldown timers;
   - `completions`: the targets of the 300 ms completions still to fire,
     in the order they were scheduled (all have the same delay);
   - `keyHandlerIndex`: the image index captured by the keydown handler
     that is currently registered.
   */
  datatype CarouselState = CarouselState(
    isOpen: bool,
    realisation: Option<Realisation>,
    fullRealisation: Option<Realisation>,
    currentImageIndex: nat,
    nextImageIndex: Option<nat>,
    isPaused: bool,
    pauseTimeout: Option<nat>,
    timersIssued: nat,
    completions: seq<nat>,
    keyHandlerIndex: nat)

  /** The state of a freshly mounted, closed modal. */
  function Initial(): CarouselState {
    CarouselState(false, None, None, 0, None, false, None, 0, [], 0)
  }

  /** The loaded full content when there is some, the realisation prop otherwise. */
  function DisplayRealisation(s: CarouselState): (d: Option<Realisation>)
    ensures s.fullRealisation.Some? ==> d == s.fullRealisation
    ensures s.fullRealisation.None? ==> d == s.realisation
    ensures d.None? <==> s.fullRealisation.None? && s.realisation.None?
  {
    if s.fullRealisation.Some? then s.fullRealisation else s.realisation
  }

  function ImagesOf(s: CarouselState): seq<GalleryItem> {
    AllImages(DisplayRealisation(s))
  }

  /** The auto-advance interval exists: open, more than one image, not paused. */
  predicate AutoAdvancing(s: CarouselState) {
    s.isOpen && |ImagesOf(s)| > 1 && !s.isPaused
  }

  /** The arrow buttons and dots are drawn. */
  predicate NavigationShown(s: CarouselState) {
    s.isOpen && s.realisation.Some? && 1 < |ImagesOf(s)| && s.currentImageIndex < |ImagesOf(s)|
  }

  /**
   What every reachable state satisfies: a pause always has an armed
   cooldown that will end it, cooldown ids are ones already issued, and a
   pending crossfade target is the last completion scheduled.
   */
  predicate Valid(s: CarouselState) {
    && (s.isPaused ==> s.pauseTimeout.Some?)
    && (s.pauseTimeout.Some? ==> s.pauseTimeout.value < s.timersIssued)
    && (s.nextImageIndex.Some? ==>
          |s.completions| > 0 && s.completions[|s.completions| - 1] == s.nextImageIndex.value)
  }

  /** pauseAutoScroll: pause, cancel the armed cooldown and arm a new one. */
  function PauseAutoScroll(s: CarouselState): (t: CarouselState) {
    s.(isPaused := true, pauseTimeout := Some(s.timersIssued), timersIssued := s.timersIssued + 1)
  }

  /**
   changeImage: ignored when the target is already current or a crossfade is
   pending; otherwise the target becomes pending and its completion is
   scheduled.
   */
  function ChangeImage(s: CarouselState, newIndex: nat): (t: CarouselState) {
    if newIndex == s.currentImageIndex || s.nextImageIndex.Some? then s
    else s.(nextImageIndex := Some(newIndex), completions := s.completions + [newIndex])
  }

  /** The oldest scheduled 300 ms completion fires: its target becomes current. */
  function CompleteTransition(s: CarouselState): (t: CarouselState) {
    if s.completions == [] then s
    else s.(currentImageIndex := s.completions[0], nextImageIndex := None,
            completions := s.completions[1..])
  }

  /**
   Cooldown timer `id` fires. A cancelled timer never fires, so only the
   armed one has an effect: it ends the pause.
   */
  function CooldownExpired(s: CarouselState, id: nat): (t: CarouselState) {
    if s.pauseTimeout == Some(id) then s.(isPaused := false, pauseTimeout := None) else s
  }

  /** The 3000 ms interval fires: request the next image unless a crossfade is pending. */
  function Tick(s: CarouselState): (t: CarouselState) {
    if !AutoAdvancing(s) || s.nextImageIndex.Some? then s
    else ChangeImage(s, Next(s.currentImageIndex, |ImagesOf(s)|))
  }

  /** Left arrow key: pause, then go back from the index the handler captured. */
  function ArrowLeft(s: CarouselState): (t: CarouselState) {
    if !s.isOpen then s
    else if |ImagesOf(s)| == 0 then PauseAutoScroll(s)
    else ChangeImage(PauseAutoScroll(s), Prev(s.keyHandlerIndex, |ImagesOf(s)|))
  }

  /** Right arrow key: pause, then go forward from the index the handler captured. */
  function ArrowRight(s: CarouselState): (t: CarouselState) {
    if !s.isOpen then s
    else if |ImagesOf(s)| == 0 then PauseAutoScroll(s)
    else ChangeImage(PauseAutoScroll(s), Next(s.keyHandlerIndex, |ImagesOf(s)|))
  }

  /** The "←" button: pause, then go back from the current index. */
  function PrevButton(s: CarouselState): (t: CarouselState) {
    if !NavigationShown(s) then s
    else ChangeImage(PauseAutoScroll(s), Prev(s.currentImageIndex, |ImagesOf(s)|))
  }

  /** The "→" button: pause, then go forward from the current index. */
  function NextButton(s: CarouselState): (t: CarouselState) {
    if !NavigationShown(s) then s
    else ChangeImage(PauseAutoScroll(s), Next(s.currentImageIndex, |ImagesOf(s)|))
  }

  /** The dot for image `k`: pause, then go to `k`. */
  function DotClick(s: CarouselState, k: nat): (t: CarouselState) {
    if !NavigationShown(s) || k >= |ImagesOf(s)| then s
    else ChangeImage(PauseAutoScroll(s), k)
  }

  /**
   New props from the parent. The reset effect runs when a dependency
   changed and the modal is open; it neither cancels completions nor the
   cooldown. A parent render also registers a new keydown handler, which
   captures the index of that render, before the reset lands.
   */
  function SetProps(s: CarouselState, r: Option<Realisation>, open: bool): (t: CarouselState) {
    var changed := open != s.isOpen || r != s.realisation;
    var reset := open && changed;
    s.(isOpen := open, realisation := r,
       currentImageIndex := if reset then 0 else s.currentImageIndex,
       isPaused := if reset then false else s.isPaused,
       nextImageIndex := if reset then None else s.nextImageIndex,
       keyHandlerIndex := if changed then s.currentImageIndex else s.keyHandlerIndex)
  }

  /** The parent opens the modal on `r`. */
  function Open(s: CarouselState, r: Realisation): (t: CarouselState) {
    SetProps(s, Some(r), true)
  }

  /** The parent closes the modal and clears its selection. */
  function Close(s: CarouselState): (t: CarouselState) {
    SetProps(s, None, false)
  }

  /**
   The full content arrives: a found record (or null) replaces the full
   realisation; a failure falls back to the realisation prop. A change in
   the number of images registers a new keydown handler.
   */
  function ContentArrived(s: CarouselState, outcome: LoadOutcome): (t: CarouselState) {
    var full := if outcome.Loaded? then outcome.found else s.realisation;
    var t := s.(fullRealisation := full);
    t.(keyHandlerIndex := if |ImagesOf(t)| != |ImagesOf(s)| then s.currentImageIndex else s.keyHandlerIndex)
  }

  /** The validity effect. */
  function Revalidate(s: CarouselState): (t: CarouselState) {
    s.(currentImageIndex := Revalidated(s.currentImageIndex, |ImagesOf(s)|))
  }

  /** The path the modal asks the content client for: `<filename>.mdx`, when there is a filename. */
  function FullContentPath(r: Option<Realisation>): (path: Option<string>)
    ensures path.Some? <==> r.Some? && r.value.sys.Some? && r.value.sys.value.filename != ""
    ensures path.Some? ==> path.value == r.value.sys.value.filename + ".mdx"
  {
    if r.Some? && r.value.sys.Some? && r.value.sys.value.filename != ""
    then Some(r.value.sys.value.filename + ".mdx")
    else None
  }

  /** Everything that can happen to the modal. */
  datatype Event =
    | OpenOn(r: Realisation)
    | CloseModal
    | KeyLeft
    | KeyRight
    | ClickPrev
    | ClickNext
    | ClickDot(k: nat)
    | IntervalFired
    | TransitionDone
    | CooldownDone(id: nat)
    | ContentDone(outcome: LoadOutcome)
    | IndexChecked

  function Step(s: CarouselState, e: Event): CarouselState {
    match e
    case OpenOn(r) => Open(s, r)
    case CloseModal => Close(s)
    case KeyLeft => ArrowLeft(s)
    case KeyRight => ArrowRight(s)
    case ClickPrev => PrevButton(s)
    case ClickNext => NextButton(s)
    case ClickDot(k) => DotClick(s, k)
    case IntervalFired => Tick(s)
    case TransitionDone => CompleteTransition(s)
    case CooldownDone(id) => CooldownExpired(s, id)
    case ContentDone(o) => ContentArrived(s, o)
    case IndexChecked => Revalidate(s)
  }

  function Run(s: CarouselState, events: seq<Event>): CarouselState
    decreases |events|
  {
    if events == [] then s else Run(Step(s, events[0]), events[1..])
  }
}
