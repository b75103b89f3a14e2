/**
 Properties of the crossfade carousel's steps: the invariant every event
 keeps, the contract of changeImage and of its completion, pausing and the
 restartable cooldown, the auto-advance tick, opening and closing, and the
 runs that show the stale keyboard index and the uncancelled completions.
 */
module CarouselLemmas {
  import opened Content
  import opened Gallery
  import opened CarouselSteps
  import MockClient

  lemma InitialIsValid()
    ensures Valid(Initial())
    ensures !Initial().isOpen && Initial().completions == [] && Initial().pauseTimeout == None
  {
  }

  /** Every event keeps the invariant. */
  lemma StepPreservesValid(s: CarouselState, e: Event)
    requires Valid(s)
    ensures Valid(Step(s, e))
  {
  }

  /** Every sequence of events from a valid state ends in a valid state. */
  lemma {:induction false} RunPreservesValid(s: CarouselState, events: seq<Event>)
    requires Valid(s)
    ensures Valid(Run(s, events))
    decreases |events|
  {
    if events != [] {
      StepPreservesValid(s, events[0]);
      RunPreservesValid(Step(s, events[0]), events[1..]);
    }
  }

  /** changeImage changes the state exactly when the target differs and nothing is pending. */
  lemma ChangeImageGuard(s: CarouselState, newIndex: nat)
    ensures ChangeImage(s, newIndex) != s <==> newIndex != s.currentImageIndex && s.nextImageIndex.None?
    ensures ChangeImage(s, newIndex).currentImageIndex == s.currentImageIndex
  {
  }

  /** An accepted request, once its completion fires, makes the target current and clears the pending target. */
  lemma AcceptedTransitionCommits(s: CarouselState, newIndex: nat)
    requires s.completions == [] && s.nextImageIndex.None? && newIndex != s.currentImageIndex
    ensures ChangeImage(s, newIndex).nextImageIndex == Some(newIndex)
    ensures CompleteTransition(ChangeImage(s, newIndex)) == s.(currentImageIndex := newIndex)
  {
  }

  /** A manual action that is on offer. */
  predicate ManualAction(s: CarouselState, e: Event) {
    match e
    case KeyLeft => s.isOpen
    case KeyRight => s.isOpen
    case ClickPrev => NavigationShown(s)
    case ClickNext => NavigationShown(s)
    case ClickDot(k) => NavigationShown(s) && k < |ImagesOf(s)|
    case _ => false
  }

  /**
   Every manual action pauses and arms a fresh cooldown, even when
   changeImage then drops the request; its only other effect is that request.
   */
  lemma ManualActionPauses(s: CarouselState, e: Event)
    requires ManualAction(s, e)
    ensures Step(s, e).isPaused
    ensures Step(s, e).pauseTimeout == Some(s.timersIssued)
    ensures Step(s, e).currentImageIndex == s.currentImageIndex
    ensures s.nextImageIndex.Some? ==> Step(s, e) == PauseAutoScroll(s)
  {
  }

  /** Arming a cooldown cancels every earlier one: their expiry no longer does anything. */
  lemma PauseCancelsEarlierCooldowns(s: CarouselState, id: nat)
    requires Valid(s)
    requires id < s.timersIssued
    ensures CooldownExpired(PauseAutoScroll(s), id) == PauseAutoScroll(s)
  {
  }

  /** While paused, a cooldown expiry ends the pause exactly when it is the armed one. */
  lemma OnlyArmedCooldownUnpauses(s: CarouselState, id: nat)
    requires s.isPaused
    ensures !CooldownExpired(s, id).isPaused <==> s.pauseTimeout == Some(id)
  {
  }

  /**
   Over every event: a pause ends only by the armed cooldown's expiry or by
   the reset of a (re)opening on a changed prop, which ends it without any
   cooldown.
   */
  lemma PauseEndsOnlyByArmedCooldownOrReset(s: CarouselState, e: Event)
    ensures s.isPaused && !Step(s, e).isPaused ==>
      (e.CooldownDone? && s.pauseTimeout == Some(e.id)) || e.OpenOn?
    ensures s.isPaused && e.OpenOn? && (!s.isOpen || s.realisation != Some(e.r)) ==>
      !Step(s, e).isPaused
  {
  }

  /** Two pauses in a row: the first cooldown is dead, the second one ends the pause. */
  lemma PauseRestartsCooldown(s: CarouselState)
    ensures var t := PauseAutoScroll(PauseAutoScroll(s));
      && CooldownExpired(t, s.timersIssued) == t
      && !CooldownExpired(t, s.timersIssued + 1).isPaused
  {
  }

  /** The tick does nothing when the interval is off or a crossfade is pending. */
  lemma TickIdle(s: CarouselState)
    requires !s.isOpen || |ImagesOf(s)| <= 1 || s.isPaused || s.nextImageIndex.Some?
    ensures Tick(s) == s
  {
  }

  /** Otherwise it requests the next image modulo the count, without pausing. */
  lemma TickRequestsSuccessor(s: CarouselState)
    requires AutoAdvancing(s) && s.nextImageIndex.None?
    requires s.currentImageIndex < |ImagesOf(s)|
    ensures Tick(s).nextImageIndex == Some((s.currentImageIndex + 1) % |ImagesOf(s)|)
    ensures Tick(s).completions == s.completions + [(s.currentImageIndex + 1) % |ImagesOf(s)|]
    ensures Tick(s).isPaused == s.isPaused && Tick(s).pauseTimeout == s.pauseTimeout
  {
  }

  /**
   Opening a closed modal, or switching an open one to another realisation,
   shows image 0, not paused, nothing pending, but keeps the scheduled
   completions and the armed cooldown, and the keydown handler captures the
   index from before the reset.
   */
  lemma OpenResets(s: CarouselState, r: Realisation)
    requires !s.isOpen || s.realisation != Some(r)
    ensures var t := Open(s, r);
      && t.isOpen && t.realisation == Some(r)
      && t.currentImageIndex == 0 && t.nextImageIndex == None && !t.isPaused
      && t.completions == s.completions && t.pauseTimeout == s.pauseTimeout
      && t.fullRealisation == s.fullRealisation
      && t.keyHandlerIndex == s.currentImageIndex
  {
  }

  /**
   Closing stops the interval and the keys, and nothing else: the completions
   and the cooldown stay armed and still change the hidden state.
   */
  lemma CloseKeepsTimers(s: CarouselState)
    ensures var t := Close(s);
      && !t.isOpen
      && t.completions == s.completions && t.pauseTimeout == s.pauseTimeout
      && t.isPaused == s.isPaused && t.nextImageIndex == s.nextImageIndex
      && Tick(t) == t && ArrowLeft(t) == t && ArrowRight(t) == t
      && (s.completions != [] ==> CompleteTransition(t).currentImageIndex == s.completions[0])
  {
  }

  /** The validity effect sends an index past the end to 0, not to the last image. */
  lemma RevalidateResetsToZero(s: CarouselState)
    ensures |ImagesOf(s)| > 0 && s.currentImageIndex >= |ImagesOf(s)| ==>
      Revalidate(s).currentImageIndex == 0
    ensures |ImagesOf(s)| > 0 ==> Revalidate(s).currentImageIndex < |ImagesOf(s)|
    ensures s.currentImageIndex < |ImagesOf(s)| ==> Revalidate(s) == s
  {
  }

  /** Navigation, timers and the validity effect never re-register the keydown handler. */
  lemma NavigationKeepsKeyHandlerIndex(s: CarouselState, e: Event)
    requires !e.OpenOn? && !e.CloseModal? && !e.ContentDone?
    ensures Step(s, e).keyHandlerIndex == s.keyHandlerIndex
    ensures ImagesOf(Step(s, e)) == ImagesOf(s)
  {
  }

  /**
   What an answer to the full-content request shows: a found record takes
   over from the prop, a null answer or a failure leaves the prop on screen;
   the keydown handler is registered again exactly when the number of images
   changed, capturing the current index; nothing else changes.
   */
  lemma ContentArrivedDisplays(s: CarouselState, outcome: LoadOutcome)
    ensures var t := ContentArrived(s, outcome);
      && (outcome.Loaded? && outcome.found.Some? ==> DisplayRealisation(t) == outcome.found)
      && (outcome.Loaded? && outcome.found.None? ==> DisplayRealisation(t) == s.realisation)
      && (outcome.LoadFailed? ==> DisplayRealisation(t) == s.realisation)
      && t.keyHandlerIndex ==
           (if |ImagesOf(t)| != |ImagesOf(s)| then s.currentImageIndex else s.keyHandlerIndex)
      && t.(fullRealisation := s.fullRealisation, keyHandlerIndex := s.keyHandlerIndex) == s
  {
  }

  /**
   With nothing in flight, "→", each waited to completion, comes
   back to the image it started from.
   */
  lemma ButtonsNextThenPrev(s: CarouselState)
    requires NavigationShown(s) && s.nextImageIndex.None? && s.completions == []
    ensures var n := |ImagesOf(s)|;
      var t := CompleteTransition(NextButton(s));
      && t.currentImageIndex == Next(s.currentImageIndex, n)
      && NavigationShown(t)
      && CompleteTransition(PrevButton(t)).currentImageIndex == s.currentImageIndex
  {
  }

  /** A realisation with three images: a featured image and two gallery photos. */
  function ThreeImages(): (r: Realisation)
    ensures |AllImages(Some(r))| == 3
  {
    Realisation(None, "Terrasse", None, None, "2024-03-15", None, None,
                Some("/a.jpg"), Some([GalleryItem("/b.jpg", "b"), GalleryItem("/c.jpg", "c")]),
                None, true, None)
  }

  /**
   The keydown handler keeps the index it captured when the modal opened,
   so two "ArrowRight" presses, each waited to completion, move one image
   where two "→" clicks move two.
   */
  lemma ArrowKeysUseStaleIndex()
    ensures var s := Open(Initial(), ThreeImages());
      && CompleteTransition(ArrowRight(CompleteTransition(ArrowRight(s)))).currentImageIndex == 1
      && CompleteTransition(NextButton(CompleteTransition(NextButton(s)))).currentImageIndex == 2
  {
  }

  /**
   Reopening does not cancel a scheduled completion: after open, "→",
   close, open, dot 2, two completions are in flight for one pending
   target, and the stale one clears the pending target and shows image 1.
   */
  lemma ReopenLeavesStaleCompletion()
    ensures var s := DotClick(Open(Close(NextButton(Open(Initial(), ThreeImages()))), ThreeImages()), 2);
      && s.nextImageIndex == Some(2)
      && s.completions == [1, 2]
      && CompleteTransition(s).nextImageIndex == None
      && CompleteTransition(s).currentImageIndex == 1
  {
  }

  /**
   Two clicks on dot 1 within the crossfade: the second is dropped, and the
   completion lands on image 1.
   */
  lemma DoubleRequestWithinCrossfade()
    ensures var s := Open(Initial(), ThreeImages());
      var t := DotClick(DotClick(s, 1), 1);
      && t.completions == [1]
      && CompleteTransition(t).currentImageIndex == 1
      && CompleteTransition(t).nextImageIndex == None
  {
  }

  /** A realisation with a featured image and no gallery. */
  function OneImage(): (r: Realisation)
    ensures |AllImages(Some(r))| == 1
  {
    Realisation(None, "Muret", None, None, "2024-02-20", None, None, Some("/m.jpg"), None, None, true, None)
  }

  /**
   Targets are not checked against the images of the realisation that is on
   screen when their completion fires: open on three images, dot 2, close,
   open on a one-image realisation, and the uncancelled completion makes
   image 2 current. Only the validity effect brings the index back to 0.
   */
  lemma StaleCompletionLeavesIndexOutOfRange()
    ensures var s := CompleteTransition(Open(Close(DotClick(Open(Initial(), ThreeImages()), 2)), OneImage()));
      && s.isOpen && |ImagesOf(s)| == 1
      && s.currentImageIndex == 2
      && Revalidate(s).currentImageIndex == 0
  {
  }

  /**
   If the content client serves the fixed records of the site's client, the
   full-content request for a listed realisation asks for "<filename>.mdx"
   while the stored names already end in ".mdx": the answer is null and the
   modal keeps showing the prop.
   */
  lemma MockLookupFallsBackToProp(s: CarouselState, i: nat)
    requires i < |MockClient.StaticRealisations()|
    requires s.realisation == Some(MockClient.StaticRealisations()[i])
    ensures FullContentPath(s.realisation).Some?
    ensures MockClient.RealisationQuery(FullContentPath(s.realisation).value) == None
    ensures DisplayRealisation(ContentArrived(s, Loaded(None))) == s.realisation
  {
  }
}
