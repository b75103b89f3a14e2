/**
 The portfolio modal with crossfade and auto-advance as an object: each
 React state cell (and ref) is a field, each handler, effect body and timer
 callback a method, and each method's new state is the matching step of
 CarouselSteps applied to the old state.
 */
module CarouselModal {
  import opened Content
  import opened CarouselSteps

  class Modal {
    var isOpen: bool
    var realisation: Option<Realisation>
    var fullRealisation: Option<Realisation>
    var currentImageIndex: nat
    var nextImageIndex: Option<nat>
    var isPaused: bool
    var pauseTimeout: Option<nat>
    var timersIssued: nat
    var completions: seq<nat>
    var keyHandlerIndex: nat

    /** The fields as a value. */
    function State(): CarouselState
      reads this
    {
      CarouselState(isOpen, realisation, fullRealisation, currentImageIndex, nextImageIndex,
                    isPaused, pauseTimeout, timersIssued, completions, keyHandlerIndex)
    }

    function Images(): seq<GalleryItem>
      reads this
    {
      ImagesOf(State())
    }

    constructor ()
      ensures State() == Initial()
      ensures Valid(State())
    {
      isOpen, realisation, fullRealisation := false, None, None;
      currentImageIndex, nextImageIndex, isPaused := 0, None, false;
      pauseTimeout, timersIssued, completions, keyHandlerIndex := None, 0, [], 0;
    }

    /** pauseAutoScroll: cancel the armed cooldown, if any, and arm a fresh one. */
    method PauseAutoScroll()
      requires Valid(State())
      modifies this
      ensures Valid(State())
      ensures State() == CarouselSteps.PauseAutoScroll(old(State()))
      ensures isPaused && pauseTimeout == Some(old(timersIssued))
    {
      isPaused := true;
      pauseTimeout := Some(timersIssued);
      timersIssued := timersIssued + 1;
    }

    /** changeImage: start a crossfade to `newIndex` unless it is current or one is pending. */
    method ChangeImage(newIndex: nat)
      requires Valid(State())
      modifies this
      ensures Valid(State())
      ensures State() == CarouselSteps.ChangeImage(old(State()), newIndex)
      ensures currentImageIndex == old(currentImageIndex)
    {
      if newIndex == currentImageIndex || nextImageIndex.Some? {
        return;
      }
      nextImageIndex := Some(newIndex);
      completions := completions + [newIndex];
    }

    /** The oldest 300 ms completion fires. */
    method CompleteTransition()
      requires Valid(State())
      modifies this
      ensures Valid(State())
      ensures State() == CarouselSteps.CompleteTransition(old(State()))
      ensures old(completions) != [] ==>
        currentImageIndex == old(completions)[0] && nextImageIndex == None
    {
      if completions != [] {
        currentImageIndex := completions[0];
        nextImageIndex := None;
        completions := completions[1..];
      }
    }

    /** Cooldown timer `id` fires. */
    method CooldownExpired(id: nat)
      requires Valid(State())
      modifies this
      ensures Valid(State())
      ensures State() == CarouselSteps.CooldownExpired(old(State()), id)
    {
      if pauseTimeout == Some(id) {
        isPaused := false;
        pauseTimeout := None;
      }
    }

    /** The auto-advance interval fires. */
    method Tick()
      requires Valid(State())
      modifies this
      ensures Valid(State())
      ensures State() == CarouselSteps.Tick(old(State()))
      ensures isPaused == old(isPaused) && pauseTimeout == old(pauseTimeout)
    {
      var n := |Images()|;
      if !(isOpen && n > 1 && !isPaused) {
        return;
      }
      if nextImageIndex.Some? {
        return;
      }
      var next := if currentImageIndex < n - 1 then currentImageIndex + 1 else 0;
      ChangeImage(next);
    }

    /** Keydown "ArrowLeft", computed from the index the registered handler captured. */
    method ArrowLeft()
      requires Valid(State())
      modifies this
      ensures Valid(State())
      ensures State() == CarouselSteps.ArrowLeft(old(State()))
    {
      if !isOpen {
        return;
      }
      var n := |Images()|;
      PauseAutoScroll();
      if n > 0 {
        var newIndex := if keyHandlerIndex > 0 then keyHandlerIndex - 1 else n - 1;
        ChangeImage(newIndex);
      }
    }

    /** Keydown "ArrowRight", computed from the index the registered handler captured. */
    method ArrowRight()
      requires Valid(State())
      modifies this
      ensures Valid(State())
      ensures State() == CarouselSteps.ArrowRight(old(State()))
    {
      if !isOpen {
        return;
      }
      var n := |Images()|;
      PauseAutoScroll();
      if n > 0 {
        var newIndex := if keyHandlerIndex < n - 1 then keyHandlerIndex + 1 else 0;
        ChangeImage(newIndex);
      }
    }

    /** The "←" button, computed from the current index. */
    method PrevButton()
      requires Valid(State())
      modifies this
      ensures Valid(State())
      ensures State() == CarouselSteps.PrevButton(old(State()))
    {
      if !NavigationShown(State()) {
        return;
      }
      var n := |Images()|;
      PauseAutoScroll();
      var newIndex := if currentImageIndex > 0 then currentImageIndex - 1 else n - 1;
      ChangeImage(newIndex);
    }

    /** The "→" button, computed from the current index. */
    method NextButton()
      requires Valid(State())
      modifies this
      ensures Valid(State())
      ensures State() == CarouselSteps.NextButton(old(State()))
    {
      if !NavigationShown(State()) {
        return;
      }
      var n := |Images()|;
      PauseAutoScroll();
      var newIndex := if currentImageIndex < n - 1 then currentImageIndex + 1 else 0;
      ChangeImage(newIndex);
    }

    /** The dot for image `k`. */
    method DotClick(k: nat)
      requires Valid(State())
      modifies this
      ensures Valid(State())
      ensures State() == CarouselSteps.DotClick(old(State()), k)
    {
      if !NavigationShown(State()) || k >= |Images()| {
        return;
      }
      PauseAutoScroll();
      ChangeImage(k);
    }

    /** The parent passes new props; the reset effect and the keydown re-registration follow. */
    method SetProps(r: Option<Realisation>, open: bool)
      requires Valid(State())
      modifies this
      ensures Valid(State())
      ensures State() == CarouselSteps.SetProps(old(State()), r, open)
    {
      var changed := open != isOpen || r != realisation;
      if changed {
        keyHandlerIndex := currentImageIndex;
      }
      isOpen, realisation := open, r;
      if open && changed {
        currentImageIndex := 0;
        isPaused := false;
        nextImageIndex := None;
      }
    }

    /** The parent opens the modal on `r`. */
    method Open(r: Realisation)
      requires Valid(State())
      modifies this
      ensures Valid(State())
      ensures State() == CarouselSteps.Open(old(State()), r)
    {
      SetProps(Some(r), true);
    }

    /** The parent closes the modal; only the auto-advance interval stops. */
    method Close()
      requires Valid(State())
      modifies this
      ensures Valid(State())
      ensures State() == CarouselSteps.Close(old(State()))
    {
      SetProps(None, false);
    }

    /** The full-content request answers. */
    method ContentArrived(outcome: LoadOutcome)
      requires Valid(State())
      modifies this
      ensures Valid(State())
      ensures State() == CarouselSteps.ContentArrived(old(State()), outcome)
    {
      var before := |Images()|;
      fullRealisation := if outcome.Loaded? then outcome.found else realisation;
      if |Images()| != before {
        keyHandlerIndex := currentImageIndex;
      }
    }

    /** The validity effect. */
    method Revalidate()
      requires Valid(State())
      modifies this
      ensures Valid(State())
      ensures State() == CarouselSteps.Revalidate(old(State()))
      ensures |Images()| > 0 ==> currentImageIndex < |Images()|
    {
      var n := |Images()|;
      if n > 0 && currentImageIndex >= n {
        currentImageIndex := 0;
      }
    }
  }
}
