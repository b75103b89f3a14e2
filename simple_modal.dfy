/**
 The earlier portfolio modal: one state cell, the index of the image on
 screen, moved by wraparound updaters from the arrow keys, the arrow buttons
 and the dot indicators. The modal's props (the realisation and whether it
 is open) are fields that Open and Close set, as the portfolio section does.
 */
module SimpleModal {
  import opened Content
  import opened Gallery

  class Modal {
    var isOpen: bool
    var realisation: Option<Realisation>
    var currentImageIndex: nat

    /** The images on offer for the current realisation. */
    function Images(): seq<GalleryItem>
      reads this
    {
      AllImages(realisation)
    }

    /** The modal draws anything at all. */
    predicate Rendered()
      reads this
    {
      isOpen && realisation.Some?
    }

    /** An image is on screen: there are images and the index names one. */
    predicate ImageShown()
      reads this
    {
      Rendered() && |Images()| > 0 && currentImageIndex < |Images()|
    }

    /** The arrow buttons and the dots are drawn only for more than one image. */
    predicate NavigationShown()
      reads this
    {
      ImageShown() && |Images()| > 1
    }

    /** The counter "Image <k> sur <n>": shown for any non-empty sequence. */
    function Counter(): (shown: Option<(nat, nat)>)
      reads this
      ensures shown.Some? <==> Rendered() && |Images()| > 0
      ensures shown.Some? ==> shown.value.0 == currentImageIndex + 1 && shown.value.1 == |Images()|
      ensures shown.Some? ==> (1 <= shown.value.0 <= shown.value.1 <==> currentImageIndex < |Images()|)
    {
      if Rendered() && |Images()| > 0 then Some((currentImageIndex + 1, |Images()|)) else None
    }

    constructor ()
      ensures !isOpen && realisation == None && currentImageIndex == 0
    {
      isOpen := false;
      realisation := None;
      currentImageIndex := 0;
    }

    /**
     The section opens the modal on `r`. The reset effect runs because a
     dependency (the open flag or the realisation) changed while open.
     */
    method Open(r: Realisation)
      modifies this
      ensures isOpen && realisation == Some(r)
      ensures currentImageIndex ==
        if !old(isOpen) || old(realisation) != Some(r) then 0 else old(currentImageIndex)
    {
      var changed := !isOpen || realisation != Some(r);
      isOpen, realisation := true, Some(r);
      if changed {
        currentImageIndex := 0;
      }
    }

    /** The section closes the modal and forgets the selection; the index is kept. */
    method Close()
      modifies this
      ensures !isOpen && realisation == None
      ensures currentImageIndex == old(currentImageIndex)
    {
      isOpen, realisation := false, None;
    }

    /** Left arrow key: step back with wraparound, when open and there are images. */
    method ArrowLeft()
      modifies this`currentImageIndex
      ensures currentImageIndex ==
        if isOpen && |Images()| > 0 then Prev(old(currentImageIndex), |Images()|)
        else old(currentImageIndex)
      ensures isOpen && 0 < |Images()| && old(currentImageIndex) < |Images()| ==>
        currentImageIndex < |Images()|
    {
      if isOpen && |Images()| > 0 {
        currentImageIndex := Prev(currentImageIndex, |Images()|);
      }
    }

    /** Right arrow key: step forward with wraparound, when open and there are images. */
    method ArrowRight()
      modifies this`currentImageIndex
      ensures currentImageIndex ==
        if isOpen && |Images()| > 0 then Next(old(currentImageIndex), |Images()|)
        else old(currentImageIndex)
      ensures isOpen && |Images()| > 0 ==> currentImageIndex < |Images()|
    {
      if isOpen && |Images()| > 0 {
        currentImageIndex := Next(currentImageIndex, |Images()|);
        NextInRange(old(currentImageIndex), |Images()|);
      }
    }

    /** The on-screen "←" button, which exists only while navigation is drawn. */
    method PrevButton()
      modifies this`currentImageIndex
      ensures currentImageIndex ==
        if old(NavigationShown()) then Prev(old(currentImageIndex), |Images()|)
        else old(currentImageIndex)
      ensures currentImageIndex < |Images()| || !old(NavigationShown())
    {
      if NavigationShown() {
        currentImageIndex := Prev(currentImageIndex, |Images()|);
      }
    }

    /** The on-screen "→" button, which exists only while navigation is drawn. */
    method NextButton()
      modifies this`currentImageIndex
      ensures currentImageIndex ==
        if old(NavigationShown()) then Next(old(currentImageIndex), |Images()|)
        else old(currentImageIndex)
      ensures currentImageIndex < |Images()| || !old(NavigationShown())
    {
      if NavigationShown() {
        currentImageIndex := Next(currentImageIndex, |Images()|);
      }
    }

    /** A click on the dot for image `k`; dots exist for every image while navigation is drawn. */
    method DotClick(k: nat)
      modifies this`currentImageIndex
      ensures currentImageIndex == if old(NavigationShown()) && k < |Images()| then k else old(currentImageIndex)
    {
      if NavigationShown() && k < |Images()| {
        currentImageIndex := k;
      }
    }

    /** The validity effect: an index past the end of a non-empty sequence is reset to 0. */
    method Revalidate()
      modifies this`currentImageIndex
      ensures currentImageIndex == Revalidated(old(currentImageIndex), |Images()|)
      ensures |Images()| > 0 ==> currentImageIndex < |Images()|
      ensures old(currentImageIndex) < |Images()| ==> currentImageIndex == old(currentImageIndex)
    {
      if |Images()| > 0 && currentImageIndex >= |Images()| {
        currentImageIndex := 0;
      }
    }
  }
}
