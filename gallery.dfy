/**
 What both versions of the portfolio modal share: the sequence of images
 shown for a realisation, and the arithmetic that moves through it.
 */
module Gallery {
  import opened Content

  /** Caption given to the featured image: "Image principale - <title>". */
  function FeaturedCaption(title: string): (caption: string)
    ensures |caption| == |"Image principale - "| + |title|
    ensures caption[..|"Image principale - "|] == "Image principale - "
    ensures caption[|"Image principale - "|..] == title
  {
    "Image principale - " + title
  }

  /** Whether the realisation contributes a featured image (a non-empty path). */
  predicate HasFeatured(r: Option<Realisation>) {
    r.Some? && Truthy(r.value.featuredImage)
  }

  /** The gallery list, with a missing list read as empty. */
  function GalleryOf(r: Option<Realisation>): seq<GalleryItem> {
    if r.Some? && r.value.gallery.Some? then r.value.gallery.value else []
  }

  /**
   The images a modal shows: the featured image first, captioned with the
   title, then the gallery items in their own order; nothing without a
   realisation.
   */
  function AllImages(r: Option<Realisation>): (images: seq<GalleryItem>)
    ensures r.None? ==> images == []
    ensures |images| == (if HasFeatured(r) then 1 else 0) + |GalleryOf(r)|
    ensures HasFeatured(r) ==>
      images[0] == GalleryItem(r.value.featuredImage.value, FeaturedCaption(r.value.title))
    ensures var offset := if HasFeatured(r) then 1 else 0;
      forall k :: 0 <= k < |GalleryOf(r)| ==> images[offset + k] == GalleryOf(r)[k]
  {
    match r
    case None => []
    case Some(p) =>
      (if Truthy(p.featuredImage)
       then [GalleryItem(p.featuredImage.value, FeaturedCaption(p.title))]
       else [])
      + GalleryOf(r)
  }

  /** The index after `i` among `n` images, wrapping from the last to 0. */
  function Next(i: nat, n: nat): nat {
    if i + 1 < n then i + 1 else 0
  }

  /** The index before `i` among `n > 0` images, wrapping from 0 to the last. */
  function Prev(i: nat, n: nat): nat
    requires n > 0
  {
    if i > 0 then i - 1 else n - 1
  }

  /** The validity effect: an index past the end of a non-empty sequence becomes 0. */
  function Revalidated(i: nat, n: nat): (j: nat)
    ensures n > 0 ==> j < n
    ensures j == i || j == 0
    ensures i < n || n == 0 ==> j == i
  {
    if n > 0 && i >= n then 0 else i
  }

  /** Next never leaves the sequence, whatever index it starts from. */
  lemma NextInRange(i: nat, n: nat)
    requires n > 0
    ensures Next(i, n) < n
  {
  }

  /** Prev stays in range exactly when it starts at most one past the end. */
  lemma PrevInRange(i: nat, n: nat)
    requires n > 0
    ensures Prev(i, n) < n <==> i <= n
  {
  }

  /** On a valid index, Next is addition modulo n. */
  lemma NextIsSuccessorModulo(i: nat, n: nat)
    requires i < n
    ensures Next(i, n) == (i + 1) % n
  {
  }

  /** On a valid index, Prev is subtraction modulo n. */
  lemma PrevIsPredecessorModulo(i: nat, n: nat)
    requires i < n
    ensures Prev(i, n) == (i + n - 1) % n
  {
  }

  /** Prev undoes Next and Next undoes Prev on every valid index. */
  lemma PrevNextInverse(i: nat, n: nat)
    requires i < n
    ensures Prev(Next(i, n), n) == i
    ensures Next(Prev(i, n), n) == i
  {
  }
}
