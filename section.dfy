/**
 The portfolio section: the list of realisations loaded from the content
 client (published ones only, or two fixed defaults when the request
 fails), the category filter over it, and which realisation the modal
 shows.
 */
module PortfolioSection {
  import opened Content
  import MockClient

  /** The filter value that keeps every realisation. */
  const AllCategories: string := "all"

  /** `r.type === category`: only a bare-string `type` can equal the selected string. */
  predicate HasType(r: Realisation, category: string) {
    r.kind == Some(Plain(category))
  }

  /** `a` is `b` with some elements left out, order kept. */
  predicate IsSubsequence<T(==)>(a: seq<T>, b: seq<T>)
    decreases |b|
  {
    a == [] || (b != [] && if a[0] == b[0] then IsSubsequence(a[1..], b[1..]) else IsSubsequence(a, b[1..]))
  }

  /** The realisations whose `type` is exactly `category`, in their original order. */
  function FilterByType(rs: seq<Realisation>, category: string): (out: seq<Realisation>)
    ensures IsSubsequence(out, rs) && |out| <= |rs|
    ensures forall k :: 0 <= k < |out| ==> HasType(out[k], category)
    ensures forall x :: multiset(out)[x] == if HasType(x, category) then multiset(rs)[x] else 0
    decreases |rs|
  {
    if rs == [] then []
    else
      var rest := FilterByType(rs[1..], category);
      assert rs == [rs[0]] + rs[1..];
      if HasType(rs[0], category) then [rs[0]] + rest else rest
  }

  /** filteredRealisations: everything for "all", otherwise the exact `type` matches. */
  function Filtered(rs: seq<Realisation>, selected: string): (out: seq<Realisation>)
    ensures selected == AllCategories ==> out == rs
    ensures selected != AllCategories ==> out == FilterByType(rs, selected)
  {
    if selected == AllCategories then rs else FilterByType(rs, selected)
  }

  /** Wraps every element in `Some`, to compare a result with a list that may hold nulls. */
  function Present(rs: seq<Realisation>): (out: seq<Option<Realisation>>)
    ensures |out| == |rs| && forall k :: 0 <= k < |rs| ==> out[k] == Some(rs[k])
  {
    seq(|rs|, k requires 0 <= k < |rs| => Some(rs[k]))
  }

  /** The fetched nodes with a truthy `published`, in order; null nodes drop out. */
  function PublishedNodes(nodes: seq<Option<Realisation>>): (out: seq<Realisation>)
    ensures IsSubsequence(Present(out), nodes) && |out| <= |nodes|
    ensures forall k :: 0 <= k < |out| ==> out[k].published
    ensures forall x :: multiset(out)[x] == if x.published then multiset(nodes)[Some(x)] else 0
    decreases |nodes|
  {
    if nodes == [] then []
    else
      var rest := PublishedNodes(nodes[1..]);
      assert nodes == [nodes[0]] + nodes[1..];
      if nodes[0].Some? && nodes[0].value.published then
        assert Present([nodes[0].value] + rest) == [nodes[0]] + Present(rest);
        [nodes[0].value] + rest
      else rest
  }

  /** The two realisations shown when the list request fails. */
  function DefaultRealisations(): seq<Realisation> {
    [ Realisation(None, "Terrasse en béton désactivé",
        Some("Création d'une terrasse de 40m² en béton désactivé avec finition soignée."), None,
        "2024-01-15T10:00:00.000Z", Some(Plain("terrasse")), None, None, None, Some("Mirassou"), false,
        Some(Sys("terrasse-mirassou"))),
      Realisation(None, "Muret de soutènement",
        Some("Construction d'un muret de soutènement en pierre naturelle."), None,
        "2024-02-10T14:00:00.000Z", Some(Plain("maconnerie")), None, None, None, Some("Husté"), false,
        Some(Sys("muret-huste"))) ]
  }

  /**
   The answer to the list request: the `edges` array (itself possibly
   missing), each entry the edge's node or null, or a failure.
   */
  datatype ConnectionResult = Answered(edges: Option<seq<Option<Realisation>>>) | Failed

  /** What the section keeps from the answer. */
  function LoadedRealisations(result: ConnectionResult): (rs: seq<Realisation>)
    ensures result.Failed? ==> rs == DefaultRealisations()
    ensures result.Answered? && result.edges.None? ==> rs == []
    ensures result.Answered? && result.edges.Some? ==> rs == PublishedNodes(result.edges.value)
    ensures result.Answered? ==> forall k :: 0 <= k < |rs| ==> rs[k].published
  {
    match result
    case Failed => DefaultRealisations()
    case Answered(edges) => PublishedNodes(if edges.Some? then edges.value else [])
  }

  /** With the defaults, each filter button finds the default of its type and nothing else. */
  lemma DefaultsByCategory(category: string)
    ensures Filtered(DefaultRealisations(), AllCategories) == DefaultRealisations()
    ensures category == "terrasse" ==> Filtered(DefaultRealisations(), category) == [DefaultRealisations()[0]]
    ensures category == "maconnerie" ==> Filtered(DefaultRealisations(), category) == [DefaultRealisations()[1]]
    ensures category != AllCategories && category != "terrasse" && category != "maconnerie" ==>
      Filtered(DefaultRealisations(), category) == []
  {
  }

  /** A list whose every element is published passes the published filter whole. */
  lemma {:induction false} PublishedNodesKeepsPublished(rs: seq<Realisation>)
    requires forall k :: 0 <= k < |rs| ==> rs[k].published
    ensures PublishedNodes(Present(rs)) == rs
    decreases |rs|
  {
    if rs != [] {
      assert Present(rs)[1..] == Present(rs[1..]);
      PublishedNodesKeepsPublished(rs[1..]);
      assert rs == [rs[0]] + rs[1..];
    }
  }

  /** Realisations without a `type` field match no category. */
  lemma UntypedMatchNoCategory(rs: seq<Realisation>, category: string)
    requires forall k :: 0 <= k < |rs| ==> rs[k].kind.None?
    ensures FilterByType(rs, category) == []
  {
  }

  /** The answer of the fixed-data client, as the section receives it. */
  function MockAnswer(): ConnectionResult {
    Answered(Some(Present(MockClient.RealisationConnection())))
  }

  /**
   The fixed data are all published and kept in order, but they carry only
   the newer `categorie` field, so every filter other than "all" is empty.
   */
  lemma MockDataOnlyShowsUnderAll(category: string)
    ensures LoadedRealisations(MockAnswer()) == MockClient.RealisationConnection()
    ensures category != AllCategories ==> Filtered(LoadedRealisations(MockAnswer()), category) == []
  {
    var nodes := MockClient.RealisationConnection();
    PublishedNodesKeepsPublished(nodes);
    UntypedMatchNoCategory(nodes, category);
  }

  class Section {
    var selectedCategory: string
    var realisations: seq<Realisation>
    var loading: bool
    var selectedRealisation: Option<Realisation>
    var isModalOpen: bool

    constructor ()
      ensures selectedCategory == AllCategories && realisations == [] && loading
      ensures selectedRealisation == None && !isModalOpen
    {
      selectedCategory := AllCategories;
      realisations := [];
      loading := true;
      selectedRealisation := None;
      isModalOpen := false;
    }

    /** The cards in the grid; while loading a message is shown instead. */
    function Cards(): (cards: Option<seq<Realisation>>)
      reads this
      ensures cards.None? <==> loading
      ensures cards.Some? ==> cards.value == Filtered(realisations, selectedCategory)
    {
      if loading then None else Some(Filtered(realisations, selectedCategory))
    }

    /** A filter button. */
    method SelectCategory(category: string)
      modifies this`selectedCategory
      ensures selectedCategory == category
    {
      selectedCategory := category;
    }

    /** The list request settles: store what is kept from it and stop loading, on either path. */
    method FetchCompleted(result: ConnectionResult)
      modifies this`realisations, this`loading
      ensures realisations == LoadedRealisations(result)
      ensures !loading
    {
      match result {
        case Failed =>
          realisations := DefaultRealisations();
        case Answered(edges) =>
          var nodes := if edges.Some? then edges.value else [];
          realisations := PublishedNodes(nodes);
      }
      loading := false;
    }

    /** A click on a card: select it and open the modal. */
    method OpenModal(r: Realisation)
      modifies this`selectedRealisation, this`isModalOpen
      ensures selectedRealisation == Some(r) && isModalOpen
    {
      selectedRealisation := Some(r);
      isModalOpen := true;
    }

    /** The modal asks to close: close it and forget the selection. */
    method CloseModal()
      modifies this`selectedRealisation, this`isModalOpen
      ensures selectedRealisation == None && !isModalOpen
    {
      isModalOpen := false;
      selectedRealisation := None;
    }
  }
}
