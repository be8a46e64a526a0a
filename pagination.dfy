/** The browsing state the three dataset views share (src/EspacesVerts.jsx,
    src/IlotsDeFraicheur.jsx and src/Fontaines.jsx all hold the same `page`,
    `loading`, records and `viewState` hooks and the same `fetchData`,
    `nextPage`, `prevPage` and view effect). A view is a `BrowseView` over one
    dataset; each request it issues is returned as the URL it fetches, and
    the answer is delivered later by `Receive`. */
module Pagination {
  import opened JsValues
  import opened Api
  import opened Filtering

  datatype PageAction = Next | Prev

  /** The page index after one click on a pagination button. */
  function PageAfter(page: int, action: PageAction): int
  {
    match action
    case Next => page + 1
    case Prev => if page == 0 then page else page - 1
  }

  /** The page index after a sequence of clicks. */
  function PageAfterAll(page: int, actions: seq<PageAction>): int
    decreases |actions|
  {
    if actions == [] then page else PageAfterAll(PageAfter(page, actions[0]), actions[1..])
  }

  /** "Page précédente" does nothing on the first page and otherwise undoes
      "Page suivante"; "Page suivante" always moves on. */
  lemma PageStep(page: int)
    requires page >= 0
    ensures PageAfter(0, Prev) == 0
    ensures PageAfter(page, Next) == page + 1 > page
    ensures PageAfter(PageAfter(page, Next), Prev) == page
    ensures page > 0 ==> PageAfter(PageAfter(page, Prev), Next) == page
  {
  }

  /** From a valid page any sequence of clicks stays on a valid page, at most
      one page per click away. */
  lemma {:induction false} PageStaysValid(page: int, actions: seq<PageAction>)
    decreases |actions|
    requires page >= 0
    ensures PageAfterAll(page, actions) >= 0
    ensures page - |actions| <= PageAfterAll(page, actions) <= page + |actions|
  {
    if actions != [] {
      PageStaysValid(PageAfter(page, actions[0]), actions[1..]);
    }
  }

  /** The number of "Page suivante" clicks in a sequence. */
  function NextCount(actions: seq<PageAction>): nat
  {
    if actions == [] then 0 else (if actions[0] == Next then 1 else 0) + NextCount(actions[1..])
  }

  /** Only "Page suivante" clicks move forward: starting from the first page
      the index never passes the number of those clicks. */
  lemma {:induction false} PageBoundedByNextClicks(page: int, actions: seq<PageAction>)
    decreases |actions|
    requires page >= 0
    ensures PageAfterAll(page, actions) <= page + NextCount(actions)
  {
    if actions != [] {
      PageBoundedByNextClicks(PageAfter(page, actions[0]), actions[1..]);
    }
  }

  /** The view shows its rows or its map. */
  datatype ViewState = List | Map

  /** What the view effect passes to `fetchData`: page 0 in the list view,
      `undefined` in the map view. */
  function ViewPage(view: ViewState): PageArg
  {
    if view == List then Page(0) else Omitted
  }

  /** Both views ask for the first page: `undefined` takes the parameter's
      default 0. */
  lemma ViewRequestsFirstPage(d: Dataset, view: ViewState)
    ensures RecordsUrl(d, ViewPage(view)) == RecordsUrl(d, Page(0))
    ensures OffsetOf(d, RecordsUrl(d, ViewPage(view))) == Some(0)
  {
    UrlCarriesOffset(d, 0);
  }

  class BrowseView {
    const dataset: Dataset
    /** The records last delivered: `[]` at first, `undefined` after a failed fetch. */
    var records: Val
    var loading: bool
    var page: int
    var view: ViewState

    ghost predicate Valid()
      reads this
    {
      page >= 0
    }

    /** The pagination bar is rendered once loading is over and the last
        answer held at least one record. */
    predicate PagerShown()
      reads this
    {
      !loading && records.Arr? && |records.items| > 0
    }

    /** The hooks' initial values. */
    constructor (d: Dataset)
      ensures Valid()
      ensures dataset == d && records == Arr([]) && !loading && page == 0 && view == List
    {
      dataset := d;
      records := Arr([]);
      loading := false;
      page := 0;
      view := List;
    }

    /** The effect run when the view is first shown. */
    method Mount() returns (url: string)
      requires Valid()
      modifies this
      ensures Valid() && loading
      ensures url == RecordsUrl(dataset, ViewPage(view))
      ensures page == old(page) && view == old(view) && records == old(records)
    {
      loading := true;
      url := RecordsUrl(dataset, ViewPage(view));
    }

    /** "Page suivante": move to the next page and fetch it. */
    method NextPage() returns (url: string)
      requires Valid()
      modifies this
      ensures Valid() && loading && !PagerShown()
      ensures page == PageAfter(old(page), Next)
      ensures url == RecordsUrl(dataset, Page(page))
      ensures view == old(view) && records == old(records)
    {
      var next := page + 1;
      page := next;
      loading := true;
      url := RecordsUrl(dataset, Page(next));
    }

    /** "Page précédente": nothing on the first page, otherwise move back and
        fetch that page. */
    method PrevPage() returns (url: Option<string>)
      requires Valid()
      modifies this
      ensures Valid()
      ensures page == PageAfter(old(page), Prev)
      ensures old(page) == 0 ==> url == None && loading == old(loading)
      ensures old(page) != 0 ==> loading && url == Some(RecordsUrl(dataset, Page(page)))
      ensures view == old(view) && records == old(records)
    {
      if page == 0 {
        return None;
      }
      var prev := page - 1;
      page := prev;
      loading := true;
      url := Some(RecordsUrl(dataset, Page(prev)));
    }

    /** The toggle button: the view effect refetches only when the view
        actually changes, and it does not reset `page`. */
    method SetView(v: ViewState) returns (url: Option<string>)
      requires Valid()
      modifies this
      ensures Valid() && view == v && page == old(page) && records == old(records)
      ensures v == old(view) ==> url == None && loading == old(loading)
      ensures v != old(view) ==> loading && url == Some(RecordsUrl(dataset, ViewPage(v)))
    {
      if v == view {
        return None;
      }
      view := v;
      loading := true;
      url := Some(RecordsUrl(dataset, ViewPage(v)));
    }

    /** The fetch resolves: its records replace the old ones, even `undefined`. */
    method Receive(response: Response)
      requires Valid()
      modifies this
      ensures Valid() && !loading
      ensures records == Results(response)
      ensures response.TransportFailure? ==> records == Undefined && !PagerShown()
      ensures PagerShown() <==> response.Decoded? && records.Arr? && |records.items| > 0
      ensures page == old(page) && view == old(view)
    {
      records := Results(response);
      loading := false;
    }
  }

  /** After a failed fetch the records are `undefined`, so the view's
      `.filter` call throws whatever the criteria. */
  lemma FailedFetchBreaksFilter(keep: Val -> Completion<bool>)
    ensures FilterArray(Results(TransportFailure), keep).Thrown?
  {
  }

  /** Toggling to the map and back on the second page refetches the first
      page while the label still says "Page 2"; the next click then jumps
      to the third page. Every request is answered with a non-empty page, so
      each click is one the pagination bar offers. */
  method ToggleAfterPaging(d: Dataset) returns (shownPage: int, fetched: string, afterNext: string)
    ensures shownPage == 1
    ensures fetched == RecordsUrl(d, Page(0))
    ensures OffsetOf(d, afterNext) == Some(2 * Limit)
  {
    var answer := Decoded(Obj(map["results" := Arr([Obj(map[])])]));
    var view := new BrowseView(d);
    var _ := view.Mount();
    view.Receive(answer);
    assert view.PagerShown();
    var _ := view.NextPage();
    view.Receive(answer);
    var toMap := view.SetView(Map);
    view.Receive(answer);
    var toList := view.SetView(List);
    view.Receive(answer);
    shownPage := view.page;
    fetched := toList.value;
    assert view.PagerShown();
    afterNext := view.NextPage();
    UrlCarriesOffset(d, 2);
  }
}
