/** The shared navigation state every controller writes to (modules/shared_state.py): the
    current page, the page count and the document path, plus the zoom level the controllers
    read and write through `get_zoom`/`update_zoom`/`reset_zoom`. */
module PageStore {
  import opened Common

  /** The zoom level `reset_zoom` stores. */
  const ResetZoomLevel := 100

  /** One atomic snapshot of the shared state. */
  datatype Store = Store(currentPage: int, totalPages: int, pdfPath: Option<string>, zoom: int)

  /** The state right after construction; the zoom storage is not part of the page store, so
      its first value is a parameter. */
  function Initial(initialZoom: int): Store {
    Store(0, 0, None, initialZoom)
  }

  /** The store's invariant: the current page is never negative and lies inside the document
      whenever the document has pages. */
  predicate Bounded(s: Store) {
    0 <= s.currentPage && (s.totalPages > 0 ==> s.currentPage < s.totalPages)
  }

  /** The bounds check of `update_page`. */
  predicate Accepts(s: Store, page: int) {
    0 <= page < s.totalPages
  }

  /** `update_page(page)`: commits the page when the bounds check accepts it, and touches
      nothing else. */
  function WithPage(s: Store, page: int): (r: Store)
    ensures r.totalPages == s.totalPages && r.pdfPath == s.pdfPath && r.zoom == s.zoom
    ensures Accepts(s, page) ==> r.currentPage == page
    ensures !Accepts(s, page) ==> r == s
    ensures Bounded(s) ==> Bounded(r)
  {
    if Accepts(s, page) then s.(currentPage := page) else s
  }

  /** `set_pdf_info(path, n)`: a new document, back on its first page. */
  function WithDocument(s: Store, path: string, totalPages: int): (r: Store)
    ensures r.pdfPath == Some(path) && r.totalPages == totalPages && r.currentPage == 0
    ensures r.zoom == s.zoom
    ensures Bounded(r)
  {
    s.(pdfPath := Some(path), totalPages := totalPages, currentPage := 0)
  }

  /** `update_zoom(z)` and `reset_zoom()`: a plain store, no clamping. */
  function WithZoom(s: Store, zoom: int): (r: Store)
    ensures r.zoom == zoom
    ensures r.currentPage == s.currentPage && r.totalPages == s.totalPages && r.pdfPath == s.pdfPath
  {
    s.(zoom := zoom)
  }

  // ---------------------------------------------------------------------------
  // Histories of operations on the store
  // ---------------------------------------------------------------------------

  datatype Op =
    | UpdatePage(page: int)
    | SetPdfInfo(path: string, totalPages: int)
    | UpdateZoom(zoom: int)
    | ResetZoom

  function Apply(s: Store, op: Op): Store {
    match op
    case UpdatePage(p) => WithPage(s, p)
    case SetPdfInfo(path, n) => WithDocument(s, path, n)
    case UpdateZoom(z) => WithZoom(s, z)
    case ResetZoom => WithZoom(s, ResetZoomLevel)
  }

  function Run(s: Store, ops: seq<Op>): Store
    decreases |ops|
  {
    if ops == [] then s else Run(Apply(s, ops[0]), ops[1..])
  }

  /** Every operation keeps the page inside the document, whatever the order of calls. */
  lemma {:induction false} RunKeepsBounded(s: Store, ops: seq<Op>)
    requires Bounded(s)
    ensures Bounded(Run(s, ops))
    decreases |ops|
  {
    if ops != [] {
      RunKeepsBounded(Apply(s, ops[0]), ops[1..]);
    }
  }

  /** Before a document with pages is loaded, no page request succeeds: from the initial state,
      any history without a `set_pdf_info(_, n)` with `n > 0` stays on page 0 of no pages, and
      `update_page` then rejects every page. */
  lemma {:induction false} NoNavigationBeforeLoad(s: Store, ops: seq<Op>)
    requires s.totalPages <= 0 && s.currentPage == 0
    requires forall k :: 0 <= k < |ops| ==> !(ops[k].SetPdfInfo? && ops[k].totalPages > 0)
    ensures Run(s, ops).totalPages <= 0 && Run(s, ops).currentPage == 0
    ensures forall p :: !Accepts(Run(s, ops), p)
    decreases |ops|
  {
    if ops != [] {
      NoNavigationBeforeLoad(Apply(s, ops[0]), ops[1..]);
    }
  }

  /** The initial state is bounded and accepts no page. */
  lemma InitialRejectsAll(initialZoom: int, p: int)
    ensures Bounded(Initial(initialZoom)) && !Accepts(Initial(initialZoom), p)
  {
  }

  // ---------------------------------------------------------------------------
  // The object
  // ---------------------------------------------------------------------------

  /** `SharedState`: the fields are assigned in place under one lock; every method here is
      one atomic step. */
  class SharedState {
    var currentPage: int
    var totalPages: int
    var pdfPath: Option<string>
    var zoom: int

    ghost function Model(): Store
      reads this
    {
      Store(currentPage, totalPages, pdfPath, zoom)
    }

    ghost predicate Valid()
      reads this
    {
      Bounded(Model())
    }

    constructor (initialZoom: int)
      ensures Valid() && Model() == Initial(initialZoom)
    {
      currentPage, totalPages, pdfPath, zoom := 0, 0, None, initialZoom;
    }

    /** `update_page`: true, and the page committed, iff `0 <= newPage < total_pages`. */
    method UpdatePage(newPage: int) returns (ok: bool)
      requires Valid()
      modifies this
      ensures Valid()
      ensures ok <==> Accepts(old(Model()), newPage)
      ensures Model() == WithPage(old(Model()), newPage)
    {
      if 0 <= newPage < totalPages {
        currentPage := newPage;
        return true;
      }
      return false;
    }

    /** `get_page`: reads the current page and changes nothing. */
    method GetPage() returns (page: int)
      ensures page == currentPage
    {
      page := currentPage;
    }

    /** `set_pdf_info` */
    method SetPdfInfo(path: string, n: int)
      modifies this
      ensures Valid()
      ensures Model() == WithDocument(old(Model()), path, n)
    {
      pdfPath := Some(path);
      totalPages := n;
      currentPage := 0;
    }

    /** `get_zoom` */
    method GetZoom() returns (z: int)
      ensures z == zoom
    {
      z := zoom;
    }

    /** `update_zoom`: stores the level it is given and returns it. */
    method UpdateZoom(z: int) returns (stored: int)
      requires Valid()
      modifies this
      ensures Valid()
      ensures stored == z && Model() == WithZoom(old(Model()), z)
    {
      zoom := z;
      stored := z;
    }

    /** `reset_zoom`: stores 100 and returns it. */
    method ResetZoom() returns (stored: int)
      requires Valid()
      modifies this
      ensures Valid()
      ensures stored == ResetZoomLevel && Model() == WithZoom(old(Model()), ResetZoomLevel)
    {
      zoom := ResetZoomLevel;
      stored := ResetZoomLevel;
    }
  }
}
