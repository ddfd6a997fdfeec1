/** The backoffice stock page
    (src/components/backoffice/BackOfficeStockPage.tsx): the inventory list,
    filtered by an effect that re-runs whenever the query or the items change,
    paged 20 at a time, and a modal that increases or decreases one item's
    stock. */
module BackofficeStock {
  import opened Wrappers
  import opened Js
  import Filtering
  import Pagination

  /** One inventory row; only the fields the page reads. */
  datatype InventoryItemDto = InventoryItemDto(productId: int, title: string, quantity: int)

  datatype ModalMode = Increase | Decrease

  /** POST /products/{productId}/stock/{increase|decrease} with body {quantity}. */
  datatype StockRequest = StockRequest(productId: int, path: string, quantity: JsInt)

  predicate Matches(it: InventoryItemDto, q: string) {
    Includes(NumberToString(it.productId), q) || Includes(ToLower(it.title), q)
  }

  /** The filter computed by the effect on `[query, items]`. */
  function StockFilter(items: seq<InventoryItemDto>, query: string): (r: seq<InventoryItemDto>)
    ensures forall k :: 0 <= k < |r| ==> Matches(r[k], ToLower(query))
    ensures Filtering.Subsequence(r, items)
  {
    var q := ToLower(query);
    Filtering.FilterIsSubsequence(items, it => Matches(it, q));
    Filtering.Filter(items, it => Matches(it, q))
  }

  /** An item is kept exactly when its product id or lower-cased title
      contains the lower-cased query. */
  lemma StockFilterKeeps(items: seq<InventoryItemDto>, query: string, it: InventoryItemDto)
    ensures it in StockFilter(items, query) <==> it in items && Matches(it, ToLower(query))
  {
    var q := ToLower(query);
    Filtering.FilterMembers(items, it => Matches(it, q), it);
  }

  lemma StockEmptyQueryKeepsAll(items: seq<InventoryItemDto>)
    ensures StockFilter(items, "") == items
  {
    forall k | 0 <= k < |items| ensures Matches(items[k], "") {
      IncludesEmpty(NumberToString(items[k].productId));
    }
    Filtering.FilterKeepsAll(items, it => Matches(it, ""));
  }

  function PathOf(mode: ModalMode): string {
    if mode == Increase then "increase" else "decrease"
  }

  /** What `handleModal` sends: nothing without a selected item, otherwise a
      POST to the mode's path carrying the current quantity input. */
  function ModalRequest(selected: Option<InventoryItemDto>, mode: ModalMode, qty: JsInt): (r: Option<StockRequest>)
    ensures r.None? <==> selected.None?
    ensures r.Some? ==> r.value.productId == selected.value.productId && r.value.quantity == qty
    ensures r.Some? && mode == Increase ==> r.value.path == "increase"
    ensures r.Some? && mode == Decrease ==> r.value.path == "decrease"
  {
    if selected.None? then None else Some(StockRequest(selected.value.productId, PathOf(mode), qty))
  }

  /** The quantity field's `onChange`: `Math.max(1, parseInt(value))`;
      `Math.max` of NaN is NaN. */
  function QuantityFromInput(text: string): (q: JsInt)
    ensures ParseInt(text).NaN? <==> q.NaN?
    ensures ParseInt(text).Num? ==> q.value >= 1
    ensures ParseInt(text).Num? && ParseInt(text).value >= 1 ==> q == ParseInt(text)
  {
    match ParseInt(text)
    case NaN => NaN
    case Num(n) => Num(if n >= 1 then n else 1)
  }

  /** For the decimal text of an integer n the field becomes max(1, n). */
  lemma QuantityOfInteger(n: int)
    ensures QuantityFromInput(NumberToString(n)) == Num(if n >= 1 then n else 1)
  {
    ParseIntOfNumberToString(n);
  }

  class StockPage {
    var items: seq<InventoryItemDto>
    var filtered: seq<InventoryItemDto>
    var loading: bool
    var error: Option<string>
    var query: string
    var page: nat
    var showModal: bool
    var modalMode: ModalMode
    var selected: Option<InventoryItemDto>
    var qtyInput: JsInt
    var sent: seq<StockRequest>

    /** The relation the filter effect keeps between the list, the query and
        the shown rows once it has run. */
    predicate Filtered()
      reads this
      ensures Filtered() ==>
                (forall k :: 0 <= k < |filtered| ==> Matches(filtered[k], ToLower(query)))
                && Filtering.Subsequence(filtered, items)
    {
      filtered == StockFilter(items, query)
    }

    constructor ()
      ensures items == [] && filtered == [] && !loading && error == None && query == "" && page == 0
      ensures !showModal && modalMode == Increase && selected == None && qtyInput == Num(0) && sent == []
      ensures Filtered()
    {
      items, filtered, loading, error, query, page := [], [], false, None, "", 0;
      showModal, modalMode, selected, qtyInput, sent := false, Increase, None, Num(0), [];
    }

    /** `Math.ceil(filtered.length / PAGE_SIZE)`. */
    function TotalPages(): (t: nat)
      reads this
      ensures t == 0 <==> filtered == []
      ensures t * Pagination.PageSize >= |filtered| && (t > 0 ==> (t - 1) * Pagination.PageSize < |filtered|)
    {
      Pagination.TotalPages(|filtered|)
    }

    /** The rows of the current page. */
    function PageItems(): (r: seq<InventoryItemDto>)
      reads this
      ensures |r| <= Pagination.PageSize
      ensures forall k :: 0 <= k < |r| ==> r[k] in filtered
      ensures r != [] <==> page < TotalPages()
    {
      Pagination.PageItems(filtered, page)
    }

    /** The effect on `[query, items]`. */
    method RunFilterEffect()
      modifies this
      ensures Filtered() && page == 0
      ensures items == old(items) && query == old(query) && loading == old(loading) && error == old(error)
      ensures showModal == old(showModal) && modalMode == old(modalMode) && selected == old(selected)
      ensures qtyInput == old(qtyInput) && sent == old(sent)
    {
      filtered := StockFilter(items, query);
      page := 0;
    }

    /** Typing in the search box: the effect refilters and returns to page one. */
    method SetQuery(q: string)
      modifies this
      ensures query == q && Filtered() && page == 0
      ensures items == old(items) && loading == old(loading) && error == old(error)
      ensures showModal == old(showModal) && modalMode == old(modalMode) && selected == old(selected)
      ensures qtyInput == old(qtyInput) && sent == old(sent)
    {
      query := q;
      RunFilterEffect();
    }

    /** `loadItems()`. A success first shows the whole answer, but the new
        `items` also trigger the filter effect, so the active query is
        applied again. */
    method LoadItems(res: Response<seq<InventoryItemDto>>)
      modifies this
      ensures !loading
      ensures res.Ok? ==> items == res.payload && error == None && page == 0
      ensures !res.Ok? ==> items == old(items) && filtered == old(filtered) && page == old(page)
                           && error == Some("Impossibile caricare gli stock")
      ensures res.Ok? || old(Filtered()) ==> Filtered()
      ensures query == old(query) && showModal == old(showModal) && modalMode == old(modalMode)
      ensures selected == old(selected) && qtyInput == old(qtyInput) && sent == old(sent)
    {
      loading := true;
      error := None;
      if res.Ok? {
        items := res.payload;
        filtered := res.payload;
        page := 0;
      } else {
        error := Some("Impossibile caricare gli stock");
      }
      loading := false;
      if res.Ok? {
        RunFilterEffect();
      }
    }

    /** `openModal(mode, item)`. */
    method OpenModal(mode: ModalMode, item: InventoryItemDto)
      modifies this
      ensures modalMode == mode && selected == Some(item) && qtyInput == Num(0) && showModal
      ensures items == old(items) && filtered == old(filtered) && query == old(query) && page == old(page)
      ensures loading == old(loading) && error == old(error) && sent == old(sent)
    {
      modalMode := mode;
      selected := Some(item);
      qtyInput := Num(0);
      showModal := true;
    }

    /** The quantity field's `onChange`. */
    method SetQuantity(text: string)
      modifies this
      ensures qtyInput == QuantityFromInput(text)
      ensures items == old(items) && filtered == old(filtered) && query == old(query) && page == old(page)
      ensures loading == old(loading) && error == old(error) && sent == old(sent)
      ensures showModal == old(showModal) && modalMode == old(modalMode) && selected == old(selected)
    {
      qtyInput := QuantityFromInput(text);
    }

    /** `handleModal`: without a selected item nothing happens; otherwise the
        request is sent and a success closes the modal and asks for a reload
        (`reload`). */
    method HandleModal(res: Response<()>) returns (reload: bool)
      modifies this
      ensures old(selected).None? ==> !reload && sent == old(sent) && error == old(error) && showModal == old(showModal)
      ensures ModalRequest(old(selected), old(modalMode), old(qtyInput)).Some? ==>
                sent == old(sent) + [ModalRequest(old(selected), old(modalMode), old(qtyInput)).value]
      ensures old(selected).Some? && res.Ok? ==> reload && !showModal && error == None
      ensures old(selected).Some? && !res.Ok? ==> !reload && showModal == old(showModal)
                                                  && error == Some("Errore durante l'operazione di stock")
      ensures items == old(items) && filtered == old(filtered) && query == old(query) && page == old(page)
      ensures loading == old(loading) && modalMode == old(modalMode) && selected == old(selected) && qtyInput == old(qtyInput)
    {
      reload := false;
      if selected.None? { return; }
      error := None;
      var request := ModalRequest(selected, modalMode, qtyInput);
      sent := sent + [request.value];
      if res.Ok? {
        showModal := false;
        reload := true;
      } else {
        error := Some("Errore durante l'operazione di stock");
      }
    }

    method SetPage(i: nat)
      modifies this
      ensures page == i
      ensures items == old(items) && filtered == old(filtered) && query == old(query)
      ensures loading == old(loading) && error == old(error) && sent == old(sent)
      ensures showModal == old(showModal) && modalMode == old(modalMode) && selected == old(selected) && qtyInput == old(qtyInput)
    {
      page := i;
    }
  }

  /** A client: a query typed before the list arrives still filters it. */
  method QueryThenLoad(data: seq<InventoryItemDto>)
  {
    var p := new StockPage();
    p.SetQuery("42");
    p.LoadItems(Ok(data));
    assert p.filtered == StockFilter(data, "42");
    assert p.page == 0;
  }
}
