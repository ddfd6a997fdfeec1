/** The backoffice category page
    (src/components/backoffice/BackOfficeCategoriesPage.tsx): a list loaded
    from the backend, filtered on demand by a query, paged 20 at a time, and
    a create/edit form. */
module BackofficeCategories {
  import opened Wrappers
  import opened Js
  import Filtering
  import Pagination

  /** src/type/backoffice/CategoryDto.ts. */
  datatype CategoryDto = CategoryDto(id: int, name: string, productCategoryType: string)

  /** The body of both create and update requests. */
  datatype CategoryPayload = CategoryPayload(name: string, productCategoryType: string)

  datatype FormMode = Create | Edit
  datatype HttpMethod = POST | PUT | DELETE

  datatype CategoryRequest = CategoryRequest(verb: HttpMethod, path: string, body: CategoryPayload)

  /** The search test for one category, against an already lower-cased query. */
  predicate Matches(c: CategoryDto, q: string) {
    Includes(NumberToString(c.id), q) || Includes(ToLower(c.name), q) || Includes(ToLower(c.productCategoryType), q)
  }

  /** `handleSearch`'s filter. */
  function Search(categories: seq<CategoryDto>, query: string): (r: seq<CategoryDto>)
    ensures forall k :: 0 <= k < |r| ==> Matches(r[k], ToLower(query))
    ensures Filtering.Subsequence(r, categories)
  {
    var q := ToLower(query);
    Filtering.FilterIsSubsequence(categories, c => Matches(c, q));
    Filtering.Filter(categories, c => Matches(c, q))
  }

  /** A category is kept exactly when its id, lower-cased name or lower-cased
      type contains the lower-cased query. */
  lemma SearchKeeps(categories: seq<CategoryDto>, query: string, c: CategoryDto)
    ensures c in Search(categories, query) <==> c in categories && Matches(c, ToLower(query))
  {
    var q := ToLower(query);
    Filtering.FilterMembers(categories, c => Matches(c, q), c);
  }

  /** The empty query keeps every category, in order. */
  lemma EmptyQueryKeepsAll(categories: seq<CategoryDto>)
    ensures Search(categories, "") == categories
  {
    forall k | 0 <= k < |categories| ensures Matches(categories[k], "") {
      IncludesEmpty(NumberToString(categories[k].id));
    }
    Filtering.FilterKeepsAll(categories, c => Matches(c, ""));
  }

  /** The request `handleSubmit` sends: POST /categories when creating,
      PUT /categories/{selected?.id} when editing; with no selection the
      template renders the id as "undefined". */
  function SubmitRequest(mode: FormMode, selected: Option<CategoryDto>, name: string, categoryType: string): (r: CategoryRequest)
    ensures r.body == CategoryPayload(name, categoryType)
    ensures mode == Create ==> r.verb == POST && r.path == "/categories"
    ensures mode == Edit ==> r.verb == PUT
    ensures mode == Edit && selected.Some? ==> r.path == "/categories/" + NumberToString(selected.value.id)
    ensures mode == Edit && selected.None? ==> r.path == "/categories/undefined"
  {
    var path := if mode == Create then "/categories"
                else "/categories/" + (if selected.Some? then NumberToString(selected.value.id) else "undefined");
    CategoryRequest(if mode == Create then POST else PUT, path, CategoryPayload(name, categoryType))
  }

  class CategoriesPage {
    var categories: seq<CategoryDto>
    var filtered: seq<CategoryDto>
    var loading: bool
    var error: Option<string>
    var query: string
    var page: nat
    var showForm: bool
    var formMode: FormMode
    var selected: Option<CategoryDto>
    var name: string
    var categoryType: string
    var sent: seq<CategoryRequest>

    constructor ()
      ensures categories == [] && filtered == [] && !loading && error == None
      ensures query == "" && page == 0 && !showForm && formMode == Create && selected == None
      ensures name == "" && categoryType == "BOOK" && sent == []
    {
      categories, filtered, loading, error := [], [], false, None;
      query, page, showForm, formMode, selected := "", 0, false, Create, None;
      name, categoryType, sent := "", "BOOK", [];
    }

    /** `totalPages`: `Math.ceil(filtered.length / PAGE_SIZE)`. */
    function TotalPages(): (t: nat)
      reads this
      ensures t == 0 <==> filtered == []
      ensures t * Pagination.PageSize >= |filtered| && (t > 0 ==> (t - 1) * Pagination.PageSize < |filtered|)
    {
      Pagination.TotalPages(|filtered|)
    }

    /** `pageItems`: the current slice of the filtered list. */
    function PageItems(): (r: seq<CategoryDto>)
      reads this
      ensures |r| <= Pagination.PageSize
      ensures forall k :: 0 <= k < |r| ==> r[k] in filtered
      ensures r != [] <==> page < TotalPages()
    {
      Pagination.PageItems(filtered, page)
    }

    /** `loadCategories()`: a success replaces both lists with the answer,
        dropping any active filter, and returns to the first page. */
    method LoadCategories(res: Response<seq<CategoryDto>>)
      modifies this
      ensures !loading
      ensures res.Ok? ==> categories == res.payload && filtered == res.payload && page == 0 && error == None
      ensures !res.Ok? ==> categories == old(categories) && filtered == old(filtered) && page == old(page)
                           && error == Some("Impossibile caricare le categorie")
      ensures query == old(query) && showForm == old(showForm) && formMode == old(formMode)
      ensures selected == old(selected) && name == old(name) && categoryType == old(categoryType) && sent == old(sent)
    {
      loading := true;
      error := None;
      if res.Ok? {
        categories := res.payload;
        filtered := res.payload;
        page := 0;
      } else {
        error := Some("Impossibile caricare le categorie");
      }
      loading := false;
    }

    method ClearForm()
      modifies this
      ensures name == "" && categoryType == "BOOK" && selected == None
      ensures categories == old(categories) && filtered == old(filtered) && page == old(page) && query == old(query)
      ensures formMode == old(formMode) && showForm == old(showForm) && error == old(error) && sent == old(sent)
    {
      name := "";
      categoryType := "BOOK";
      selected := None;
    }

    method OpenCreate()
      modifies this
      ensures name == "" && categoryType == "BOOK" && selected == None && formMode == Create && showForm
      ensures categories == old(categories) && filtered == old(filtered) && page == old(page) && query == old(query)
      ensures error == old(error) && sent == old(sent)
    {
      ClearForm();
      formMode := Create;
      showForm := true;
    }

    /** `openEdit(c)`: copies name and type from the category into the form. */
    method OpenEdit(c: CategoryDto)
      modifies this
      ensures selected == Some(c) && name == c.name && categoryType == c.productCategoryType
      ensures formMode == Edit && showForm
      ensures categories == old(categories) && filtered == old(filtered) && page == old(page) && query == old(query)
      ensures error == old(error) && sent == old(sent)
    {
      selected := Some(c);
      name := c.name;
      categoryType := c.productCategoryType;
      formMode := Edit;
      showForm := true;
    }

    /** `handleSubmit`: sends the create or update request; on success closes
        the form and asks for a reload (`reload`), on failure sets the
        mode's message. */
    method HandleSubmit(res: Response<()>) returns (reload: bool)
      modifies this
      ensures sent == old(sent) + [SubmitRequest(old(formMode), old(selected), old(name), old(categoryType))]
      ensures reload <==> res.Ok?
      ensures res.Ok? ==> !showForm && error == None
      ensures !res.Ok? ==> showForm == old(showForm)
                           && error == Some(if formMode == Create then "Errore creazione" else "Errore aggiornamento")
      ensures categories == old(categories) && filtered == old(filtered) && page == old(page) && query == old(query)
      ensures formMode == old(formMode) && selected == old(selected) && name == old(name) && categoryType == old(categoryType)
    {
      error := None;
      var request := SubmitRequest(formMode, selected, name, categoryType);
      sent := sent + [request];
      if res.Ok? {
        showForm := false;
        reload := true;
      } else {
        error := Some(if formMode == Create then "Errore creazione" else "Errore aggiornamento");
        reload := false;
      }
    }

    method SetQuery(q: string)
      modifies this
      ensures query == q
      ensures categories == old(categories) && filtered == old(filtered) && page == old(page)
      ensures showForm == old(showForm) && formMode == old(formMode) && selected == old(selected)
      ensures name == old(name) && categoryType == old(categoryType) && error == old(error) && sent == old(sent)
    {
      query := q;
    }

    /** `handleSearch()`: filters the loaded categories and returns to page one. */
    method HandleSearch()
      modifies this
      ensures filtered == Search(categories, query) && page == 0
      ensures categories == old(categories) && query == old(query) && showForm == old(showForm)
      ensures formMode == old(formMode) && selected == old(selected) && name == old(name)
      ensures categoryType == old(categoryType) && error == old(error) && sent == old(sent)
    {
      filtered := Search(categories, query);
      page := 0;
    }

    /** A click on the button of page `i`. */
    method SetPage(i: nat)
      modifies this
      ensures page == i
      ensures categories == old(categories) && filtered == old(filtered) && query == old(query)
      ensures showForm == old(showForm) && formMode == old(formMode) && selected == old(selected)
      ensures name == old(name) && categoryType == old(categoryType) && error == old(error) && sent == old(sent)
    {
      page := i;
    }
  }

  /** A client: after a load and a search, the pages shown, first to last,
      are exactly the matching categories. */
  method SearchThenPage(data: seq<CategoryDto>, q: string)
  {
    var p := new CategoriesPage();
    p.LoadCategories(Ok(data));
    p.SetQuery(q);
    p.HandleSearch();
    assert p.page == 0;
    Pagination.PagesPartition(p.filtered);
    assert Pagination.PagesFrom(p.filtered, 0, p.TotalPages()) == Search(data, q);
  }
}
