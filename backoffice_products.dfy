/** The backoffice product page
    (src/components/backoffice/BackofficeProductsPage.tsx): server-side
    search and paging, and a create/edit form whose category and image lists
    are typed as comma-separated text. */
module BackofficeProducts {
  import opened Wrappers
  import opened Js
  import Filtering
  import Pagination

  /** src/type/backoffice/BackofficeProductDto.ts. */
  datatype ProductDto = ProductDto(
    id: int, title: string, isbn: Option<string>, author: string,
    publisher: Option<string>, description: Option<string>, price: real,
    categories: Option<seq<string>>, images: Option<seq<string>>, stock: Option<int>)

  /** One page of `/products/search`. */
  datatype ProductPage = ProductPage(content: seq<ProductDto>, totalPages: int)

  /** The form fields, one per `useState` of the form. */
  datatype ProductForm = ProductForm(
    title: string, isbn: string, author: string, publisher: string, description: string,
    price: real, productType: string, categoriesInput: string, imagesInput: string, initialStock: int)

  /** The create body carries `productType` and `initialStock`, the update body does not. */
  datatype ProductPayload =
    | CreatePayload(title: string, isbn: string, author: string, publisher: string, description: string,
                    price: real, productType: string, categories: seq<string>, images: seq<string>, initialStock: int)
    | UpdatePayload(title: string, isbn: string, author: string, publisher: string, description: string,
                    price: real, categories: seq<string>, images: seq<string>)

  /** The two lookups `fetchProducts` can make. */
  datatype ProductQuery =
    | ById(term: string)                                                      // GET /products/{term}
    | Search(title: string, isbn: string, author: string, page: int, size: nat) // GET /products/search?...

  datatype HttpMethod = POST | PUT

  datatype ProductRequest =
    | Lookup(query: ProductQuery)
    | Submit(verb: HttpMethod, path: string, body: Option<ProductPayload>)

  datatype FormMode = Create | Edit

  // ------------------------------------------------------------ search route

  /** The URL choice in `fetchProducts`: a trimmed term made only of digits
      is a product id; any other non-blank term is searched as title, isbn
      and author at once; a blank term searches with empty parameters. */
  function SearchRoute(searchTerm: string, pageNumber: int): (r: ProductQuery)
    ensures r.ById? <==> Trim(searchTerm) != "" && AllDigits(Trim(searchTerm))
    ensures r.ById? ==> r.term == Trim(searchTerm)
    ensures r.Search? ==> r.title == Trim(searchTerm) && r.isbn == r.title && r.author == r.title
                          && r.page == pageNumber && r.size == Pagination.PageSize
  {
    var term := Trim(searchTerm);
    if term != "" then
      if AllDigits(term) then ById(term) else Search(term, term, term, pageNumber, Pagination.PageSize)
    else Search("", "", "", pageNumber, Pagination.PageSize)
  }

  /** Leading white space does not change the route. */
  lemma SearchRouteIgnoresEdges(w: string, term: string, pageNumber: int)
    requires forall i :: 0 <= i < |w| ==> IsSpace(w[i])
    requires Trimmed(term)
    ensures SearchRoute(w + term, pageNumber) == SearchRoute(term, pageNumber)
  {
    TrimAfterSpaces(w, term);
    TrimOfTrimmed(term);
  }

  /** The decimal text of a natural number is looked up by id, and that id is the number. */
  lemma NumberTermIsLookup(n: nat, pageNumber: int)
    ensures SearchRoute(NumberToString(n), pageNumber) == ById(NumberToString(n))
    ensures ParseInt(NumberToString(n)) == Num(n)
  {
    assert NumberToString(n) == DigitsOf(n);
    TrimOfTrimmed(DigitsOf(n));
    ParseIntOfNumberToString(n);
  }

  // -------------------------------------------------------- comma-list input

  /** `.map((c) => c.trim())`. */
  function TrimAll(ps: seq<string>): (r: seq<string>)
    ensures |r| == |ps|
    ensures forall k :: 0 <= k < |r| ==> r[k] == Trim(ps[k]) && Trimmed(r[k])
  {
    if ps == [] then []
    else
      TrimIsTrimmed(ps[0]);
      [Trim(ps[0])] + TrimAll(ps[1..])
  }

  predicate NonEmpty(s: string) {
    s != ""
  }

  /** `input.split(",").map((c) => c.trim()).filter(Boolean)`. */
  function ParseList(input: string): (r: seq<string>)
    ensures forall k :: 0 <= k < |r| ==> r[k] != "" && Trimmed(r[k])
  {
    var pieces := TrimAll(Split(input, ','));
    var r := Filtering.Filter(pieces, NonEmpty);
    forall x | x in r ensures Trimmed(x) {
      Filtering.FilterMembers(pieces, NonEmpty, x);
    }
    r
  }

  /** `TrimAll` works element by element. */
  lemma TrimAllCons(a: string, ps: seq<string>)
    ensures TrimAll([a] + ps) == [Trim(a)] + TrimAll(ps)
  {
    assert ([a] + ps)[1..] == ps;
  }

  /** The text of a join of two or more elements, cut at its first comma. */
  lemma JoinStep(w: string, xs: seq<string>)
    requires |xs| > 1
    ensures w + Join(xs, ", ") == (w + xs[0]) + [','] + (" " + Join(xs[1..], ", "))
  {
    var rest := Join(xs[1..], ", ");
    assert Join(xs, ", ") == xs[0] + ", " + rest;
    assert ", " + rest == [','] + (" " + rest);
  }

  /** The pieces of `w + Join(xs, ", ")`, trimmed: leading whitespace before
      the first element and the space after each comma disappear. */
  lemma {:induction false} TrimSplitJoin(w: string, xs: seq<string>)
    requires |xs| > 0
    requires forall i :: 0 <= i < |w| ==> IsSpace(w[i])
    requires forall k :: 0 <= k < |xs| ==> Trimmed(xs[k]) && ',' !in xs[k]
    ensures TrimAll(Split(w + Join(xs, ", "), ',')) == xs
    decreases |xs|
  {
    assert ',' !in w + xs[0] by {
      assert forall i :: 0 <= i < |w| ==> w[i] != ',';
    }
    TrimAfterSpaces(w, xs[0]);
    if |xs| == 1 {
      SplitWithout(w + xs[0], ',');
    } else {
      var rest := Join(xs[1..], ", ");
      JoinStep(w, xs);
      SplitAt(w + xs[0], ',', " " + rest);
      TrimAllCons(w + xs[0], Split(" " + rest, ','));
      assert forall k :: 0 <= k < |xs[1..]| ==> xs[1..][k] == xs[k + 1];
      TrimSplitJoin(" ", xs[1..]);
      assert [xs[0]] + xs[1..] == xs;
    }
  }

  /** A list shown by `openEdit` as `join(", ")` parses back to itself when
      its elements are non-empty, trimmed and free of commas; the empty list
      round-trips too. */
  lemma ParseListOfJoin(xs: seq<string>)
    requires forall k :: 0 <= k < |xs| ==> xs[k] != "" && Trimmed(xs[k]) && ',' !in xs[k]
    ensures ParseList(Join(xs, ", ")) == xs
  {
    if xs == [] {
      assert Split("", ',') == [""];
      assert TrimAll([""]) == [""];
    } else {
      TrimSplitJoin("", xs);
      assert "" + Join(xs, ", ") == Join(xs, ", ");
      Filtering.FilterKeepsAll(xs, NonEmpty);
    }
  }

  /** No element of a parsed list holds a comma: splitting removes every
      comma and trimming adds none. */
  lemma ParseListCommaFree(input: string)
    ensures forall k :: 0 <= k < |ParseList(input)| ==> ',' !in ParseList(input)[k]
  {
    var split := Split(input, ',');
    var pieces := TrimAll(split);
    SplitPiecesLackSeparator(input, ',');
    forall k | 0 <= k < |pieces| ensures ',' !in pieces[k] {
      TrimKeepsOut(split[k], ',');
    }
    forall k | 0 <= k < |ParseList(input)| ensures ',' !in ParseList(input)[k] {
      Filtering.FilterMembers(pieces, NonEmpty, ParseList(input)[k]);
    }
  }

  /** Parsing is idempotent: re-joining a parsed list and parsing again
      changes nothing, for every input. */
  lemma ParseListStable(input: string)
    ensures ParseList(Join(ParseList(input), ", ")) == ParseList(input)
  {
    ParseListCommaFree(input);
    ParseListOfJoin(ParseList(input));
  }

  // ------------------------------------------------------------- form logic

  function EmptyForm(): ProductForm {
    ProductForm("", "", "", "", "", 0.0, "", "", "", 0)
  }

  function OrEmpty(s: Option<string>): string {
    if s.Some? then s.value else ""
  }

  /** `p.categories?.join(", ") || ""`. */
  function JoinedOrEmpty(xs: Option<seq<string>>): string {
    if xs.Some? then Join(xs.value, ", ") else ""
  }

  /** The form `openEdit(p)` fills: optional text becomes "", lists are
      joined with ", ", the initial stock is 0 and the product type keeps
      whatever the form held. */
  function FormOf(p: ProductDto, productType: string): (f: ProductForm)
    ensures f.title == p.title && f.author == p.author && f.price == p.price && f.initialStock == 0
    ensures f.isbn == (if p.isbn.Some? then p.isbn.value else "")
    ensures f.publisher == (if p.publisher.Some? then p.publisher.value else "")
    ensures f.description == (if p.description.Some? then p.description.value else "")
    ensures f.productType == productType
    ensures p.categories.None? ==> f.categoriesInput == ""
    ensures p.images.None? ==> f.imagesInput == ""
  {
    ProductForm(p.title, OrEmpty(p.isbn), p.author, OrEmpty(p.publisher), OrEmpty(p.description),
                p.price, productType, JoinedOrEmpty(p.categories), JoinedOrEmpty(p.images), 0)
  }

  predicate WellFormedList(xs: Option<seq<string>>) {
    xs.Some? ==> forall k :: 0 <= k < |xs.value| ==> xs.value[k] != "" && Trimmed(xs.value[k]) && ',' !in xs.value[k]
  }

  /** Editing a product and submitting unchanged sends back its categories
      and images (an absent list becomes the empty list). */
  lemma EditKeepsLists(p: ProductDto, productType: string)
    requires WellFormedList(p.categories) && WellFormedList(p.images)
    ensures ParseList(FormOf(p, productType).categoriesInput) == (if p.categories.Some? then p.categories.value else [])
    ensures ParseList(FormOf(p, productType).imagesInput) == (if p.images.Some? then p.images.value else [])
  {
    if p.categories.Some? { ParseListOfJoin(p.categories.value); } else { ParseListOfJoin([]); }
    if p.images.Some? { ParseListOfJoin(p.images.value); } else { ParseListOfJoin([]); }
  }

  /** The request `handleSubmit` sends. Create mode posts the full body;
      edit mode with a selection puts the body without product type and
      initial stock; edit mode without one posts to /products with no body. */
  function SubmitRequest(mode: FormMode, selected: Option<ProductDto>, f: ProductForm): (r: ProductRequest)
    ensures r.Submit?
    ensures mode == Create ==> r.verb == POST && r.path == "/products" && r.body.Some? && r.body.value.CreatePayload?
                               && r.body.value.productType == f.productType && r.body.value.initialStock == f.initialStock
    ensures mode == Edit && selected.Some? ==> r.verb == PUT && r.path == "/products/" + NumberToString(selected.value.id)
                                               && r.body.Some? && r.body.value.UpdatePayload?
    ensures mode == Edit && selected.None? ==> r.verb == POST && r.path == "/products" && r.body.None?
    ensures r.body.Some? ==> r.body.value.title == f.title && r.body.value.isbn == f.isbn
                             && r.body.value.author == f.author && r.body.value.publisher == f.publisher
                             && r.body.value.description == f.description && r.body.value.price == f.price
                             && r.body.value.categories == ParseList(f.categoriesInput)
                             && r.body.value.images == ParseList(f.imagesInput)
  {
    var categories := ParseList(f.categoriesInput);
    var images := ParseList(f.imagesInput);
    if mode == Create then
      Submit(POST, "/products", Some(CreatePayload(f.title, f.isbn, f.author, f.publisher, f.description,
                                                   f.price, f.productType, categories, images, f.initialStock)))
    else if selected.Some? then
      Submit(PUT, "/products/" + NumberToString(selected.value.id),
             Some(UpdatePayload(f.title, f.isbn, f.author, f.publisher, f.description, f.price, categories, images)))
    else
      Submit(POST, "/products", None)
  }

  class ProductsPage {
    var products: seq<ProductDto>
    var loading: bool
    var error: Option<string>
    var page: int
    var totalPages: int
    var searchTerm: string
    var showForm: bool
    var formMode: FormMode
    var selected: Option<ProductDto>
    var form: ProductForm
    var sent: seq<ProductRequest>

    constructor ()
      ensures products == [] && !loading && error == None && page == 0 && totalPages == 1 && searchTerm == ""
      ensures !showForm && formMode == Create && selected == None && form == EmptyForm() && sent == []
    {
      products, loading, error, page, totalPages, searchTerm := [], false, None, 0, 1, "";
      showForm, formMode, selected, form, sent := false, Create, None, EmptyForm(), [];
    }

    /** `fetchProducts(pageNumber)`. The answer used is `single` for an id
        lookup and `paged` for a search. */
    method FetchProducts(pageNumber: int, single: Response<ProductDto>, paged: Response<ProductPage>)
      modifies this
      ensures sent == old(sent) + [Lookup(SearchRoute(old(searchTerm), pageNumber))]
      ensures !loading
      ensures var route := SearchRoute(old(searchTerm), pageNumber);
              route.ById? && single.Ok? ==> products == [single.payload] && totalPages == 1 && error == None
      ensures var route := SearchRoute(old(searchTerm), pageNumber);
              route.Search? && paged.Ok? ==>
                products == paged.payload.content && totalPages == paged.payload.totalPages && error == None
      ensures var route := SearchRoute(old(searchTerm), pageNumber);
              (if route.ById? then !single.Ok? else !paged.Ok?) ==>
                products == old(products) && totalPages == old(totalPages) && error == Some("Impossibile caricare i prodotti")
      ensures page == old(page) && searchTerm == old(searchTerm) && showForm == old(showForm)
      ensures formMode == old(formMode) && selected == old(selected) && form == old(form)
    {
      loading := true;
      error := None;
      var route := SearchRoute(searchTerm, pageNumber);
      sent := sent + [Lookup(route)];
      if route.ById? {
        if single.Ok? {
          products := [single.payload];
          totalPages := 1;
        } else {
          error := Some("Impossibile caricare i prodotti");
        }
      } else {
        if paged.Ok? {
          products := paged.payload.content;
          totalPages := paged.payload.totalPages;
        } else {
          error := Some("Impossibile caricare i prodotti");
        }
      }
      loading := false;
    }

    method SetSearchTerm(t: string)
      modifies this
      ensures searchTerm == t
      ensures products == old(products) && loading == old(loading) && error == old(error) && page == old(page)
      ensures totalPages == old(totalPages) && showForm == old(showForm) && formMode == old(formMode)
      ensures selected == old(selected) && form == old(form) && sent == old(sent)
    {
      searchTerm := t;
    }

    /** `handleSearch()`: back to the first page, then fetch it. */
    method HandleSearch(single: Response<ProductDto>, paged: Response<ProductPage>)
      modifies this
      ensures page == 0
      ensures sent == old(sent) + [Lookup(SearchRoute(old(searchTerm), 0))]
      ensures var route := SearchRoute(old(searchTerm), 0);
              route.ById? && single.Ok? ==> products == [single.payload] && totalPages == 1 && error == None
      ensures var route := SearchRoute(old(searchTerm), 0);
              route.Search? && paged.Ok? ==>
                products == paged.payload.content && totalPages == paged.payload.totalPages && error == None
      ensures var route := SearchRoute(old(searchTerm), 0);
              (if route.ById? then !single.Ok? else !paged.Ok?) ==>
                products == old(products) && totalPages == old(totalPages) && error == Some("Impossibile caricare i prodotti")
      ensures !loading && searchTerm == old(searchTerm) && showForm == old(showForm)
      ensures formMode == old(formMode) && selected == old(selected) && form == old(form)
    {
      page := 0;
      FetchProducts(0, single, paged);
    }

    method ClearForm()
      modifies this
      ensures form == EmptyForm() && selected == None
      ensures products == old(products) && loading == old(loading) && error == old(error) && page == old(page)
      ensures totalPages == old(totalPages) && searchTerm == old(searchTerm) && showForm == old(showForm)
      ensures formMode == old(formMode) && sent == old(sent)
    {
      form := EmptyForm();
      selected := None;
    }

    method OpenCreate()
      modifies this
      ensures formMode == Create && form == EmptyForm() && selected == None && showForm
      ensures products == old(products) && loading == old(loading) && error == old(error) && page == old(page)
      ensures totalPages == old(totalPages) && searchTerm == old(searchTerm) && sent == old(sent)
    {
      formMode := Create;
      ClearForm();
      showForm := true;
    }

    /** `openEdit(p)`. */
    method OpenEdit(p: ProductDto)
      modifies this
      ensures formMode == Edit && selected == Some(p) && form == FormOf(p, old(form).productType) && showForm
      ensures products == old(products) && loading == old(loading) && error == old(error) && page == old(page)
      ensures totalPages == old(totalPages) && searchTerm == old(searchTerm) && sent == old(sent)
    {
      formMode := Edit;
      selected := Some(p);
      form := FormOf(p, form.productType);
      showForm := true;
    }

    /** `handleSubmit`: on success the form closes and the current page is
        reloaded (`reload`); on failure the mode's message is shown. */
    method HandleSubmit(res: Response<()>) returns (reload: bool)
      modifies this
      ensures sent == old(sent) + [SubmitRequest(old(formMode), old(selected), old(form))]
      ensures reload <==> res.Ok?
      ensures res.Ok? ==> !showForm && error == None
      ensures !res.Ok? ==> showForm == old(showForm) && error == Some(
                if formMode == Create then "Errore durante la creazione" else "Errore durante l'aggiornamento")
      ensures products == old(products) && loading == old(loading) && page == old(page) && totalPages == old(totalPages)
      ensures searchTerm == old(searchTerm) && formMode == old(formMode) && selected == old(selected) && form == old(form)
    {
      error := None;
      sent := sent + [SubmitRequest(formMode, selected, form)];
      if res.Ok? {
        showForm := false;
        reload := true;
      } else {
        error := Some(if formMode == Create then "Errore durante la creazione" else "Errore durante l'aggiornamento");
        reload := false;
      }
    }

    /** The `for` loop building one pagination button per page. */
    method PaginationLinks() returns (items: seq<Pagination.PageLink>)
      ensures |items| == if totalPages > 0 then totalPages else 0
      ensures forall i :: 0 <= i < |items| ==> items[i].target == i && items[i].shown == i + 1
      ensures forall i :: 0 <= i < |items| ==> (items[i].active <==> i == page)
    {
      items := Pagination.PaginationItems(totalPages, page);
    }
  }

  /** A client: editing an unchanged product sends its lists back as they were. */
  method EditAndSubmit(p: ProductDto)
    requires WellFormedList(p.categories) && WellFormedList(p.images)
  {
    var pg := new ProductsPage();
    pg.OpenEdit(p);
    var reload := pg.HandleSubmit(Ok(()));
    EditKeepsLists(p, "");
    var r := pg.sent[|pg.sent| - 1];
    assert r == SubmitRequest(Edit, Some(p), FormOf(p, ""));
    assert r.body.value.categories == if p.categories.Some? then p.categories.value else [];
    assert reload;
  }
}
