/** The search page (src/components/SearchPage.tsx): the `title` query
    parameter drives a fetch whose answer is filtered on the lower-cased,
    trimmed title and sorted by title. The collation of `localeCompare` is
    an arbitrary total preorder over titles; `Array.prototype.sort` is
    stable, so products whose titles tie keep the order of the answer. */
module SearchPage {
  import opened Wrappers
  import opened Js
  import opened Catalog
  import Filtering

  /** A "title a sorts no later than title b" relation. */
  ghost predicate TotalPreorder(leq: (string, string) -> bool) {
    (forall a, b :: leq(a, b) || leq(b, a))
    && (forall a, b, c :: leq(a, b) && leq(b, c) ==> leq(a, c))
  }

  predicate SortedBy(xs: seq<Product>, leq: (string, string) -> bool) {
    forall i, j :: 0 <= i < j < |xs| ==> leq(xs[i].title, xs[j].title)
  }

  /** Puts `x` before the first element it sorts no later than. */
  function Insert(x: Product, xs: seq<Product>, leq: (string, string) -> bool): (r: seq<Product>)
    ensures multiset(r) == multiset(xs) + multiset{x}
  {
    if xs == [] then [x]
    else if leq(x.title, xs[0].title) then [x] + xs
    else
      assert xs == [xs[0]] + xs[1..];
      [xs[0]] + Insert(x, xs[1..], leq)
  }

  /** Every element of `Insert(x, xs)` is an element of `xs` or `x` itself. */
  lemma InsertBound(x: Product, xs: seq<Product>, leq: (string, string) -> bool, low: string)
    requires leq(low, x.title)
    requires forall k :: 0 <= k < |xs| ==> leq(low, xs[k].title)
    ensures forall y :: y in Insert(x, xs, leq) ==> leq(low, y.title)
  {
    var r := Insert(x, xs, leq);
    forall y | y in r ensures leq(low, y.title) {
      assert y in multiset(r);
      assert y in multiset(xs) + multiset{x};
      if y != x {
        assert y in xs;
      }
    }
  }

  /** A strictly smaller head keeps a sorted list sorted. */
  lemma FrontSorted(x: Product, xs: seq<Product>, leq: (string, string) -> bool)
    requires TotalPreorder(leq)
    requires SortedBy(xs, leq)
    requires xs != [] && leq(x.title, xs[0].title)
    ensures SortedBy([x] + xs, leq)
  {
    var r := [x] + xs;
    forall i, j | 0 <= i < j < |r| ensures leq(r[i].title, r[j].title) {
      if i == 0 && j > 1 {
        assert leq(xs[0].title, xs[j - 1].title);
      }
    }
  }

  lemma {:induction false} InsertSorted(x: Product, xs: seq<Product>, leq: (string, string) -> bool)
    requires TotalPreorder(leq)
    requires SortedBy(xs, leq)
    ensures SortedBy(Insert(x, xs, leq), leq)
  {
    if xs == [] {
    } else if leq(x.title, xs[0].title) {
      FrontSorted(x, xs, leq);
    } else {
      assert leq(xs[0].title, x.title);
      var rest := Insert(x, xs[1..], leq);
      InsertSorted(x, xs[1..], leq);
      InsertBound(x, xs[1..], leq, xs[0].title);
      var r := [xs[0]] + rest;
      forall i, j | 0 <= i < j < |r| ensures leq(r[i].title, r[j].title) {
        if i == 0 {
          assert r[j] == rest[j - 1];
          assert r[j] in rest;
        } else {
          assert r[i] == rest[i - 1] && r[j] == rest[j - 1];
        }
      }
    }
  }

  /** Within a class of products whose titles all tie, inserting `x` keeps
      the order of the others and puts `x` in front of them when it belongs
      to the class. */
  lemma {:induction false} InsertTieClass(x: Product, xs: seq<Product>, leq: (string, string) -> bool, tied: Product -> bool)
    requires forall y, z :: tied(y) && tied(z) ==> leq(y.title, z.title)
    ensures Filtering.Filter(Insert(x, xs, leq), tied) == (if tied(x) then [x] else []) + Filtering.Filter(xs, tied)
  {
    if xs == [] {
    } else if leq(x.title, xs[0].title) {
      assert ([x] + xs)[1..] == xs;
    } else {
      InsertTieClass(x, xs[1..], leq, tied);
      var r := [xs[0]] + Insert(x, xs[1..], leq);
      assert r[1..] == Insert(x, xs[1..], leq);
      assert !(tied(x) && tied(xs[0]));
    }
  }

  /** `.sort((a, b) => a.title.localeCompare(b.title, …))`. */
  function SortByTitle(xs: seq<Product>, leq: (string, string) -> bool): (r: seq<Product>)
    ensures multiset(r) == multiset(xs)
  {
    if xs == [] then []
    else
      assert xs == [xs[0]] + xs[1..];
      Insert(xs[0], SortByTitle(xs[1..], leq), leq)
  }

  lemma {:induction false} SortByTitleSorted(xs: seq<Product>, leq: (string, string) -> bool)
    requires TotalPreorder(leq)
    ensures SortedBy(SortByTitle(xs, leq), leq)
  {
    if xs != [] {
      SortByTitleSorted(xs[1..], leq);
      InsertSorted(xs[0], SortByTitle(xs[1..], leq), leq);
    }
  }

  /** The sort is stable: the products of any one tie class come out in
      the order they went in. */
  lemma {:induction false} SortByTitleStable(xs: seq<Product>, leq: (string, string) -> bool, tied: Product -> bool)
    requires forall y, z :: tied(y) && tied(z) ==> leq(y.title, z.title)
    ensures Filtering.Filter(SortByTitle(xs, leq), tied) == Filtering.Filter(xs, tied)
  {
    if xs != [] {
      SortByTitleStable(xs[1..], leq, tied);
      InsertTieClass(xs[0], SortByTitle(xs[1..], leq), leq, tied);
    }
  }

  /** Two products with the same title keep their order. */
  lemma SameTitleKeepsOrder(a: Product, b: Product, leq: (string, string) -> bool)
    requires TotalPreorder(leq)
    requires a.title == b.title
    ensures SortByTitle([a, b], leq) == [a, b]
  {
    assert [a, b][1..] == [b];
    assert leq(a.title, b.title);
  }

  /** Titles `a` and `b` sort alike. */
  predicate Ties(leq: (string, string) -> bool, a: string, b: string) {
    leq(a, b) && leq(b, a)
  }

  /** `p.title.toLowerCase().includes(q)`: the empty key matches every title. */
  function TitleMatches(p: Product, q: string): (r: bool)
    ensures q == "" ==> r
  {
    IncludesEmpty(ToLower(p.title));
    Includes(ToLower(p.title), q)
  }

  /** `title.toLowerCase().trim()`. */
  function SearchKey(title: string): (k: string)
    ensures Trimmed(k) && |k| <= |title|
    ensures forall i :: 0 <= i < |k| ==> !('A' <= k[i] <= 'Z')
  {
    TrimIsTrimmed(ToLower(title));
    TrimChars(ToLower(title));
    Trim(ToLower(title))
  }

  /** The pipeline applied to the answer's `content`. */
  function Results(content: seq<Product>, title: string, leq: (string, string) -> bool): (r: seq<Product>)
    ensures multiset(r) == multiset(Filtering.Filter(content, p => TitleMatches(p, SearchKey(title))))
  {
    var q := SearchKey(title);
    SortByTitle(Filtering.Filter(content, p => TitleMatches(p, q)), leq)
  }

  /** Every result's lower-cased title contains the key, every matching
      product is a result, and the results are sorted by title. */
  lemma ResultsSpec(content: seq<Product>, title: string, leq: (string, string) -> bool, p: Product)
    requires TotalPreorder(leq)
    ensures p in Results(content, title, leq) <==> p in content && TitleMatches(p, SearchKey(title))
    ensures SortedBy(Results(content, title, leq), leq)
  {
    var q := SearchKey(title);
    var f := Filtering.Filter(content, p => TitleMatches(p, q));
    Filtering.FilterMembers(content, p => TitleMatches(p, q), p);
    assert p in Results(content, title, leq) <==> p in multiset(f);
    SortByTitleSorted(f, leq);
  }

  /** The results tying with any title `t` are the matching products of
      the answer tying with `t`, in the answer's order. */
  lemma ResultsStable(content: seq<Product>, title: string, leq: (string, string) -> bool, t: string)
    requires TotalPreorder(leq)
    ensures Filtering.Filter(Results(content, title, leq), (p: Product) => Ties(leq, p.title, t))
         == Filtering.Filter(Filtering.Filter(content, p => TitleMatches(p, SearchKey(title))), (p: Product) => Ties(leq, p.title, t))
  {
    var q := SearchKey(title);
    var tied := (p: Product) => Ties(leq, p.title, t);
    forall y: Product, z: Product | tied(y) && tied(z) ensures leq(y.title, z.title) {
      assert leq(y.title, t) && leq(t, z.title);
    }
    SortByTitleStable(Filtering.Filter(content, p => TitleMatches(p, q)), leq, tied);
  }

  class SearchPageState {
    var products: seq<Product>
    var loading: bool
    var error: Option<string>
    var sent: seq<string>

    constructor ()
      ensures products == [] && loading && error == None && sent == []
    {
      products, loading, error, sent := [], true, None, [];
    }

    /** The effect on `[title, token]`: nothing without a title; otherwise
        the titles searched are logged in `sent`, a non-ok status becomes
        "Errore: <status>" and a rejected fetch its message. */
    method Load(title: string, res: Response<seq<Product>>, leq: (string, string) -> bool)
      modifies this
      ensures title == "" ==> products == old(products) && loading == old(loading) && error == old(error) && sent == old(sent)
      ensures title != "" ==> sent == old(sent) + [title] && !loading
      ensures title != "" && res.Ok? ==> products == Results(res.payload, title, leq) && error == old(error)
      ensures title != "" && res.Fail? ==> products == old(products) && error == Some("Errore: " + NumberToString(res.status))
      ensures title != "" && res.Rejected? ==> products == old(products) && error == Some(res.message)
    {
      if title == "" { return; }
      loading := true;
      sent := sent + [title];
      match res {
        case Ok(content) => products := Results(content, title, leq);
        case Fail(status) => error := Some("Errore: " + NumberToString(status));
        case Rejected(message) => error := Some(message);
      }
      loading := false;
    }
  }
}
