/** The category filter of the catalog pages. src/pages/Products.tsx:32-48 and
    src/pages/Home.tsx:33-49 hold the same code; both pages are modelled by these members. */
module Catalog {
  import opened Wrappers
  import opened Types

  const All := "all"

  /** Position of the first occurrence of `x`, or `|xs|` when there is none. */
  function FirstIndex<T(==)>(xs: seq<T>, x: T): (k: nat)
    ensures k <= |xs|
  {
    if xs == [] then 0 else if xs[0] == x then 0 else 1 + FirstIndex(xs[1..], x)
  }

  /** `FirstIndex` finds the first occurrence, and `|xs|` only for an absent element. */
  lemma {:induction false} FirstIndexIsFirst<T>(xs: seq<T>, x: T)
    ensures var k := FirstIndex(xs, x);
      && (k < |xs| <==> x in xs)
      && (k < |xs| ==> xs[k] == x)
      && forall j :: 0 <= j < k ==> xs[j] != x
  {
    if xs != [] && xs[0] != x {
      FirstIndexIsFirst(xs[1..], x);
      assert forall y :: y in xs <==> y == xs[0] || y in xs[1..] by {
        assert xs == [xs[0]] + xs[1..];
      }
    }
  }

  predicate NoDuplicates<T(==)>(xs: seq<T>) {
    forall i, j :: 0 <= i < j < |xs| ==> xs[i] != xs[j]
  }

  /** The elements of `xs` not in `seen`, each once, in the order a `Set` built from `xs`
      lists them. */
  function Unique<T(==)>(xs: seq<T>, seen: set<T>): (r: seq<T>)
    ensures |r| <= |xs|
  {
    if xs == [] then []
    else if xs[0] in seen then Unique(xs[1..], seen)
    else [xs[0]] + Unique(xs[1..], seen + {xs[0]})
  }

  /** `Unique` lists exactly the elements of `xs` not in `seen`. */
  lemma {:induction false} UniqueMembers<T>(xs: seq<T>, seen: set<T>)
    ensures forall x :: x in Unique(xs, seen) <==> x in xs && x !in seen
  {
    if xs != [] {
      var rest := xs[1..];
      assert forall x :: x in xs <==> x == xs[0] || x in rest by {
        assert xs == [xs[0]] + rest;
      }
      if xs[0] in seen {
        UniqueMembers(rest, seen);
      } else {
        UniqueMembers(rest, seen + {xs[0]});
      }
    }
  }

  /** `Unique` lists each element at most once. */
  lemma {:induction false} UniqueNoDuplicates<T>(xs: seq<T>, seen: set<T>)
    ensures NoDuplicates(Unique(xs, seen))
  {
    if xs != [] {
      var rest := xs[1..];
      if xs[0] in seen {
        UniqueNoDuplicates(rest, seen);
      } else {
        var t := Unique(rest, seen + {xs[0]});
        UniqueNoDuplicates(rest, seen + {xs[0]});
        UniqueMembers(rest, seen + {xs[0]});
        var r := Unique(xs, seen);
        assert r == [xs[0]] + t;
        forall i, j | 0 <= i < j < |r| ensures r[i] != r[j] {
          assert r[j] == t[j - 1] && t[j - 1] in t;
          if i > 0 {
            assert r[i] == t[i - 1];
          }
        }
      }
    }
  }

  /** Past a head it differs from, an element's first position is one more than in the tail. */
  lemma FirstIndexTail<T>(xs: seq<T>, x: T)
    requires |xs| > 0 && x != xs[0]
    ensures FirstIndex(xs, x) == 1 + FirstIndex(xs[1..], x)
  {
  }

  /** Each element `Unique` lists first occurs in `xs` before the ones listed after it. */
  lemma {:induction false} UniqueFirstSeen<T>(xs: seq<T>, seen: set<T>, i: nat, j: nat)
    requires i < j < |Unique(xs, seen)|
    ensures FirstIndex(xs, Unique(xs, seen)[i]) < FirstIndex(xs, Unique(xs, seen)[j])
  {
    var rest := xs[1..];
    var r := Unique(xs, seen);
    if xs[0] in seen {
      var t := Unique(rest, seen);
      assert r == t;
      UniqueFirstSeen(rest, seen, i, j);
      UniqueMembers(rest, seen);
      assert t[i] in t && t[j] in t;
      FirstIndexTail(xs, t[i]);
      FirstIndexTail(xs, t[j]);
      assert FirstIndex(xs, r[i]) < FirstIndex(xs, r[j]);
    } else {
      var seen' := seen + {xs[0]};
      var t := Unique(rest, seen');
      UniqueMembers(rest, seen');
      assert r == [xs[0]] + t;
      assert r[j] == t[j - 1] && t[j - 1] in t;
      FirstIndexTail(xs, t[j - 1]);
      if i == 0 {
        assert r[i] == xs[0];
        assert FirstIndex(xs, r[i]) == 0;
      } else {
        assert r[i] == t[i - 1] && t[i - 1] in t;
        FirstIndexTail(xs, t[i - 1]);
        UniqueFirstSeen(rest, seen', i - 1, j - 1);
      }
      assert FirstIndex(xs, r[i]) < FirstIndex(xs, r[j]);
    }
  }

  /** `.filter(Boolean)` on strings: the non-empty ones, in order. */
  function NonEmpty(cs: seq<string>): (r: seq<string>)
    ensures forall c :: c in r <==> c in cs && c != ""
  {
    if cs == [] then []
    else
      assert forall c :: c in cs <==> c == cs[0] || c in cs[1..] by {
        assert cs == [cs[0]] + cs[1..];
      }
      (if cs[0] == "" then [] else [cs[0]]) + NonEmpty(cs[1..])
  }

  /** Filtering keeps the order in which non-empty strings first occur. */
  lemma {:induction false} NonEmptyKeepsOrder(cs: seq<string>, x: string, y: string)
    requires x != "" && y != ""
    requires FirstIndex(NonEmpty(cs), x) < FirstIndex(NonEmpty(cs), y)
    ensures FirstIndex(cs, x) < FirstIndex(cs, y)
  {
    var rest := cs[1..];
    if cs[0] == "" {
      assert NonEmpty(cs) == NonEmpty(rest);
      NonEmptyKeepsOrder(rest, x, y);
      FirstIndexTail(cs, x);
      FirstIndexTail(cs, y);
    } else {
      assert NonEmpty(cs) == [cs[0]] + NonEmpty(rest);
      if x != cs[0] {
        assert y != cs[0];
        FirstIndexTail(NonEmpty(cs), x);
        FirstIndexTail(NonEmpty(cs), y);
        NonEmptyKeepsOrder(rest, x, y);
        FirstIndexTail(cs, x);
        FirstIndexTail(cs, y);
      }
    }
  }

  function CategoriesOf(products: seq<Product>): seq<string> {
    seq(|products|, i requires 0 <= i < |products| => products[i].category)
  }

  /** `categories`: "all" followed by the distinct non-empty categories. */
  function Categories(products: seq<Product>): (r: seq<string>)
    ensures |r| >= 1 && r[0] == All
  {
    [All] + Unique(NonEmpty(CategoriesOf(products)), {})
  }

  /** A string is a category of `products` exactly when some product has it. */
  lemma CategoriesOfMembers(products: seq<Product>)
    ensures forall c :: c in CategoriesOf(products) <==> exists p :: p in products && p.category == c
  {
    var cs := CategoriesOf(products);
    forall c ensures c in cs <==> exists p :: p in products && p.category == c {
      if c in cs {
        var k :| 0 <= k < |cs| && cs[k] == c;
        assert products[k] in products;
      }
      if exists p :: p in products && p.category == c {
        var p :| p in products && p.category == c;
        var k :| 0 <= k < |products| && products[k] == p;
        assert cs[k] == c;
      }
    }
  }

  /** The entries after "all" are the non-empty categories of the products. */
  lemma CategoriesMembers(products: seq<Product>)
    ensures forall c :: c in Categories(products)[1..] <==>
                        c != "" && exists p :: p in products && p.category == c
  {
    var ne := NonEmpty(CategoriesOf(products));
    assert Categories(products)[1..] == Unique(ne, {});
    CategoriesOfMembers(products);
    UniqueMembers(ne, {});
  }

  /** The distinct non-empty strings of `cs` are listed in order of first occurrence in `cs`. */
  lemma UniqueNonEmptyOrder(cs: seq<string>, i: nat, j: nat)
    requires i < j < |Unique(NonEmpty(cs), {})|
    ensures var d := Unique(NonEmpty(cs), {});
      FirstIndex(cs, d[i]) < FirstIndex(cs, d[j])
  {
    var ne := NonEmpty(cs);
    var d := Unique(ne, {});
    var x, y := d[i], d[j];
    UniqueMembers(ne, {});
    assert x in d && y in d;
    assert x != "" && y != "";
    UniqueFirstSeen(ne, {}, i, j);
    NonEmptyKeepsOrder(cs, x, y);
  }

  /** The entries after "all" are listed in order of first appearance among the products. */
  lemma CategoriesOrder(products: seq<Product>, i: nat, j: nat)
    requires 1 <= i < j < |Categories(products)|
    ensures var r := Categories(products);
      FirstIndex(CategoriesOf(products), r[i]) < FirstIndex(CategoriesOf(products), r[j])
  {
    var cs := CategoriesOf(products);
    var r := Categories(products);
    assert r[1..] == Unique(NonEmpty(cs), {});
    assert r[i] == r[1..][i - 1] && r[j] == r[1..][j - 1];
    UniqueNonEmptyOrder(cs, i - 1, j - 1);
  }

  /** The entries after "all" are exactly the non-empty categories of the products,
      each once, in order of first appearance. */
  lemma CategoriesSpec(products: seq<Product>)
    ensures var r := Categories(products);
      && r[0] == All
      && (forall c :: c in r[1..] <==> c != "" && exists p :: p in products && p.category == c)
      && NoDuplicates(r[1..])
      && (forall i, j :: 1 <= i < j < |r| ==>
            FirstIndex(CategoriesOf(products), r[i]) < FirstIndex(CategoriesOf(products), r[j]))
  {
    var r := Categories(products);
    CategoriesMembers(products);
    assert r[1..] == Unique(NonEmpty(CategoriesOf(products)), {});
    UniqueNoDuplicates(NonEmpty(CategoriesOf(products)), {});
    forall i, j | 1 <= i < j < |r|
      ensures FirstIndex(CategoriesOf(products), r[i]) < FirstIndex(CategoriesOf(products), r[j])
    {
      CategoriesOrder(products, i, j);
    }
  }

  /** Order-preserving subsequence. */
  predicate IsSubsequence(a: seq<Product>, b: seq<Product>)
    decreases |b|
  {
    a == [] || (b != [] && ((a[0] == b[0] && IsSubsequence(a[1..], b[1..])) || IsSubsequence(a, b[1..])))
  }

  /** The products whose category is `c`. */
  function Matching(products: seq<Product>, c: string): (r: seq<Product>)
    ensures forall p :: p in r <==> p in products && p.category == c
  {
    if products == [] then []
    else if products[0].category == c then [products[0]] + Matching(products[1..], c)
    else Matching(products[1..], c)
  }

  lemma {:induction false} MatchingIsSubsequence(products: seq<Product>, c: string)
    ensures IsSubsequence(Matching(products, c), products)
  {
    if products != [] {
      MatchingIsSubsequence(products[1..], c);
      var r := Matching(products, c);
      if products[0].category == c {
        assert r[0] == products[0] && r[1..] == Matching(products[1..], c);
      }
    }
  }

  /** `filteredProducts` */
  function FilterByCategory(products: seq<Product>, selected: string): (r: seq<Product>)
    ensures selected == All ==> r == products
    ensures selected != All ==> IsSubsequence(r, products)
    ensures selected != All ==> forall p :: p in r <==> p in products && p.category == selected
  {
    if selected == All then products
    else
      MatchingIsSubsequence(products, selected);
      Matching(products, selected)
  }

  /** The filter works product by product, keeping their order. */
  lemma {:induction false} MatchingConcat(a: seq<Product>, b: seq<Product>, c: string)
    ensures Matching(a + b, c) == Matching(a, c) + Matching(b, c)
  {
    if a == [] {
      assert a + b == b;
    } else {
      var p, rest := a[0], a[1..];
      var head := if p.category == c then [p] else [];
      assert a == [p] + rest;
      assert a + b == [p] + (rest + b);
      MatchingCons(p, rest, c);
      MatchingCons(p, rest + b, c);
      MatchingConcat(rest, b, c);
      assert head + (Matching(rest, c) + Matching(b, c)) == (head + Matching(rest, c)) + Matching(b, c);
    }
  }

  lemma MatchingCons(p: Product, rest: seq<Product>, c: string)
    ensures Matching([p] + rest, c) == (if p.category == c then [p] else []) + Matching(rest, c)
  {
    assert ([p] + rest)[0] == p;
    assert ([p] + rest)[1..] == rest;
  }

  /** The selection-reset effect: a selection that is neither "all" nor a listed category
      falls back to "all". */
  function ResetSelection(categories: seq<string>, selected: string): (r: string)
    ensures r == selected || r == All
    ensures r == selected <==> selected == All || selected in categories
  {
    if selected != All && selected !in categories then All else selected
  }

  /** Once reset, the selection is listed, a second reset keeps it, and a selection other
      than "all" shows at least one product. */
  lemma SettledSelection(products: seq<Product>, selected: string)
    ensures var cats := Categories(products);
      var s := ResetSelection(cats, selected);
      && s in cats
      && ResetSelection(cats, s) == s
      && (s != All ==> FilterByCategory(products, s) != [])
  {
    var cats := Categories(products);
    var s := ResetSelection(cats, selected);
    if s != All {
      CategoriesSpec(products);
      assert s in cats[1..];
      var p :| p in products && p.category == s;
      assert p in FilterByCategory(products, s);
    }
  }

  /** `canManage={Boolean(user)}` */
  function CanManage(user: Option<User>): bool {
    user.Some?
  }

  /** A lone product filed under "all" shows that category twice: once as the fixed first
      entry and once as its own category. */
  lemma CategoryAllRepeats(p: Product)
    requires p.category == All
    ensures Categories([p]) == [All, All]
  {
    assert CategoriesOf([p]) == [All];
    assert NonEmpty([All]) == [All];
  }

  /** What a catalog page shows once the reset effect has run. */
  datatype CatalogView = CatalogView(categories: seq<string>, selected: string,
                                     visible: seq<Product>, canManage: bool)

  function SettledView(products: seq<Product>, selected: string, user: Option<User>): (v: CatalogView)
    ensures v.categories == Categories(products) && v.selected in v.categories
    ensures v.selected == selected <==> selected == All || selected in v.categories
    ensures v.visible == FilterByCategory(products, v.selected)
    ensures v.selected != All ==> v.visible != []
    ensures v.canManage <==> user.Some?
  {
    SettledSelection(products, selected);
    var cats := Categories(products);
    var s := ResetSelection(cats, selected);
    CatalogView(cats, s, FilterByCategory(products, s), CanManage(user))
  }
}
