/**
 * The catalogue page: the filter on category, search text and price band,
 * the sort orders, the category list, and the add-to-cart button. Money is
 * in integer cents.
 */
module ProductsPage {
  import opened Wrappers
  import opened Http
  import opened Sequences
  import opened CartApi
  import opened ProductsApi

  /* ---------- case-insensitive search ---------- */

  /** A capital letter of ASCII or Latin-1 (the multiplication sign U+00D7 lies in that range but is not a letter). */
  predicate IsCapital(c: char) {
    'A' <= c <= 'Z' || ('\U{C0}' <= c <= '\U{DE}' && c != '\U{D7}')
  }

  /**
   * `toLowerCase` on one character, for ASCII and the Latin-1 capitals:
   * each capital becomes the small letter 32 code points above it, and
   * every other character is kept.
   */
  function LowerChar(c: char): (r: char)
    ensures 'A' <= c <= 'Z' ==> 'a' <= r <= 'z'
    ensures IsCapital(c) ==> r as int == c as int + 32
    ensures !IsCapital(c) ==> r == c
  {
    if 'A' <= c <= 'Z' || ('\U{C0}' <= c <= '\U{DE}' && c != '\U{D7}') then (c as int + 32) as char else c
  }

  function Lower(s: string): (r: string)
    ensures |r| == |s| && forall i :: 0 <= i < |s| ==> r[i] == LowerChar(s[i])
  {
    seq(|s|, i requires 0 <= i < |s| => LowerChar(s[i]))
  }

  /** `s.includes(sub)`: tries every position from the left; the empty text occurs in every text. */
  function Contains(s: string, sub: string): (r: bool)
    ensures sub == [] ==> r
    ensures r ==> |sub| <= |s|
    decreases |s|
  {
    if |sub| <= |s| && s[..|sub|] == sub then true
    else if s == [] then false
    else Contains(s[1..], sub)
  }

  /** `sub` occurs in `s` starting at index `i`. */
  predicate OccursAt(s: string, sub: string, i: int) {
    0 <= i <= |s| - |sub| && s[i..i + |sub|] == sub
  }

  /** `includes` holds exactly when `sub` occurs at some position of `s`. */
  lemma {:induction false} ContainsIff(s: string, sub: string)
    ensures Contains(s, sub) <==> exists i :: OccursAt(s, sub, i)
    decreases |s|
  {
    if |sub| <= |s| && s[..|sub|] == sub {
      assert OccursAt(s, sub, 0);
    } else if s != [] {
      ContainsIff(s[1..], sub);
      if Contains(s, sub) {
        var i :| OccursAt(s[1..], sub, i);
        assert s[1..][i..i + |sub|] == s[i + 1..i + 1 + |sub|];
        assert OccursAt(s, sub, i + 1);
      }
      if exists i :: OccursAt(s, sub, i) {
        var i :| OccursAt(s, sub, i);
        assert i != 0;
        assert s[1..][i - 1..i - 1 + |sub|] == s[i..i + |sub|];
        assert OccursAt(s[1..], sub, i - 1);
      }
    } else {
      assert forall i :: !OccursAt(s, sub, i);
    }
  }

  /* ---------- filters ---------- */

  datatype Filters = Filters(category: string, search: string, sortBy: string, priceRange: string)

  /** What `clearFilters` resets to. */
  const DefaultFilters: Filters := Filters("", "", "name", "all")

  /** The four bands of the price select. */
  const PriceBands: seq<string> := ["under-100", "100-500", "500-1000", "over-1000"]

  /** The price bands of the select, in cents; "all" and any other value accept every price. */
  predicate InPriceBand(band: string, price: int)
    ensures band !in PriceBands ==> InPriceBand(band, price)
  {
    if band == "under-100" then price < 10000
    else if band == "100-500" then 10000 <= price <= 50000
    else if band == "500-1000" then 50000 <= price <= 100000
    else if band == "over-1000" then price > 100000
    else true
  }

  /**
   * Every price falls in at least one band; bands meet only at 500.00,
   * which both "100-500" and "500-1000" accept.
   */
  lemma PriceBandsCover(price: int)
    ensures exists b :: b in PriceBands && InPriceBand(b, price)
    ensures forall b1, b2 ::
              (b1 in PriceBands && b2 in PriceBands && b1 != b2 && InPriceBand(b1, price) && InPriceBand(b2, price))
              ==> price == 50000
  {
    if price < 10000 {
      assert InPriceBand(PriceBands[0], price);
    } else if price <= 50000 {
      assert InPriceBand(PriceBands[1], price);
    } else if price <= 100000 {
      assert InPriceBand(PriceBands[2], price);
    } else {
      assert InPriceBand(PriceBands[3], price);
    }
  }

  predicate MatchesCategory(f: Filters, p: Product) {
    f.category == "" || p.category == f.category
  }

  /** The search condition: an empty search, or the lower-cased search text occurring in the lower-cased name. */
  predicate MatchesSearch(f: Filters, p: Product)
    ensures MatchesSearch(f, p) <==> f.search == "" || exists i :: OccursAt(Lower(p.name), Lower(f.search), i)
  {
    ContainsIff(Lower(p.name), Lower(f.search));
    f.search == "" || Contains(Lower(p.name), Lower(f.search))
  }

  /** The predicate of the `filter`: all three conditions at once; cleared conditions accept every product. */
  predicate Matches(f: Filters, p: Product)
    ensures f.category == "" && f.search == "" && f.priceRange == "all" ==> Matches(f, p)
  {
    MatchesCategory(f, p) && MatchesSearch(f, p) && InPriceBand(f.priceRange, p.price)
  }

  /**
   * `filteredProducts`: an order-preserving subsequence of the catalogue
   * holding exactly the products that match.
   */
  function FilteredProducts(ps: seq<Product>, f: Filters): (r: seq<Product>)
    ensures IsSubsequence(r, ps)
    ensures forall i :: 0 <= i < |r| ==> r[i] in ps && Matches(f, r[i])
    ensures forall i :: 0 <= i < |ps| && Matches(f, ps[i]) ==> ps[i] in r
    ensures forall p :: multiset(r)[p] == if Matches(f, p) then multiset(ps)[p] else 0
  {
    FilterIsSubsequence(ps, p => Matches(f, p));
    Filter(ps, p => Matches(f, p))
  }

  /** With the filters cleared every product is shown, in catalogue order. */
  lemma ClearedFiltersShowAll(ps: seq<Product>)
    ensures FilteredProducts(ps, DefaultFilters) == ps
  {
    FilterKeepsAll(ps, p => Matches(DefaultFilters, p));
  }

  /* ---------- sorting ---------- */

  /** Code-point lexicographic comparison: -1, 0 or 1, and 0 exactly for equal names. */
  function LexCompare(a: string, b: string): (r: int)
    ensures -1 <= r <= 1
    ensures r == 0 <==> a == b
  {
    if a == [] && b == [] then 0
    else if a == [] then -1
    else if b == [] then 1
    else if a[0] < b[0] then -1
    else if a[0] > b[0] then 1
    else LexCompare(a[1..], b[1..])
  }

  lemma {:induction false} LexCompareAntisymmetric(a: string, b: string)
    ensures LexCompare(a, b) == -LexCompare(b, a)
  {
    if a != [] && b != [] && a[0] == b[0] {
      LexCompareAntisymmetric(a[1..], b[1..]);
    }
  }

  /** The four numeric orders of the sort select. */
  const NumericSorts: seq<string> := ["price-low", "price-high", "rating", "newest"]

  /** The comparator of `sortedProducts` for each `sortBy`; any other value sorts by name. */
  function Compare(sortBy: string, a: Product, b: Product): (r: int)
    ensures sortBy !in NumericSorts ==> (r == 0 <==> a.name == b.name)
  {
    if sortBy == "price-low" then a.price - b.price
    else if sortBy == "price-high" then b.price - a.price
    else if sortBy == "rating" then b.rating - a.rating
    else if sortBy == "newest" then b.createdAt - a.createdAt
    else LexCompare(a.name, b.name)
  }

  lemma CompareAntisymmetric(sortBy: string, a: Product, b: Product)
    ensures Compare(sortBy, a, b) == -Compare(sortBy, b, a)
  {
    LexCompareAntisymmetric(a.name, b.name);
  }

  /** No adjacent pair is out of order for the comparator. */
  predicate Sorted(sortBy: string, s: seq<Product>) {
    forall i :: 0 <= i < |s| - 1 ==> Compare(sortBy, s[i], s[i + 1]) <= 0
  }

  /** Places `x` after every element that does not sort strictly after it (which keeps the sort stable). */
  function Insert(sortBy: string, x: Product, s: seq<Product>): (r: seq<Product>)
    ensures |r| == |s| + 1
    ensures multiset(r) == multiset(s) + multiset{x}
    ensures r[0] == x || (s != [] && r[0] == s[0])
  {
    if s == [] then [x]
    else if Compare(sortBy, x, s[0]) < 0 then [x] + s
    else
      assert s == [s[0]] + s[1..];
      [s[0]] + Insert(sortBy, x, s[1..])
  }

  lemma {:induction false} InsertKeepsSorted(sortBy: string, x: Product, s: seq<Product>)
    requires Sorted(sortBy, s)
    ensures Sorted(sortBy, Insert(sortBy, x, s))
  {
    if s != [] && Compare(sortBy, x, s[0]) >= 0 {
      InsertKeepsSorted(sortBy, x, s[1..]);
      CompareAntisymmetric(sortBy, x, s[0]);
      var r := Insert(sortBy, x, s);
      assert r[1..] == Insert(sortBy, x, s[1..]);
    }
  }

  /**
   * The stable sort of `[...filteredProducts].sort(comparator)`: elements
   * are inserted in their original order. The result is a permutation of
   * the input with no adjacent pair out of order.
   */
  function Sort(sortBy: string, s: seq<Product>): (r: seq<Product>)
    ensures multiset(r) == multiset(s)
    ensures Sorted(sortBy, r)
  {
    if s == [] then []
    else
      var prefix := Sort(sortBy, s[..|s| - 1]);
      InsertKeepsSorted(sortBy, s[|s| - 1], prefix);
      assert s == s[..|s| - 1] + [s[|s| - 1]];
      Insert(sortBy, s[|s| - 1], prefix)
  }

  /** `sortedProducts`: the filtered products, sorted. */
  function SortedProducts(ps: seq<Product>, f: Filters): (r: seq<Product>)
    ensures multiset(r) == multiset(FilteredProducts(ps, f))
    ensures Sorted(f.sortBy, r)
  {
    Sort(f.sortBy, FilteredProducts(ps, f))
  }

  /** Adjacent order along a numeric key extends to every pair. */
  lemma {:induction false} KeyChain(s: seq<Product>, key: Product -> int, i: int, j: int)
    requires forall k :: 0 <= k < |s| - 1 ==> key(s[k]) <= key(s[k + 1])
    requires 0 <= i <= j < |s|
    ensures key(s[i]) <= key(s[j])
    decreases j - i
  {
    if i < j {
      KeyChain(s, key, i + 1, j);
    }
  }

  /** Price-low is nondecreasing in price and price-high nonincreasing, over the whole list. */
  lemma SortedByPrice(ps: seq<Product>, f: Filters)
    ensures f.sortBy == "price-low" ==>
              forall i, j :: 0 <= i < j < |SortedProducts(ps, f)| ==>
                SortedProducts(ps, f)[i].price <= SortedProducts(ps, f)[j].price
    ensures f.sortBy == "price-high" ==>
              forall i, j :: 0 <= i < j < |SortedProducts(ps, f)| ==>
                SortedProducts(ps, f)[i].price >= SortedProducts(ps, f)[j].price
  {
    var r := SortedProducts(ps, f);
    if f.sortBy == "price-low" {
      forall i, j | 0 <= i < j < |r|
        ensures r[i].price <= r[j].price
      {
        KeyChain(r, (p: Product) => p.price, i, j);
      }
    }
    if f.sortBy == "price-high" {
      forall i, j | 0 <= i < j < |r|
        ensures r[i].price >= r[j].price
      {
        KeyChain(r, (p: Product) => -p.price, i, j);
      }
    }
  }

  /* ---------- categories ---------- */

  /** Index of the first occurrence of `x`. */
  function FirstIndex(s: seq<string>, x: string): (k: nat)
    requires x in s
    ensures k < |s| && s[k] == x && x !in s[..k]
  {
    if s[0] == x then 0
    else
      var k := FirstIndex(s[1..], x);
      assert s[..k + 1] == [s[0]] + s[1..][..k];
      k + 1
  }

  lemma FirstIndexUnique(s: seq<string>, x: string, k: int)
    requires 0 <= k < |s| && s[k] == x && x !in s[..k]
    ensures FirstIndex(s, x) == k
  {
  }

  /** `[...new Set(s)]`: each value once, at the place it first appears. */
  function Distinct(s: seq<string>): (r: seq<string>)
    ensures forall i, j :: 0 <= i < j < |r| ==> r[i] != r[j]
    ensures forall x :: x in r <==> x in s
  {
    if s == [] then []
    else
      var d := Distinct(s[..|s| - 1]);
      assert s == s[..|s| - 1] + [s[|s| - 1]];
      if s[|s| - 1] in d then d else d + [s[|s| - 1]]
  }

  /** The distinct values keep the order of their first appearances. */
  lemma {:induction false} DistinctFirstAppearance(s: seq<string>)
    ensures forall i, j :: 0 <= i < j < |Distinct(s)| ==>
              FirstIndex(s, Distinct(s)[i]) < FirstIndex(s, Distinct(s)[j])
  {
    if s != [] {
      var p := s[..|s| - 1];
      var last := s[|s| - 1];
      var d := Distinct(p);
      DistinctFirstAppearance(p);
      forall x | x in p
        ensures FirstIndex(s, x) == FirstIndex(p, x)
      {
        var k := FirstIndex(p, x);
        assert s[..k] == p[..k];
        FirstIndexUnique(s, x, k);
      }
      if last !in d {
        assert last !in s[..|s| - 1];
        FirstIndexUnique(s, last, |s| - 1);
      }
    }
  }

  /**
   * Choosing any category the page lists shows at least one product, and
   * only products of that category unless it is the empty name, which the
   * filter reads as "no category".
   */
  lemma ListedCategoryShowsProducts(ps: seq<Product>, c: string)
    requires c in Categories(ps)
    ensures FilteredProducts(ps, DefaultFilters.(category := c)) != []
    ensures c != "" ==>
              forall i :: 0 <= i < |FilteredProducts(ps, DefaultFilters.(category := c))| ==>
                FilteredProducts(ps, DefaultFilters.(category := c))[i].category == c
  {
    var f := DefaultFilters.(category := c);
    var i :| 0 <= i < |ps| && ps[i].category == c;
    assert Matches(f, ps[i]);
    assert ps[i] in FilteredProducts(ps, f);
    assert forall j :: 0 <= j < |FilteredProducts(ps, f)| ==> MatchesCategory(f, FilteredProducts(ps, f)[j]);
  }

  /** The category of each product, in catalogue order. */
  function CategoriesOf(ps: seq<Product>): (r: seq<string>)
    ensures |r| == |ps| && forall i :: 0 <= i < |ps| ==> r[i] == ps[i].category
  {
    seq(|ps|, i requires 0 <= i < |ps| => ps[i].category)
  }

  /** `categories`: every category of the catalogue exactly once, in first-appearance order. */
  function Categories(ps: seq<Product>): (r: seq<string>)
    ensures forall i, j :: 0 <= i < j < |r| ==> r[i] != r[j]
    ensures forall x :: x in r <==> exists i :: 0 <= i < |ps| && ps[i].category == x
    ensures forall i :: 0 <= i < |r| ==> r[i] in CategoriesOf(ps)
    ensures forall i, j :: 0 <= i < j < |r| ==>
              FirstIndex(CategoriesOf(ps), r[i]) < FirstIndex(CategoriesOf(ps), r[j])
  {
    var cs := CategoriesOf(ps);
    DistinctFirstAppearance(cs);
    assert forall x :: x in cs <==> exists i :: 0 <= i < |ps| && ps[i].category == x;
    Distinct(cs)
  }

  /* ---------- the page ---------- */

  const LoadFailed: string := "Error al cargar los productos"
  const SignInFirst: string := "Debes iniciar sesión para agregar productos al carrito"
  const AddFailed: string := "Error al agregar el producto al carrito"

  /** An `alert` or one of the page's toast notifications. */
  datatype Notice = Alert(message: string) | SuccessToast(message: string) | ErrorToast(message: string)

  function AddedNotice(productName: string): string {
    "✅ " + productName + " agregado al carrito"
  }

  /** `fetchProducts`'s normalisation: the picked value if it is an array, else the empty list. */
  function Listed(response: ProductsBody): (r: seq<Product>)
    ensures Pick(response).ProductArray? ==> r == Pick(response).items
    ensures !Pick(response).ProductArray? ==> r == []
  {
    var picked := Pick(response);
    if picked.ProductArray? then picked.items else []
  }

  class Page {
    var products: seq<Product>
    var loading: bool
    var error: Option<string>
    var adding: map<string, bool>
    var cartItemCount: int
    var filters: Filters

    constructor ()
      ensures products == [] && loading && error == None
      ensures adding == map[] && cartItemCount == 0 && filters == DefaultFilters
    {
      products := [];
      loading := true;
      error := None;
      adding := map[];
      cartItemCount := 0;
      filters := DefaultFilters;
    }

    /** The products on screen. */
    function Shown(): seq<Product>
      reads this
    {
      SortedProducts(products, filters)
    }

    /** `clearFilters`: the default filters, under which every product matches. */
    method ClearFilters()
      modifies this
      ensures filters == DefaultFilters
      ensures products == old(products) && adding == old(adding) && cartItemCount == old(cartItemCount)
      ensures loading == old(loading) && error == old(error)
      ensures FilteredProducts(products, filters) == products
      ensures multiset(Shown()) == multiset(products)
    {
      filters := DefaultFilters;
      ClearedFiltersShowAll(products);
    }

    /**
     * `fetchProducts`: the normalised list, or the empty list when the
     * response is not an array; on failure the empty list and the message.
     */
    method FetchProducts(reply: Reply<ProductsBody>)
      modifies this
      ensures GetProducts(reply).Success? ==> products == Listed(GetProducts(reply).value) && error == None
      ensures GetProducts(reply).Failure? ==>
                products == [] && error == Some(MessageOf(GetProducts(reply).error, LoadFailed))
      ensures !loading
      ensures filters == old(filters) && adding == old(adding) && cartItemCount == old(cartItemCount)
    {
      loading := true;
      error := None;
      var r := GetProducts(reply);
      if r.Success? {
        products := Listed(r.value);
      } else {
        error := Some(MessageOf(r.error, LoadFailed));
        products := [];
      }
      loading := false;
    }

    /** `fetchCartItemCount`: the count never throws, so it is always stored. */
    method FetchCartItemCount(reply: Reply<Cart>)
      modifies this
      ensures cartItemCount == CartItemCount(reply)
      ensures products == old(products) && filters == old(filters) && adding == old(adding)
      ensures loading == old(loading) && error == old(error)
    {
      cartItemCount := CartItemCount(reply);
    }

    /** The mounting effect: the catalogue is always fetched, the cart count only when signed in. */
    method Open(authenticated: bool, productsReply: Reply<ProductsBody>, countReply: Reply<Cart>)
      modifies this
      ensures GetProducts(productsReply).Success? ==>
                products == Listed(GetProducts(productsReply).value) && error == None
      ensures GetProducts(productsReply).Failure? ==>
                products == [] && error == Some(MessageOf(GetProducts(productsReply).error, LoadFailed))
      ensures cartItemCount == if authenticated then CartItemCount(countReply) else old(cartItemCount)
      ensures !loading
      ensures filters == old(filters) && adding == old(adding)
    {
      FetchProducts(productsReply);
      if authenticated {
        FetchCartItemCount(countReply);
      }
    }

    /**
     * `handleAddToCart`: signed-out visitors only get an alert and nothing is
     * sent; otherwise one unit is added, the count refreshed on success, and
     * the product's in-progress flag is false again afterwards.
     */
    method HandleAddToCart(productId: string, productName: string, authenticated: bool,
                           addReply: Reply<Cart>, countReply: Reply<Cart>)
      returns (sent: Option<CartRequest>, notice: Notice)
      modifies this
      ensures !authenticated ==>
                && sent == None && notice == Alert(SignInFirst)
                && adding == old(adding) && cartItemCount == old(cartItemCount)
      ensures authenticated ==>
                && sent == Some(RequestOf(CartOp.AddToCart(productId, Some(1))))
                && adding == old(adding)[productId := false]
      ensures authenticated && addReply.Ok? ==>
                cartItemCount == CartItemCount(countReply) && notice == SuccessToast(AddedNotice(productName))
      ensures authenticated && addReply.Fail? ==>
                && cartItemCount == old(cartItemCount)
                && notice == ErrorToast(MessageOf(Call(CartOp.AddToCart(productId, Some(1)), addReply).error, AddFailed))
      ensures products == old(products) && filters == old(filters)
      ensures loading == old(loading) && error == old(error)
    {
      if !authenticated {
        return None, Alert(SignInFirst);
      }
      adding := adding[productId := true];
      var op := CartOp.AddToCart(productId, Some(1));
      sent := Some(RequestOf(op));
      var r := Call(op, addReply);
      if r.Success? {
        FetchCartItemCount(countReply);
        notice := SuccessToast(AddedNotice(productName));
      } else {
        notice := ErrorToast(MessageOf(r.error, AddFailed));
      }
      adding := adding[productId := false];
    }
  }
}
