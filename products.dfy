/**
 * The shop page: a static catalog, the filter by mood tab, search text and
 * category, the sort chosen by the sort option, and the record handed to the
 * cart when a product is added. Prices are integer cents.
 */
module Products {
  import opened Wrappers
  import opened Text
  import Cart

  datatype Product = Product(
    id: nat,
    name: string,
    price: nat,
    image: string,
    description: string,
    mood: string,
    category: string)

  const Placeholder: string := "/placeholder.svg?height=200&width=200"

  /**
   * `allProducts`: sixteen products, four for each mood in the order happy,
   * calm, sad, energetic. The literal is split into one constant per mood.
   */
  const AllProducts: seq<Product> := HappyShelf + CalmShelf + SadShelf + EnergeticShelf

  /** Products 1 to 4, mood "happy". */
  const HappyShelf: seq<Product> := [
    Product(1, "Celebration Box", 3999, Placeholder,
     "A curated box of treats to celebrate good moments.", "happy", "gift-sets"),
    Product(2, "Gratitude Journal", 1499, Placeholder,
     "Record your daily moments of joy and gratitude.", "happy", "stationery"),
    Product(3, "Party Lights", 2499, Placeholder,
     "Colorful LED lights to enhance your happy atmosphere.", "happy", "home"),
    Product(4, "Upbeat Playlist Subscription", 999, Placeholder,
     "Access to curated playlists that boost your mood.", "happy", "digital")
  ]

  /** Products 5 to 8, mood "calm". */
  const CalmShelf: seq<Product> := [
    Product(5, "Calming Tea Set", 2499, Placeholder,
     "A selection of herbal teas to help you relax and unwind.", "calm", "food-drink"),
    Product(6, "Aromatherapy Diffuser", 3499, Placeholder,
     "Essential oil diffuser with calming scents.", "calm", "home"),
    Product(7, "Meditation Cushion", 2999, Placeholder,
     "Comfortable cushion for your meditation practice.", "calm", "wellness"),
    Product(8, "Sound Machine", 1999, Placeholder,
     "Create a peaceful environment with nature sounds.", "calm", "electronics")
  ]

  /** Products 9 to 12, mood "sad". */
  const SadShelf: seq<Product> := [
    Product(9, "Comfort Blanket", 3499, Placeholder,
     "A soft, weighted blanket for those days when you need extra comfort.", "sad", "home"),
    Product(10, "Self-Care Box", 4499, Placeholder,
     "A collection of items to help you practice self-care.", "sad", "gift-sets"),
    Product(11, "Mood-Boosting Lamp", 4999, Placeholder,
     "Light therapy lamp to help improve your mood.", "sad", "electronics"),
    Product(12, "Comforting Playlist Subscription", 999, Placeholder,
     "Access to music that provides comfort and support.", "sad", "digital")
  ]

  /** Products 13 to 16, mood "energetic". */
  const EnergeticShelf: seq<Product> := [
    Product(13, "Energizing Fitness Kit", 4999, Placeholder,
     "Everything you need for a quick workout to boost your energy.", "energetic", "wellness"),
    Product(14, "Protein Snack Box", 2999, Placeholder,
     "Healthy snacks to fuel your active lifestyle.", "energetic", "food-drink"),
    Product(15, "Wireless Earbuds", 5999, Placeholder,
     "High-quality earbuds for your energetic music or podcasts.", "energetic", "electronics"),
    Product(16, "Productivity Planner", 1999, Placeholder,
     "Plan your day efficiently and channel your energy.", "energetic", "stationery")
  ]

  // ---------------------------------------------------------------------------
  // Filtering

  predicate MatchesMood(p: Product, activeTab: string)
  {
    activeTab == "all" || p.mood == activeTab
  }

  /** Case-insensitive search in the name or the description. */
  predicate MatchesSearch(p: Product, query: string)
  {
    Includes(ToLower(p.name), ToLower(query)) || Includes(ToLower(p.description), ToLower(query))
  }

  predicate MatchesCategory(p: Product, category: string)
  {
    category == "all" || p.category == category
  }

  predicate Keep(p: Product, activeTab: string, query: string, category: string)
  {
    MatchesMood(p, activeTab) && MatchesSearch(p, query) && MatchesCategory(p, category)
  }

  /** `products.filter(...)` with the page's three-part predicate. */
  function Filter(products: seq<Product>, activeTab: string, query: string, category: string): (r: seq<Product>)
    ensures |r| <= |products|
    ensures forall p :: p in r <==> p in products && Keep(p, activeTab, query, category)
  {
    if products == [] then []
    else
      var rest := Filter(products[1..], activeTab, query, category);
      if Keep(products[0], activeTab, query, category) then [products[0]] + rest else rest
  }

  /** `filteredProducts`: the filter applied to the catalog. */
  function FilteredProducts(activeTab: string, query: string, category: string): seq<Product>
  {
    Filter(AllProducts, activeTab, query, category)
  }

  /** `a` is `b` with some elements left out, the rest in their original order. */
  predicate IsSubsequence(a: seq<Product>, b: seq<Product>)
    decreases |b|
  {
    if a == [] then true
    else if b == [] then false
    else (a[0] == b[0] && IsSubsequence(a[1..], b[1..])) || IsSubsequence(a, b[1..])
  }

  /** The filter keeps products in catalog order. */
  lemma {:induction false} FilterIsSubsequence(products: seq<Product>, activeTab: string, query: string, category: string)
    ensures IsSubsequence(Filter(products, activeTab, query, category), products)
    decreases |products|
  {
    if products != [] {
      var rest := Filter(products[1..], activeTab, query, category);
      FilterIsSubsequence(products[1..], activeTab, query, category);
      if !Keep(products[0], activeTab, query, category) && rest != [] {
        assert IsSubsequence(rest, products[1..]);
      }
    }
  }

  /** Each kept product appears as often as in the input, each dropped one not at all. */
  lemma {:induction false} FilterCounts(products: seq<Product>, activeTab: string, query: string, category: string, p: Product)
    ensures multiset(Filter(products, activeTab, query, category))[p]
         == if Keep(p, activeTab, query, category) then multiset(products)[p] else 0
    decreases |products|
  {
    if products != [] {
      FilterCounts(products[1..], activeTab, query, category, p);
      assert products == [products[0]] + products[1..];
    }
  }

  /** With tab "all", category "all" and an empty query nothing is filtered out. */
  lemma {:induction false} FilterUnconstrained(products: seq<Product>)
    ensures Filter(products, "all", "", "all") == products
    decreases |products|
  {
    if products != [] {
      IncludesEmpty(ToLower(products[0].name));
      assert ToLower("") == "";
      FilterUnconstrained(products[1..]);
    }
  }

  /** The empty query is found in every product. */
  lemma EmptyQueryMatches(p: Product)
    ensures MatchesSearch(p, "")
  {
    IncludesEmpty(ToLower(p.name));
    assert ToLower("") == "";
  }

  /** Filtering a concatenation filters each part. */
  lemma {:induction false} FilterAppend(a: seq<Product>, b: seq<Product>, activeTab: string, query: string, category: string)
    ensures Filter(a + b, activeTab, query, category)
         == Filter(a, activeTab, query, category) + Filter(b, activeTab, query, category)
    decreases |a|
  {
    if a != [] {
      assert (a + b)[1..] == a[1..] + b;
      FilterAppend(a[1..], b, activeTab, query, category);
    } else {
      assert a + b == b;
    }
  }

  /** A list whose every product passes comes through whole. */
  lemma {:induction false} FilterAllKept(products: seq<Product>, activeTab: string, query: string, category: string)
    requires forall p :: p in products ==> Keep(p, activeTab, query, category)
    ensures Filter(products, activeTab, query, category) == products
    decreases |products|
  {
    if products != [] {
      FilterAllKept(products[1..], activeTab, query, category);
    }
  }

  /** A list in which no product passes is filtered down to nothing. */
  lemma {:induction false} FilterNoneKept(products: seq<Product>, activeTab: string, query: string, category: string)
    requires forall p :: p in products ==> !Keep(p, activeTab, query, category)
    ensures Filter(products, activeTab, query, category) == []
    decreases |products|
  {
    if products != [] {
      FilterNoneKept(products[1..], activeTab, query, category);
    }
  }

  /** The default view of the shop shows the whole catalog. */
  lemma DefaultViewShowsCatalog()
    ensures FilteredProducts("all", "", "all") == AllProducts
  {
    FilterUnconstrained(AllProducts);
  }

  // ---------------------------------------------------------------------------
  // Sorting

  /**
   * The comparator handed to `sort`. `nameCompare` stands for `localeCompare`;
   * any option other than the three named ones compares everything as equal.
   */
  function Compare(option: string, nameCompare: (string, string) -> int, a: Product, b: Product): int
  {
    if option == "price-low" then a.price - b.price
    else if option == "price-high" then b.price - a.price
    else if option == "name" then nameCompare(a.name, b.name)
    else 0
  }

  /** `a` may stay ahead of `b`: the comparator does not ask to swap them. */
  predicate InOrder(option: string, nameCompare: (string, string) -> int, a: Product, b: Product)
  {
    Compare(option, nameCompare, a, b) <= 0
  }

  /** What a sort needs of `localeCompare`: any two names compare one way, and the order is transitive. */
  ghost predicate TotalPreorder(cmp: (string, string) -> int)
  {
    && (forall x, y :: cmp(x, y) <= 0 || cmp(y, x) <= 0)
    && (forall x, y, z :: cmp(x, y) <= 0 && cmp(y, z) <= 0 ==> cmp(x, z) <= 0)
  }

  /** Puts `x` ahead of the first element it is not after; ties keep `x` first. */
  function Insert(option: string, nameCompare: (string, string) -> int, x: Product, sorted: seq<Product>): (r: seq<Product>)
    ensures multiset(r) == multiset(sorted) + multiset{x}
  {
    if sorted == [] then [x]
    else if InOrder(option, nameCompare, x, sorted[0]) then [x] + sorted
    else
      assert sorted == [sorted[0]] + sorted[1..];
      [sorted[0]] + Insert(option, nameCompare, x, sorted[1..])
  }

  /** A stable sort: `Array.prototype.sort` is required to be stable. */
  function Sort(option: string, nameCompare: (string, string) -> int, s: seq<Product>): (r: seq<Product>)
    ensures multiset(r) == multiset(s)
  {
    if s == [] then []
    else
      assert s == [s[0]] + s[1..];
      Insert(option, nameCompare, s[0], Sort(option, nameCompare, s[1..]))
  }

  /** `sortedProducts`: the sort applied to a copy of the filtered list. */
  function SortedProducts(option: string, nameCompare: (string, string) -> int,
                          activeTab: string, query: string, category: string): seq<Product>
  {
    Sort(option, nameCompare, FilteredProducts(activeTab, query, category))
  }

  predicate Sorted(option: string, nameCompare: (string, string) -> int, s: seq<Product>)
  {
    forall i, j :: 0 <= i < j < |s| ==> InOrder(option, nameCompare, s[i], s[j])
  }

  /** Every option but "name" gives a total preorder; "name" does when `localeCompare` is one. */
  lemma CompareIsTotalPreorder(option: string, nameCompare: (string, string) -> int)
    requires option == "name" ==> TotalPreorder(nameCompare)
    ensures forall a, b :: InOrder(option, nameCompare, a, b) || InOrder(option, nameCompare, b, a)
    ensures forall a, b, c :: InOrder(option, nameCompare, a, b) && InOrder(option, nameCompare, b, c)
                          ==> InOrder(option, nameCompare, a, c)
  {
  }

  lemma {:induction false} InsertSorted(option: string, nameCompare: (string, string) -> int, x: Product, s: seq<Product>)
    requires option == "name" ==> TotalPreorder(nameCompare)
    requires Sorted(option, nameCompare, s)
    ensures Sorted(option, nameCompare, Insert(option, nameCompare, x, s))
    decreases |s|
  {
    CompareIsTotalPreorder(option, nameCompare);
    var r := Insert(option, nameCompare, x, s);
    if s == [] {
    } else if InOrder(option, nameCompare, x, s[0]) {
      forall i, j | 0 <= i < j < |r| ensures InOrder(option, nameCompare, r[i], r[j]) {
        if i == 0 && j > 1 {
          assert r[j] == s[j - 1];
        }
      }
    } else {
      var tail := Insert(option, nameCompare, x, s[1..]);
      InsertSorted(option, nameCompare, x, s[1..]);
      forall k | 0 <= k < |tail| ensures InOrder(option, nameCompare, s[0], tail[k]) {
        assert tail[k] in multiset(tail);
        assert tail[k] == x || tail[k] in multiset(s[1..]);
        if tail[k] != x {
          var m :| 0 <= m < |s[1..]| && s[1..][m] == tail[k];
          assert s[m + 1] == tail[k];
        }
      }
      forall i, j | 0 <= i < j < |r| ensures InOrder(option, nameCompare, r[i], r[j]) {
        if i == 0 {
          assert r[j] == tail[j - 1];
        } else {
          assert r[i] == tail[i - 1] && r[j] == tail[j - 1];
        }
      }
    }
  }

  /** The sort's result is in the order the comparator asks for. */
  lemma {:induction false} SortIsSorted(option: string, nameCompare: (string, string) -> int, s: seq<Product>)
    requires option == "name" ==> TotalPreorder(nameCompare)
    ensures Sorted(option, nameCompare, Sort(option, nameCompare, s))
    decreases |s|
  {
    if s != [] {
      SortIsSorted(option, nameCompare, s[1..]);
      InsertSorted(option, nameCompare, s[0], Sort(option, nameCompare, s[1..]));
    }
  }

  /** "price-low": a permutation of the input with prices non-decreasing. */
  lemma SortPriceLow(nameCompare: (string, string) -> int, s: seq<Product>)
    ensures multiset(Sort("price-low", nameCompare, s)) == multiset(s)
    ensures var r := Sort("price-low", nameCompare, s);
      forall i, j :: 0 <= i < j < |r| ==> r[i].price <= r[j].price
  {
    SortIsSorted("price-low", nameCompare, s);
  }

  /** "price-high": a permutation of the input with prices non-increasing. */
  lemma SortPriceHigh(nameCompare: (string, string) -> int, s: seq<Product>)
    ensures multiset(Sort("price-high", nameCompare, s)) == multiset(s)
    ensures var r := Sort("price-high", nameCompare, s);
      forall i, j :: 0 <= i < j < |r| ==> r[i].price >= r[j].price
  {
    SortIsSorted("price-high", nameCompare, s);
  }

  /** "name": a permutation of the input in `localeCompare` order. */
  lemma SortByName(nameCompare: (string, string) -> int, s: seq<Product>)
    requires TotalPreorder(nameCompare)
    ensures multiset(Sort("name", nameCompare, s)) == multiset(s)
    ensures var r := Sort("name", nameCompare, s);
      forall i, j :: 0 <= i < j < |r| ==> nameCompare(r[i].name, r[j].name) <= 0
  {
    SortIsSorted("name", nameCompare, s);
  }

  /** "featured", or any unknown option: every comparison is 0 and the stable sort changes nothing. */
  lemma {:induction false} SortFeatured(option: string, nameCompare: (string, string) -> int, s: seq<Product>)
    requires option != "price-low" && option != "price-high" && option != "name"
    ensures Sort(option, nameCompare, s) == s
    decreases |s|
  {
    if s != [] {
      SortFeatured(option, nameCompare, s[1..]);
    }
  }

  // ---------------------------------------------------------------------------
  // Adding to the cart

  /** `handleAddToCart`: the record passed to `addToCart` copies four fields of the product. */
  function CartItemFor(p: Product): (item: Cart.CartItem)
    ensures item.id == p.id && item.name == p.name && item.price == p.price && item.image == p.image
  {
    Cart.CartItem(p.id, p.name, p.price, p.image)
  }

  function FindById(products: seq<Product>, id: nat): (r: Option<Product>)
    ensures r.Some? ==> r.value in products && r.value.id == id
    ensures r.None? ==> forall p :: p in products ==> p.id != id
  {
    if products == [] then None
    else if products[0].id == id then Some(products[0])
    else FindById(products[1..], id)
  }

  /** Catalog id `k + 1` belongs to the product at position `k`. */
  lemma CatalogIds()
    ensures |AllProducts| == 16
    ensures forall k :: 0 <= k < |AllProducts| ==> AllProducts[k].id == k + 1
  {
  }

  /** The id in a cart item identifies the catalog product it was made from. */
  lemma CartItemIdentifiesProduct(p: Product)
    requires p in AllProducts
    ensures FindById(AllProducts, CartItemFor(p).id) == Some(p)
  {
    CatalogIds();
    var k :| 0 <= k < |AllProducts| && AllProducts[k] == p;
    var r := FindById(AllProducts, p.id);
    var m :| 0 <= m < |AllProducts| && AllProducts[m] == r.value;
    assert m == k;
  }
}
