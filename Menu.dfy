/**
 * The menu page of `App`: products grouped under their categories, the page-level
 * loading join, the section shown for each category, and the product drawer's
 * selection state.
 */
module Menu {
  import opened Wrappers

  /** A category as fetched; `foto` may be null. */
  datatype Category = Category(id: int, nome: string, descritivo: string, foto: Option<string>)

  /** A product as fetched; `categoryId` is a reference that nothing enforces. */
  datatype Product = Product(
    id: int, code: string, nome: string, descritivo: string, preco: real,
    foto: Option<string>, categoryId: int)

  /** `products.filter(p => p.category_id === id)`. */
  function ProductsOf(products: seq<Product>, id: int): seq<Product>
  {
    if products == [] then []
    else (if products[0].categoryId == id then [products[0]] else []) + ProductsOf(products[1..], id)
  }

  /** `r` is `s` with some elements left out and the rest in their original order. */
  ghost predicate IsSubsequence<T>(r: seq<T>, s: seq<T>)
    decreases |s|
  {
    if r == [] then true
    else if s == [] then false
    else (r[0] == s[0] && IsSubsequence(r[1..], s[1..])) || IsSubsequence(r, s[1..])
  }

  /** The group of `id` keeps the fetch order of `products`. */
  lemma {:induction false} ProductsOfIsSubsequence(products: seq<Product>, id: int)
    ensures IsSubsequence(ProductsOf(products, id), products)
  {
    if products != [] {
      ProductsOfIsSubsequence(products[1..], id);
      var r := ProductsOf(products, id);
      if products[0].categoryId == id {
        assert r[0] == products[0] && r[1..] == ProductsOf(products[1..], id);
      } else {
        assert r == ProductsOf(products[1..], id);
      }
    }
  }

  /** The group of `id` holds exactly the products of that category, each as often as it was fetched. */
  lemma {:induction false} ProductsOfCounts(products: seq<Product>, id: int, p: Product)
    ensures multiset(ProductsOf(products, id))[p] == if p.categoryId == id then multiset(products)[p] else 0
  {
    if products != [] {
      ProductsOfCounts(products[1..], id, p);
      assert products == [products[0]] + products[1..];
    }
  }

  /** A product is in the group of `id` exactly when it was fetched and belongs to `id`. */
  lemma ProductsOfMembers(products: seq<Product>, id: int, p: Product)
    ensures p in ProductsOf(products, id) <==> p in products && p.categoryId == id
  {
    ProductsOfCounts(products, id, p);
    assert p in ProductsOf(products, id) <==> multiset(ProductsOf(products, id))[p] > 0;
  }

  lemma {:induction false} SubsequenceMultiset<T>(r: seq<T>, s: seq<T>)
    requires IsSubsequence(r, s)
    ensures multiset(r) <= multiset(s)
    decreases |s|
  {
    if r != [] {
      assert s == [s[0]] + s[1..];
      if r[0] == s[0] && IsSubsequence(r[1..], s[1..]) {
        SubsequenceMultiset(r[1..], s[1..]);
        assert r == [r[0]] + r[1..];
      } else {
        SubsequenceMultiset(r, s[1..]);
      }
    }
  }

  /** A selection that skips a product of category `id` holds one copy of it fewer than the filter. */
  lemma SkippingMissesOne(r: seq<Product>, h: Product, t: seq<Product>, id: int)
    requires IsSubsequence(r, t)
    requires h.categoryId == id
    ensures multiset(r)[h] < multiset(ProductsOf([h] + t, id))[h]
  {
    SubsequenceMultiset(r, t);
    ProductsOfCounts([h] + t, id, h);
    assert multiset([h] + t)[h] == multiset(t)[h] + 1;
  }

  lemma MultisetConsCancel<T>(h: T, x: seq<T>, y: seq<T>)
    requires multiset([h] + x) == multiset([h] + y)
    ensures multiset(x) == multiset(y)
  {
    assert multiset([h] + x) == multiset{h} + multiset(x);
    assert multiset([h] + y) == multiset{h} + multiset(y);
    forall v ensures multiset(x)[v] == multiset(y)[v] {
      assert multiset([h] + x)[v] == multiset{h}[v] + multiset(x)[v];
      assert multiset([h] + y)[v] == multiset{h}[v] + multiset(y)[v];
    }
  }

  /**
   * The filter is the only order-preserving selection of `products` that holds every product
   * of category `id` and nothing else.
   */
  lemma {:induction false} ProductsOfUnique(r: seq<Product>, products: seq<Product>, id: int)
    requires IsSubsequence(r, products)
    requires forall k :: 0 <= k < |r| ==> r[k].categoryId == id
    requires multiset(r) == multiset(ProductsOf(products, id))
    ensures r == ProductsOf(products, id)
    decreases |products|
  {
    if products == [] {
      assert multiset(r) == multiset{};
    } else {
      var h, t := products[0], products[1..];
      assert products == [h] + t;
      if h.categoryId != id {
        assert ProductsOf(products, id) == ProductsOf(t, id);
        if r != [] {
          assert r[0] != h;
        }
        ProductsOfUnique(r, t, id);
      } else if r != [] && r[0] == h && IsSubsequence(r[1..], t) {
        assert r == [h] + r[1..];
        assert ProductsOf(products, id) == [h] + ProductsOf(t, id);
        MultisetConsCancel(h, r[1..], ProductsOf(t, id));
        ProductsOfUnique(r[1..], t, id);
      } else {
        assert IsSubsequence(r, t);
        SkippingMissesOne(r, h, t, id);
        assert false;
      }
    }
  }

  function CategoryIds(categories: seq<Category>): set<int>
  {
    set k | 0 <= k < |categories| :: categories[k].id
  }

  /** `byCat` is what `productsByCategory` computes from the fetched categories and products. */
  ghost predicate IsGrouping(byCat: map<int, seq<Product>>, categories: seq<Category>, products: seq<Product>)
  {
    byCat.Keys == CategoryIds(categories) &&
    forall id :: id in byCat ==> byCat[id] == ProductsOf(products, id)
  }

  /** The `useMemo` body of `productsByCategory`: one entry per category, assigned in a `forEach`. */
  method GroupByCategory(categories: seq<Category>, products: seq<Product>) returns (byCat: map<int, seq<Product>>)
    ensures IsGrouping(byCat, categories, products)
  {
    byCat := map[];
    for i := 0 to |categories|
      invariant byCat.Keys == set k | 0 <= k < i :: categories[k].id
      invariant forall id :: id in byCat ==> byCat[id] == ProductsOf(products, id)
    {
      var cat := categories[i];
      byCat := byCat[cat.id := ProductsOf(products, cat.id)];
    }
  }

  /** Every product in a group belongs to that group's category and was fetched. */
  lemma GroupMembersMatch(byCat: map<int, seq<Product>>, categories: seq<Category>, products: seq<Product>, id: int, p: Product)
    requires IsGrouping(byCat, categories, products)
    requires id in byCat && p in byCat[id]
    ensures p.categoryId == id && p in products
  {
    ProductsOfMembers(products, id, p);
  }

  /** A fetched product whose category exists lies in that category's group. */
  lemma GroupHoldsItsProducts(byCat: map<int, seq<Product>>, categories: seq<Category>, products: seq<Product>, p: Product)
    requires IsGrouping(byCat, categories, products)
    requires p in products && p.categoryId in CategoryIds(categories)
    ensures p.categoryId in byCat && p in byCat[p.categoryId]
  {
    ProductsOfMembers(products, p.categoryId, p);
  }

  /** A product whose category matches no fetched category appears in no group. */
  lemma OrphanInNoGroup(byCat: map<int, seq<Product>>, categories: seq<Category>, products: seq<Product>, p: Product)
    requires IsGrouping(byCat, categories, products)
    requires p.categoryId !in CategoryIds(categories)
    ensures forall id :: id in byCat ==> p !in byCat[id]
  {
    forall id | id in byCat
      ensures p !in byCat[id]
    {
      ProductsOfMembers(products, id, p);
    }
  }

  /** No product lies in two groups. */
  lemma GroupsDisjoint(byCat: map<int, seq<Product>>, categories: seq<Category>, products: seq<Product>, a: int, b: int, p: Product)
    requires IsGrouping(byCat, categories, products)
    requires a in byCat && b in byCat && a != b
    ensures !(p in byCat[a] && p in byCat[b])
  {
    ProductsOfMembers(products, a, p);
    ProductsOfMembers(products, b, p);
  }

  /** Categories [Bebidas (1)] and products [Chopp in 1, Suco in 2] group to {1: [Chopp]}. */
  lemma ScenarioOrphanDropped(byCat: map<int, seq<Product>>, bebidas: Category, chopp: Product, suco: Product)
    requires bebidas.id == 1 && chopp.categoryId == 1 && suco.categoryId == 2
    requires IsGrouping(byCat, [bebidas], [chopp, suco])
    ensures byCat == map[1 := [chopp]]
  {
    assert [bebidas][0].id in CategoryIds([bebidas]);
    assert CategoryIds([bebidas]) == {1};
    assert ProductsOf([chopp, suco], 1) == [chopp] by {
      assert [chopp, suco][1..] == [suco];
      assert ProductsOf([suco], 1) == [] by {
        assert [suco][1..] == [];
      }
    }
  }

  /** `loading = loadingCats || loadingProds`: the join of the two fetches. */
  function PageLoading(loadingCats: bool, loadingProds: bool): bool
  {
    loadingCats || loadingProds
  }

  /** One category section: its products, or the "Nenhum produto nesta categoria." notice. */
  datatype Section = Listing(category: Category, items: seq<Product>) | NoProducts(category: Category)

  datatype Page = LoadingScreen | Content(sections: seq<Section>)

  /** `productsByCategory[cat.id]?.length`: a missing entry shows the notice like an empty one. */
  function SectionFor(cat: Category, byCat: map<int, seq<Product>>): Section
  {
    if cat.id in byCat && |byCat[cat.id]| > 0 then Listing(cat, byCat[cat.id]) else NoProducts(cat)
  }

  /** What the page renders: the loading screen, or one section per category in fetch order. */
  function RenderPage(loadingCats: bool, loadingProds: bool, categories: seq<Category>, byCat: map<int, seq<Product>>): Page
  {
    if PageLoading(loadingCats, loadingProds) then LoadingScreen
    else Content(seq(|categories|, k requires 0 <= k < |categories| => SectionFor(categories[k], byCat)))
  }

  /** Content appears only once both fetches have finished. */
  lemma ContentOnlyWhenLoaded(loadingCats: bool, loadingProds: bool, categories: seq<Category>, byCat: map<int, seq<Product>>)
    ensures RenderPage(loadingCats, loadingProds, categories, byCat).Content? <==> !loadingCats && !loadingProds
  {
  }

  /**
   * Every category gets its own section, in fetch order, none filtered out: a category with
   * products lists exactly its group, one without shows the notice.
   */
  lemma EveryCategoryRendered(byCat: map<int, seq<Product>>, categories: seq<Category>, products: seq<Product>)
    requires IsGrouping(byCat, categories, products)
    ensures var page := RenderPage(false, false, categories, byCat);
      page.Content? && |page.sections| == |categories| &&
      forall k :: 0 <= k < |categories| ==>
        page.sections[k].category == categories[k] &&
        (page.sections[k].NoProducts? <==> ProductsOf(products, categories[k].id) == []) &&
        (page.sections[k].Listing? ==> page.sections[k].items == ProductsOf(products, categories[k].id))
  {
    forall k | 0 <= k < |categories|
      ensures categories[k].id in byCat
    {
      assert categories[k].id in CategoryIds(categories);
    }
  }

  /** The product drawer: the chosen product and whether the drawer is open. */
  class ProductDrawer {
    var selectedProduct: Option<Product>
    var drawerOpen: bool

    /** An open drawer always has a product to show. */
    ghost predicate Valid()
      reads this
    {
      drawerOpen ==> selectedProduct.Some?
    }

    constructor ()
      ensures Valid()
      ensures selectedProduct == None && !drawerOpen
    {
      selectedProduct := None;
      drawerOpen := false;
    }

    /** Clicking a product card: select it and open the drawer together. */
    method Choose(prod: Product)
      modifies this
      ensures Valid()
      ensures selectedProduct == Some(prod) && drawerOpen
    {
      selectedProduct := Some(prod);
      drawerOpen := true;
    }

    /** The "Fechar" button: close the drawer and keep the selection. */
    method Close()
      modifies this
      ensures Valid()
      ensures !drawerOpen && selectedProduct == old(selectedProduct)
    {
      drawerOpen := false;
    }

    /** The drawer's own `onOpenChange`, wired straight to the open flag. */
    method OpenChange(open: bool)
      modifies this
      ensures drawerOpen == open && selectedProduct == old(selectedProduct)
      ensures old(Valid()) && (!open || selectedProduct.Some?) ==> Valid()
    {
      drawerOpen := open;
    }
  }
}
