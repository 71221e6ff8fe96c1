/** The client-side catalog store of services/storage.ts (`useStore`): three
    collections held in component state, each mirrored under its own key in
    localStorage, with add, update and delete actions.

    localStorage is the map `persisted`; `JSON.stringify`/`JSON.parse` are
    modelled as the identity, so a stored value is the array itself, tagged
    with its kind. Each action runs to completion on the state it is called
    with. */
module Store {
  import opened Sequences
  import opened Catalog
  import opened Seed

  const ProductsKey: string := "aff_products_v6"
  const ListsKey: string := "aff_lists_v6"
  const CategoriesKey: string := "aff_categories_v6"

  /** The value stored under a localStorage key, once parsed. */
  datatype Stored =
    | StoredProducts(products: seq<Product>)
    | StoredLists(lists: seq<CuratedList>)
    | StoredCategories(categories: seq<Category>)

  /** Each of the three keys, when present, holds the kind of array the store
      writes under it. */
  predicate WellTyped(storage: map<string, Stored>)
  {
    && (ProductsKey in storage ==> storage[ProductsKey].StoredProducts?)
    && (ListsKey in storage ==> storage[ListsKey].StoredLists?)
    && (CategoriesKey in storage ==> storage[CategoriesKey].StoredCategories?)
  }

  /** The three keys are different, so writing one never touches another. */
  lemma KeysDistinct()
    ensures ProductsKey != ListsKey && ProductsKey != CategoriesKey && ListsKey != CategoriesKey
  {
    assert ProductsKey[4] == 'p' && ListsKey[4] == 'l' && CategoriesKey[4] == 'c';
  }

  /** Writing back the value a key already holds changes nothing. */
  lemma UpdateWithSame<K, V>(m: map<K, V>, k: K)
    requires k in m
    ensures m[k := m[k]] == m
  {
  }

  // ---------------------------------------------------------------------------
  // The new arrays the actions compute
  // ---------------------------------------------------------------------------

  function StringIdOf(s: string): string { s }

  /** `productIds.filter(pid => pid !== id)`: every occurrence of `id` goes,
      every other id stays, in its order. */
  function WithoutId(ids: seq<string>, id: string): (r: seq<string>)
    ensures forall pid :: pid in r <==> pid in ids && pid != id
    ensures IsSubsequence(r, ids)
    ensures |r| == |ids| - multiset(ids)[id]
    ensures id !in ids ==> r == ids
  {
    CountIdIsMultiplicity(ids, StringIdOf, id);
    RemoveById(ids, StringIdOf, id)
  }

  /** `lists.map(list => ({...list, productIds: list.productIds.filter(pid => pid !== id)}))`:
      the same lists in the same order, each losing `id` from its products
      and keeping every other field. */
  function StripProductRefs(lists: seq<CuratedList>, id: string): (r: seq<CuratedList>)
    ensures |r| == |lists|
    ensures forall k :: 0 <= k < |lists| ==>
      && r[k].productIds == WithoutId(lists[k].productIds, id)
      && r[k].(productIds := lists[k].productIds) == lists[k]
  {
    Map(lists, (l: CuratedList) => l.(productIds := WithoutId(l.productIds, id)))
  }

  /** After the cascade no list names `id`, and every id a list still names
      it named before. */
  lemma StripProductRefsRemoves(lists: seq<CuratedList>, id: string)
    ensures forall l, pid :: l in StripProductRefs(lists, id) && pid in l.productIds ==>
      pid != id && exists before :: before in lists && pid in before.productIds
  {
    var r := StripProductRefs(lists, id);
    forall l, pid | l in r && pid in l.productIds
      ensures pid != id && exists before :: before in lists && pid in before.productIds
    {
      var k :| 0 <= k < |r| && r[k] == l;
      assert lists[k] in lists;
    }
  }

  // ---------------------------------------------------------------------------
  // Referential integrity under each action
  // ---------------------------------------------------------------------------

  /** `deleteProduct` keeps integrity: the cascade takes the deleted id out of
      every list, and every other id a list names still has its product. */
  lemma DeleteProductKeepsIntegrity(products: seq<Product>, lists: seq<CuratedList>, id: string)
    requires RefIntegrity(products, lists)
    ensures RefIntegrity(RemoveById(products, ProductIdOf, id), StripProductRefs(lists, id))
  {
    var ps, ls := RemoveById(products, ProductIdOf, id), StripProductRefs(lists, id);
    forall l, pid | l in ls && pid in l.productIds ensures HasProduct(ps, pid) {
      var k :| 0 <= k < |ls| && ls[k] == l;
      assert pid != id && pid in lists[k].productIds;
      assert lists[k] in lists;
      assert HasProduct(products, pid);
      var p :| p in products && p.id == pid;
      assert p in ps;
    }
  }

  /** Without the cascade a delete can leave a list naming a product that is
      gone: integrity needs the lists to be stripped too. */
  lemma DeleteWithoutCascadeBreaksIntegrity(p: Product, l: CuratedList)
    requires l.productIds == [p.id]
    ensures RefIntegrity([p], [l])
    ensures !RefIntegrity(RemoveById([p], ProductIdOf, p.id), [l])
  {
    assert p in [p];
    var ps := RemoveById([p], ProductIdOf, p.id);
    assert !HasProduct(ps, p.id);
    assert l in [l] && p.id in l.productIds;
  }

  /** `addProduct` never breaks integrity. */
  lemma AddProductKeepsIntegrity(products: seq<Product>, p: Product, lists: seq<CuratedList>)
    requires RefIntegrity(products, lists)
    ensures RefIntegrity([p] + products, lists)
  {
    IntegrityGrows(products, [p] + products, lists);
  }

  /** An update that keeps the id keeps the set of ids that have a product,
      so it keeps integrity. */
  lemma UpdateProductKeepsIds(products: seq<Product>, id: string, updated: Product)
    requires updated.id == id
    ensures forall pid :: HasProduct(ReplaceById(products, ProductIdOf, id, updated), pid) <==> HasProduct(products, pid)
  {
    var r := ReplaceById(products, ProductIdOf, id, updated);
    forall pid ensures HasProduct(r, pid) <==> HasProduct(products, pid) {
      if HasProduct(r, pid) {
        var q :| q in r && q.id == pid;
        var k :| 0 <= k < |r| && r[k] == q;
        assert products[k] in products && products[k].id == pid;
      }
      if HasProduct(products, pid) {
        var q :| q in products && q.id == pid;
        var k :| 0 <= k < |products| && products[k] == q;
        assert r[k] in r && r[k].id == pid;
      }
    }
  }

  /** `addList` keeps integrity exactly when every id of the new list names a product. */
  lemma AddListIntegrity(products: seq<Product>, l: CuratedList, lists: seq<CuratedList>)
    ensures RefIntegrity(products, [l] + lists) <==>
      RefIntegrity(products, lists) && forall pid :: pid in l.productIds ==> HasProduct(products, pid)
  {
    if RefIntegrity(products, [l] + lists) {
      assert l in [l] + lists;
      forall m, pid | m in lists && pid in m.productIds ensures HasProduct(products, pid) {
        assert m in [l] + lists;
      }
    }
  }

  /** `updateList` keeps integrity when every id of the new list names a product. */
  lemma UpdateListKeepsIntegrity(products: seq<Product>, lists: seq<CuratedList>, id: string, updated: CuratedList)
    requires RefIntegrity(products, lists)
    requires forall pid :: pid in updated.productIds ==> HasProduct(products, pid)
    ensures RefIntegrity(products, ReplaceById(lists, ListIdOf, id, updated))
  {
    var r := ReplaceById(lists, ListIdOf, id, updated);
    forall m, pid | m in r && pid in m.productIds ensures HasProduct(products, pid) {
      var k :| 0 <= k < |r| && r[k] == m;
      if lists[k].id != id {
        assert lists[k] in lists;
      }
    }
  }

  /** `deleteList` keeps integrity: the remaining lists name what they named. */
  lemma DeleteListKeepsIntegrity(products: seq<Product>, lists: seq<CuratedList>, id: string)
    requires RefIntegrity(products, lists)
    ensures RefIntegrity(products, RemoveById(lists, ListIdOf, id))
  {
  }

  // ---------------------------------------------------------------------------
  // The store
  // ---------------------------------------------------------------------------

  class CatalogStore {
    var products: seq<Product>
    var lists: seq<CuratedList>
    var categories: seq<Category>
    var isLoaded: bool
    /** The browser's localStorage. */
    var persisted: map<string, Stored>

    /** The state of a freshly mounted `useStore`: empty collections, not yet
        loaded, over whatever localStorage holds. */
    constructor (storage: map<string, Stored>)
      ensures products == [] && lists == [] && categories == []
      ensures !isLoaded && persisted == storage
    {
      products, lists, categories := [], [], [];
      isLoaded := false;
      persisted := storage;
    }

    predicate ProductsSynced()
      reads this
    {
      ProductsKey in persisted && persisted[ProductsKey] == StoredProducts(products)
    }

    predicate ListsSynced()
      reads this
    {
      ListsKey in persisted && persisted[ListsKey] == StoredLists(lists)
    }

    predicate CategoriesSynced()
      reads this
    {
      CategoriesKey in persisted && persisted[CategoriesKey] == StoredCategories(categories)
    }

    /** Component state and localStorage agree on all three collections. */
    predicate Synced()
      reads this
    {
      ProductsSynced() && ListsSynced() && CategoriesSynced()
    }

    /** The mount effect over the seed values: each collection is read from
        its key when the key is present, and otherwise set to its seed value
        and written back; the three decisions are independent. */
    method Load(initialProducts: seq<Product>, initialLists: seq<CuratedList>, initialCategories: seq<Category>)
      requires WellTyped(persisted)
      modifies this
      ensures ProductsKey in old(persisted) ==> products == old(persisted)[ProductsKey].products
      ensures ProductsKey !in old(persisted) ==> products == initialProducts
      ensures ListsKey in old(persisted) ==> lists == old(persisted)[ListsKey].lists
      ensures ListsKey !in old(persisted) ==> lists == initialLists
      ensures CategoriesKey in old(persisted) ==> categories == old(persisted)[CategoriesKey].categories
      ensures CategoriesKey !in old(persisted) ==> categories == initialCategories
      ensures persisted == old(persisted)[ProductsKey := StoredProducts(products)]
                                         [ListsKey := StoredLists(lists)]
                                         [CategoriesKey := StoredCategories(categories)]
      ensures isLoaded && Synced() && WellTyped(persisted)
    {
      KeysDistinct();
      var loadedProducts := if ProductsKey in persisted then Some(persisted[ProductsKey]) else None;
      var loadedLists := if ListsKey in persisted then Some(persisted[ListsKey]) else None;
      var loadedCategories := if CategoriesKey in persisted then Some(persisted[CategoriesKey]) else None;

      ghost var before := persisted;

      if loadedProducts.Some? {
        products := loadedProducts.value.products;
        UpdateWithSame(persisted, ProductsKey);
      } else {
        products := initialProducts;
        persisted := persisted[ProductsKey := StoredProducts(initialProducts)];
      }
      assert persisted == before[ProductsKey := StoredProducts(products)];

      if loadedLists.Some? {
        lists := loadedLists.value.lists;
        UpdateWithSame(persisted, ListsKey);
      } else {
        lists := initialLists;
        persisted := persisted[ListsKey := StoredLists(initialLists)];
      }
      assert persisted == before[ProductsKey := StoredProducts(products)][ListsKey := StoredLists(lists)];

      if loadedCategories.Some? {
        categories := loadedCategories.value.categories;
        UpdateWithSame(persisted, CategoriesKey);
      } else {
        categories := initialCategories;
        persisted := persisted[CategoriesKey := StoredCategories(initialCategories)];
      }

      isLoaded := true;
    }

    /** The mount of `useStore` with the seed catalog of types.ts: `Load`
        with the initial products, lists and categories. A first visit (neither
        products nor lists stored) starts from a catalog with distinct ids in
        which every list names existing products. */
    method Mount(now: int, productDraws: seq<ProductDraw>, listDraws: seq<ListDraw>)
      requires WellTyped(persisted)
      requires |productDraws| == 40 && |listDraws| == 4
      modifies this
      ensures ProductsKey in old(persisted) ==> products == old(persisted)[ProductsKey].products
      ensures ProductsKey !in old(persisted) ==> products == InitialProducts(now, productDraws)
      ensures ListsKey in old(persisted) ==> lists == old(persisted)[ListsKey].lists
      ensures ListsKey !in old(persisted) ==> lists == InitialLists(now, productDraws, listDraws)
      ensures CategoriesKey in old(persisted) ==> categories == old(persisted)[CategoriesKey].categories
      ensures CategoriesKey !in old(persisted) ==> categories == InitialCategories(now)
      ensures persisted == old(persisted)[ProductsKey := StoredProducts(products)]
                                         [ListsKey := StoredLists(lists)]
                                         [CategoriesKey := StoredCategories(categories)]
      ensures isLoaded && Synced() && WellTyped(persisted)
      ensures ProductsKey !in old(persisted) && ListsKey !in old(persisted) ==>
        && RefIntegrity(products, lists)
        && DistinctBy(products, ProductIdOf)
        && DistinctBy(lists, ListIdOf)
        && (forall l :: l in lists ==> Distinct(l.productIds))
    {
      var initialProducts, initialLists := InitialCatalog(now, productDraws, listDraws);
      Load(initialProducts, initialLists, InitialCategories(now));
    }

    /** `saveProducts`: state and the products key both become `newProducts`. */
    method SaveProducts(newProducts: seq<Product>)
      modifies this
      ensures products == newProducts
      ensures persisted == old(persisted)[ProductsKey := StoredProducts(newProducts)]
      ensures lists == old(lists) && categories == old(categories) && isLoaded == old(isLoaded)
      ensures ProductsSynced()
      ensures old(ListsSynced()) ==> ListsSynced()
      ensures old(CategoriesSynced()) ==> CategoriesSynced()
      ensures old(WellTyped(persisted)) ==> WellTyped(persisted)
    {
      KeysDistinct();
      products := newProducts;
      persisted := persisted[ProductsKey := StoredProducts(newProducts)];
    }

    /** `saveLists`: state and the lists key both become `newLists`. */
    method SaveLists(newLists: seq<CuratedList>)
      modifies this
      ensures lists == newLists
      ensures persisted == old(persisted)[ListsKey := StoredLists(newLists)]
      ensures products == old(products) && categories == old(categories) && isLoaded == old(isLoaded)
      ensures ListsSynced()
      ensures old(ProductsSynced()) ==> ProductsSynced()
      ensures old(CategoriesSynced()) ==> CategoriesSynced()
      ensures old(WellTyped(persisted)) ==> WellTyped(persisted)
    {
      KeysDistinct();
      lists := newLists;
      persisted := persisted[ListsKey := StoredLists(newLists)];
    }

    /** `saveCategories`: state and the categories key both become `newCategories`. */
    method SaveCategories(newCategories: seq<Category>)
      modifies this
      ensures categories == newCategories
      ensures persisted == old(persisted)[CategoriesKey := StoredCategories(newCategories)]
      ensures products == old(products) && lists == old(lists) && isLoaded == old(isLoaded)
      ensures CategoriesSynced()
      ensures old(ProductsSynced()) ==> ProductsSynced()
      ensures old(ListsSynced()) ==> ListsSynced()
      ensures old(WellTyped(persisted)) ==> WellTyped(persisted)
    {
      KeysDistinct();
      categories := newCategories;
      persisted := persisted[CategoriesKey := StoredCategories(newCategories)];
    }

    /** `addProduct`: the new product goes first, the others follow in order. */
    method AddProduct(product: Product)
      modifies this
      ensures products == [product] + old(products)
      ensures lists == old(lists) && categories == old(categories) && isLoaded == old(isLoaded)
      ensures persisted == old(persisted)[ProductsKey := StoredProducts(products)]
      ensures old(Synced()) ==> Synced()
      ensures old(RefIntegrity(products, lists)) ==> RefIntegrity(products, lists)
    {
      if RefIntegrity(products, lists) {
        AddProductKeepsIntegrity(products, product, lists);
      }
      SaveProducts([product] + products);
    }

    /** `updateProduct`: every product with id `id` becomes `updatedProduct` in
        place; the others, the length and the order stay. When the new value
        keeps the id, integrity is kept. */
    method UpdateProduct(id: string, updatedProduct: Product)
      modifies this
      ensures products == ReplaceById(old(products), ProductIdOf, id, updatedProduct)
      ensures |products| == |old(products)|
      ensures forall k :: 0 <= k < |products| ==>
        products[k] == if old(products)[k].id == id then updatedProduct else old(products)[k]
      ensures lists == old(lists) && categories == old(categories) && isLoaded == old(isLoaded)
      ensures persisted == old(persisted)[ProductsKey := StoredProducts(products)]
      ensures old(Synced()) ==> Synced()
      ensures updatedProduct.id == id && old(RefIntegrity(products, lists)) ==> RefIntegrity(products, lists)
    {
      var newProducts := ReplaceById(products, ProductIdOf, id, updatedProduct);
      if updatedProduct.id == id {
        UpdateProductKeepsIds(products, id, updatedProduct);
      }
      SaveProducts(newProducts);
    }

    /** `deleteProduct`: the products with id `id` go, and `id` is taken out of
        every list's products; nothing else changes, and integrity is kept. */
    method DeleteProduct(id: string)
      modifies this
      ensures products == RemoveById(old(products), ProductIdOf, id)
      ensures lists == StripProductRefs(old(lists), id)
      ensures categories == old(categories) && isLoaded == old(isLoaded)
      ensures persisted == old(persisted)[ProductsKey := StoredProducts(products)][ListsKey := StoredLists(lists)]
      ensures forall p :: p in products <==> p in old(products) && p.id != id
      ensures forall l, pid :: l in lists && pid in l.productIds ==> pid != id
      ensures old(Synced()) ==> Synced()
      ensures old(RefIntegrity(products, lists)) ==> RefIntegrity(products, lists)
    {
      if RefIntegrity(products, lists) {
        DeleteProductKeepsIntegrity(products, lists, id);
      }
      StripProductRefsRemoves(lists, id);
      var oldLists := lists;
      SaveProducts(RemoveById(products, ProductIdOf, id));
      var updatedLists := StripProductRefs(oldLists, id);
      SaveLists(updatedLists);
    }

    /** `addList`: the new list goes first. Integrity is kept exactly when the
        new list names only existing products. */
    method AddList(list: CuratedList)
      modifies this
      ensures lists == [list] + old(lists)
      ensures products == old(products) && categories == old(categories) && isLoaded == old(isLoaded)
      ensures persisted == old(persisted)[ListsKey := StoredLists(lists)]
      ensures old(Synced()) ==> Synced()
      ensures RefIntegrity(products, lists) <==>
        old(RefIntegrity(products, lists)) && forall pid :: pid in list.productIds ==> HasProduct(products, pid)
    {
      AddListIntegrity(products, list, lists);
      SaveLists([list] + lists);
    }

    /** `updateList`: every list with id `id` becomes `updatedList` in place. */
    method UpdateList(id: string, updatedList: CuratedList)
      modifies this
      ensures lists == ReplaceById(old(lists), ListIdOf, id, updatedList)
      ensures |lists| == |old(lists)|
      ensures forall k :: 0 <= k < |lists| ==>
        lists[k] == if old(lists)[k].id == id then updatedList else old(lists)[k]
      ensures products == old(products) && categories == old(categories) && isLoaded == old(isLoaded)
      ensures persisted == old(persisted)[ListsKey := StoredLists(lists)]
      ensures old(Synced()) ==> Synced()
      ensures old(RefIntegrity(products, lists)) && (forall pid :: pid in updatedList.productIds ==> HasProduct(products, pid))
        ==> RefIntegrity(products, lists)
    {
      if RefIntegrity(products, lists) && forall pid :: pid in updatedList.productIds ==> HasProduct(products, pid) {
        UpdateListKeepsIntegrity(products, lists, id, updatedList);
      }
      SaveLists(ReplaceById(lists, ListIdOf, id, updatedList));
    }

    /** `deleteList`: only the lists change; products are not touched. */
    method DeleteList(id: string)
      modifies this
      ensures lists == RemoveById(old(lists), ListIdOf, id)
      ensures forall l :: l in lists <==> l in old(lists) && l.id != id
      ensures products == old(products) && categories == old(categories) && isLoaded == old(isLoaded)
      ensures persisted == old(persisted)[ListsKey := StoredLists(lists)]
      ensures old(Synced()) ==> Synced()
      ensures old(RefIntegrity(products, lists)) ==> RefIntegrity(products, lists)
    {
      if RefIntegrity(products, lists) {
        DeleteListKeepsIntegrity(products, lists, id);
      }
      SaveLists(RemoveById(lists, ListIdOf, id));
    }

    /** `addCategory`: unlike products and lists, the new category goes last. */
    method AddCategory(category: Category)
      modifies this
      ensures categories == old(categories) + [category]
      ensures products == old(products) && lists == old(lists) && isLoaded == old(isLoaded)
      ensures persisted == old(persisted)[CategoriesKey := StoredCategories(categories)]
      ensures old(Synced()) ==> Synced()
    {
      SaveCategories(categories + [category]);
    }

    /** `updateCategory`: every category with id `id` becomes `updatedCategory`
        in place; products keep their category strings. */
    method UpdateCategory(id: string, updatedCategory: Category)
      modifies this
      ensures categories == ReplaceById(old(categories), CategoryIdOf, id, updatedCategory)
      ensures |categories| == |old(categories)|
      ensures forall k :: 0 <= k < |categories| ==>
        categories[k] == if old(categories)[k].id == id then updatedCategory else old(categories)[k]
      ensures products == old(products) && lists == old(lists) && isLoaded == old(isLoaded)
      ensures persisted == old(persisted)[CategoriesKey := StoredCategories(categories)]
      ensures old(Synced()) ==> Synced()
    {
      SaveCategories(ReplaceById(categories, CategoryIdOf, id, updatedCategory));
    }

    /** `deleteCategory`: only the categories change; products and lists keep
        their category strings, so nothing cascades. */
    method DeleteCategory(id: string)
      modifies this
      ensures categories == RemoveById(old(categories), CategoryIdOf, id)
      ensures forall c :: c in categories <==> c in old(categories) && c.id != id
      ensures products == old(products) && lists == old(lists) && isLoaded == old(isLoaded)
      ensures persisted == old(persisted)[CategoriesKey := StoredCategories(categories)]
      ensures old(Synced()) ==> Synced()
    {
      SaveCategories(RemoveById(categories, CategoryIdOf, id));
    }
  }
}
