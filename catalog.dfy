/** The catalog's records (the interfaces of types.ts) and the
    referential-integrity rule that ties curated lists to products. */
module Catalog {
  import opened Sequences

  /** An optional field of a record (`field?: T`). */
  datatype Option<T> = None | Some(value: T)

  /** One shop link of a product (`label` is a Dafny keyword, hence `linkLabel`). */
  datatype AffiliateLink = AffiliateLink(id: string, linkLabel: string, url: string, iconUrl: string)

  datatype Category = Category(
    id: string,
    name: string,
    iconUrl: Option<string>,
    isFeatured: Option<bool>,
    createdAt: int)

  datatype Product = Product(
    id: string,
    title: string,
    description: string,
    imageUrl: string,
    affiliateLinks: seq<AffiliateLink>,
    category: string,
    shortUrl: Option<string>,
    youtubeUrl: Option<string>,
    createdAt: int)

  datatype CuratedList = CuratedList(
    id: string,
    title: string,
    slug: string,
    description: string,
    productIds: seq<string>,
    category: Option<string>,
    coverImage: Option<string>,
    youtubeUrl: Option<string>,
    features: Option<seq<string>>,
    isFeatured: Option<bool>,
    createdAt: int)

  function ProductIdOf(p: Product): string { p.id }
  function ListIdOf(l: CuratedList): string { l.id }
  function CategoryIdOf(c: Category): string { c.id }
  function CategoryNameOf(c: Category): string { c.name }

  /** `products.map(p => p.id)`. */
  function Ids(products: seq<Product>): (r: seq<string>)
    ensures |r| == |products|
    ensures forall k :: 0 <= k < |products| ==> r[k] == products[k].id
  {
    Map(products, ProductIdOf)
  }

  /** `categories.map(c => c.name)`. */
  function Names(categories: seq<Category>): (r: seq<string>)
    ensures |r| == |categories|
    ensures forall k :: 0 <= k < |categories| ==> r[k] == categories[k].name
  {
    Map(categories, CategoryNameOf)
  }

  /** Some product has id `pid`. */
  predicate HasProduct(products: seq<Product>, pid: string)
  {
    exists p :: p in products && p.id == pid
  }

  /** Every id in every list's `productIds` names an existing product. */
  predicate RefIntegrity(products: seq<Product>, lists: seq<CuratedList>)
  {
    forall l, pid :: l in lists && pid in l.productIds ==> HasProduct(products, pid)
  }

  /** Membership in `Ids(products)` means some product carries that id. */
  lemma IdsNameProducts(products: seq<Product>, pid: string)
    requires pid in Ids(products)
    ensures HasProduct(products, pid)
  {
    var k :| 0 <= k < |products| && Ids(products)[k] == pid;
    assert products[k] in products;
  }

  /** Products whose id list has no repeats have distinct ids. */
  lemma DistinctIds(products: seq<Product>)
    requires Distinct(Ids(products))
    ensures DistinctBy(products, ProductIdOf)
  {
    forall j, k | 0 <= j < k < |products| ensures products[j].id != products[k].id {
      assert Ids(products)[j] == products[j].id && Ids(products)[k] == products[k].id;
    }
  }

  /** Integrity survives adding products. */
  lemma IntegrityGrows(products: seq<Product>, more: seq<Product>, lists: seq<CuratedList>)
    requires RefIntegrity(products, lists)
    requires forall p :: p in products ==> p in more
    ensures RefIntegrity(more, lists)
  {
    forall l, pid | l in lists && pid in l.productIds ensures HasProduct(more, pid) {
      assert HasProduct(products, pid);
      var p :| p in products && p.id == pid;
    }
  }

  /** Putting in front a list whose ids all name products keeps integrity. */
  lemma IntegrityCons(products: seq<Product>, l: CuratedList, lists: seq<CuratedList>)
    requires RefIntegrity(products, lists)
    requires forall pid :: pid in l.productIds ==> HasProduct(products, pid)
    ensures RefIntegrity(products, [l] + lists)
  {
  }
}
