# Affiliate catalog store and seed data

This project models two parts of an affiliate-link catalog site and proves properties about them.

**The client-side catalog store (`useStore`).** It keeps three collections in component state: products, curated lists and categories. Each collection is mirrored under its own versioned localStorage key. Each collection has add, update and delete actions:
- products and lists are prepended, categories are appended;
- an update replaces every element that has the given id, in place;
- a product delete cascades: the id is also removed from every list's `productIds`;
- list and category deletes do not cascade.

The store is the class `Store.CatalogStore`. Its `seq` fields are the component state and its `persisted` map is localStorage. Every action is a method whose contract states:
- the new collections;
- the new storage map;
- that nothing else changes;
- that state and storage stay in sync;
- what happens to referential integrity, which means every id a list names belongs to an existing product:
  - `addProduct`, `deleteProduct` and `deleteList` keep it unconditionally;
  - `updateProduct` keeps it when the new product keeps the id;
  - `addList` keeps it exactly when the new list names only existing products;
  - `updateList` keeps it when the new list names only existing products;
  - the category actions leave products and lists untouched, so integrity is unaffected.

**The seed catalog.** This covers the eleven categories and four hand-written headphone products. It also covers the loops that generate 40 dummy products and 4 curated lists, the curated list of the headphones, and the concatenations that form the initial catalog. The generator loops are methods proved against the specification functions `GeneratedProducts` and `GeneratedLists`. Lemmas about those functions prove:
- counts and id formats;
- that each title noun comes from its category's noun table;
- the pool rule and the selection count;
- slug normalisation;
- distinct ids and slugs;
- referential integrity of the seed data.

These lemmas also give `Mount` its guarantee: on a first visit the store starts from a catalog with integrity.

Modules:
- `Sequences`: `filter`/`map` and by-id removal and replacement, with their laws.
- `Decimal`: rendering counters into ids.
- `Random`: how random choices are modelled.
- `Slug`: slug derivation.
- `Catalog`: records and integrity.
- `Seed`: the seed data.
- `Store`: the store.

## Model

| member | source | states |
|---|---|---|
| Sequences.Filter | services/storage.ts:70 | `filter` keeps exactly the elements that pass the test, in their original order; the result's length is the count of passing elements |
| Sequences.Map | services/storage.ts:72-75 | `map` keeps the length and applies the function at every position |
| Sequences.RemoveById | services/storage.ts:70 | filtering out an id keeps exactly the elements with another id, in order; the length drops by the number of matches; an absent id changes nothing |
| Sequences.ReplaceById | services/storage.ts:65 | replacing by id keeps the length; a matching position holds the new value and every other position is unchanged; an absent id changes nothing |
| Sequences.FilterKeepsDistinct | services/storage.ts:70 | filtering never introduces a repeated key |
| Decimal.NatToString | types.ts:198 | `${i}` is a non-empty string of decimal digits |
| Decimal.ParseNatToString | types.ts:198 | reading back the decimal rendering of `n` gives `n` |
| Decimal.NatToStringInjective | types.ts:198 | different counters render differently |
| Random.Draw | types.ts:194 | `Math.floor(Math.random() * n)` is an index below `n`, and every such index is some outcome |
| Random.Shuffled | types.ts:255 | the random-comparator sort returns a permutation of the pool |
| Random.EveryPermutationReachable | types.ts:255 | for every permutation of the pool there are picks that make the shuffle produce it |
| Random.ShuffledKeepsDistinct | types.ts:255 | shuffling a pool with distinct ids keeps them distinct |
| Slug.ToLower | types.ts:262 | `toLowerCase` keeps the length and lowers each ASCII letter in place |
| Slug.SpacesToHyphens | types.ts:262 | `replace(/ /g, '-')` turns each space into a hyphen and keeps everything else in place |
| Slug.Slugify | types.ts:262 | the normalised category contains only `[a-z0-9-]` and is no longer than the input |
| Slug.SlugifyIdempotent | types.ts:262 | normalising a normalised string returns it unchanged |
| Slug.ListSlug | types.ts:262 | a generated slug contains only `[a-z0-9-]` |
| Slug.ListSlugStart | types.ts:262 | a generated slug starts with `en-iyi-` |
| Slug.ListSlugsDistinct | types.ts:262 | slugs with different counters differ whatever their categories |
| Catalog.Ids | types.ts:237 | `map(p => p.id)` has one id per product, in order |
| Catalog.Names | types.ts:191 | `map(c => c.name)` has one name per category, in order |
| Catalog.IdsNameProducts | types.ts:237 | every id in `Ids(products)` belongs to a product |
| Seed.CategoryNamesDistinct | types.ts:43-121 | the eleven category names are pairwise different strings |
| Seed.CategoryIdInjective | types.ts:43-121 | the category ids `c1` to `c11` are pairwise different |
| Seed.InitialCategories | types.ts:43-121 | there are eleven seed categories; category k has id `c{k}`, its name and icon, and creation time `now`; all are featured except the last |
| Seed.InitialCategoriesNamed | types.ts:43-121 | the seed categories' names are `CategoryNames` in order, and their ids are distinct |
| Seed.SeedCategoryNames | types.ts:191 | the category names the generators draw from are exactly the seed categories' names |
| Seed.NounsFor | types.ts:195 | the noun list is `PRODUCT_NOUNS[category]` when it has an entry, otherwise `['Cihaz','Ürün']`; it always has at least two nouns |
| Seed.AdjectivesDistinct | types.ts:174 | `PRODUCT_ADJECTIVES` is ten different adjectives |
| Seed.NounTableKeys | types.ts:175-187 | `PRODUCT_NOUNS` has an entry for exactly the seed category names, each of five nouns |
| Seed.CategoriesHaveNouns | types.ts:175-187 | every seed category has an entry of five nouns |
| Seed.ProductId | types.ts:198 | the id template `p${i}` is `p` followed by decimal digits that read back as `i` |
| Seed.ProductIdInjective | types.ts:198 | product ids `p{i}` of different counters differ |
| Seed.DrawnCategory | types.ts:194 | the drawn category is the name of a seed category |
| Seed.DrawnNoun | types.ts:195-196 | the drawn noun comes from the drawn category's noun list |
| Seed.DrawnAdjective | types.ts:197 | the drawn adjective comes from `PRODUCT_ADJECTIVES` |
| Seed.DummyProduct | types.ts:198-226 | the object literal pushed for counter i: id `p{i}`, the given category, the title `noun adjective 2024`, the links `l{i}_1` (Trendyol) and `l{i}_2` (Hepsiburada), the video exactly when drawn, no short link, created `age` before `now` |
| Seed.ProductFromDraw | types.ts:193-227 | the i-th generated product has id `p{i}` and a seed category |
| Seed.ProductFromDrawShape | types.ts:194-225 | each generated product has: a title built from a noun of its category, an adjective and 2024; exactly two links `l{i}_1` (Trendyol) and `l{i}_2` (Hepsiburada); a creation time within the last 10^9 ms; a video exactly when the coin says so; no short URL |
| Seed.GeneratedProducts | types.ts:189-229 | the loop's reference function: one product per draw, product k numbered `p{k+1}` |
| Seed.GeneratedProductsShape | types.ts:189-229 | the generator yields one product per iteration; product k is the one built from draw k with id `p{k+1}`; every product has a seed category; the ids are distinct |
| Seed.GeneratedProductsLabels | types.ts:194-198 | every generated product is in a seed category and has an id starting with `p` |
| Seed.GenerateDummyProducts | types.ts:189-229 | the loop returns `GeneratedProducts` of its draws: `count` products with ids `p1`..`pcount` in order, seed categories, distinct ids |
| Seed.ListId | types.ts:257 | the id template `list${i}` is `list` followed by decimal digits that read back as `i` |
| Seed.ListIdInjective | types.ts:257 | list ids `list{i}` of different counters differ |
| Seed.InCategory | types.ts:251 | `filter(p => p.category === category)` keeps exactly the products of that category |
| Seed.Pool | types.ts:252 | the pool is the category's products when there are more than five of them, otherwise all products; it keeps ids distinct |
| Seed.SelectIds | types.ts:255-256 | the selected ids are the first `min(|pool|, take)` ids of a permutation of the pool; they all come from the pool; they are distinct when the pool's ids are |
| Seed.Take | types.ts:256 | the selection count `floor(random * 7) + 5` is between 5 and 11 |
| Seed.DummyList | types.ts:257-271 | the object literal pushed for counter i: id `list{i}`, the given category and ids, the slug `ListSlug(category, i)` made of slug characters only, the demo video, empty `features`, the drawn featured flag, created `age` before `now` |
| Seed.ListFromDraw | types.ts:248-271 | the i-th list has id `list{i}`, the drawn category, the slug of that category and i, ids that all name given products, and no repeated id when product ids are distinct |
| Seed.ListFromDrawShape | types.ts:249-270 | as above, plus: the slug spelled out; `min(|pool|, k)` ids, so 5 to 11 when there are at least 11 products; ids from the category when it has more than five products; the demo video; empty `features`; a recent creation time |
| Seed.GeneratedLists | types.ts:244-274 | the loop's reference function: one list per draw (the rest of its shape is `GeneratedListsShape`) |
| Seed.GeneratedListsShape | types.ts:244-274 | one list per iteration, list k built from draw k, with distinct ids and distinct slugs |
| Seed.GeneratedListsLabels | types.ts:257-262 | generated list ids have a digit after `list`, and slugs start with `en-iyi-` |
| Seed.GeneratedListsIntegrity | types.ts:251-256 | every id in a generated list names a product it was generated from, and no list repeats an id when product ids are distinct |
| Seed.GenerateDummyLists | types.ts:244-274 | the loop returns `GeneratedLists` of its draws: `count` lists with distinct ids and slugs, integrity against the products, no repeated ids inside a list |
| Seed.HeadphoneIdsFacts | types.ts:126-160 | the headphone ids are distinct and start with `spec_` |
| Seed.SpecificDistinct | types.ts:124-170 | the hand-written headphones have distinct ids beginning with `s` |
| Seed.SpecificHeadphones | types.ts:124-170 | `SPECIFIC_HEADPHONES` is four earbuds whose ids are `HeadphoneIds` in order, each dated `now`, with no short link and no video |
| Seed.SpecificList | types.ts:232-242 | `SPECIFIC_LIST` names the headphone ids in order; it is a featured earbuds list dated `now` |
| Seed.SpecificListFacts | types.ts:233-235 | the specific list has its literal id and slug, which begin with `list_` and a digit |
| Seed.InitialProducts | types.ts:282 | `INITIAL_PRODUCTS` is the four headphones followed by the generated products |
| Seed.InitialLists | types.ts:283 | `INITIAL_LISTS` is the specific list followed by the lists generated over the generated products |
| Seed.InitialProductsDistinct | types.ts:282 | the initial products (headphones then generated) have distinct ids and seed categories |
| Seed.InitialListsDistinct | types.ts:283 | the initial lists (the specific list then generated) have distinct ids and distinct slugs |
| Seed.InitialCatalogIntegrity | types.ts:237-283 | every id in every initial list names an initial product, and no list repeats an id |
| Seed.InitialCatalog | types.ts:278-283 | generating 40 products and 4 lists yields 44 products and 5 lists, with distinct ids and slugs, seed categories and referential integrity |
| Store.KeysDistinct | services/storage.ts:15-17 | the three storage keys are different, so writing one never touches another |
| Store.WithoutId | services/storage.ts:74 | removing `id` from a list's ids keeps exactly the other ids, in order; the length drops by the occurrences of `id`; an absent id changes nothing |
| Store.StripProductRefs | services/storage.ts:72-75 | the cascade keeps the number and order of lists; each list loses `id` from its products and keeps every other field |
| Store.StripProductRefsRemoves | services/storage.ts:72-75 | after the cascade no list names `id`, and every id still named was named before |
| Store.DeleteProductKeepsIntegrity | services/storage.ts:69-77 | deleting a product with the cascade keeps referential integrity |
| Store.DeleteWithoutCascadeBreaksIntegrity | services/storage.ts:69-77 | without the cascade, deleting a product a list names breaks integrity |
| Store.AddProductKeepsIntegrity | services/storage.ts:60-62 | prepending a product keeps integrity |
| Store.UpdateProductKeepsIds | services/storage.ts:64-67 | an update that keeps the id keeps the set of ids that have a product |
| Store.AddListIntegrity | services/storage.ts:80-82 | prepending a list keeps integrity exactly when the new list names only existing products |
| Store.UpdateListKeepsIntegrity | services/storage.ts:84-87 | replacing a list with one that names only existing products keeps integrity |
| Store.DeleteListKeepsIntegrity | services/storage.ts:89-91 | deleting a list keeps integrity |
| Store.CatalogStore.constructor | services/storage.ts:7-10 | a fresh store has empty collections, is not loaded, and sees the given localStorage |
| Store.CatalogStore.Load | services/storage.ts:14-41 | for each key independently: a present key's stored array becomes the collection; an absent key is seeded and written; the store ends loaded and in sync with storage |
| Store.CatalogStore.Mount | services/storage.ts:14-41 | for each key independently: a present key's stored array becomes the collection; an absent key is seeded with the types.ts initial catalog and written; the store ends loaded and in sync; a first visit starts from distinct ids and referential integrity |
| Store.CatalogStore.SaveProducts | services/storage.ts:44-47 | state and the products key both become the new array; nothing else changes; sync is kept |
| Store.CatalogStore.SaveLists | services/storage.ts:49-52 | state and the lists key both become the new array; nothing else changes; sync is kept |
| Store.CatalogStore.SaveCategories | services/storage.ts:54-57 | state and the categories key both become the new array; nothing else changes; sync is kept |
| Store.CatalogStore.AddProduct | services/storage.ts:60-62 | the product is prepended; lists and categories are untouched; sync and integrity are kept; the loaded flag is unchanged |
| Store.CatalogStore.UpdateProduct | services/storage.ts:64-67 | the length is kept, matching positions get the new product and the others are unchanged; integrity is kept when the id is kept; the loaded flag is unchanged |
| Store.CatalogStore.DeleteProduct | services/storage.ts:69-77 | exactly the products with `id` go, in order; `id` leaves every list; categories are untouched; sync and integrity are kept; the loaded flag is unchanged |
| Store.CatalogStore.AddList | services/storage.ts:80-82 | the list is prepended; integrity afterwards holds exactly when it held before and the new list names only existing products; the loaded flag is unchanged |
| Store.CatalogStore.UpdateList | services/storage.ts:84-87 | the length is kept, matching positions get the new list and the others are unchanged; integrity is kept when the new list names only existing products; the loaded flag is unchanged |
| Store.CatalogStore.DeleteList | services/storage.ts:89-91 | exactly the lists with `id` go; products and categories are untouched; integrity is kept; the loaded flag is unchanged |
| Store.CatalogStore.AddCategory | services/storage.ts:94-96 | the category is appended; products and lists are untouched; the loaded flag is unchanged |
| Store.CatalogStore.UpdateCategory | services/storage.ts:98-101 | the length is kept, matching positions get the new category and the others are unchanged; the loaded flag is unchanged |
| Store.CatalogStore.DeleteCategory | services/storage.ts:103-105 | exactly the categories with `id` go; products and lists keep their category strings (no cascade); the loaded flag is unchanged |

## Left out

- Randomness: each `Math.random()` draw is a natural number supplied in a draw record, reduced by `Draw` to the range the source's expression gives. The probabilities (about 20% of products get a video, about 30% of lists are featured) are not modelled; the coin is a boolean in the draw.
- The random-comparator sort is an oracle of picks that always yields a permutation. How likely each order is under a real sort is not modelled.
- `Date.now()`: a single `now` parameter stands for every call, although the source calls the clock once per record.
- JSON serialisation is the identity. Storage is assumed well typed (`WellTyped`): a present key holds an array of the kind written under it. Unparseable or foreign values under a key are not modelled.
- A present key holding the empty string is falsy in the source and would be re-seeded. With identity serialisation that value cannot arise, so it is not modelled.
- `toLowerCase` is ASCII-only. Non-ASCII letters such as `İ` and `ı` are left unchanged before the `[a-z0-9-]` filter.
- React concerns are out of scope: asynchronous state updates, re-rendering and stale closure state. Each action runs to completion on the current state.
- The UI components, pages, API routes, the cache wrapper and the short-link redirect handlers are not part of this model.
- The seed data's product descriptions and long URLs (literals over 70 characters) are written as concatenations of short pieces; the strings are the same.
- `localStorage.setItem` failing is not modelled (for example a quota error). In the source, the state setter runs before `setItem` (services/storage.ts:45-46), so a throw leaves state and storage out of step. Inside `deleteProduct` the throw also skips `saveLists` (services/storage.ts:70-76), so lists go on naming the deleted product. In the model every write succeeds; `Synced` and the integrity results rely on that.
- Store.CatalogStore.UpdateProduct: promises integrity only when the new product keeps the id. Changing the id can leave lists naming a product that is gone, and the source does not prevent that.
- The comment at types.ts:250 says 5-12 products are picked, but the code picks 5 to 11 (`floor(random * 7) + 5`). The model follows the code (`Seed.Take`).
