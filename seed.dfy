/** The seed catalog of types.ts: the fixed categories, the four hand-picked
    headphones and their list, the generators `generateDummyProducts` and
    `generateDummyLists`, and the `INITIAL_*` concatenations.

    What `Math.random()` and `Date.now()` return is passed in: one draw record
    per loop iteration, whose fields `Draw` reduces to the range the source's
    `Math.floor(Math.random() * n)` can produce, and one instant `now`.

    The product descriptions and long URLs (literals over 70 characters) are
    written as concatenations of short pieces (`"https://" + "images." + ...`);
    each denotes the same string as the single literal of the source, and
    short pieces keep the verifier's work on them small. */
module Seed {
  import opened Sequences
  import opened Decimal
  import opened Slug
  import opened Catalog
  import opened Random

  // ---------------------------------------------------------------------------
  // Constants
  // ---------------------------------------------------------------------------

  /** Common prefix of the category icons. */
  const Flaticon: string := "https://cdn-icons-png.flaticon.com/512/"

  /** The names of `INITIAL_CATEGORIES`, in order. */
  const CategoryNames: seq<string> := [
    "F/P Akıllı Saat",
    "F/P Kulaklık",
    "F/P Notebook & Laptop",
    "F/P Kulaküstü Kulaklık",
    "F/P Bluetooth Hoparlör",
    "F/P Monitör",
    "F/P Televizyon",
    "F/P Projeksiyon",
    "F/P Tv Box",
    "Retro Oyun Konsolu",
    "Diğer"
  ]

  /** The icons of `INITIAL_CATEGORIES`, in the order of `CategoryNames`. */
  const CategoryIcons: seq<string> := [
    Flaticon + "3079/3079162.png",
    Flaticon + "5753/5753443.png",
    Flaticon + "3050/3050222.png",
    Flaticon + "2779/2779367.png",
    Flaticon + "8428/8428987.png",
    Flaticon + "5725/5725807.png",
    Flaticon + "3920/3920808.png",
    Flaticon + "3616/3616768.png",
    Flaticon + "9631/9631245.png",
    Flaticon + "808/808439.png",
    Flaticon + "1043/1043445.png"
  ]

  /** The id of the k-th seed category, `c1` to `c11`. */
  function CategoryId(k: nat): string
  {
    "c" + NatToString(k)
  }

  lemma CategoryIdInjective(i: nat, j: nat)
    ensures CategoryId(i) == CategoryId(j) ==> i == j
  {
    if CategoryId(i) == CategoryId(j) {
      assert CategoryId(i)[1..] == NatToString(i);
      assert CategoryId(j)[1..] == NatToString(j);
      NatToStringInjective(i, j);
    }
  }

  /** `INITIAL_CATEGORIES`: category `c{k+1}` is named `CategoryNames[k]`, has
      icon `CategoryIcons[k]`, and every one but the last (`Diğer`) is
      featured; every `Date.now()` in it reads `now`. */
  function InitialCategories(now: int): (cs: seq<Category>)
    ensures |cs| == 11
    ensures forall k :: 0 <= k < 11 ==>
      cs[k] == Category(CategoryId(k + 1), CategoryNames[k], Some(CategoryIcons[k]), Some(k != 10), now)
  {
    seq(11, k requires 0 <= k < 11 =>
      Category(CategoryId(k + 1), CategoryNames[k], Some(CategoryIcons[k]), Some(k != 10), now))
  }

  /** The seed categories carry the names of `CategoryNames`, in order, and
      distinct ids. */
  lemma InitialCategoriesNamed(now: int)
    ensures Names(InitialCategories(now)) == CategoryNames
    ensures DistinctBy(InitialCategories(now), CategoryIdOf)
  {
    var cs := InitialCategories(now);
    forall j, k | 0 <= j < k < 11 ensures cs[j].id != cs[k].id {
      CategoryIdInjective(j + 1, k + 1);
    }
  }

  /** `INITIAL_CATEGORIES.map(c => c.name)`, the names both generators draw from. */
  method SeedCategoryNames(now: int) returns (names: seq<string>)
    ensures names == CategoryNames
  {
    names := Names(InitialCategories(now));
    InitialCategoriesNamed(now);
  }

  const TrendyolIcon: string := ("https://" + "upload." + "wikimedia." + "org/" + "wikipedia/" + "commons/" + "thumb/6/6b/" + "Trendyol_" + "Logo.svg/" + "1200px-" + "Trendyol_" + "Logo.svg.png")
  const HepsiburadaIcon: string := ("https://" + "upload." + "wikimedia." + "org/" + "wikipedia/" + "commons/2/" + "20/" + "Hepsiburada_" + "logo_" + "official.svg")
  const AmazonIcon: string := "https://upload.wikimedia.org/wikipedia/commons/a/a9/Amazon_logo.svg"
  const N11Icon: string := ("https://" + "upload." + "wikimedia." + "org/" + "wikipedia/" + "commons/" + "thumb/e/e6/" + "N11_logo." + "svg/2560px-" + "N11_logo." + "svg.png")
  const DemoVideo: string := "https://www.youtube.com/watch?v=LXb3EKWsInQ"

  /** `SPECIFIC_HEADPHONES`: four earbuds with the ids `HeadphoneIds`, in
      order, all dated `now`, with neither short link nor video. */
  function SpecificHeadphones(now: int): (hs: seq<Product>)
    ensures |hs| == 4 && Ids(hs) == HeadphoneIds
    ensures forall p :: p in hs ==>
      p.category == CategoryNames[1] && p.createdAt == now && p.shortUrl == None && p.youtubeUrl == None
  {
    [
      Product(
        "spec_jbl_tune_flex_2",
        "JBL Tune Flex 2 Ghost",
        ("JBL Pure " + "Bass sesi, " + "aktif " + "gürültü " + "engelleme " + "ve şeffaf " + "tasarım. " + "Hem açık " + "hem kapalı " + "kullanım " + "imkanı " + "sunan " + "yenilikçi " + "tasarım ve " + "uzun pil " + "ömrü."),
        ("https://" + "images." + "unsplash." + "com/photo-" + "1613040809024-" + "b4ef7ba99bc3?" + "auto=format&" + "fit=crop&q=" + "80&w=600"),
        [AffiliateLink("l_jbl_1", "Trendyol", "#", TrendyolIcon),
         AffiliateLink("l_jbl_2", "Hepsiburada", "#", HepsiburadaIcon)],
        CategoryNames[1], None, None, now),
      Product(
        "spec_samsung_buds_3",
        "Samsung Galaxy Buds 3",
        ("Yapay zeka " + "destekli " + "gürültü " + "engelleme, " + "24-bit Hi-" + "Fi ses " + "kalitesi ve " + "ergonomik " + "tasarımıyla " + "Galaxy " + "ekosisteminin " + "en yenisi."),
        ("https://" + "images." + "unsplash." + "com/photo-" + "1590658268037-" + "6bf12165a8df?" + "auto=format&" + "fit=crop&q=" + "80&w=600"),
        [AffiliateLink("l_sam_1", "Amazon", "#", AmazonIcon)],
        CategoryNames[1], None, None, now),
      Product(
        "spec_qcy_ht08",
        "QCY HT08 MeloBuds ANC",
        ("Uygun " + "fiyata 40dB " + "hibrit " + "aktif " + "gürültü " + "engelleme, " + "rüzgar " + "gürültüsü " + "azaltma ve " + "6 " + "mikrofonlu " + "görüşme " + "kalitesi."),
        ("https://" + "images." + "unsplash." + "com/photo-" + "1606220588913-" + "b3aacb4d2f46?" + "auto=format&" + "fit=crop&q=" + "80&w=600"),
        [AffiliateLink("l_qcy_1", "N11", "#", N11Icon)],
        CategoryNames[1], None, None, now),
      Product(
        "spec_huawei_freebuds_se2",
        "Huawei FreeBuds SE 2",
        ("40 saate " + "varan pil " + "ömrü, hafif " + "ve kompakt " + "tasarım. " + "Hızlı şarj " + "özelliği " + "ile 10 " + "dakikada 3 " + "saat " + "kullanım."),
        ("https://" + "images." + "unsplash." + "com/photo-" + "1618366712010-" + "f4ae9c647dcb?" + "auto=format&" + "fit=crop&q=" + "80&w=600"),
        [AffiliateLink("l_hua_1", "Trendyol", "#", TrendyolIcon)],
        CategoryNames[1], None, None, now)
    ]
  }

  /** `SPECIFIC_LIST`: its products are the hand-picked headphones, in order;
      it is a featured headphone list dated `now`. */
  function SpecificList(now: int): (l: CuratedList)
    ensures l.productIds == HeadphoneIds
    ensures l.category == Some(CategoryNames[1]) && l.isFeatured == Some(true) && l.createdAt == now
  {
    CuratedList(
      "list_under_2000",
      "2000TL Altı En İyi Kulaklıklar",
      "2000tl-alti-kulakliklar",
      ("Bütçe dostu," + " yüksek ses " + "kalitesi " + "sunan ve " + "fiyat/" + "performans " + "canavarı 4 " + "kulaklık " + "modeli."),
      Ids(SpecificHeadphones(now)),
      Some(CategoryNames[1]),
      Some(("https://" + "images." + "unsplash." + "com/photo-" + "1546435770-" + "a3e426bf472b?" + "auto=format&" + "fit=crop&q=" + "80&w=1200")),
      None,
      None,
      Some(true),
      now)
  }

  /** The eleven category names are different strings: they differ in
      length or in the character after `F/P `. */
  lemma CategoryNamesDistinct()
    ensures |CategoryNames| == 11 && Distinct(CategoryNames)
  {
    var ns := CategoryNames;
    forall j, k | 0 <= j < k < |ns| ensures ns[j] != ns[k] {
      assert |ns[j]| != |ns[k]| || ns[j][4] != ns[k][4];
    }
  }

  const Adjectives: seq<string> := ["Ultra", "Pro", "Lite", "Max", "Evo", "Plus", "Air", "Neo", "Prime", "Core"]

  /** `PRODUCT_NOUNS`, keyed by category name. */
  const ProductNouns: map<string, seq<string>> := map[
    CategoryNames[0] := ["Watch GT", "Band 8", "Smart Life", "Fit Watch", "Active 2"],
    CategoryNames[1] := ["Buds T5", "AirPods Clone", "Dots 3", "FreeBuds", "SoundCore"],
    CategoryNames[2] := ["MateBook", "IdeaPad", "Aspire 5", "Modern 14", "V15"],
    CategoryNames[3] := ["Q30", "Bass+ Headset", "Studio Pro", "Noise Cancel 5", "Live 660"],
    CategoryNames[4] := ["Boombox", "Go 3", "Flip Essential", "SoundLink", "MegaBoom"],
    CategoryNames[5] := ["24\" IPS", "27\" 144Hz", "Curved 165Hz", "UltraWide", "Office 22\""],
    CategoryNames[6] := ["55\" 4K Android", "50\" QLED", "43\" Smart TV", "65\" UHD", "Google TV"],
    CategoryNames[7] := ["Mini Beam", "Portable Cinema", "FHD Projector", "Home Theater", "Wanbo X1"],
    CategoryNames[8] := ["Mi Box S", "Stick 4K", "Android Box", "Google TV Kit", "H96 Max"],
    CategoryNames[9] := ["Game Stick 4K", "Handheld 400in1", "Retro Station", "Mini Arcade", "Sup Game"],
    CategoryNames[10] := ["Akıllı Priz", "RGB Şerit", "Masa Lambası", "Type-C Hub", "Sırt Çantası"]
  ]

  /** The ten adjectives are different strings. */
  lemma AdjectivesDistinct()
    ensures |Adjectives| == 10 && Distinct(Adjectives)
  {
    var ws := Adjectives;
    forall j, k | 0 <= j < k < |ws| ensures ws[j] != ws[k] {
      assert |ws[j]| != |ws[k]| || ws[j][0] != ws[k][0];
    }
  }

  /** `PRODUCT_NOUNS` has an entry for exactly the seed category names, each
      of five nouns. */
  lemma NounTableKeys()
    ensures forall c :: c in ProductNouns <==> c in CategoryNames
    ensures forall c :: c in ProductNouns ==> |ProductNouns[c]| == 5
  {
  }

  const FallbackNouns: seq<string> := ["Cihaz", "Ürün"]

  /** `PRODUCT_NOUNS[category] || ['Cihaz', 'Ürün']`. */
  function NounsFor(category: string): (nouns: seq<string>)
    ensures |nouns| >= 2
    ensures category in ProductNouns ==> nouns == ProductNouns[category]
    ensures category !in ProductNouns ==> nouns == FallbackNouns
  {
    if category in ProductNouns then ProductNouns[category] else FallbackNouns
  }

  /** Every category the generator can draw has its own nouns: the fallback
      list is never used for generated products. */
  lemma CategoriesHaveNouns(k: nat)
    requires k < |CategoryNames|
    ensures CategoryNames[k] in ProductNouns && |NounsFor(CategoryNames[k])| == 5
  {
    assert CategoryNames[k] in ProductNouns.Keys;
  }

  // ---------------------------------------------------------------------------
  // Products
  // ---------------------------------------------------------------------------

  /** The random choices of one iteration of `generateDummyProducts`, each
      reduced by `Draw` to the range `Math.floor(Math.random() * n)` has. */
  datatype ProductDraw = ProductDraw(
    category: nat,     // scaled by categories.length
    noun: nat,         // scaled by nounList.length
    adjective: nat,    // scaled by PRODUCT_ADJECTIVES.length
    hasYoutube: bool,  // Math.random() > 0.8
    age: nat)          // scaled by 1000000000

  /** How many milliseconds before `now` a generated record may be dated. */
  const MaxAgeMs: nat := 1000000000

  /** The product id template `p${i}`: `p`, then the decimal digits of `i`. */
  function ProductId(i: nat): (id: string)
    ensures |id| >= 2 && id[0] == 'p'
    ensures forall c :: c in id[1..] ==> '0' <= c <= '9'
    ensures ParseDecimal(id[1..]) == i
  {
    var n := NatToString(i);
    ParseNatToString(i);
    assert ("p" + n)[1..] == n;
    "p" + n
  }

  lemma ProductIdInjective(i: nat, j: nat)
    ensures ProductId(i) == ProductId(j) ==> i == j
  {
    if ProductId(i) == ProductId(j) {
      assert ProductId(i)[1..] == NatToString(i);
      assert ProductId(j)[1..] == NatToString(j);
      NatToStringInjective(i, j);
    }
  }

  /** The category `categories[Math.floor(Math.random() * categories.length)]`
      picks; it always has its own nouns. */
  function DrawnCategory(r: nat): (category: string)
    ensures category in CategoryNames
  {
    CategoryNames[Draw(r, |CategoryNames|)]
  }

  /** The noun a draw picks: one of its category's own nouns. */
  function DrawnNoun(d: ProductDraw): (noun: string)
    ensures DrawnCategory(d.category) in ProductNouns
    ensures noun in ProductNouns[DrawnCategory(d.category)]
  {
    CategoriesHaveNouns(Draw(d.category, |CategoryNames|));
    var nouns := NounsFor(DrawnCategory(d.category));
    nouns[Draw(d.noun, |nouns|)]
  }

  /** The adjective a draw picks. */
  function DrawnAdjective(r: nat): (adjective: string)
    ensures adjective in Adjectives
  {
    Adjectives[Draw(r, |Adjectives|)]
  }

  /** Prefix of the generated placeholder images. */
  const PicsumSeed: string := "https://picsum.photos/seed/"
  const ProductPitch: string := ", sunduğu özelliklere göre harika bir fiyat avantajına sahip. "
  const ProductPitchEnd: string := " serisinin en çok tercih edilen modeli."

  /** The object literal pushed by iteration `i` of `generateDummyProducts`,
      once category, noun, adjective, video and age are drawn. */
  function DummyProduct(i: nat, category: string, noun: string, adjective: string,
                        hasYoutube: bool, age: nat, now: int): (p: Product)
    ensures p.id == ProductId(i) && p.category == category
    ensures p.title == noun + " " + adjective + " 2024"
    ensures |p.affiliateLinks| == 2
    ensures p.affiliateLinks[0].id == "l" + NatToString(i) + "_1" && p.affiliateLinks[0].linkLabel == "Trendyol"
    ensures p.affiliateLinks[1].id == "l" + NatToString(i) + "_2" && p.affiliateLinks[1].linkLabel == "Hepsiburada"
    ensures (p.youtubeUrl == Some(DemoVideo) <==> hasYoutube) && p.shortUrl == None
    ensures p.createdAt == now - age
  {
    var id := ProductId(i);
    Product(
      id,
      noun + " " + adjective + " 2024",
      "Bu " + category + " kategorisindeki " + noun + ProductPitch + adjective + ProductPitchEnd,
      PicsumSeed + id + "prod/600/600",
      [AffiliateLink("l" + NatToString(i) + "_1", "Trendyol", "#", TrendyolIcon),
       AffiliateLink("l" + NatToString(i) + "_2", "Hepsiburada", "#", HepsiburadaIcon)],
      category,
      None,
      if hasYoutube then Some(DemoVideo) else None,
      now - age)
  }

  /** Iteration `i` of `generateDummyProducts` with the choices `d`. */
  function ProductFromDraw(i: nat, d: ProductDraw, now: int): (p: Product)
    ensures p.id == ProductId(i) && p.category in CategoryNames
  {
    DummyProduct(i, DrawnCategory(d.category), DrawnNoun(d), DrawnAdjective(d.adjective),
                 d.hasYoutube, Draw(d.age, MaxAgeMs), now)
  }

  /** A generated product is numbered `p{i}`, belongs to a seed category one
      of whose own nouns and one of the adjectives make up its title, links
      to exactly the two shops with ids `l{i}_1` and `l{i}_2`, has the demo
      video exactly when the draw says so, and is dated within `MaxAgeMs`
      up to `now`. */
  lemma ProductFromDrawShape(i: nat, d: ProductDraw, now: int)
    ensures var p := ProductFromDraw(i, d, now);
      && p.id == ProductId(i)
      && p.category in CategoryNames && p.category in ProductNouns
      && (exists noun, adjective :: noun in ProductNouns[p.category] && adjective in Adjectives
                                 && p.title == noun + " " + adjective + " 2024")
      && |p.affiliateLinks| == 2
      && p.affiliateLinks[0].id == "l" + NatToString(i) + "_1" && p.affiliateLinks[0].linkLabel == "Trendyol"
      && p.affiliateLinks[1].id == "l" + NatToString(i) + "_2" && p.affiliateLinks[1].linkLabel == "Hepsiburada"
      && now - MaxAgeMs < p.createdAt <= now
      && (p.youtubeUrl == Some(DemoVideo) <==> d.hasYoutube)
      && p.shortUrl == None
  {
    var p := ProductFromDraw(i, d, now);
    assert DrawnNoun(d) in ProductNouns[p.category] && DrawnAdjective(d.adjective) in Adjectives
      && p.title == DrawnNoun(d) + " " + DrawnAdjective(d.adjective) + " 2024";
  }

  /** `ProductFromDraw` spelled out as the loop of `generateDummyProducts` computes it. */
  lemma ProductFromDrawUnfold(i: nat, d: ProductDraw, now: int)
    ensures var category := CategoryNames[Draw(d.category, |CategoryNames|)];
      var nouns := NounsFor(category);
      ProductFromDraw(i, d, now)
        == DummyProduct(i, category, nouns[Draw(d.noun, |nouns|)], Adjectives[Draw(d.adjective, |Adjectives|)],
                        d.hasYoutube, Draw(d.age, MaxAgeMs), now)
  {
    var category := CategoryNames[Draw(d.category, |CategoryNames|)];
    var nouns := NounsFor(category);
    assert DrawnCategory(d.category) == category;
    assert DrawnNoun(d) == nouns[Draw(d.noun, |nouns|)];
    assert DrawnAdjective(d.adjective) == Adjectives[Draw(d.adjective, |Adjectives|)];
  }

  function ProductStep(now: int): (nat, ProductDraw) -> Product
  {
    (i: nat, d: ProductDraw) => ProductFromDraw(i, d, now)
  }

  /** What `generateDummyProducts(|draws|)` returns when iteration `i` makes
      the choices `draws[i - 1]`. */
  function GeneratedProducts(draws: seq<ProductDraw>, now: int): (ps: seq<Product>)
    ensures |ps| == |draws|
    ensures forall k :: 0 <= k < |draws| ==> ps[k].id == ProductId(k + 1)
  {
    GenerateAt(draws, ProductStep(now));
    Generate(draws, ProductStep(now))
  }

  /** Product `k` is built from draw `k` and numbered `p{k+1}`, every
      category is a seed category, and no two products share an id. */
  lemma GeneratedProductsShape(draws: seq<ProductDraw>, now: int)
    ensures var ps := GeneratedProducts(draws, now);
      && |ps| == |draws|
      && (forall k :: 0 <= k < |draws| ==> ps[k] == ProductFromDraw(k + 1, draws[k], now))
      && (forall k :: 0 <= k < |draws| ==> ps[k].id == ProductId(k + 1))
      && (forall p :: p in ps ==> p.category in CategoryNames && |p.id| > 0 && p.id[0] == 'p')
      && DistinctBy(ps, ProductIdOf)
  {
    var f := ProductStep(now);
    GenerateAt(draws, f);
    forall i: nat, j: nat, d: ProductDraw, e: ProductDraw | i != j
      ensures ProductIdOf(f(i, d)) != ProductIdOf(f(j, e))
    {
      ProductIdInjective(i, j);
    }
    GenerateDistinct(draws, f, ProductIdOf);
    GeneratedProductsLabels(draws, now);
  }

  /** Every generated product is in a seed category and has an id starting with `p`. */
  lemma GeneratedProductsLabels(draws: seq<ProductDraw>, now: int)
    ensures forall p :: p in GeneratedProducts(draws, now) ==>
      p.category in CategoryNames && |p.id| > 0 && p.id[0] == 'p'
  {
    GenerateAll(draws, ProductStep(now), (p: Product) => p.category in CategoryNames && |p.id| > 0 && p.id[0] == 'p');
  }

  /** `generateDummyProducts(count)`, iteration `i` making the choices `draws[i - 1]`. */
  method GenerateDummyProducts(count: nat, now: int, draws: seq<ProductDraw>) returns (products: seq<Product>)
    requires |draws| == count
    ensures products == GeneratedProducts(draws, now)
    ensures |products| == count
    ensures forall k :: 0 <= k < count ==> products[k].id == ProductId(k + 1)
    ensures forall p :: p in products ==> p.category in CategoryNames
    ensures DistinctBy(products, ProductIdOf)
  {
    products := [];
    var categories := SeedCategoryNames(now);
    for i := 1 to count + 1
      invariant products == Generate(draws[..i - 1], ProductStep(now))
    {
      var d := draws[i - 1];
      var category := categories[Draw(d.category, |categories|)];
      var nounList := NounsFor(category);
      var noun := nounList[Draw(d.noun, |nounList|)];
      var adjective := Adjectives[Draw(d.adjective, |Adjectives|)];
      var product := DummyProduct(i, category, noun, adjective, d.hasYoutube, Draw(d.age, MaxAgeMs), now);
      ProductFromDrawUnfold(i, d, now);
      PrefixSnoc(draws, i);
      GenerateSnoc(draws[..i - 1], d, ProductStep(now));
      products := products + [product];
    }
    assert draws[..count] == draws;
    GeneratedProductsShape(draws, now);
  }

  // ---------------------------------------------------------------------------
  // Lists
  // ---------------------------------------------------------------------------

  /** The random choices of one iteration of `generateDummyLists`. */
  datatype ListDraw = ListDraw(
    category: nat,     // scaled by categories.length
    picks: seq<nat>,   // the outcome of the random-comparator sort
    extra: nat,        // scaled by 7
    isFeatured: bool,  // Math.random() > 0.7
    age: nat)          // scaled by 1000000000

  /** The list id template `list${i}`: `list`, then the decimal digits of `i`. */
  function ListId(i: nat): (id: string)
    ensures |id| >= 5 && id[..4] == "list"
    ensures forall c :: c in id[4..] ==> '0' <= c <= '9'
    ensures ParseDecimal(id[4..]) == i
  {
    var n := NatToString(i);
    ParseNatToString(i);
    assert ("list" + n)[4..] == n;
    "list" + n
  }

  function SlugOf(l: CuratedList): string { l.slug }

  /** The character after `list` in a generated list id is a digit. */
  lemma ListIdDigit(i: nat)
    ensures |ListId(i)| > 4 && '0' <= ListId(i)[4] <= '9'
  {
    var n := NatToString(i);
    assert n[0] in n;
    assert ListId(i)[4] == n[0];
  }

  lemma ListIdInjective(i: nat, j: nat)
    ensures ListId(i) == ListId(j) ==> i == j
  {
    if ListId(i) == ListId(j) {
      assert ListId(i)[4..] == NatToString(i);
      assert ListId(j)[4..] == NatToString(j);
      NatToStringInjective(i, j);
    }
  }

  /** `allProducts.filter(p => p.category === category)`. */
  function InCategory(products: seq<Product>, category: string): (r: seq<Product>)
    ensures forall p :: p in r ==> p in products && p.category == category
    ensures forall p :: p in products && p.category == category ==> p in r
  {
    Filter(products, (p: Product) => p.category == category)
  }

  /** The pool a list draws from: the category's products when there are
      more than five of them, otherwise every product. */
  function Pool(products: seq<Product>, category: string): (pool: seq<Product>)
    ensures forall p :: p in pool ==> p in products
    ensures |InCategory(products, category)| > 5 ==>
      |pool| > 5 && forall p :: p in pool <==> p in products && p.category == category
    ensures |InCategory(products, category)| <= 5 ==> pool == products
    ensures DistinctBy(products, ProductIdOf) ==> DistinctBy(pool, ProductIdOf)
  {
    var inCategory := InCategory(products, category);
    FilterKeepsDistinct(products, (p: Product) => p.category == category, ProductIdOf);
    if |inCategory| > 5 then inCategory else products
  }

  /** `shuffled.slice(0, take).map(p => p.id)`: the ids of a prefix of a
      permutation of the pool, as many as the pool allows. */
  function SelectIds(pool: seq<Product>, picks: seq<nat>, take: nat): (ids: seq<string>)
    ensures |ids| == Min(|pool|, take)
    ensures forall pid :: pid in ids ==> HasProduct(pool, pid)
    ensures exists order: seq<Product> :: multiset(order) == multiset(pool) && ids == Ids(order)[..|ids|]
    ensures DistinctBy(pool, ProductIdOf) ==> Distinct(ids)
  {
    var order := Shuffled(pool, picks);
    var n := Min(|pool|, take);
    var ids := Ids(order[..n]);
    forall pid | pid in ids ensures HasProduct(pool, pid) {
      var k :| 0 <= k < |ids| && ids[k] == pid;
      assert order[k] in multiset(pool);
    }
    assert ids == Ids(order)[..n];
    ShuffledKeepsDistinct(pool, picks, ProductIdOf);
    PrefixKeepsDistinct(order, n, ProductIdOf);
    ids
  }

  const ListTitleEnd: string := " Kategorisinde En İyiler"
  const ListPitch: string := "Sizin için özenle seçtiğimiz "
  const ListPitchEnd: string := " ürünlerini bu listede derledik. İndirimli fiyatları kaçırmayın."

  /** The object literal pushed by iteration `i` of `generateDummyLists`,
      once category, products, featuring and age are drawn. */
  function DummyList(i: nat, category: string, productIds: seq<string>, isFeatured: bool,
                     age: nat, now: int): (l: CuratedList)
    ensures l.id == ListId(i) && l.category == Some(category) && l.productIds == productIds
    ensures l.slug == ListSlug(category, i) && forall c :: c in l.slug ==> IsSlugChar(c)
    ensures l.youtubeUrl == Some(DemoVideo) && l.features == Some([]) && l.isFeatured == Some(isFeatured)
    ensures l.createdAt == now - age
  {
    var id := ListId(i);
    CuratedList(
      id,
      category + ListTitleEnd,
      ListSlug(category, i),
      ListPitch + category + ListPitchEnd,
      productIds,
      Some(category),
      Some(PicsumSeed + id + "list/800/400"),
      Some(DemoVideo),
      Some([]),
      Some(isFeatured),
      now - age)
  }

  /** How many products iteration `d` asks for: `Math.floor(Math.random() * 7) + 5`. */
  function Take(d: ListDraw): (n: nat)
    ensures 5 <= n <= 11
  {
    Draw(d.extra, 7) + 5
  }

  /** Iteration `i` of `generateDummyLists(_, allProducts)` with the choices `d`. */
  function ListFromDraw(i: nat, d: ListDraw, allProducts: seq<Product>, now: int): (l: CuratedList)
    ensures var category := DrawnCategory(d.category);
      && l.id == ListId(i)
      && l.category == Some(category)
      && l.slug == ListSlug(category, i)
      && (forall pid :: pid in l.productIds ==> HasProduct(allProducts, pid))
      && (DistinctBy(allProducts, ProductIdOf) ==> Distinct(l.productIds))
  {
    var category := DrawnCategory(d.category);
    var pool := Pool(allProducts, category);
    var ids := SelectIds(pool, d.picks, Take(d));
    forall pid | pid in ids ensures HasProduct(allProducts, pid) {
      var p :| p in pool && p.id == pid;
    }
    DummyList(i, category, ids, d.isFeatured, Draw(d.age, MaxAgeMs), now)
  }

  /** A generated list is numbered `list{i}`, has the slug of its seed
      category and number, lists between five and eleven distinct products
      (fewer only when there are fewer products), takes them from its own
      category whenever that category has more than five, has the demo video
      and no features, and is dated within `MaxAgeMs` up to `now`. */
  lemma ListFromDrawShape(i: nat, d: ListDraw, allProducts: seq<Product>, now: int)
    ensures var l := ListFromDraw(i, d, allProducts, now);
      var category := DrawnCategory(d.category);
      && l.id == ListId(i)
      && category in CategoryNames && l.category == Some(category)
      && l.slug == "en-iyi-" + Slugify(category) + "-" + NatToString(i)
      && |l.productIds| == Min(|Pool(allProducts, category)|, Take(d))
      && (|allProducts| >= 11 ==> 5 <= |l.productIds| <= 11)
      && (|InCategory(allProducts, category)| > 5 ==>
            forall pid :: pid in l.productIds ==> exists p :: p in allProducts && p.id == pid && p.category == category)
      && l.youtubeUrl == Some(DemoVideo) && l.features == Some([])
      && now - MaxAgeMs < l.createdAt <= now
  {
    var l := ListFromDraw(i, d, allProducts, now);
    var category := DrawnCategory(d.category);
    var pool := Pool(allProducts, category);
    if |InCategory(allProducts, category)| > 5 {
      forall pid | pid in l.productIds
        ensures exists p :: p in allProducts && p.id == pid && p.category == category
      {
        var p :| p in pool && p.id == pid;
      }
    }
  }

  /** `ListFromDraw` spelled out as the loop of `generateDummyLists` computes it. */
  lemma ListFromDrawUnfold(i: nat, d: ListDraw, allProducts: seq<Product>, now: int)
    ensures var category := CategoryNames[Draw(d.category, |CategoryNames|)];
      ListFromDraw(i, d, allProducts, now)
        == DummyList(i, category, SelectIds(Pool(allProducts, category), d.picks, Draw(d.extra, 7) + 5),
                     d.isFeatured, Draw(d.age, MaxAgeMs), now)
  {
    var category := CategoryNames[Draw(d.category, |CategoryNames|)];
    assert DrawnCategory(d.category) == category;
    assert Take(d) == Draw(d.extra, 7) + 5;
  }

  function ListStep(allProducts: seq<Product>, now: int): (nat, ListDraw) -> CuratedList
  {
    (i: nat, d: ListDraw) => ListFromDraw(i, d, allProducts, now)
  }

  /** What `generateDummyLists(|draws|, allProducts)` returns when iteration
      `i` makes the choices `draws[i - 1]`. */
  function GeneratedLists(draws: seq<ListDraw>, allProducts: seq<Product>, now: int): (ls: seq<CuratedList>)
    ensures |ls| == |draws|
  {
    GenerateAt(draws, ListStep(allProducts, now));
    Generate(draws, ListStep(allProducts, now))
  }

  /** List `k` is built from draw `k`, and no two lists share an id or a
      slug: both end in the list's number. */
  lemma GeneratedListsShape(draws: seq<ListDraw>, allProducts: seq<Product>, now: int)
    ensures var ls := GeneratedLists(draws, allProducts, now);
      && |ls| == |draws|
      && (forall k :: 0 <= k < |draws| ==> ls[k] == ListFromDraw(k + 1, draws[k], allProducts, now))
      && DistinctBy(ls, ListIdOf) && DistinctBy(ls, SlugOf)
  {
    var f := ListStep(allProducts, now);
    GenerateAt(draws, f);
    forall i: nat, j: nat, d: ListDraw, e: ListDraw | i != j
      ensures ListIdOf(f(i, d)) != ListIdOf(f(j, e)) && SlugOf(f(i, d)) != SlugOf(f(j, e))
    {
      ListIdInjective(i, j);
      ListSlugsDistinct(DrawnCategory(d.category), i, DrawnCategory(e.category), j);
    }
    GenerateDistinct(draws, f, ListIdOf);
    GenerateDistinct(draws, f, SlugOf);
  }

  /** A generated list's id has a digit after `list`, and its slug starts
      with `en-iyi-`. */
  lemma GeneratedListsLabels(draws: seq<ListDraw>, allProducts: seq<Product>, now: int)
    ensures forall l :: l in GeneratedLists(draws, allProducts, now) ==>
      |l.id| > 4 && '0' <= l.id[4] <= '9' && "en-iyi-" <= l.slug && l.slug[0] == 'e'
  {
    var f := ListStep(allProducts, now);
    forall i: nat, d: ListDraw
      ensures var l := f(i, d); |l.id| > 4 && '0' <= l.id[4] <= '9' && "en-iyi-" <= l.slug && l.slug[0] == 'e'
    {
      ListIdDigit(i);
      ListSlugStart(DrawnCategory(d.category), i);
    }
    GenerateAll(draws, f, (l: CuratedList) => |l.id| > 4 && '0' <= l.id[4] <= '9' && "en-iyi-" <= l.slug && l.slug[0] == 'e');
  }

  /** Every id a generated list names is the id of one of `allProducts`,
      and when those have distinct ids no list names a product twice. */
  lemma GeneratedListsIntegrity(draws: seq<ListDraw>, allProducts: seq<Product>, now: int)
    ensures RefIntegrity(allProducts, GeneratedLists(draws, allProducts, now))
    ensures DistinctBy(allProducts, ProductIdOf) ==>
      forall l :: l in GeneratedLists(draws, allProducts, now) ==> Distinct(l.productIds)
  {
    var f := ListStep(allProducts, now);
    GenerateAll(draws, f, (l: CuratedList) => forall pid :: pid in l.productIds ==> HasProduct(allProducts, pid));
    GenerateAll(draws, f, (l: CuratedList) => DistinctBy(allProducts, ProductIdOf) ==> Distinct(l.productIds));
  }

  /** `generateDummyLists(count, allProducts)`, iteration `i` making the
      choices `draws[i - 1]`. */
  method GenerateDummyLists(count: nat, allProducts: seq<Product>, now: int, draws: seq<ListDraw>)
    returns (lists: seq<CuratedList>)
    requires |draws| == count
    ensures lists == GeneratedLists(draws, allProducts, now)
    ensures |lists| == count
    ensures DistinctBy(lists, ListIdOf) && DistinctBy(lists, SlugOf)
    ensures RefIntegrity(allProducts, lists)
    ensures DistinctBy(allProducts, ProductIdOf) ==> forall l :: l in lists ==> Distinct(l.productIds)
  {
    lists := [];
    var categories := SeedCategoryNames(now);
    for i := 1 to count + 1
      invariant lists == Generate(draws[..i - 1], ListStep(allProducts, now))
    {
      var d := draws[i - 1];
      var category := categories[Draw(d.category, |categories|)];
      var pool := Pool(allProducts, category);
      var selected := SelectIds(pool, d.picks, Draw(d.extra, 7) + 5);
      var list := DummyList(i, category, selected, d.isFeatured, Draw(d.age, MaxAgeMs), now);
      ListFromDrawUnfold(i, d, allProducts, now);
      PrefixSnoc(draws, i);
      GenerateSnoc(draws[..i - 1], d, ListStep(allProducts, now));
      lists := lists + [list];
    }
    assert draws[..count] == draws;
    GeneratedListsShape(draws, allProducts, now);
    GeneratedListsIntegrity(draws, allProducts, now);
  }

  // ---------------------------------------------------------------------------
  // The initial catalog
  // ---------------------------------------------------------------------------

  /** `INITIAL_PRODUCTS`: the hand-picked headphones, then the generated products. */
  function InitialProducts(now: int, productDraws: seq<ProductDraw>): (ps: seq<Product>)
    ensures |ps| == 4 + |productDraws|
    ensures ps[..4] == SpecificHeadphones(now) && ps[4..] == GeneratedProducts(productDraws, now)
  {
    SpecificHeadphones(now) + GeneratedProducts(productDraws, now)
  }

  /** `INITIAL_LISTS`: the hand-picked list, then lists generated over the
      generated products (the hand-picked headphones are not in their pool). */
  function InitialLists(now: int, productDraws: seq<ProductDraw>, listDraws: seq<ListDraw>): (ls: seq<CuratedList>)
    ensures |ls| == 1 + |listDraws|
    ensures ls[0] == SpecificList(now) && ls[1..] == GeneratedLists(listDraws, GeneratedProducts(productDraws, now), now)
  {
    [SpecificList(now)] + GeneratedLists(listDraws, GeneratedProducts(productDraws, now), now)
  }

  /** The ids of `SPECIFIC_HEADPHONES`, in order. */
  const HeadphoneIds: seq<string> :=
    ["spec_jbl_tune_flex_2", "spec_samsung_buds_3", "spec_qcy_ht08", "spec_huawei_freebuds_se2"]

  /** The hand-picked ids are distinct and all start with `spec_`. */
  lemma HeadphoneIdsFacts()
    ensures Distinct(HeadphoneIds)
    ensures forall id :: id in HeadphoneIds ==> "spec_" <= id && id[0] == 's'
  {
    var ids := HeadphoneIds;
    // the four ids already differ in the character after `spec_`
    assert ids[0][5] == 'j' && ids[1][5] == 's' && ids[2][5] == 'q' && ids[3][5] == 'h';
    forall j, k | 0 <= j < k < |ids| ensures ids[j] != ids[k] {
      assert ids[j][5] != ids[k][5];
    }
  }

  /** The hand-picked headphones have distinct ids, all starting with `s`. */
  lemma SpecificDistinct(now: int)
    ensures DistinctBy(SpecificHeadphones(now), ProductIdOf)
    ensures forall p :: p in SpecificHeadphones(now) ==> |p.id| > 0 && p.id[0] == 's'
  {
    var hs := SpecificHeadphones(now);
    HeadphoneIdsFacts();
    DistinctIds(hs);
    forall p | p in hs ensures |p.id| > 0 && p.id[0] == 's' {
      var k :| 0 <= k < |hs| && hs[k] == p;
      assert Ids(hs)[k] in HeadphoneIds;
    }
  }

  /** The hand-picked list's id and slug. */
  lemma SpecificListFacts(now: int)
    ensures SpecificList(now).id == "list_under_2000"
    ensures SpecificList(now).slug == "2000tl-alti-kulakliklar"
    ensures SpecificList(now).id[4] == '_' && SpecificList(now).slug[0] == '2'
  {
  }

  /** No two seed products share an id (hand-picked ids start with `s`,
      generated ones with `p`), and every seed product is in a seed category. */
  lemma InitialProductsDistinct(now: int, productDraws: seq<ProductDraw>)
    ensures DistinctBy(InitialProducts(now, productDraws), ProductIdOf)
    ensures forall p :: p in InitialProducts(now, productDraws) ==> p.category in CategoryNames
  {
    var hs, gs := SpecificHeadphones(now), GeneratedProducts(productDraws, now);
    SpecificDistinct(now);
    GeneratedProductsShape(productDraws, now);
    ConcatDisjointAt(hs, gs, ProductIdOf, 0, 's');
    assert CategoryNames[1] in CategoryNames;
  }

  /** No two seed lists share an id or a slug: the hand-picked list's id has
      `_` where generated ids have a digit, and its slug starts with a digit
      where generated slugs start with `e`. */
  lemma InitialListsDistinct(now: int, productDraws: seq<ProductDraw>, listDraws: seq<ListDraw>)
    ensures DistinctBy(InitialLists(now, productDraws, listDraws), ListIdOf)
    ensures DistinctBy(InitialLists(now, productDraws, listDraws), SlugOf)
  {
    var gp := GeneratedProducts(productDraws, now);
    var s, gs := SpecificList(now), GeneratedLists(listDraws, gp, now);
    SpecificListFacts(now);
    GeneratedListsShape(listDraws, gp, now);
    GeneratedListsLabels(listDraws, gp, now);
    ConsDisjointAt(s, gs, ListIdOf, 4, '_');
    ConsDisjointAt(s, gs, SlugOf, 0, '2');
  }

  /** Every id any seed list names is the id of a seed product, and no seed
      list names a product twice. */
  lemma InitialCatalogIntegrity(now: int, productDraws: seq<ProductDraw>, listDraws: seq<ListDraw>)
    ensures RefIntegrity(InitialProducts(now, productDraws), InitialLists(now, productDraws, listDraws))
    ensures forall l :: l in InitialLists(now, productDraws, listDraws) ==> Distinct(l.productIds)
  {
    var hs, gp := SpecificHeadphones(now), GeneratedProducts(productDraws, now);
    var s, gs := SpecificList(now), GeneratedLists(listDraws, gp, now);
    var ps := hs + gp;
    SpecificListFacts(now);
    HeadphoneIdsFacts();
    GeneratedProductsShape(productDraws, now);
    GeneratedListsIntegrity(listDraws, gp, now);
    IntegrityGrows(gp, ps, gs);
    forall pid | pid in s.productIds ensures HasProduct(ps, pid) {
      IdsNameProducts(hs, pid);
      var p :| p in hs && p.id == pid;
      assert p in ps;
    }
    IntegrityCons(ps, s, gs);
  }

  /** `INITIAL_PRODUCTS` and `INITIAL_LISTS`: 4 hand-picked plus 40 generated
      products, the hand-picked list plus 4 generated lists over the
      generated products. */
  method InitialCatalog(now: int, productDraws: seq<ProductDraw>, listDraws: seq<ListDraw>)
    returns (products: seq<Product>, lists: seq<CuratedList>)
    requires |productDraws| == 40 && |listDraws| == 4
    ensures products == InitialProducts(now, productDraws)
    ensures lists == InitialLists(now, productDraws, listDraws)
    ensures |products| == 44 && |lists| == 5
    ensures forall p :: p in products ==> p.category in CategoryNames
    ensures DistinctBy(products, ProductIdOf)
    ensures DistinctBy(lists, ListIdOf) && DistinctBy(lists, SlugOf)
    ensures forall l :: l in lists ==> Distinct(l.productIds)
    ensures RefIntegrity(products, lists)
  {
    var generatedProducts := GenerateDummyProducts(40, now, productDraws);
    var generatedLists := GenerateDummyLists(4, generatedProducts, now, listDraws);
    products := SpecificHeadphones(now) + generatedProducts;
    lists := [SpecificList(now)] + generatedLists;
    InitialProductsDistinct(now, productDraws);
    InitialListsDistinct(now, productDraws, listDraws);
    InitialCatalogIntegrity(now, productDraws, listDraws);
  }
}
