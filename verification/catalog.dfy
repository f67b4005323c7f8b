/** The product catalogue and the issue list (src/components/feedback/data/productData.ts):
    four products, each with its flavours, and the five product issues a customer can
    report. */
module Catalog {

  datatype Variant = Variant(id: string, name: string)

  datatype Product = Product(
    id: string,
    name: string,
    image: string,
    description: string,
    variants: seq<Variant>)

  const IndomieVariants: seq<Variant> := [
    Variant("indomie-chicken", "Indomie Tables Chicken"),
    Variant("indomie-jollof", "Indomie Jollof Flavor"),
    Variant("indomie-onion-chicken", "Indomie Onion Chicken Flavour"),
    Variant("indomie-crayfish", "Indomie Crayfish Flavour"),
    Variant("indomie-chicken-pepper-soup", "Indomie Chicken Pepper Soup"),
    Variant("indomie-oriental", "Indomie Oriental Fried Noodle"),
    Variant("indomie-relish-beef", "Indomie Relish Beef"),
    Variant("indomie-relish-seafood", "Indomie Relish Sea Food Delight")
  ]

  const MinimieVariants: seq<Variant> := [
    Variant("minimie-chinchin", "Minimie Chinchin"),
    Variant("minimie-chinchin-spicy", "Minimie Chinchin (Hot and Spicy)"),
    Variant("minimie-noodle-chicken", "Minimie Instant Noodle Chicken Flavour"),
    Variant("minimie-noodle-vegetable", "Minimie Instant Noodle Vegetable"),
    Variant("minimie-noodle-tomato", "Minimie Instant Noodle Tomato")
  ]

  const DanoVariants: seq<Variant> := [
    Variant("dano-slim", "Dano Slim"),
    Variant("dano-cool-cow", "Dano Cool Cow"),
    Variant("dano-uht", "Dano UHT"),
    Variant("dano-vitakids", "Dano Vitakids")
  ]

  const KelloggsVariants: seq<Variant> := [
    Variant("kelloggs-corn-flakes", "Kelloggs Corn Flakes"),
    Variant("kelloggs-cocopops", "Kelloggs Cocopops"),
    Variant("kelloggs-frosties", "Kelloggs Frosties"),
    Variant("kelloggs-rice-krispies", "Kelloggs Rice Krispies"),
    Variant("kelloggs-crunchy-nut", "Kelloggs Crunchy Nut"),
    Variant("kelloggs-crispix", "Kelloggs Crispix"),
    Variant("kelloggs-krave", "Kelloggs Krave")
  ]

  const Products: seq<Product> := [
    Product("indomie", "Indomie",
      "https://placehold.co/400x300/FFFFFF/E51E25?text=Indomie",
      "Delicious instant noodles with a variety of flavors",
      IndomieVariants),
    Product("minimie", "Minimie",
      "https://placehold.co/400x300/FFFFFF/FFB800?text=Minimie",
      "Mini-sized instant noodles perfect for snacking",
      MinimieVariants),
    Product("dano", "Dano Milk",
      "https://placehold.co/400x300/FFFFFF/0075C2?text=Dano+Milk",
      "High quality milk products for your daily needs",
      DanoVariants),
    Product("kelloggs", "Kellogg's Cereals",
      "https://placehold.co/400x300/FFFFFF/E31837?text=Kellogg's",
      "Nutritious breakfast cereals for a great start to your day",
      KelloggsVariants)
  ]

  /** `PRODUCT_ISSUES`. */
  const ProductIssues: seq<string> := [
    "Mislabelled products / allergies",
    "Unusual taste or odor",
    "Texture - too hard or soft",
    "Mold or spoilage",
    "Foreign elements"
  ]

  predicate Distinct<T(==)>(s: seq<T>) {
    forall i, j :: 0 <= i < j < |s| ==> s[i] != s[j]
  }

  function ProductIds(ps: seq<Product>): (ids: seq<string>)
    ensures |ids| == |ps|
    ensures forall i :: 0 <= i < |ps| ==> ids[i] == ps[i].id
  {
    if ps == [] then [] else [ps[0].id] + ProductIds(ps[1..])
  }

  /** The ids of every variant in the catalogue, product after product. */
  function AllVariantIds(ps: seq<Product>): (ids: seq<string>)
    ensures forall k, i :: 0 <= k < |ps| && 0 <= i < |ps[k].variants| ==> ps[k].variants[i].id in ids
    ensures forall id :: id in ids ==>
              exists k, i :: 0 <= k < |ps| && 0 <= i < |ps[k].variants| && ps[k].variants[i].id == id
  {
    if ps == [] then [] else VariantIds(ps[0].variants) + AllVariantIds(ps[1..])
  }

  function VariantIds(vs: seq<Variant>): (ids: seq<string>)
    ensures |ids| == |vs|
    ensures forall i :: 0 <= i < |vs| ==> ids[i] == vs[i].id
  {
    if vs == [] then [] else [vs[0].id] + VariantIds(vs[1..])
  }

  /** The id of every variant of `p` starts with the product's id followed by '-'. */
  predicate VariantsPrefixed(p: Product) {
    forall i :: 0 <= i < |p.variants| ==> p.id + "-" <= p.variants[i].id
  }

  /** No two variants of one product share an id. */
  predicate VariantIdsApart(p: Product) {
    forall i, j :: 0 <= i < j < |p.variants| ==> p.variants[i].id != p.variants[j].id
  }

  /** The facts about one product of the catalogue: a flavour list that is not empty, every
      flavour id prefixed by the product id and a dash, and no flavour id repeated. */
  predicate ProductWellFormed(p: Product) {
    p.variants != [] && VariantsPrefixed(p) && VariantIdsApart(p)
  }

  /** No product's id-and-dash is a prefix of another's, so the variant prefix names the
      product. */
  predicate PrefixesApart(ps: seq<Product>) {
    forall i, j :: 0 <= i < |ps| && 0 <= j < |ps| && i != j ==>
      !(ps[i].id + "-" <= ps[j].id + "-")
  }

  /** What the catalogue promises: distinct product ids whose dashed forms are not prefixes of
      one another, and every product well formed. */
  predicate WellFormed(ps: seq<Product>) {
    && Distinct(ProductIds(ps))
    && PrefixesApart(ps)
    && (forall k :: 0 <= k < |ps| ==> ProductWellFormed(ps[k]))
  }

  lemma IndomieVariantsPrefixed()
    ensures forall i :: 0 <= i < |IndomieVariants| ==> "indomie-" <= IndomieVariants[i].id
  {
  }

  lemma IndomieVariantsApart()
    ensures forall i, j :: 0 <= i < j < |IndomieVariants| ==> IndomieVariants[i].id != IndomieVariants[j].id
  {
  }

  lemma IndomieWellFormed()
    ensures ProductWellFormed(Products[0])
  {
    assert Products[0].id == "indomie" && Products[0].variants == IndomieVariants;
    IndomieVariantsPrefixed();
    IndomieVariantsApart();
  }

  lemma MinimieVariantsPrefixed()
    ensures forall i :: 0 <= i < |MinimieVariants| ==> "minimie-" <= MinimieVariants[i].id
  {
  }

  lemma MinimieVariantsApart()
    ensures forall i, j :: 0 <= i < j < |MinimieVariants| ==> MinimieVariants[i].id != MinimieVariants[j].id
  {
  }

  lemma MinimieWellFormed()
    ensures ProductWellFormed(Products[1])
  {
    assert Products[1].id == "minimie" && Products[1].variants == MinimieVariants;
    MinimieVariantsPrefixed();
    MinimieVariantsApart();
  }

  lemma DanoVariantsPrefixed()
    ensures forall i :: 0 <= i < |DanoVariants| ==> "dano-" <= DanoVariants[i].id
  {
  }

  lemma DanoVariantsApart()
    ensures forall i, j :: 0 <= i < j < |DanoVariants| ==> DanoVariants[i].id != DanoVariants[j].id
  {
  }

  lemma DanoWellFormed()
    ensures ProductWellFormed(Products[2])
  {
    assert Products[2].id == "dano" && Products[2].variants == DanoVariants;
    DanoVariantsPrefixed();
    DanoVariantsApart();
  }

  lemma KelloggsVariantsPrefixed()
    ensures forall i :: 0 <= i < |KelloggsVariants| ==> "kelloggs-" <= KelloggsVariants[i].id
  {
  }

  lemma KelloggsVariantsApart()
    ensures forall i, j :: 0 <= i < j < |KelloggsVariants| ==> KelloggsVariants[i].id != KelloggsVariants[j].id
  {
  }

  lemma KelloggsWellFormed()
    ensures ProductWellFormed(Products[3])
  {
    assert Products[3].id == "kelloggs" && Products[3].variants == KelloggsVariants;
    KelloggsVariantsPrefixed();
    KelloggsVariantsApart();
  }

  /** The product ids are indomie, minimie, dano and kelloggs, all different. */
  lemma ProductIdsListed()
    ensures ProductIds(Products) == ["indomie", "minimie", "dano", "kelloggs"]
  {
  }

  /** No two product ids start with the same letter, so no dashed id is a prefix of
      another. */
  lemma ProductIdsApart()
    ensures Distinct(ProductIds(Products))
    ensures PrefixesApart(Products)
  {
    ProductIdsListed();
    forall i, j | 0 <= i < |Products| && 0 <= j < |Products| && i != j
      ensures !(Products[i].id + "-" <= Products[j].id + "-")
    {
      var a, b := Products[i].id + "-", Products[j].id + "-";
      assert a[0] == Products[i].id[0] && b[0] == Products[j].id[0];
    }
  }

  lemma CatalogWellFormed()
    ensures WellFormed(Products)
  {
    IndomieWellFormed();
    MinimieWellFormed();
    DanoWellFormed();
    KelloggsWellFormed();
    ProductIdsApart();
    forall k | 0 <= k < |Products| ensures ProductWellFormed(Products[k]) {
    }
  }

  /** In a well-formed catalogue a variant's id carries the dashed id of its own product and
      of no other. */
  lemma VariantBelongsToOneProduct(ps: seq<Product>, k: nat, i: nat, m: nat)
    requires WellFormed(ps)
    requires k < |ps| && m < |ps| && i < |ps[k].variants|
    ensures ps[m].id + "-" <= ps[k].variants[i].id <==> m == k
  {
    assert ProductWellFormed(ps[k]);
  }

  lemma WellFormedTail(ps: seq<Product>)
    requires WellFormed(ps) && ps != []
    ensures WellFormed(ps[1..])
  {
    assert ProductIds(ps[1..]) == ProductIds(ps)[1..];
  }

  lemma DistinctAppend<T>(a: seq<T>, b: seq<T>)
    requires Distinct(a) && Distinct(b)
    requires forall i, j :: 0 <= i < |a| && 0 <= j < |b| ==> a[i] != b[j]
    ensures Distinct(a + b)
  {
    var all := a + b;
    forall i, j | 0 <= i < j < |all| ensures all[i] != all[j] {
      if j < |a| {
      } else if i >= |a| {
        assert all[i] == b[i - |a|] && all[j] == b[j - |a|];
      } else {
        assert all[j] == b[j - |a|];
      }
    }
  }

  /** A variant of the first product is not a variant of any later product. */
  lemma HeadApartFromRest(ps: seq<Product>, i: nat, id: string)
    requires WellFormed(ps) && ps != [] && i < |ps[0].variants|
    requires id in AllVariantIds(ps[1..])
    ensures ps[0].variants[i].id != id
  {
    var rest := ps[1..];
    var k, n :| 0 <= k < |rest| && 0 <= n < |rest[k].variants| && rest[k].variants[n].id == id;
    assert rest[k] == ps[k + 1];
    var prefix := ps[0].id + "-";
    VariantBelongsToOneProduct(ps, 0, i, 0);
    VariantBelongsToOneProduct(ps, k + 1, n, 0);
    assert prefix <= ps[0].variants[i].id && !(prefix <= id);
  }

  /** Variant ids are distinct across the whole catalogue. */
  lemma {:induction false} VariantIdsDistinct(ps: seq<Product>)
    requires WellFormed(ps)
    ensures Distinct(AllVariantIds(ps))
    decreases |ps|
  {
    if ps != [] {
      var head, rest := VariantIds(ps[0].variants), AllVariantIds(ps[1..]);
      WellFormedTail(ps);
      VariantIdsDistinct(ps[1..]);
      assert ProductWellFormed(ps[0]);
      assert Distinct(head);
      forall i, j | 0 <= i < |head| && 0 <= j < |rest| ensures head[i] != rest[j] {
        HeadApartFromRest(ps, i, rest[j]);
      }
      DistinctAppend(head, rest);
    }
  }

  /** Every variant id in the catalogue is different from every other. */
  lemma CatalogVariantIdsDistinct()
    ensures Distinct(AllVariantIds(Products))
  {
    CatalogWellFormed();
    VariantIdsDistinct(Products);
  }

  /** The issue list holds five different issues. */
  lemma IssuesDistinct()
    ensures |ProductIssues| == 5 && Distinct(ProductIssues)
  {
  }
}
