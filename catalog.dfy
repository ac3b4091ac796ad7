/**
  The read-only product catalog: the add-on material templates, the product
  list and the three catalog queries. Prices are in cents (24.99 is 2499).
 */
module Catalog {
  import opened Wrappers
  import Seqs

  /** An add-on template a product offers; the cart copies it into a line. */
  datatype Material = Material(id: string, name: string, price: int)

  datatype Product = Product(
    id: string,
    name: string,
    price: int,
    shortDescription: string,
    description: string,
    category: string,
    featured: bool,
    inStock: bool,
    availableMaterials: seq<Material>)

  /** The generic add-ons most products reference by position. */
  const Materials: seq<Material> := [
    Material("material-1", "Premium Paper (+$5)", 500),
    Material("material-2", "Gold Trim (+$10)", 1000),
    Material("material-3", "Display Case (+$15)", 1500),
    Material("material-4", "LED Lighting (+$20)", 2000)
  ]

  /** The paper add-ons the first two products declare inline. */
  const PaperChoices: seq<Material> := [
    Material("white-paper", "White Premium Paper", 0),
    Material("gold-foil", "Gold Foil Accent", 500),
    Material("handmade-washi", "Handmade Washi Paper", 800)
  ]

  /** The long product descriptions, searched by the listing page. */
  const GunPistolDescription: string :=
    "This origami pistol is a unique blend of art and craftsmanship, showcasing the intricate details of a firearm in paper form. Each fold is meticulously crafted to create a realistic representation, making it a perfect conversation piece or collector's item."

  const MinimalCraneDescription: string :=
    "Handcrafted from premium origami paper, the Minimal Crane embodies elegance and simplicity. Perfect for modern interiors, it symbolizes peace and good fortune."

  const GeometricPolyhedronDescription: string :=
    "The Geometric Polyhedron is a testament to the mathematical precision possible with origami. This intricate piece features multiple interconnected faces forming a perfect polyhedron structure. The clean lines and sharp angles create fascinating light and shadow patterns as the ambient light changes throughout the day. Each fold is carefully calculated and executed, resulting in a perfectly balanced geometric sculpture. This piece works beautifully as a centerpiece or artistic focus in modern, minimalist spaces."

  const LotusBloomDescription: string :=
    "The Lotus Bloom captures the serene beauty of this iconic flower in its most captivating moment - just as the petals unfurl. Each petal is individually folded and assembled to create a realistic yet artistic interpretation of nature. The layered design creates depth and dimension, while the clean white paper allows for subtle shadows that enhance the piece's visual interest. The Lotus Bloom represents purity and enlightenment, making it a thoughtful gift or a meaningful addition to contemplative spaces."

  const AbstractWaveDescription: string :=
    "The Abstract Wave pushes the boundaries of traditional origami by creating fluid, organic curves that seem to defy the constraints of paper folding. This dynamic piece captures the essence of water in motion, frozen in a moment of perfect balance. Multiple curved elements interact to create a sense of movement and rhythm. The Abstract Wave demonstrates the potential of origami to express not just precise geometry, but also natural, flowing forms. This piece makes a striking conversation starter in contemporary spaces and pairs well with minimalist decor."

  const ArchitecturalPavilionDescription: string :=
    "The Architectural Pavilion represents the fascinating intersection of origami and architectural design. This complex piece features multiple interconnected elements that create a miniature structure resembling a modern pavilion. The precise folds create clean lines and sharp angles that highlight the mathematical precision of the design. The Architectural Pavilion plays with negative space as much as with form, creating interesting views from multiple angles. This sophisticated piece appeals to architecture enthusiasts and design lovers who appreciate the structural elegance possible with paper."

  const MinimalFoxDescription: string :=
    "The Minimal Fox represents our design philosophy of reducing forms to their most essential elements while maintaining character and identity. This stylized fox captures the distinctive features of the animal - the pointed ears, the alert posture, the bushy tail - but renders them with clean, geometric precision. The result is both recognizable and abstract, playful yet sophisticated. The Minimal Fox makes a perfect desk companion or shelf accent, bringing a touch of nature-inspired design to your space without overwhelming minimalist aesthetics."

  const BonsaiSculptureDescription: string :=
    "The Paper Bonsai brings together the Japanese traditions of origami and bonsai to create a striking sculptural piece. This detailed miniature tree features an intricate trunk and branch structure supporting delicate foliage, all created through precise paper folding techniques. Unlike living bonsai, this artistic interpretation requires no maintenance while still capturing the essence of these revered miniature trees. The Paper Bonsai represents harmony, balance, and the beauty of nature. It makes an impressive centerpiece for any room and serves as a conversation starter about the intersection of different artistic traditions."

  const MinimalElephantDescription: string :=
    "The Minimal Elephant captures the distinctive silhouette of this majestic animal using a series of geometric folds and planes. This design distills the elephant's most recognizable features\U{2014}the trunk, ears, and sturdy form\U{2014}into an abstract yet immediately identifiable sculpture. Each fold is precisely calculated to create a balanced composition that catches light and casts interesting shadows. The Minimal Elephant represents strength and wisdom in a contemporary artistic form. This piece makes a sophisticated addition to modern interiors, bringing a subtle animal motif that doesn't overwhelm clean design aesthetics."

  const GunPistol: Product :=
    Product(
      id := "gun-pistol",
      name := "Pistol",
      price := 2499,
      shortDescription := "A miniature origami pistol with intricate details.",
      description := GunPistolDescription,
      category := "guns",
      featured := true,
      inStock := true,
      availableMaterials := PaperChoices)

  const MinimalCrane: Product :=
    Product(
      id := "minimal-crane",
      name := "Minimal Crane",
      price := 2499,
      shortDescription := "A timeless origami crane with a minimalist aesthetic.",
      description := MinimalCraneDescription,
      category := "animals",
      featured := true,
      inStock := true,
      availableMaterials := PaperChoices)

  const GeometricPolyhedron: Product :=
    Product(
      id := "geometric-polyhedron",
      name := "Geometric Polyhedron",
      price := 4999,
      shortDescription := "A complex geometric form created through precise mathematical folds.",
      description := GeometricPolyhedronDescription,
      category := "geometric",
      featured := false,
      inStock := true,
      availableMaterials := [Materials[0], Materials[1], Materials[2], Materials[3]])

  const LotusBloom: Product :=
    Product(
      id := "lotus-bloom",
      name := "Lotus Bloom",
      price := 3499,
      shortDescription := "A delicate lotus flower captured in mid-bloom.",
      description := LotusBloomDescription,
      category := "plants",
      featured := false,
      inStock := true,
      availableMaterials := [Materials[0], Materials[1], Materials[3]])

  const AbstractWave: Product :=
    Product(
      id := "abstract-wave",
      name := "Abstract Wave",
      price := 5999,
      shortDescription := "A flowing sculpture capturing the essence of water in motion.",
      description := AbstractWaveDescription,
      category := "abstract",
      featured := true,
      inStock := true,
      availableMaterials := [Materials[0], Materials[2]])

  const ArchitecturalPavilion: Product :=
    Product(
      id := "architectural-pavilion",
      name := "Architectural Pavilion",
      price := 6999,
      shortDescription := "A miniature architectural structure inspired by modern pavilion design.",
      description := ArchitecturalPavilionDescription,
      category := "geometric",
      featured := false,
      inStock := true,
      availableMaterials := [Materials[0], Materials[1], Materials[2]])

  const MinimalFox: Product :=
    Product(
      id := "minimal-fox",
      name := "Minimal Fox",
      price := 4499,
      shortDescription := "A stylized fox design reduced to its essential geometric elements.",
      description := MinimalFoxDescription,
      category := "animals",
      featured := false,
      inStock := true,
      availableMaterials := [Materials[0], Materials[2], Materials[3]])

  const BonsaiSculpture: Product :=
    Product(
      id := "bonsai-sculpture",
      name := "Paper Bonsai",
      price := 7999,
      shortDescription := "A detailed miniature tree inspired by the art of bonsai.",
      description := BonsaiSculptureDescription,
      category := "plants",
      featured := true,
      inStock := true,
      availableMaterials := [Materials[0], Materials[2], Materials[3]])

  const MinimalElephant: Product :=
    Product(
      id := "minimal-elephant",
      name := "Minimal Elephant",
      price := 5499,
      shortDescription := "A geometric interpretation of an elephant with clean, modern lines.",
      description := MinimalElephantDescription,
      category := "animals",
      featured := false,
      inStock := true,
      availableMaterials := [Materials[0], Materials[1], Materials[2]])

  /** The catalog, in definition order. Product images are not part of this model. */
  const Products: seq<Product> := [
    GunPistol,
    MinimalCrane,
    GeometricPolyhedron,
    LotusBloom,
    AbstractWave,
    ArchitecturalPavilion,
    MinimalFox,
    BonsaiSculpture,
    MinimalElephant
  ]

  predicate IsFeatured(p: Product)
  {
    p.featured
  }

  /** The featured products of `ps`, in their order in `ps`. */
  function Featured(ps: seq<Product>): (r: seq<Product>)
    ensures forall i :: 0 <= i < |r| ==> r[i].featured
    ensures forall i :: 0 <= i < |ps| && ps[i].featured ==> ps[i] in r
    ensures Seqs.IsSubsequence(r, ps) && |r| <= |ps|
  {
    Seqs.FilterSpec(ps, IsFeatured);
    Seqs.Filter(ps, IsFeatured)
  }

  /** The products of `ps` in `category`, in their order in `ps`. */
  function InCategory(ps: seq<Product>, category: string): (r: seq<Product>)
    ensures forall i :: 0 <= i < |r| ==> r[i].category == category
    ensures forall i :: 0 <= i < |ps| && ps[i].category == category ==> ps[i] in r
    ensures Seqs.IsSubsequence(r, ps) && |r| <= |ps|
    ensures (forall i :: 0 <= i < |ps| ==> ps[i].category != category) ==> r == []
  {
    var r := Seqs.Filter(ps, (p: Product) => p.category == category);
    Seqs.FilterSpec(ps, (p: Product) => p.category == category);
    assert |r| > 0 ==> r[0] in ps;
    r
  }

  /** `findIndex` on ids: the first position of `ps` holding `id`, or -1. */
  function IndexOfId(ps: seq<Product>, id: string): (i: int)
    ensures -1 <= i < |ps|
    ensures 0 <= i ==> ps[i].id == id && forall j :: 0 <= j < i ==> ps[j].id != id
    ensures i < 0 ==> forall j :: 0 <= j < |ps| ==> ps[j].id != id
  {
    if |ps| == 0 then -1
    else if ps[0].id == id then 0
    else
      var k := IndexOfId(ps[1..], id);
      if k < 0 then -1 else k + 1
  }

  /** `find` on ids: the first product of `ps` with `id`, or `None` ("not found"). */
  function FindById(ps: seq<Product>, id: string): (r: Option<Product>)
    ensures r.Some? ==> r.value.id == id && r.value in ps
    ensures r.None? <==> forall j :: 0 <= j < |ps| ==> ps[j].id != id
    ensures forall i :: 0 <= i < |ps| && ps[i].id == id && (forall j :: 0 <= j < i ==> ps[j].id != id) ==>
      r == Some(ps[i])
  {
    var i := IndexOfId(ps, id);
    if i < 0 then None else Some(ps[i])
  }

  /** In a list whose ids are distinct, every product is found by its own id. */
  lemma FindByIdFindsEach(ps: seq<Product>, i: int)
    requires forall a, b :: 0 <= a < b < |ps| ==> ps[a].id != ps[b].id
    requires 0 <= i < |ps|
    ensures FindById(ps, ps[i].id) == Some(ps[i])
  {
    var k := IndexOfId(ps, ps[i].id);
    assert k == i;
  }

  /** `getFeaturedProducts` */
  function FeaturedProducts(): seq<Product>
  {
    Featured(Products)
  }

  /** `getProductsByCategory` */
  function ProductsByCategory(category: string): seq<Product>
  {
    InCategory(Products, category)
  }

  /** `getProductById` */
  function ProductById(id: string): Option<Product>
  {
    FindById(Products, id)
  }

  /** No two catalog products share an id. */
  lemma CatalogIdsDistinct()
    ensures forall i, j :: 0 <= i < j < |Products| ==> Products[i].id != Products[j].id
  {
  }

  /** Every catalog product is found by its own id. */
  lemma ProductByIdFindsEveryProduct(i: int)
    requires 0 <= i < |Products|
    ensures ProductById(Products[i].id) == Some(Products[i])
  {
    CatalogIdsDistinct();
    FindByIdFindsEach(Products, i);
  }

  /** `getProductById` reports "not found" exactly for the ids no product carries, such as "nonexistent". */
  lemma UnknownIdNotFound(id: string)
    ensures ProductById(id) == None <==> forall i :: 0 <= i < |Products| ==> Products[i].id != id
    ensures ProductById("nonexistent") == None
  {
  }

  /** Prices, of products and of every material they offer, are never negative. */
  lemma PricesNonNegative()
    ensures forall i :: 0 <= i < |Materials| ==> Materials[i].price >= 0
    ensures forall i :: 0 <= i < |Products| ==> Products[i].price >= 0
    ensures forall i, j :: 0 <= i < |Products| && 0 <= j < |Products[i].availableMaterials| ==>
      Products[i].availableMaterials[j].price >= 0
  {
  }

  /** Every product costs at most 100 dollars, the top of the listing's price slider. */
  lemma PricesWithinSlider()
    ensures forall i :: 0 <= i < |Products| ==> 0 <= Products[i].price <= 10000
  {
  }

  /** Exactly the pistol, the crane, the wave and the bonsai are featured. */
  lemma FeaturedCatalogEntries()
    ensures forall i :: 0 <= i < |Products| ==> (Products[i].featured <==> i == 0 || i == 1 || i == 4 || i == 7)
  {
  }
}
