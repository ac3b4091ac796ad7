/**
  The product detail page: loading the product named in the address, the
  material selection map, the add-on price computed from it, the quantity
  controls, and the cart line the page hands to the cart store. Prices are
  in cents.
 */
module Configurator {
  import opened Wrappers
  import Catalog
  import Cart

  /**
    The page's state: the product once it is loaded, the loading flag, the
    chosen quantity, the selection map (material id to ticked) and the add-on
    price last computed from that map.
   */
  datatype DetailState = DetailState(
    product: Option<Catalog.Product>,
    loading: bool,
    quantity: int,
    selection: map<string, bool>,
    additionalPrice: int)

  /** The state the page is first rendered in: nothing loaded, one unit, nothing selected. */
  const Initial: DetailState := DetailState(None, true, 1, map[], 0)

  /** The quantity controls' bounds. */
  const MinQuantity: int := 1
  const MaxQuantity: int := 10

  /** A material counts as ticked only when the map holds `true` for it; a missing key reads as unticked. */
  predicate Selected(selection: map<string, bool>, id: string)
  {
    id in selection && selection[id]
  }

  // ---------------------------------------------------------------------------
  // Loading the product

  /** The ids of the materials `ms`. */
  ghost function Ids(ms: seq<Catalog.Material>): set<string>
  {
    set i | 0 <= i < |ms| :: ms[i].id
  }

  /** The map the page starts from: one key per available material, every one unticked. */
  method InitialSelection(ms: seq<Catalog.Material>) returns (selection: map<string, bool>)
    ensures selection.Keys == Ids(ms)
    ensures forall id :: id in selection ==> !selection[id]
  {
    selection := map[];
    var i := 0;
    while i < |ms|
      invariant 0 <= i <= |ms|
      invariant selection.Keys == Ids(ms[..i])
      invariant forall id :: id in selection ==> !selection[id]
    {
      assert Ids(ms[..i + 1]) == Ids(ms[..i]) + {ms[i].id} by {
        assert forall k :: 0 <= k < i ==> ms[..i + 1][k] == ms[..i][k];
      }
      selection := selection[ms[i].id := false];
      i := i + 1;
    }
    assert ms[..i] == ms;
  }

  /** The address carries no usable id: the route parameter is missing or empty. */
  predicate NoId(productId: Option<string>)
  {
    productId.None? || |productId.value| == 0
  }

  /** The page shows its placeholder while loading and whenever no product is set. */
  predicate ShowsPlaceholder(s: DetailState)
  {
    s.loading || s.product.None?
  }

  /**
    The loading effect. Without an id nothing happens (the page keeps loading).
    Otherwise the product is looked up: a known product is set with a selection
    map that ticks none of its materials; an unknown id sets nothing. Loading
    ends in both cases, and the quantity and add-on price are left alone.
   */
  method LoadProduct(s: DetailState, productId: Option<string>) returns (t: DetailState)
    ensures NoId(productId) ==> t == s
    ensures !NoId(productId) && Catalog.ProductById(productId.value).None? ==> t == s.(loading := false)
    ensures !NoId(productId) && Catalog.ProductById(productId.value).Some? ==>
      t.product == Catalog.ProductById(productId.value) && !t.loading &&
      t.quantity == s.quantity && t.additionalPrice == s.additionalPrice &&
      t.selection.Keys == Ids(t.product.value.availableMaterials) &&
      (forall id :: id in t.selection ==> !t.selection[id])
    ensures s.product.None? ==>
      (ShowsPlaceholder(t) <==> NoId(productId) || Catalog.ProductById(productId.value).None?)
  {
    if NoId(productId) {
      return s;
    }
    var found := Catalog.ProductById(productId.value);
    t := s;
    if found.Some? {
      var selection := InitialSelection(found.value.availableMaterials);
      t := t.(product := found, selection := selection);
    }
    t := t.(loading := false);
  }

  // ---------------------------------------------------------------------------
  // The add-on price

  /** The prices of the materials of `ms` that `selection` ticks, added up. */
  function SelectedMaterialsPrice(ms: seq<Catalog.Material>, selection: map<string, bool>): int
  {
    if |ms| == 0 then 0
    else
      var last := ms[|ms| - 1];
      SelectedMaterialsPrice(ms[..|ms| - 1], selection) + (if Selected(selection, last.id) then last.price else 0)
  }

  /**
    The add-on price effect: with no product it does nothing; otherwise it walks
    the product's materials and adds up the price of each ticked one.
   */
  method RecomputeAdditionalPrice(s: DetailState) returns (t: DetailState)
    ensures s.product.None? ==> t == s
    ensures s.product.Some? ==>
      t == s.(additionalPrice := SelectedMaterialsPrice(s.product.value.availableMaterials, s.selection))
  {
    if s.product.None? {
      return s;
    }
    var ms := s.product.value.availableMaterials;
    var total := 0;
    var i := 0;
    while i < |ms|
      invariant 0 <= i <= |ms|
      invariant total == SelectedMaterialsPrice(ms[..i], s.selection)
    {
      assert ms[..i + 1][..i] == ms[..i];
      if Selected(s.selection, ms[i].id) {
        total := total + ms[i].price;
      }
      i := i + 1;
    }
    assert ms[..i] == ms;
    t := s.(additionalPrice := total);
  }

  /** A selection that ticks nothing adds nothing to the price. */
  lemma {:induction false} NothingTickedCostsNothing(ms: seq<Catalog.Material>, selection: map<string, bool>)
    requires forall id :: id in selection ==> !selection[id]
    ensures SelectedMaterialsPrice(ms, selection) == 0
  {
    if |ms| > 0 {
      NothingTickedCostsNothing(ms[..|ms| - 1], selection);
    }
  }

  /** With non-negative material prices the add-on price is never negative. */
  lemma {:induction false} SelectedMaterialsPriceNonNegative(ms: seq<Catalog.Material>, selection: map<string, bool>)
    requires forall i :: 0 <= i < |ms| ==> ms[i].price >= 0
    ensures SelectedMaterialsPrice(ms, selection) >= 0
  {
    if |ms| > 0 {
      SelectedMaterialsPriceNonNegative(ms[..|ms| - 1], selection);
    }
  }

  /** Two maps that tick the same materials give the same add-on price. */
  lemma {:induction false} SamePriceForSameTicks(ms: seq<Catalog.Material>, a: map<string, bool>, b: map<string, bool>)
    requires forall i :: 0 <= i < |ms| ==> Selected(a, ms[i].id) == Selected(b, ms[i].id)
    ensures SelectedMaterialsPrice(ms, a) == SelectedMaterialsPrice(ms, b)
  {
    if |ms| > 0 {
      SamePriceForSameTicks(ms[..|ms| - 1], a, b);
    }
  }

  // ---------------------------------------------------------------------------
  // Ticking a material

  /** The checkbox handler: the material's entry becomes the negation of its reading; no other entry changes. */
  function ToggleMaterial(selection: map<string, bool>, id: string): (r: map<string, bool>)
    ensures Selected(r, id) == !Selected(selection, id)
    ensures forall k :: k != id ==> Selected(r, k) == Selected(selection, k)
    ensures r.Keys == selection.Keys + {id}
  {
    selection[id := !Selected(selection, id)]
  }

  /**
    Ticking the same material twice ticks exactly what was ticked before, and
    gives back the very same map when the material already had an entry.
   */
  lemma ToggleTwiceRestores(selection: map<string, bool>, id: string)
    ensures forall k :: Selected(ToggleMaterial(ToggleMaterial(selection, id), id), k) == Selected(selection, k)
    ensures id in selection ==> ToggleMaterial(ToggleMaterial(selection, id), id) == selection
  {
    if id in selection {
      assert ToggleMaterial(ToggleMaterial(selection, id), id) == selection[id := selection[id]];
    }
  }

  /** Ticking a material twice brings the add-on price back to what it was. */
  lemma ToggleTwiceRestoresPrice(ms: seq<Catalog.Material>, selection: map<string, bool>, id: string)
    ensures SelectedMaterialsPrice(ms, ToggleMaterial(ToggleMaterial(selection, id), id))
      == SelectedMaterialsPrice(ms, selection)
  {
    ToggleTwiceRestores(selection, id);
    SamePriceForSameTicks(ms, ToggleMaterial(ToggleMaterial(selection, id), id), selection);
  }

  // ---------------------------------------------------------------------------
  // The quantity controls

  /** The plus button: one more, but never past the maximum. */
  function Increase(q: int): (r: int)
    ensures r <= MaxQuantity
    ensures q < MaxQuantity ==> r == q + 1
    ensures q >= MaxQuantity ==> r == MaxQuantity
  {
    if q + 1 < MaxQuantity then q + 1 else MaxQuantity
  }

  /** The minus button: one fewer, but never below the minimum. */
  function Decrease(q: int): (r: int)
    ensures r >= MinQuantity
    ensures q > MinQuantity ==> r == q - 1
    ensures q <= MinQuantity ==> r == MinQuantity
  {
    if q - 1 > MinQuantity then q - 1 else MinQuantity
  }

  /**
    The typed quantity: the parsed integer, or `None` when the text does not
    parse; an unparsable text and 0 both fall back to 1, and the result is then
    clamped into the controls' range.
   */
  function ClampTyped(parsed: Option<int>): (r: int)
    ensures MinQuantity <= r <= MaxQuantity
    ensures parsed.None? ==> r == MinQuantity
    ensures parsed.Some? && MinQuantity <= parsed.value <= MaxQuantity ==> r == parsed.value
    ensures parsed.Some? && parsed.value > MaxQuantity ==> r == MaxQuantity
    ensures parsed.Some? && parsed.value < MinQuantity ==> r == MinQuantity
  {
    var n := if parsed.None? || parsed.value == 0 then 1 else parsed.value;
    var capped := if n < MaxQuantity then n else MaxQuantity;
    if capped > MinQuantity then capped else MinQuantity
  }

  /** What the user can do to the quantity. */
  datatype QuantityInput = PlusClicked | MinusClicked | Typed(parsed: Option<int>)

  function ApplyInput(q: int, input: QuantityInput): int
  {
    match input
    case PlusClicked => Increase(q)
    case MinusClicked => Decrease(q)
    case Typed(parsed) => ClampTyped(parsed)
  }

  /** The quantity after a run of inputs, the first one first. */
  function ApplyInputs(q: int, inputs: seq<QuantityInput>): int
    decreases |inputs|
  {
    if |inputs| == 0 then q else ApplyInputs(ApplyInput(q, inputs[0]), inputs[1..])
  }

  /** From a quantity in range, and in particular from the initial 1, every run of inputs stays in range. */
  lemma {:induction false} QuantityStaysInRange(q: int, inputs: seq<QuantityInput>)
    requires MinQuantity <= q <= MaxQuantity
    ensures MinQuantity <= ApplyInputs(q, inputs) <= MaxQuantity
    decreases |inputs|
  {
    if |inputs| > 0 {
      QuantityStaysInRange(ApplyInput(q, inputs[0]), inputs[1..]);
    }
  }

  // ---------------------------------------------------------------------------
  // The cart line the page builds

  /** The product's materials copied into the cart, each carrying its reading in the selection map. */
  function MaterialOptions(ms: seq<Catalog.Material>, selection: map<string, bool>): (r: seq<Cart.MaterialOption>)
    ensures |r| == |ms|
    ensures forall i :: 0 <= i < |ms| ==>
      r[i].id == ms[i].id && r[i].name == ms[i].name && r[i].price == ms[i].price &&
      r[i].selected == Selected(selection, ms[i].id)
  {
    seq(|ms|, i requires 0 <= i < |ms| =>
      Cart.MaterialOption(ms[i].id, ms[i].name, ms[i].price, Selected(selection, ms[i].id)))
  }

  /** The add-on price is what the cart charges per unit for the copied materials. */
  lemma {:induction false} SelectedMaterialsPriceIsCartSelectedPrice(ms: seq<Catalog.Material>, selection: map<string, bool>)
    ensures SelectedMaterialsPrice(ms, selection) == Cart.SelectedPrice(MaterialOptions(ms, selection))
  {
    if |ms| > 0 {
      var n := |ms| - 1;
      SelectedMaterialsPriceIsCartSelectedPrice(ms[..n], selection);
      assert MaterialOptions(ms, selection)[..n] == MaterialOptions(ms[..n], selection);
    }
  }

  /** The line handed to the cart; `lineId` stands for the freshly generated identifier. */
  function CandidateLine(lineId: string, p: Catalog.Product, quantity: int, selection: map<string, bool>): Cart.CartItem
  {
    Cart.CartItem(lineId, p.id, p.name, p.price, quantity, MaterialOptions(p.availableMaterials, selection))
  }

  /**
    The candidate copies the product and the quantity, and ticks exactly the
    materials the page shows as ticked, in the product's order.
   */
  lemma CandidateLineCopiesPage(lineId: string, p: Catalog.Product, quantity: int, selection: map<string, bool>)
    ensures var c := CandidateLine(lineId, p, quantity, selection);
      c.id == lineId && c.productId == p.id && c.name == p.name && c.price == p.price &&
      c.quantity == quantity && |c.materials| == |p.availableMaterials| &&
      forall i :: 0 <= i < |p.availableMaterials| ==>
        c.materials[i].id == p.availableMaterials[i].id &&
        c.materials[i].price == p.availableMaterials[i].price &&
        c.materials[i].selected == Selected(selection, p.availableMaterials[i].id)
  {
  }

  /** The total shown on the page: (base price + add-on price) times quantity, or 0 without a product. */
  function ShownTotal(s: DetailState): int
  {
    if s.product.Some? then (s.product.value.price + s.additionalPrice) * s.quantity else 0
  }

  /** Once the add-on price is up to date, the shown total is what the cart will charge for the candidate line. */
  lemma ShownTotalIsCartLineTotal(s: DetailState, lineId: string)
    requires s.product.Some?
    requires s.additionalPrice == SelectedMaterialsPrice(s.product.value.availableMaterials, s.selection)
    ensures ShownTotal(s) == Cart.LineTotal(CandidateLine(lineId, s.product.value, s.quantity, s.selection))
  {
    var c := CandidateLine(lineId, s.product.value, s.quantity, s.selection);
    SelectedMaterialsPriceIsCartSelectedPrice(s.product.value.availableMaterials, s.selection);
    Cart.LineTotalIsUnitPriceTimesQuantity(c);
  }

  /**
    When no cart line matches the candidate, adding it raises the cart's total
    price by exactly the total the page showed.
   */
  lemma NewLineAddsShownTotal(cart: seq<Cart.CartItem>, s: DetailState, lineId: string)
    requires s.product.Some?
    requires s.additionalPrice == SelectedMaterialsPrice(s.product.value.availableMaterials, s.selection)
    requires Cart.FindMatch(cart, CandidateLine(lineId, s.product.value, s.quantity, s.selection)) < 0
    ensures Cart.TotalPrice(Cart.AddedToCart(cart, CandidateLine(lineId, s.product.value, s.quantity, s.selection)))
      == Cart.TotalPrice(cart) + ShownTotal(s)
  {
    ShownTotalIsCartLineTotal(s, lineId);
    Cart.AddNewLineTotalPrice(cart, CandidateLine(lineId, s.product.value, s.quantity, s.selection));
  }

  /** The add-to-cart button: without a product nothing happens; otherwise the candidate line goes to the cart store. */
  method HandleAddToCart(store: Cart.CartStore, s: DetailState, lineId: string)
    requires store.Valid()
    modifies store
    ensures store.Valid()
    ensures s.product.None? ==> store.cart == old(store.cart)
    ensures s.product.Some? ==>
      store.cart == Cart.AddedToCart(old(store.cart), CandidateLine(lineId, s.product.value, s.quantity, s.selection))
  {
    if s.product.Some? {
      store.AddToCart(CandidateLine(lineId, s.product.value, s.quantity, s.selection));
    }
  }
}
