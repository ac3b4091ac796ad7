/**
  The cart store: the ordered list of cart lines, the operations that change
  it, and the totals derived from it. Prices are in cents.

  The operations are first given as functions from the old cart to the new
  one; the `CartStore` class holds the mutable cart (and its saved snapshot)
  and each of its methods is proved to move to exactly that new cart.
 */
module Cart {
  import Seqs
  import Strings

  /** A material copied into a cart line, with this line's own selection flag. */
  datatype MaterialOption = MaterialOption(id: string, name: string, price: int, selected: bool)

  /** One cart line: `id` names the line, `productId` the catalog product it was made from. */
  datatype CartItem = CartItem(
    id: string,
    productId: string,
    name: string,
    price: int,
    quantity: int,
    materials: seq<MaterialOption>)

  // ---------------------------------------------------------------------------
  // Line identity: the product and the set of selected materials

  /** The ids of the selected materials, in the line's order. */
  function SelectedIds(ms: seq<MaterialOption>): seq<string>
  {
    if |ms| == 0 then []
    else (if ms[0].selected then [ms[0].id] else []) + SelectedIds(ms[1..])
  }

  /** The selected ids, sorted as `sort()` without a comparator sorts them. */
  function SelectionKey(ms: seq<MaterialOption>): seq<string>
  {
    if |ms| == 0 then []
    else if ms[0].selected then Seqs.Insert(ms[0].id, SelectionKey(ms[1..]), Strings.LexLe)
    else SelectionKey(ms[1..])
  }

  /** The key is the selected ids, filtered in line order and then sorted. */
  lemma {:induction false} SelectionKeyIsSortedSelection(ms: seq<MaterialOption>)
    ensures SelectionKey(ms) == Seqs.InsertionSort(SelectedIds(ms), Strings.LexLe)
  {
    if |ms| > 0 {
      SelectionKeyIsSortedSelection(ms[1..]);
      var rest := SelectedIds(ms[1..]);
      if ms[0].selected {
        assert SelectedIds(ms) == [ms[0].id] + rest;
        assert ([ms[0].id] + rest)[1..] == rest;
      } else {
        assert SelectedIds(ms) == rest;
      }
    }
  }

  /** The selection test of `addToCart`: the sorted id lists have equal lengths and agree at every position. */
  predicate SameSelection(a: seq<MaterialOption>, b: seq<MaterialOption>)
  {
    SelectionKey(a) == SelectionKey(b)
  }

  /**
    Comparing sorted id lists is comparing the multisets of selected ids: the
    order in which a line lists its materials does not matter, and neither does
    which total order the sort uses.
   */
  lemma SameSelectionIffSameMultiset(a: seq<MaterialOption>, b: seq<MaterialOption>)
    ensures SameSelection(a, b) <==> multiset(SelectedIds(a)) == multiset(SelectedIds(b))
  {
    SelectionKeyIsSortedSelection(a);
    SelectionKeyIsSortedSelection(b);
    var x := Seqs.InsertionSort(SelectedIds(a), Strings.LexLe);
    var y := Seqs.InsertionSort(SelectedIds(b), Strings.LexLe);
    Seqs.InsertionSortPermutes(SelectedIds(a), Strings.LexLe);
    Seqs.InsertionSortPermutes(SelectedIds(b), Strings.LexLe);
    if multiset(SelectedIds(a)) == multiset(SelectedIds(b)) {
      Strings.LexLeIsTotalOrder();
      Seqs.InsertionSortSorted(SelectedIds(a), Strings.LexLe);
      Seqs.InsertionSortSorted(SelectedIds(b), Strings.LexLe);
      Seqs.SortedUnique(x, y, Strings.LexLe);
    }
  }

  /** `addToCart`'s matching rule: same product, same selected materials. */
  predicate Matches(item: CartItem, candidate: CartItem)
  {
    item.productId == candidate.productId && SameSelection(candidate.materials, item.materials)
  }

  /** No two lines of the cart would be merged by `addToCart`. */
  ghost predicate DistinctConfigurations(cart: seq<CartItem>)
  {
    forall i, j :: 0 <= i < j < |cart| ==> !Matches(cart[j], cart[i])
  }

  /** Every line holds at least one unit. */
  predicate AllPositive(cart: seq<CartItem>)
  {
    forall i :: 0 <= i < |cart| ==> cart[i].quantity >= 1
  }

  /** `findIndex` with the matching rule: the first matching line, or -1. */
  function FindMatch(cart: seq<CartItem>, candidate: CartItem): (i: int)
    ensures -1 <= i < |cart|
    ensures 0 <= i ==> Matches(cart[i], candidate) && forall j :: 0 <= j < i ==> !Matches(cart[j], candidate)
    ensures i < 0 <==> forall j :: 0 <= j < |cart| ==> !Matches(cart[j], candidate)
  {
    if |cart| == 0 then -1
    else if Matches(cart[0], candidate) then 0
    else
      var k := FindMatch(cart[1..], candidate);
      if k < 0 then -1 else k + 1
  }

  // ---------------------------------------------------------------------------
  // The operations, as functions from the old cart to the new one

  /** Line `i` with `extra` more units. */
  function Grown(cart: seq<CartItem>, i: int, extra: int): seq<CartItem>
    requires 0 <= i < |cart|
  {
    cart[i := cart[i].(quantity := cart[i].quantity + extra)]
  }

  /** `addToCart`: grow the first matching line by the candidate's quantity, or append the candidate. */
  function AddedToCart(cart: seq<CartItem>, candidate: CartItem): seq<CartItem>
  {
    var i := FindMatch(cart, candidate);
    if 0 <= i then Grown(cart, i, candidate.quantity) else cart + [candidate]
  }

  /** `removeFromCart`: every line with `lineId` goes, the rest keep their order. */
  function RemovedFromCart(cart: seq<CartItem>, lineId: string): (r: seq<CartItem>)
    ensures forall i :: 0 <= i < |r| ==> r[i].id != lineId && r[i] in cart
    ensures forall i :: 0 <= i < |cart| && cart[i].id != lineId ==> cart[i] in r
    ensures Seqs.IsSubsequence(r, cart)
    ensures (forall i :: 0 <= i < |cart| ==> cart[i].id != lineId) ==> r == cart
    ensures forall x: CartItem :: x.id != lineId ==> multiset(r)[x] == multiset(cart)[x]
  {
    var keep := (item: CartItem) => item.id != lineId;
    Seqs.FilterSpec(cart, keep);
    Seqs.FilterCounts(cart, keep);
    var keepsAll := forall i :: 0 <= i < |cart| ==> keep(cart[i]);
    assert keepsAll ==> Seqs.Filter(cart, keep) == cart by {
      if keepsAll {
        Seqs.FilterKeepsAll(cart, keep);
      }
    }
    Seqs.Filter(cart, keep)
  }

  /** Sets the quantity of every line with `lineId` to `quantity`. */
  function WithQuantity(cart: seq<CartItem>, lineId: string, quantity: int): seq<CartItem>
  {
    seq(|cart|, i requires 0 <= i < |cart| =>
      if cart[i].id == lineId then cart[i].(quantity := quantity) else cart[i])
  }

  /**
    `updateQuantity`: a quantity of zero or less removes the line; any other
    quantity replaces (does not add to) the line's quantity and changes nothing else.
   */
  function QuantityUpdated(cart: seq<CartItem>, lineId: string, quantity: int): (r: seq<CartItem>)
    ensures quantity <= 0 ==> r == RemovedFromCart(cart, lineId)
    ensures 0 < quantity ==> |r| == |cart|
    ensures 0 < quantity ==> forall i :: 0 <= i < |cart| ==>
      r[i].(quantity := cart[i].quantity) == cart[i] &&
      r[i].quantity == (if cart[i].id == lineId then quantity else cart[i].quantity)
  {
    if quantity <= 0 then RemovedFromCart(cart, lineId) else WithQuantity(cart, lineId, quantity)
  }

  /** Flips `selected` on every material with `materialId`. */
  function FlipMaterial(ms: seq<MaterialOption>, materialId: string): seq<MaterialOption>
  {
    seq(|ms|, j requires 0 <= j < |ms| =>
      if ms[j].id == materialId then ms[j].(selected := !ms[j].selected) else ms[j])
  }

  /**
    `toggleMaterial`: in the lines with `lineId`, the materials with `materialId`
    change their `selected` flag; nothing else changes, and lines are never merged.
   */
  function MaterialToggled(cart: seq<CartItem>, lineId: string, materialId: string): (r: seq<CartItem>)
    ensures |r| == |cart|
    ensures forall i :: 0 <= i < |cart| ==>
      r[i].(materials := cart[i].materials) == cart[i] && |r[i].materials| == |cart[i].materials|
    ensures forall i, j :: 0 <= i < |cart| && 0 <= j < |cart[i].materials| ==>
      r[i].materials[j].(selected := cart[i].materials[j].selected) == cart[i].materials[j] &&
      (r[i].materials[j].selected != cart[i].materials[j].selected <==>
        cart[i].id == lineId && cart[i].materials[j].id == materialId)
  {
    seq(|cart|, i requires 0 <= i < |cart| =>
      if cart[i].id == lineId then cart[i].(materials := FlipMaterial(cart[i].materials, materialId))
      else cart[i])
  }

  // ---------------------------------------------------------------------------
  // Totals

  /** `totalItems`: the quantities of all lines added up. */
  function TotalItems(cart: seq<CartItem>): int
  {
    if |cart| == 0 then 0 else TotalItems(cart[..|cart| - 1]) + cart[|cart| - 1].quantity
  }

  /** The unit prices of the selected materials added up. */
  function SelectedPrice(ms: seq<MaterialOption>): int
  {
    if |ms| == 0 then 0
    else SelectedPrice(ms[..|ms| - 1]) + (if ms[|ms| - 1].selected then ms[|ms| - 1].price else 0)
  }

  /** What the selected materials add to a line of `quantity` units, one material at a time. */
  function Surcharge(ms: seq<MaterialOption>, quantity: int): int
  {
    if |ms| == 0 then 0
    else Surcharge(ms[..|ms| - 1], quantity) + (if ms[|ms| - 1].selected then ms[|ms| - 1].price * quantity else 0)
  }

  /** A line's total as the store computes it: base price times quantity, plus each selected material times quantity. */
  function LineTotal(item: CartItem): int
  {
    item.price * item.quantity + Surcharge(item.materials, item.quantity)
  }

  /** `totalPrice`: the line totals added up. */
  function TotalPrice(cart: seq<CartItem>): int
  {
    if |cart| == 0 then 0 else TotalPrice(cart[..|cart| - 1]) + LineTotal(cart[|cart| - 1])
  }

  lemma {:induction false} SurchargeFactors(ms: seq<MaterialOption>, quantity: int)
    ensures Surcharge(ms, quantity) == SelectedPrice(ms) * quantity
  {
    if |ms| > 0 {
      SurchargeFactors(ms[..|ms| - 1], quantity);
      var last := if ms[|ms| - 1].selected then ms[|ms| - 1].price else 0;
      assert (SelectedPrice(ms[..|ms| - 1]) + last) * quantity
          == SelectedPrice(ms[..|ms| - 1]) * quantity + last * quantity;
    }
  }

  /** A line costs its unit price (base price plus selected materials) times its quantity. */
  lemma LineTotalIsUnitPriceTimesQuantity(item: CartItem)
    ensures LineTotal(item) == (item.price + SelectedPrice(item.materials)) * item.quantity
  {
    SurchargeFactors(item.materials, item.quantity);
  }

  /** Unselected materials cost nothing, whatever their price. */
  lemma {:induction false} UnselectedMaterialsCostNothing(ms: seq<MaterialOption>)
    requires forall j :: 0 <= j < |ms| ==> !ms[j].selected
    ensures SelectedPrice(ms) == 0
  {
    if |ms| > 0 {
      UnselectedMaterialsCostNothing(ms[..|ms| - 1]);
    }
  }

  lemma TotalItemsAppend(cart: seq<CartItem>, item: CartItem)
    ensures TotalItems(cart + [item]) == TotalItems(cart) + item.quantity
  {
    assert (cart + [item])[..|cart|] == cart;
  }

  lemma TotalPriceAppend(cart: seq<CartItem>, item: CartItem)
    ensures TotalPrice(cart + [item]) == TotalPrice(cart) + LineTotal(item)
  {
    assert (cart + [item])[..|cart|] == cart;
  }

  lemma {:induction false} TotalItemsReplace(cart: seq<CartItem>, i: int, item: CartItem)
    requires 0 <= i < |cart|
    ensures TotalItems(cart[i := item]) == TotalItems(cart) - cart[i].quantity + item.quantity
  {
    var n := |cart| - 1;
    if i < n {
      TotalItemsReplace(cart[..n], i, item);
      assert cart[i := item][..n] == cart[..n][i := item];
    } else {
      assert cart[i := item][..n] == cart[..n];
    }
  }

  lemma {:induction false} TotalPriceReplace(cart: seq<CartItem>, i: int, item: CartItem)
    requires 0 <= i < |cart|
    ensures TotalPrice(cart[i := item]) == TotalPrice(cart) - LineTotal(cart[i]) + LineTotal(item)
  {
    var n := |cart| - 1;
    if i < n {
      TotalPriceReplace(cart[..n], i, item);
      assert cart[i := item][..n] == cart[..n][i := item];
    } else {
      assert cart[i := item][..n] == cart[..n];
    }
  }

  /** With every line holding at least one unit, there are at least as many units as lines. */
  lemma {:induction false} TotalItemsAtLeastLines(cart: seq<CartItem>)
    requires AllPositive(cart)
    ensures TotalItems(cart) >= |cart|
  {
    if |cart| > 0 {
      TotalItemsAtLeastLines(cart[..|cart| - 1]);
    }
  }

  /** Non-negative prices and quantities give a non-negative line total. */
  lemma {:induction false} SelectedPriceNonNegative(ms: seq<MaterialOption>)
    requires forall j :: 0 <= j < |ms| ==> ms[j].price >= 0
    ensures SelectedPrice(ms) >= 0
  {
    if |ms| > 0 {
      SelectedPriceNonNegative(ms[..|ms| - 1]);
    }
  }

  predicate NonNegativePrices(cart: seq<CartItem>)
  {
    forall i :: 0 <= i < |cart| ==>
      cart[i].price >= 0 && cart[i].quantity >= 0 &&
      (forall j :: 0 <= j < |cart[i].materials| ==> cart[i].materials[j].price >= 0)
  }

  /** A cart whose prices and quantities are not negative has a non-negative total. */
  lemma {:induction false} TotalPriceNonNegative(cart: seq<CartItem>)
    requires NonNegativePrices(cart)
    ensures TotalPrice(cart) >= 0
  {
    if |cart| > 0 {
      var last := cart[|cart| - 1];
      TotalPriceNonNegative(cart[..|cart| - 1]);
      SelectedPriceNonNegative(last.materials);
      LineTotalIsUnitPriceTimesQuantity(last);
    }
  }

  // ---------------------------------------------------------------------------
  // What addToCart does

  /** When a line matches, the first matching line grows by the candidate's quantity and keeps its place; nothing else changes. */
  lemma AddMergesIntoFirstMatch(cart: seq<CartItem>, candidate: CartItem, i: int)
    requires 0 <= i < |cart| && Matches(cart[i], candidate)
    requires forall j :: 0 <= j < i ==> !Matches(cart[j], candidate)
    ensures |AddedToCart(cart, candidate)| == |cart|
    ensures AddedToCart(cart, candidate)[i] == cart[i].(quantity := cart[i].quantity + candidate.quantity)
    ensures forall j :: 0 <= j < |cart| && j != i ==> AddedToCart(cart, candidate)[j] == cart[j]
  {
    assert FindMatch(cart, candidate) == i;
  }

  /** When no line matches, the candidate is appended unchanged. */
  lemma AddAppendsWhenNoMatch(cart: seq<CartItem>, candidate: CartItem)
    requires forall j :: 0 <= j < |cart| ==> !Matches(cart[j], candidate)
    ensures AddedToCart(cart, candidate) == cart + [candidate]
  {
  }

  /** Either way, the cart holds exactly the candidate's quantity more units. */
  lemma AddToCartTotalItems(cart: seq<CartItem>, candidate: CartItem)
    ensures TotalItems(AddedToCart(cart, candidate)) == TotalItems(cart) + candidate.quantity
  {
    var i := FindMatch(cart, candidate);
    if 0 <= i {
      var merged := cart[i].(quantity := cart[i].quantity + candidate.quantity);
      assert AddedToCart(cart, candidate) == cart[i := merged];
      TotalItemsReplace(cart, i, merged);
    } else {
      assert AddedToCart(cart, candidate) == cart + [candidate];
      TotalItemsAppend(cart, candidate);
    }
  }

  /** Growing line `i` by `extra` units adds `extra` times that line's unit price to the total. */
  lemma GrownTotalPrice(cart: seq<CartItem>, i: int, extra: int)
    requires 0 <= i < |cart|
    ensures TotalPrice(Grown(cart, i, extra))
      == TotalPrice(cart) + (cart[i].price + SelectedPrice(cart[i].materials)) * extra
  {
    GrownLineAt(cart, i, extra);
    GrownTotalSplit(cart, i, extra);
  }

  lemma GrownLineAt(cart: seq<CartItem>, i: int, extra: int)
    requires 0 <= i < |cart|
    ensures LineTotal(cart[i].(quantity := cart[i].quantity + extra))
      == LineTotal(cart[i]) + (cart[i].price + SelectedPrice(cart[i].materials)) * extra
  {
    GrownLineTotal(cart[i], extra);
  }

  lemma GrownTotalSplit(cart: seq<CartItem>, i: int, extra: int)
    requires 0 <= i < |cart|
    ensures TotalPrice(Grown(cart, i, extra))
      == TotalPrice(cart) - LineTotal(cart[i]) + LineTotal(cart[i].(quantity := cart[i].quantity + extra))
  {
    TotalPriceReplace(cart, i, cart[i].(quantity := cart[i].quantity + extra));
  }

  /** Merging into the first matching line adds the candidate's quantity at that line's own unit price (its base price and its selected materials). */
  lemma AddToMatchedLineTotalPrice(cart: seq<CartItem>, candidate: CartItem)
    requires 0 <= FindMatch(cart, candidate)
    ensures var line := cart[FindMatch(cart, candidate)];
      TotalPrice(AddedToCart(cart, candidate))
      == TotalPrice(cart) + (line.price + SelectedPrice(line.materials)) * candidate.quantity
  {
    GrownTotalPrice(cart, FindMatch(cart, candidate), candidate.quantity);
  }

  /** Appending adds the candidate's own line total. */
  lemma AddNewLineTotalPrice(cart: seq<CartItem>, candidate: CartItem)
    requires forall j :: 0 <= j < |cart| ==> !Matches(cart[j], candidate)
    ensures TotalPrice(AddedToCart(cart, candidate)) == TotalPrice(cart) + LineTotal(candidate)
  {
    assert AddedToCart(cart, candidate) == cart + [candidate];
    TotalPriceAppend(cart, candidate);
  }

  /** Growing a line by `extra` units adds `extra` times its unit price. */
  lemma GrownLineTotal(line: CartItem, extra: int)
    ensures LineTotal(line.(quantity := line.quantity + extra))
      == LineTotal(line) + (line.price + SelectedPrice(line.materials)) * extra
  {
    var grown := line.(quantity := line.quantity + extra);
    LineTotalIsUnitPriceTimesQuantity(line);
    LineTotalIsUnitPriceTimesQuantity(grown);
    var unit := line.price + SelectedPrice(line.materials);
    assert unit * (line.quantity + extra) == unit * line.quantity + unit * extra;
  }

  /** Adding a candidate of at least one unit keeps every line at one unit or more. */
  lemma AddKeepsQuantitiesPositive(cart: seq<CartItem>, candidate: CartItem)
    requires AllPositive(cart) && candidate.quantity >= 1
    ensures AllPositive(AddedToCart(cart, candidate))
  {
  }

  /** `addToCart` never creates two lines that it would itself have merged. */
  lemma AddKeepsConfigurationsDistinct(cart: seq<CartItem>, candidate: CartItem)
    requires DistinctConfigurations(cart)
    ensures DistinctConfigurations(AddedToCart(cart, candidate))
  {
    var r := AddedToCart(cart, candidate);
    var i := FindMatch(cart, candidate);
    if i < 0 {
      forall a, b | 0 <= a < b < |r| ensures !Matches(r[b], r[a]) {
      }
    }
  }

  /** Adding the same configuration twice to a cart without it yields one line holding both quantities. */
  lemma AddSameConfigurationTwice(cart: seq<CartItem>, first: CartItem, second: CartItem)
    requires forall j :: 0 <= j < |cart| ==> !Matches(cart[j], first)
    requires Matches(first, second)
    ensures AddedToCart(AddedToCart(cart, first), second)
      == cart + [first.(quantity := first.quantity + second.quantity)]
  {
    var once := cart + [first];
    assert once[|cart|] == first && once[..|cart|] == cart;
    assert forall j :: 0 <= j < |cart| ==> !Matches(once[j], second);
    assert FindMatch(once, second) == |cart|;
  }

  /** Adding two configurations that do not match gives two new lines, in order. */
  lemma AddDifferentConfigurations(cart: seq<CartItem>, first: CartItem, second: CartItem)
    requires forall j :: 0 <= j < |cart| ==> !Matches(cart[j], first) && !Matches(cart[j], second)
    requires !Matches(first, second)
    ensures AddedToCart(AddedToCart(cart, first), second) == cart + [first, second]
  {
    var once := cart + [first];
    assert forall j :: 0 <= j < |once| ==> !Matches(once[j], second);
  }

  // ---------------------------------------------------------------------------
  // What the other operations keep

  lemma RemoveKeepsQuantitiesPositive(cart: seq<CartItem>, lineId: string)
    requires AllPositive(cart)
    ensures AllPositive(RemovedFromCart(cart, lineId))
  {
  }

  /** Removing lines keeps the remaining lines pairwise unmergeable. */
  lemma RemoveKeepsConfigurationsDistinct(cart: seq<CartItem>, lineId: string)
    requires DistinctConfigurations(cart)
    ensures DistinctConfigurations(RemovedFromCart(cart, lineId))
  {
    var keep := (item: CartItem) => item.id != lineId;
    Seqs.FilterPairwise(cart, keep, (x: CartItem, y: CartItem) => !Matches(y, x));
  }

  /** Setting a quantity of at least one, or removing, keeps every line at one unit or more. */
  lemma UpdateKeepsQuantitiesPositive(cart: seq<CartItem>, lineId: string, quantity: int)
    requires AllPositive(cart)
    ensures AllPositive(QuantityUpdated(cart, lineId, quantity))
  {
  }

  lemma UpdateKeepsConfigurationsDistinct(cart: seq<CartItem>, lineId: string, quantity: int)
    requires DistinctConfigurations(cart)
    ensures DistinctConfigurations(QuantityUpdated(cart, lineId, quantity))
  {
    if quantity <= 0 {
      RemoveKeepsConfigurationsDistinct(cart, lineId);
    } else {
      var r := QuantityUpdated(cart, lineId, quantity);
      forall a, b | 0 <= a < b < |r| ensures !Matches(r[b], r[a]) {
        assert r[a].materials == cart[a].materials && r[a].productId == cart[a].productId;
        assert r[b].materials == cart[b].materials && r[b].productId == cart[b].productId;
      }
    }
  }

  /** Toggling the same material of the same line twice gives back the cart. */
  lemma ToggleTwiceRestores(cart: seq<CartItem>, lineId: string, materialId: string)
    ensures MaterialToggled(MaterialToggled(cart, lineId, materialId), lineId, materialId) == cart
  {
    var once := MaterialToggled(cart, lineId, materialId);
    var twice := MaterialToggled(once, lineId, materialId);
    forall i | 0 <= i < |cart| ensures twice[i] == cart[i] {
      forall j | 0 <= j < |cart[i].materials| ensures twice[i].materials[j] == cart[i].materials[j] {
      }
      assert twice[i].materials == cart[i].materials;
    }
  }

  /** Toggling a material changes no quantity, so the unit count stays. */
  lemma {:induction false} ToggleKeepsTotalItems(cart: seq<CartItem>, lineId: string, materialId: string)
    ensures TotalItems(MaterialToggled(cart, lineId, materialId)) == TotalItems(cart)
  {
    if |cart| > 0 {
      var n := |cart| - 1;
      ToggleKeepsTotalItems(cart[..n], lineId, materialId);
      assert MaterialToggled(cart, lineId, materialId)[..n] == MaterialToggled(cart[..n], lineId, materialId);
    }
  }

  /** Two lines of the same crane; only the first has the gold foil. */
  const TwoCraneLines: seq<CartItem> := [
    CartItem("line-1", "minimal-crane", "Minimal Crane", 2499, 1, [MaterialOption("gold-foil", "Gold Foil Accent", 500, true)]),
    CartItem("line-2", "minimal-crane", "Minimal Crane", 2499, 1, [MaterialOption("gold-foil", "Gold Foil Accent", 500, false)])
  ]

  /** `toggleMaterial` does not re-merge: selecting the foil on the second line leaves two lines `addToCart` would merge. */
  lemma ToggleCanDuplicateConfiguration()
    ensures DistinctConfigurations(TwoCraneLines)
    ensures !DistinctConfigurations(MaterialToggled(TwoCraneLines, "line-2", "gold-foil"))
  {
    var toggled := MaterialToggled(TwoCraneLines, "line-2", "gold-foil");
    assert SelectedIds(TwoCraneLines[0].materials) == ["gold-foil"];
    assert SelectedIds(TwoCraneLines[1].materials) == [];
    assert toggled[1].materials == [MaterialOption("gold-foil", "Gold Foil Accent", 500, true)];
    assert SelectedIds(toggled[1].materials) == ["gold-foil"];
    assert toggled[0] == TwoCraneLines[0];
    assert Matches(toggled[1], toggled[0]);
  }

  // ---------------------------------------------------------------------------
  // A session: any sequence of store operations

  datatype CartOp =
    | Add(item: CartItem)
    | Remove(lineId: string)
    | UpdateQuantity(lineId: string, quantity: int)
    | Toggle(lineId: string, materialId: string)
    | Clear

  function Step(cart: seq<CartItem>, op: CartOp): seq<CartItem>
  {
    match op
    case Add(item) => AddedToCart(cart, item)
    case Remove(lineId) => RemovedFromCart(cart, lineId)
    case UpdateQuantity(lineId, quantity) => QuantityUpdated(cart, lineId, quantity)
    case Toggle(lineId, materialId) => MaterialToggled(cart, lineId, materialId)
    case Clear => []
  }

  function Run(cart: seq<CartItem>, ops: seq<CartOp>): seq<CartItem>
    decreases |ops|
  {
    if |ops| == 0 then cart else Run(Step(cart, ops[0]), ops[1..])
  }

  /** Starting from lines of at least one unit, and adding only candidates of at least one unit, every line always holds at least one unit. */
  lemma {:induction false} RunKeepsQuantitiesPositive(cart: seq<CartItem>, ops: seq<CartOp>)
    requires AllPositive(cart)
    requires forall k :: 0 <= k < |ops| && ops[k].Add? ==> ops[k].item.quantity >= 1
    ensures AllPositive(Run(cart, ops))
    decreases |ops|
  {
    if |ops| > 0 {
      match ops[0] {
        case Add(item) => AddKeepsQuantitiesPositive(cart, item);
        case Remove(lineId) => RemoveKeepsQuantitiesPositive(cart, lineId);
        case UpdateQuantity(lineId, quantity) => UpdateKeepsQuantitiesPositive(cart, lineId, quantity);
        case Toggle(lineId, materialId) =>
        case Clear =>
      }
      RunKeepsQuantitiesPositive(Step(cart, ops[0]), ops[1..]);
    }
  }

  /** Without material toggles, a session never leaves two lines that `addToCart` would merge. */
  lemma {:induction false} RunWithoutToggleKeepsConfigurationsDistinct(cart: seq<CartItem>, ops: seq<CartOp>)
    requires DistinctConfigurations(cart)
    requires forall k :: 0 <= k < |ops| ==> !ops[k].Toggle?
    ensures DistinctConfigurations(Run(cart, ops))
    decreases |ops|
  {
    if |ops| > 0 {
      match ops[0] {
        case Add(item) => AddKeepsConfigurationsDistinct(cart, item);
        case Remove(lineId) => RemoveKeepsConfigurationsDistinct(cart, lineId);
        case UpdateQuantity(lineId, quantity) => UpdateKeepsConfigurationsDistinct(cart, lineId, quantity);
        case Clear =>
      }
      RunWithoutToggleKeepsConfigurationsDistinct(Step(cart, ops[0]), ops[1..]);
    }
  }

  // ---------------------------------------------------------------------------
  // Worked examples

  /** The crane at 24.99 with no materials selected. */
  const PlainCrane: CartItem :=
    CartItem("line-1", "minimal-crane", "Minimal Crane", 2499, 1, [
      MaterialOption("white-paper", "White Premium Paper", 0, false),
      MaterialOption("gold-foil", "Gold Foil Accent", 500, false),
      MaterialOption("handmade-washi", "Handmade Washi Paper", 800, false)])

  /** Adding the plain crane twice gives one line of two units costing 49.98. */
  lemma PlainCraneAddedTwice()
    ensures AddedToCart(AddedToCart([], PlainCrane), PlainCrane.(id := "line-2"))
      == [PlainCrane.(quantity := 2)]
    ensures TotalPrice([PlainCrane.(quantity := 2)]) == 4998
  {
    var second := PlainCrane.(id := "line-2");
    assert SelectedIds(PlainCrane.materials) == [];
    assert Matches(PlainCrane, second);
    AddSameConfigurationTwice([], PlainCrane, second);
    var line := PlainCrane.(quantity := 2);
    LineTotalIsUnitPriceTimesQuantity(line);
    UnselectedMaterialsCostNothing(line.materials);
    assert [line][..0] == [];
  }

  /** A 24.99 product with a selected 5.00 material, two units, costs 59.98. */
  lemma SelectedMaterialPriced()
    ensures TotalPrice([PlainCrane.(quantity := 2, materials := [MaterialOption("gold-foil", "Gold Foil Accent", 500, true)])]) == 5998
  {
    var line := PlainCrane.(quantity := 2, materials := [MaterialOption("gold-foil", "Gold Foil Accent", 500, true)]);
    assert line.materials[..0] == [];
    assert [line][..0] == [];
  }

  // ---------------------------------------------------------------------------
  // The store

  /** What the browser storage holds under the cart's key when the store starts. */
  datatype Stored = Absent | Malformed | Snapshot(lines: seq<CartItem>)

  /** The cart store: the cart and, beside it, the snapshot written to storage after every change. */
  class CartStore {
    var cart: seq<CartItem>
    var saved: Stored

    /** The saved snapshot always equals the live cart. */
    ghost predicate Valid()
      reads this
    {
      saved == Snapshot(cart)
    }

    /** Start-up: a well-formed snapshot is adopted; an absent or malformed one leaves the cart empty. */
    constructor (stored: Stored)
      ensures Valid()
      ensures cart == (if stored.Snapshot? then stored.lines else [])
    {
      cart := if stored.Snapshot? then stored.lines else [];
      saved := Snapshot(cart);
    }

    method AddToCart(candidate: CartItem)
      requires Valid()
      modifies this
      ensures Valid()
      ensures cart == AddedToCart(old(cart), candidate)
    {
      var i := 0;
      while i < |cart| && !Matches(cart[i], candidate)
        invariant 0 <= i <= |cart|
        invariant forall j :: 0 <= j < i ==> !Matches(cart[j], candidate)
      {
        i := i + 1;
      }
      if i < |cart| {
        assert FindMatch(cart, candidate) == i;
        cart := cart[i := cart[i].(quantity := cart[i].quantity + candidate.quantity)];
      } else {
        cart := cart + [candidate];
      }
      saved := Snapshot(cart);
    }

    method RemoveFromCart(lineId: string)
      requires Valid()
      modifies this
      ensures Valid()
      ensures cart == RemovedFromCart(old(cart), lineId)
    {
      cart := RemovedFromCart(cart, lineId);
      saved := Snapshot(cart);
    }

    method UpdateQuantity(lineId: string, quantity: int)
      requires Valid()
      modifies this
      ensures Valid()
      ensures cart == QuantityUpdated(old(cart), lineId, quantity)
    {
      if quantity <= 0 {
        cart := RemovedFromCart(cart, lineId);
      } else {
        cart := WithQuantity(cart, lineId, quantity);
      }
      saved := Snapshot(cart);
    }

    method ToggleMaterial(lineId: string, materialId: string)
      requires Valid()
      modifies this
      ensures Valid()
      ensures cart == MaterialToggled(old(cart), lineId, materialId)
      ensures TotalItems(cart) == TotalItems(old(cart))
    {
      ToggleKeepsTotalItems(cart, lineId, materialId);
      cart := MaterialToggled(cart, lineId, materialId);
      saved := Snapshot(cart);
    }

    method ClearCart()
      requires Valid()
      modifies this
      ensures Valid()
      ensures cart == [] && TotalItems(cart) == 0 && TotalPrice(cart) == 0
    {
      cart := [];
      saved := Snapshot(cart);
    }

    /** `totalItems` of the live cart: at least one unit per line while every line holds one. */
    function Items(): (n: int)
      reads this
      ensures cart == [] ==> n == 0
      ensures AllPositive(cart) ==> n >= |cart|
    {
      if AllPositive(cart) then TotalItemsAtLeastLines(cart); TotalItems(cart)
      else TotalItems(cart)
    }

    /** `totalPrice` of the live cart: never negative while prices and quantities are not. */
    function Price(): (p: int)
      reads this
      ensures cart == [] ==> p == 0
      ensures NonNegativePrices(cart) ==> p >= 0
    {
      if NonNegativePrices(cart) then TotalPriceNonNegative(cart); TotalPrice(cart)
      else TotalPrice(cart)
    }
  }
}
