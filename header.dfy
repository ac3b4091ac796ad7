/**
  The page header: the cart badge, which counts the units in the cart, and
  the rule that marks a navigation entry as the current page.
 */
module Header {
  import Cart
  import Strings

  /** `reduce` over the cart from the first line on, adding each line's quantity to `total`. */
  function CountFrom(total: int, cart: seq<Cart.CartItem>): int
    decreases |cart|
  {
    if |cart| == 0 then total else CountFrom(total + cart[0].quantity, cart[1..])
  }

  /** The badge's number: the quantities added up, starting from 0. */
  function CartItemCount(cart: seq<Cart.CartItem>): int
  {
    CountFrom(0, cart)
  }

  /** The store's total, taken apart at the first line instead of the last. */
  lemma {:induction false} TotalItemsFront(cart: seq<Cart.CartItem>)
    requires |cart| > 0
    ensures Cart.TotalItems(cart) == cart[0].quantity + Cart.TotalItems(cart[1..])
  {
    var n := |cart| - 1;
    if n > 0 {
      TotalItemsFront(cart[..n]);
      assert cart[..n][1..] == cart[1..][..n - 1];
    }
  }

  lemma {:induction false} CountFromAddsTotalItems(total: int, cart: seq<Cart.CartItem>)
    ensures CountFrom(total, cart) == total + Cart.TotalItems(cart)
    decreases |cart|
  {
    if |cart| > 0 {
      CountFromAddsTotalItems(total + cart[0].quantity, cart[1..]);
      TotalItemsFront(cart);
    }
  }

  /** The badge shows the same number as the store's `totalItems`. */
  lemma CartItemCountIsTotalItems(cart: seq<Cart.CartItem>)
    ensures CartItemCount(cart) == Cart.TotalItems(cart)
  {
    CountFromAddsTotalItems(0, cart);
  }

  /** The badge is drawn only for a positive count. */
  predicate BadgeShown(count: int)
  {
    count > 0
  }

  /** While every line holds at least one unit, the badge is drawn exactly when the cart has a line. */
  lemma BadgeShownIffCartNotEmpty(cart: seq<Cart.CartItem>)
    requires Cart.AllPositive(cart)
    ensures BadgeShown(CartItemCount(cart)) <==> |cart| > 0
  {
    CartItemCountIsTotalItems(cart);
    Cart.TotalItemsAtLeastLines(cart);
  }

  /** The root entry is current only on the root itself; any other entry on every path below it. */
  predicate IsActive(pathname: string, path: string)
  {
    if path == "/" then pathname == path else Strings.StartsWith(pathname, path)
  }

  /** A path below an active entry keeps it active, except for the root entry. */
  lemma ActiveBelow(pathname: string, path: string, rest: string)
    requires path != "/" && IsActive(pathname, path)
    ensures IsActive(pathname + rest, path)
  {
    assert (pathname + rest)[..|path|] == pathname[..|path|];
  }

  /** The Shop entry covers both the listing and the product pages. */
  predicate ShopActive(pathname: string)
  {
    IsActive(pathname, "/products") || IsActive(pathname, "/product/")
  }

  /** Which of Home, Shop, About and Contact the header marks as current. */
  function ActiveEntries(pathname: string): seq<bool>
  {
    [IsActive(pathname, "/"), ShopActive(pathname), IsActive(pathname, "/about"), IsActive(pathname, "/contact")]
  }

  /** The Shop entry is current on every product page. */
  lemma ShopActiveOnProductPage(productId: string)
    ensures ShopActive("/product/" + productId)
    ensures ShopActive("/products")
  {
    ActiveBelow("/product/", "/product/", productId);
    assert "/product/" + [] == "/product/";
  }

  /** No path marks two entries as current. */
  lemma AtMostOneEntryActive(pathname: string)
    ensures forall i, j :: 0 <= i < j < |ActiveEntries(pathname)| ==>
      !(ActiveEntries(pathname)[i] && ActiveEntries(pathname)[j])
  {
    var e := ActiveEntries(pathname);
    if ShopActive(pathname) {
      assert |pathname| > 1 && pathname[1] == 'p';
    }
    if IsActive(pathname, "/about") {
      assert |pathname| > 1 && pathname[1] == 'a';
    }
    if IsActive(pathname, "/contact") {
      assert |pathname| > 1 && pathname[1] == 'c';
    }
  }
}
