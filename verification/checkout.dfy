/** The point-of-sale screen and the ledger together: a cart built only by
    the screen's own buttons, then submitted, never drives a stock negative
    and lowers each product's stock by exactly what the cart sells of it. */
module Checkout {
  import opened Optional
  import opened Seqs
  import opened Types
  import opened Ledger
  import opened Cart

  /** One click that changes the cart: a product button (shown while the list
      was filtered by `term`), a +/- button, or the remove button. */
  datatype CartAction =
    | Add(term: string, p: Product)
    | Change(id: string, delta: int)
    | Drop(id: string)

  function Act(cart: seq<SaleItem>, products: seq<Product>, a: CartAction): seq<SaleItem> {
    match a
    case Add(_, p) => AddToCart(cart, p)
    case Change(id, delta) => UpdateQuantity(cart, products, id, delta)
    case Drop(id) => RemoveFromCart(cart, id)
  }

  /** The cart after the clicks, starting from the empty cart. */
  function BuildCart(products: seq<Product>, actions: seq<CartAction>): seq<SaleItem>
    decreases |actions|
  {
    if |actions| == 0 then []
    else Act(BuildCart(products, actions[..|actions| - 1]), products, actions[|actions| - 1])
  }

  /** A product button can only be clicked when the screen lists the product. */
  predicate Clickable(products: seq<Product>, a: CartAction) {
    a.Add? ==> a.p in AvailableProducts(products, a.term)
  }

  predicate AllClickable(products: seq<Product>, actions: seq<CartAction>) {
    forall k :: 0 <= k < |actions| ==> Clickable(products, actions[k])
  }

  /** Any cart the screen can build satisfies the cart invariants. */
  lemma {:induction false} BuildCartOk(products: seq<Product>, actions: seq<CartAction>)
    requires DistinctBy(products, ProductKey)
    requires AllClickable(products, actions)
    ensures CartOk(BuildCart(products, actions), products)
    decreases |actions|
  {
    if |actions| > 0 {
      var prefix := actions[..|actions| - 1];
      assert AllClickable(products, prefix) by {
        forall k | 0 <= k < |prefix|
          ensures Clickable(products, prefix[k])
        {
          assert prefix[k] == actions[k];
        }
      }
      BuildCartOk(products, prefix);
      var cart := BuildCart(products, prefix);
      var a := actions[|actions| - 1];
      assert Clickable(products, a);
      match a
      case Add(term, p) => AddToCartKeepsCartOk(cart, products, p);
      case Change(id, delta) => UpdateQuantityKeepsCartOk(cart, products, id, delta);
      case Drop(id) => RemoveFromCartKeepsCartOk(cart, products, id);
    }
  }

  /** Committing a cart that satisfies the invariants lowers each product's
      stock by what the cart sells of it, and no stock that was non-negative
      goes negative, even though the commit itself checks nothing. A product
      the cart sells ends non-negative whatever its stock was, since the cart
      never holds more than the stock. */
  lemma CommitLowersStockByCart(s: POSState, cart: seq<SaleItem>, payMethod: PaymentMethod,
                                clientId: Option<string>, now: nat)
    requires DistinctBy(s.products, ProductKey)
    requires CartOk(cart, s.products)
    ensures var r := CompleteSale(s, cart, payMethod, clientId, now);
            && |r.products| == |s.products|
            && (forall i :: 0 <= i < |s.products| ==>
                 r.products[i].stock == s.products[i].stock - QuantityOf(cart, s.products[i].id))
            && (forall i :: 0 <= i < |s.products| && (s.products[i].stock >= 0 || s.products[i].id in LineIds(cart)) ==>
                 r.products[i].stock >= 0)
            && (NonNegativeStock(s.products) ==> NonNegativeStock(r.products))
  {
    var r := CompleteSale(s, cart, payMethod, clientId, now);
    forall i | 0 <= i < |s.products|
      ensures r.products[i].stock == s.products[i].stock - QuantityOf(cart, s.products[i].id)
      ensures s.products[i].stock >= 0 || s.products[i].id in LineIds(cart) ==> r.products[i].stock >= 0
    {
      var p := s.products[i];
      FirstQuantityIsQuantityOf(cart, p.id);
      assert p in s.products;
      var k := FirstIndex(cart, LineKey, p.id);
      if k < |cart| {
        assert cart[k] in cart;
        FindDistinct(s.products, ProductKey, i);
      }
    }
  }

  /** handleFinish followed by handleCompleteSale: the state after pressing
      "Pagar". */
  function SubmitSale(s: POSState, cart: seq<SaleItem>, payMethod: PaymentMethod, selectedClientId: string,
                      confirmed: bool, now: nat): (r: POSState)
    ensures Finish(cart, payMethod, selectedClientId, s.clients, confirmed).None? ==> r == s
    ensures Finish(cart, payMethod, selectedClientId, s.clients, confirmed).Some? ==>
              && |r.sales| == |s.sales| + 1
              && r.sales[|s.sales|].items == cart && r.sales[|s.sales|].total == ItemsTotal(cart)
              && (payMethod == Credito ==> r.sales[|s.sales|].clientId == Some(selectedClientId))
  {
    match Finish(cart, payMethod, selectedClientId, s.clients, confirmed)
    case None => s
    case Some(co) => CompleteSale(s, co.items, co.payMethod, co.clientId, now)
  }

  /** The end-to-end theorem: whatever the clicks, pressing "Pagar" leaves
      every non-negative stock non-negative, and when the sale goes through
      each product's stock drops by exactly the units its cart line holds. */
  lemma SellingFromTheScreen(s: POSState, actions: seq<CartAction>, payMethod: PaymentMethod,
                             selectedClientId: string, confirmed: bool, now: nat)
    requires DistinctBy(s.products, ProductKey)
    requires AllClickable(s.products, actions)
    ensures var cart := BuildCart(s.products, actions);
            var r := SubmitSale(s, cart, payMethod, selectedClientId, confirmed, now);
            var sold := Finish(cart, payMethod, selectedClientId, s.clients, confirmed).Some?;
            && |r.products| == |s.products|
            && (forall i :: 0 <= i < |s.products| ==>
                 r.products[i].stock == s.products[i].stock - (if sold then QuantityOf(cart, s.products[i].id) else 0))
            && (forall i :: 0 <= i < |s.products| && s.products[i].stock >= 0 ==> r.products[i].stock >= 0)
            && (NonNegativeStock(s.products) ==> NonNegativeStock(r.products))
  {
    var cart := BuildCart(s.products, actions);
    BuildCartOk(s.products, actions);
    if Finish(cart, payMethod, selectedClientId, s.clients, confirmed).Some? {
      var co := Finish(cart, payMethod, selectedClientId, s.clients, confirmed).value;
      CommitLowersStockByCart(s, cart, co.payMethod, co.clientId, now);
    }
  }

  /** The total the screen shows is the total journaled, and a submitted
      credit sale charges exactly that total to the selected client. */
  lemma ScreenTotalIsCharged(s: POSState, cart: seq<SaleItem>, selectedClientId: string,
                             confirmed: bool, now: nat, i: nat)
    requires i < |s.clients| && s.clients[i].id == selectedClientId
    requires Finish(cart, Credito, selectedClientId, s.clients, confirmed).Some?
    ensures var r := SubmitSale(s, cart, Credito, selectedClientId, confirmed, now);
            && |r.clients| == |s.clients|
            && r.clients[i].balance == s.clients[i].balance + ItemsTotal(cart)
  {
  }
}
