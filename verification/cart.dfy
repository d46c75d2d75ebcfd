/** The point-of-sale screen: the product list offered for sale, the cart
    being staged, its total, and the guards that decide whether pressing
    "Pagar" hands the cart to the ledger. */
module Cart {
  import opened Optional
  import opened Seqs
  import opened Text
  import opened Types
  import opened Ledger

  /** The balance above which a credit sale asks for confirmation (1000.00). */
  const HighDebtLimit: int := 100000

  /** `availableProducts`: products whose name matches the search and that
      have stock left; only these can be added to the cart. */
  function AvailableProducts(products: seq<Product>, term: string): (r: seq<Product>)
    ensures |r| <= |products|
    ensures forall p :: p in r <==> p in products && NameMatches(p.name, term) && p.stock > 0
  {
    Filter(products, (p: Product) => NameMatches(p.name, term) && p.stock > 0)
  }

  /** The catalogue entry `products.find(p => p.id === id)`. */
  function CatalogueEntry(products: seq<Product>, id: string): Option<Product> {
    Find(products, ProductKey, id)
  }

  /** The product ids that have a line in the cart. */
  function LineIds(cart: seq<SaleItem>): set<string> {
    set item | item in cart :: item.productId
  }

  // ---------------------------------------------------------------------
  // The cart invariants
  // ---------------------------------------------------------------------

  /** No product has two lines. */
  predicate UniqueLines(cart: seq<SaleItem>) {
    DistinctBy(cart, LineKey)
  }

  /** Every line sells at least one unit. */
  predicate PositiveLines(cart: seq<SaleItem>) {
    forall item :: item in cart ==> item.quantity >= 1
  }

  /** The line names a catalogue product and asks for no more than its stock. */
  predicate LineWithinStock(item: SaleItem, products: seq<Product>) {
    var entry := CatalogueEntry(products, item.productId);
    entry.Some? && item.quantity <= entry.value.stock
  }

  predicate WithinStock(cart: seq<SaleItem>, products: seq<Product>) {
    forall item :: item in cart ==> LineWithinStock(item, products)
  }

  predicate CartOk(cart: seq<SaleItem>, products: seq<Product>) {
    UniqueLines(cart) && PositiveLines(cart) && WithinStock(cart, products)
  }

  // ---------------------------------------------------------------------
  // Line updates
  // ---------------------------------------------------------------------

  /** Apply `f` to the quantity of a line for `id`; other lines are untouched. */
  function MapLine(item: SaleItem, id: string, f: int -> int): SaleItem {
    if item.productId == id then item.(quantity := f(item.quantity)) else item
  }

  /** `cart.map(...)` rewriting the quantity of every line for `id`. */
  function MapLines(cart: seq<SaleItem>, id: string, f: int -> int): (r: seq<SaleItem>)
    ensures |r| == |cart|
    ensures forall i :: 0 <= i < |cart| ==> r[i] == MapLine(cart[i], id, f)
  {
    if |cart| == 0 then [] else [MapLine(cart[0], id, f)] + MapLines(cart[1..], id, f)
  }

  function Increment(q: int): int {
    q + 1
  }

  // ---------------------------------------------------------------------
  // addToCart
  // ---------------------------------------------------------------------

  /** The fresh line for a product: one unit at the current prices. */
  function NewLine(p: Product): SaleItem {
    SaleItem(p.id, p.name, 1, p.sellPrice, p.buyPrice)
  }

  /** `addToCart`: a product already in the cart gets one more unit unless
      its line has reached the product's stock; a new product gets a line
      of its own at the end. */
  function AddToCart(cart: seq<SaleItem>, p: Product): (r: seq<SaleItem>)
    ensures p.id in LineIds(cart) ==> |r| == |cart| && LineIds(r) == LineIds(cart)
    ensures p.id !in LineIds(cart) ==> r == cart + [NewLine(p)]
    ensures p.id in LineIds(cart) && cart[FirstIndex(cart, LineKey, p.id)].quantity >= p.stock ==> r == cart
    ensures forall i :: 0 <= i < |cart| && cart[i].productId != p.id ==> r[i] == cart[i]
    ensures p.id in LineIds(cart) && cart[FirstIndex(cart, LineKey, p.id)].quantity < p.stock ==>
              forall i :: 0 <= i < |cart| && cart[i].productId == p.id ==>
                r[i] == cart[i].(quantity := cart[i].quantity + 1)
  {
    var k := FirstIndex(cart, LineKey, p.id);
    if k < |cart| then
      if cart[k].quantity >= p.stock then cart
      else MapLines(cart, p.id, Increment)
    else
      cart + [NewLine(p)]
  }

  // ---------------------------------------------------------------------
  // updateQuantity and removeFromCart
  // ---------------------------------------------------------------------

  /** The quantity a line for `id` ends up with after pressing +/- (`delta`):
      max(0, q + delta), except that it stays q when a catalogue entry
      exists and the new quantity would exceed its stock. */
  function Requantify(q: int, products: seq<Product>, id: string, delta: int): (r: int)
    ensures r == q || r == (if q + delta > 0 then q + delta else 0)
    ensures q >= 0 ==> r >= 0
    ensures q >= 0 && delta >= 0 ==> r >= q
    ensures q >= 0 && delta <= 0 ==> r <= q
    ensures CatalogueEntry(products, id).None? ==> r == (if q + delta > 0 then q + delta else 0)
    ensures CatalogueEntry(products, id).Some? && q <= CatalogueEntry(products, id).value.stock ==>
              r <= CatalogueEntry(products, id).value.stock
    ensures var n := if q + delta > 0 then q + delta else 0;
            CatalogueEntry(products, id).Some? && n <= CatalogueEntry(products, id).value.stock ==> r == n
    ensures var n := if q + delta > 0 then q + delta else 0;
            CatalogueEntry(products, id).Some? && n > CatalogueEntry(products, id).value.stock ==> r == q
  {
    var newQty := if q + delta > 0 then q + delta else 0;
    var entry := CatalogueEntry(products, id);
    if entry.Some? && newQty > entry.value.stock then q else newQty
  }

  predicate IsPositive(item: SaleItem) {
    item.quantity > 0
  }

  /** Every line of `r` is a line of `cart` with at most its quantity
      changed: name, price and cost come from the cart. */
  predicate LinesFrom(r: seq<SaleItem>, cart: seq<SaleItem>) {
    forall item :: item in r ==> exists j :: 0 <= j < |cart| && item == cart[j].(quantity := item.quantity)
  }

  /** No line for `id` would be left without units by the change. */
  predicate NoLineEmptied(cart: seq<SaleItem>, products: seq<Product>, id: string, delta: int) {
    && PositiveLines(cart)
    && forall i :: 0 <= i < |cart| && cart[i].productId == id ==> Requantify(cart[i].quantity, products, id, delta) > 0
  }

  /** `updateQuantity`: requantify the lines for `id`, then drop every line
      left with no units. Every resulting line is a line of the cart with at
      most its quantity changed, so names, prices and costs are kept; and
      when no line is emptied, each line keeps its position and only the
      lines for `id` are requantified. */
  function UpdateQuantity(cart: seq<SaleItem>, products: seq<Product>, id: string, delta: int): (r: seq<SaleItem>)
    ensures forall item :: item in r ==> item.quantity > 0
    ensures forall item :: item in r && item.productId != id ==> item in cart
    ensures LinesFrom(r, cart)
    ensures CatalogueEntry(products, id).Some? ==>
              forall item :: item in r && item !in cart ==> item.quantity <= CatalogueEntry(products, id).value.stock
    ensures NoLineEmptied(cart, products, id, delta) ==>
              r == MapLines(cart, id, (q: int) => Requantify(q, products, id, delta))
  {
    MappedLinesFrom(cart, id, (q: int) => Requantify(q, products, id, delta));
    NoLineEmptiedKeepsAll(cart, products, id, delta);
    RequantifiedWithinStock(cart, products, id, delta);
    Filter(MapLines(cart, id, (q: int) => Requantify(q, products, id, delta)), IsPositive)
  }

  /** Mapping quantities and dropping lines changes no other field. */
  lemma MappedLinesFrom(cart: seq<SaleItem>, id: string, f: int -> int)
    ensures LinesFrom(Filter(MapLines(cart, id, f), IsPositive), cart)
  {
    var mapped := MapLines(cart, id, f);
    forall item | item in Filter(mapped, IsPositive)
      ensures exists j :: 0 <= j < |cart| && item == cart[j].(quantity := item.quantity)
    {
      var j :| 0 <= j < |mapped| && mapped[j] == item;
      assert item == cart[j].(quantity := item.quantity);
    }
  }

  /** A requantified line that survives is either an untouched line of the
      cart or within the stock of a product the catalogue knows. */
  lemma RequantifiedWithinStock(cart: seq<SaleItem>, products: seq<Product>, id: string, delta: int)
    ensures var r := Filter(MapLines(cart, id, (q: int) => Requantify(q, products, id, delta)), IsPositive);
            && (forall item :: item in r && item.productId != id ==> item in cart)
            && (CatalogueEntry(products, id).Some? ==>
                  forall item :: item in r && item !in cart ==> item.quantity <= CatalogueEntry(products, id).value.stock)
  {
    var mapped := MapLines(cart, id, (q: int) => Requantify(q, products, id, delta));
    forall item | item in Filter(mapped, IsPositive)
      ensures item.productId != id ==> item in cart
      ensures CatalogueEntry(products, id).Some? && item !in cart ==> item.quantity <= CatalogueEntry(products, id).value.stock
    {
      var j :| 0 <= j < |mapped| && mapped[j] == item;
      assert cart[j] in cart;
    }
  }

  /** When no line is emptied, the filter drops nothing. */
  lemma NoLineEmptiedKeepsAll(cart: seq<SaleItem>, products: seq<Product>, id: string, delta: int)
    ensures var mapped := MapLines(cart, id, (q: int) => Requantify(q, products, id, delta));
            NoLineEmptied(cart, products, id, delta) ==> Filter(mapped, IsPositive) == mapped
  {
    var mapped := MapLines(cart, id, (q: int) => Requantify(q, products, id, delta));
    if NoLineEmptied(cart, products, id, delta) {
      forall i | 0 <= i < |mapped|
        ensures IsPositive(mapped[i])
      {
        assert cart[i] in cart;
      }
      FilterKeepsAll(mapped, IsPositive);
    }
  }

  /** `removeFromCart`: drop the lines for `id`, keeping the others in order. */
  function RemoveFromCart(cart: seq<SaleItem>, id: string): (r: seq<SaleItem>)
    ensures forall item :: item in r <==> item in cart && item.productId != id
    ensures id !in LineIds(r)
  {
    Filter(cart, (item: SaleItem) => item.productId != id)
  }

  // ---------------------------------------------------------------------
  // The invariants are kept
  // ---------------------------------------------------------------------

  lemma UniqueLinesTail(cart: seq<SaleItem>)
    requires |cart| > 0 && UniqueLines(cart)
    ensures UniqueLines(cart[1..])
    ensures cart[0].productId !in LineIds(cart[1..])
  {
    forall i, j | 0 <= i < j < |cart[1..]|
      ensures LineKey(cart[1..][i]) != LineKey(cart[1..][j])
    {
      assert cart[1..][i] == cart[i + 1] && cart[1..][j] == cart[j + 1];
    }
  }

  lemma LineIdsCons(cart: seq<SaleItem>)
    requires |cart| > 0
    ensures LineIds(cart) == {cart[0].productId} + LineIds(cart[1..])
  {
    assert cart == [cart[0]] + cart[1..];
    assert forall item :: item in cart <==> item == cart[0] || item in cart[1..];
  }

  /** With distinct product ids, the catalogue entry for a listed product is
      that product. */
  lemma EntryOfListedProduct(products: seq<Product>, p: Product)
    requires DistinctBy(products, ProductKey) && p in products
    ensures CatalogueEntry(products, p.id) == Some(p)
  {
    var j :| 0 <= j < |products| && products[j] == p;
    FindDistinct(products, ProductKey, j);
  }

  /** Rewriting quantities keeps every line's product, so ids stay unique. */
  lemma MapLinesKeepsUnique(cart: seq<SaleItem>, id: string, f: int -> int)
    requires UniqueLines(cart)
    ensures UniqueLines(MapLines(cart, id, f))
  {
    var r := MapLines(cart, id, f);
    forall i, j | 0 <= i < j < |r|
      ensures LineKey(r[i]) != LineKey(r[j])
    {
      assert LineKey(cart[i]) != LineKey(cart[j]);
    }
  }

  /** One more unit on a line below its stock keeps the invariants. */
  lemma BumpKeepsCartOk(cart: seq<SaleItem>, products: seq<Product>, p: Product)
    requires CartOk(cart, products)
    requires CatalogueEntry(products, p.id) == Some(p)
    requires FirstIndex(cart, LineKey, p.id) < |cart|
    requires cart[FirstIndex(cart, LineKey, p.id)].quantity < p.stock
    ensures CartOk(MapLines(cart, p.id, Increment), products)
  {
    var r := MapLines(cart, p.id, Increment);
    var k := FirstIndex(cart, LineKey, p.id);
    MapLinesKeepsUnique(cart, p.id, Increment);
    forall item | item in r
      ensures item.quantity >= 1 && LineWithinStock(item, products)
    {
      var i :| 0 <= i < |r| && r[i] == item;
      assert cart[i] in cart;
      if cart[i].productId == p.id {
        assert i == k;
      }
    }
  }

  /** A fresh line for a product not yet in the cart keeps the invariants. */
  lemma NewLineKeepsCartOk(cart: seq<SaleItem>, products: seq<Product>, p: Product)
    requires CartOk(cart, products)
    requires CatalogueEntry(products, p.id) == Some(p) && p.stock > 0
    requires p.id !in LineIds(cart)
    ensures CartOk(cart + [NewLine(p)], products)
  {
    var r := cart + [NewLine(p)];
    assert UniqueLines(r) by {
      forall i, j | 0 <= i < j < |r|
        ensures LineKey(r[i]) != LineKey(r[j])
      {
        if j == |cart| {
          assert cart[i] in cart;
        } else {
          assert LineKey(cart[i]) != LineKey(cart[j]);
        }
      }
    }
  }

  /** `addToCart` on a product the screen offers keeps the cart invariants. */
  lemma AddToCartKeepsCartOk(cart: seq<SaleItem>, products: seq<Product>, p: Product)
    requires CartOk(cart, products)
    requires DistinctBy(products, ProductKey)
    requires p in products && p.stock > 0
    ensures CartOk(AddToCart(cart, p), products)
  {
    EntryOfListedProduct(products, p);
    var k := FirstIndex(cart, LineKey, p.id);
    if k < |cart| {
      if cart[k].quantity < p.stock {
        BumpKeepsCartOk(cart, products, p);
      }
    } else {
      NewLineKeepsCartOk(cart, products, p);
    }
  }

  /** `updateQuantity` keeps the cart invariants. */
  lemma UpdateQuantityKeepsCartOk(cart: seq<SaleItem>, products: seq<Product>, id: string, delta: int)
    requires CartOk(cart, products)
    ensures CartOk(UpdateQuantity(cart, products, id, delta), products)
  {
    var f := (q: int) => Requantify(q, products, id, delta);
    var mapped := MapLines(cart, id, f);
    MapLinesKeepsUnique(cart, id, f);
    FilterKeepsDistinct(mapped, IsPositive, LineKey);
    forall item | item in UpdateQuantity(cart, products, id, delta)
      ensures LineWithinStock(item, products)
    {
      var i :| 0 <= i < |mapped| && mapped[i] == item;
      assert cart[i] in cart;
    }
  }

  /** `removeFromCart` keeps the cart invariants. */
  lemma RemoveFromCartKeepsCartOk(cart: seq<SaleItem>, products: seq<Product>, id: string)
    requires CartOk(cart, products)
    ensures CartOk(RemoveFromCart(cart, id), products)
  {
    FilterKeepsDistinct(cart, (item: SaleItem) => item.productId != id, LineKey);
  }

  // ---------------------------------------------------------------------
  // The cart as a bag of quantities
  // ---------------------------------------------------------------------

  /** Rewriting the line for `id` changes what the cart sells of `id` (and
      of nothing else) by `f`. */
  lemma {:induction false} MapLinesQuantity(cart: seq<SaleItem>, id: string, f: int -> int, x: string)
    requires UniqueLines(cart)
    ensures QuantityOf(MapLines(cart, id, f), x) ==
            if x != id then QuantityOf(cart, x)
            else if id in LineIds(cart) then f(QuantityOf(cart, id))
            else 0
  {
    if |cart| == 0 {
    } else {
      var r := MapLines(cart, id, f);
      UniqueLinesTail(cart);
      LineIdsCons(cart);
      MapLinesQuantity(cart[1..], id, f, x);
      assert r[1..] == MapLines(cart[1..], id, f);
      if x == id && cart[0].productId == id {
        QuantityOfAbsent(cart[1..], id);
        QuantityOfAbsentAfterMap(cart[1..], id, f);
      }
    }
  }

  lemma QuantityOfAbsentAfterMap(cart: seq<SaleItem>, id: string, f: int -> int)
    requires id !in LineIds(cart)
    ensures QuantityOf(MapLines(cart, id, f), id) == 0
  {
    var r := MapLines(cart, id, f);
    forall j | 0 <= j < |r|
      ensures r[j].productId != id
    {
      assert cart[j] in cart;
    }
    QuantityOfAbsent(r, id);
  }

  lemma {:induction false} QuantityOfAppend(a: seq<SaleItem>, b: seq<SaleItem>, x: string)
    ensures QuantityOf(a + b, x) == QuantityOf(a, x) + QuantityOf(b, x)
  {
    if |a| == 0 {
      assert a + b == b;
    } else {
      assert (a + b)[1..] == a[1..] + b;
      QuantityOfAppend(a[1..], b, x);
    }
  }

  /** The units a line for `id` holds are the units the cart sells of `id`. */
  lemma LineQuantityIsQuantityOf(cart: seq<SaleItem>, id: string)
    requires UniqueLines(cart) && id in LineIds(cart)
    ensures cart[FirstIndex(cart, LineKey, id)].quantity == QuantityOf(cart, id)
  {
    FirstQuantityIsQuantityOf(cart, id);
  }

  /** `addToCart` adds one unit of `p` unless the product's line has reached
      its stock; what the cart sells of every other product is unchanged. */
  lemma AddToCartQuantity(cart: seq<SaleItem>, p: Product, x: string)
    requires UniqueLines(cart)
    ensures QuantityOf(AddToCart(cart, p), x) ==
            if x != p.id then QuantityOf(cart, x)
            else if p.id in LineIds(cart) && QuantityOf(cart, p.id) >= p.stock then QuantityOf(cart, p.id)
            else QuantityOf(cart, p.id) + 1
  {
    if p.id in LineIds(cart) {
      LineQuantityIsQuantityOf(cart, p.id);
      MapLinesQuantity(cart, p.id, Increment, x);
    } else {
      QuantityOfAppend(cart, [NewLine(p)], x);
      QuantityOfAbsent(cart, p.id);
    }
  }

  lemma {:induction false} QuantityOfDropsZeroLines(s: seq<SaleItem>, x: string)
    requires forall item :: item in s ==> item.quantity >= 0
    ensures QuantityOf(Filter(s, IsPositive), x) == QuantityOf(s, x)
  {
    if |s| > 0 {
      assert s[0] in s;
      QuantityOfDropsZeroLines(s[1..], x);
      var head := if IsPositive(s[0]) then [s[0]] else [];
      QuantityOfAppend(head, Filter(s[1..], IsPositive), x);
    }
  }

  /** `updateQuantity` sets what the cart sells of `id` to the requantified
      amount (zero removes the line) and leaves every other product alone. */
  lemma UpdateQuantityQuantity(cart: seq<SaleItem>, products: seq<Product>, id: string, delta: int, x: string)
    requires UniqueLines(cart) && PositiveLines(cart)
    ensures QuantityOf(UpdateQuantity(cart, products, id, delta), x) ==
            if x != id then QuantityOf(cart, x)
            else if id in LineIds(cart) then Requantify(QuantityOf(cart, id), products, id, delta)
            else 0
  {
    var f := (q: int) => Requantify(q, products, id, delta);
    var mapped := MapLines(cart, id, f);
    forall item | item in mapped
      ensures item.quantity >= 0
    {
      var i :| 0 <= i < |mapped| && mapped[i] == item;
      assert cart[i] in cart;
    }
    QuantityOfDropsZeroLines(mapped, x);
    MapLinesQuantity(cart, id, f, x);
  }

  lemma RemoveFromCartAppend(a: seq<SaleItem>, b: seq<SaleItem>, id: string)
    ensures RemoveFromCart(a + b, id) == RemoveFromCart(a, id) + RemoveFromCart(b, id)
  {
    FilterAppend(a, b, (item: SaleItem) => item.productId != id);
  }

  lemma UpdateQuantityCons(cart: seq<SaleItem>, products: seq<Product>, id: string, delta: int)
    requires |cart| > 0
    ensures var f := (q: int) => Requantify(q, products, id, delta);
            UpdateQuantity(cart, products, id, delta)
            == Filter([MapLine(cart[0], id, f)], IsPositive) + UpdateQuantity(cart[1..], products, id, delta)
  {
    var f := (q: int) => Requantify(q, products, id, delta);
    assert MapLines(cart, id, f) == [MapLine(cart[0], id, f)] + MapLines(cart[1..], id, f);
    FilterAppend([MapLine(cart[0], id, f)], MapLines(cart[1..], id, f), IsPositive);
  }

  /** Lines for other products survive `updateQuantity` unchanged and in
      their original order. */
  lemma {:induction false} UpdateQuantityKeepsOtherLines(cart: seq<SaleItem>, products: seq<Product>, id: string, delta: int)
    requires PositiveLines(cart)
    ensures RemoveFromCart(UpdateQuantity(cart, products, id, delta), id) == RemoveFromCart(cart, id)
  {
    if |cart| > 0 {
      var f := (q: int) => Requantify(q, products, id, delta);
      var head := Filter([MapLine(cart[0], id, f)], IsPositive);
      assert cart[0] in cart;
      assert PositiveLines(cart[1..]) by {
        assert forall item :: item in cart[1..] ==> item in cart;
      }
      UpdateQuantityKeepsOtherLines(cart[1..], products, id, delta);
      UpdateQuantityCons(cart, products, id, delta);
      RemoveFromCartAppend(head, UpdateQuantity(cart[1..], products, id, delta), id);
      assert cart == [cart[0]] + cart[1..];
      RemoveFromCartAppend([cart[0]], cart[1..], id);
      if cart[0].productId == id {
        assert RemoveFromCart(head, id) == [] == RemoveFromCart([cart[0]], id);
      } else {
        assert head == [cart[0]];
      }
    }
  }

  // ---------------------------------------------------------------------
  // handleFinish
  // ---------------------------------------------------------------------

  /** What "Pagar" hands to the ledger. */
  datatype Order = Order(items: seq<SaleItem>, payMethod: PaymentMethod, clientId: Option<string>)

  /** The selected client owes more than the high-debt limit. */
  predicate HighDebt(clients: seq<Client>, id: string) {
    var c := Find(clients, ClientKey, id);
    c.Some? && c.value.balance > HighDebtLimit
  }

  /** `handleFinish`: nothing is submitted for an empty cart, for a credit
      sale with no client selected, or for a credit sale to a client in high
      debt when the operator declines (`confirmed` is the dialog's answer).
      An empty selection is passed on as no client. */
  function Finish(cart: seq<SaleItem>, payMethod: PaymentMethod, selectedClientId: string,
                  clients: seq<Client>, confirmed: bool): (r: Option<Order>)
    ensures r.Some? <==>
              && |cart| > 0
              && (payMethod == Credito ==> selectedClientId != "" && (HighDebt(clients, selectedClientId) ==> confirmed))
    ensures r.Some? ==>
              && r.value.items == cart && r.value.payMethod == payMethod
              && r.value.clientId == (if selectedClientId == "" then None else Some(selectedClientId))
  {
    if |cart| == 0 then None
    else if payMethod == Credito && selectedClientId == "" then None
    else if payMethod == Credito && HighDebt(clients, selectedClientId) && !confirmed then None
    else Some(Order(cart, payMethod, if selectedClientId == "" then None else Some(selectedClientId)))
  }

  // ---------------------------------------------------------------------
  // The screen around the cart
  // ---------------------------------------------------------------------

  /** The point-of-sale screen's own state: the cart, the chosen payment
      method, and the selected client ('' for none). */
  datatype Screen = Screen(cart: seq<SaleItem>, payMethod: PaymentMethod, selectedClientId: string)

  /** The screen as it opens: an empty cash sale with no client. */
  function OpenScreen(): Screen {
    Screen([], Efectivo, "")
  }

  /** Pressing "Pagar": what goes to the ledger, and the screen afterwards. */
  datatype Press = Press(order: Option<Order>, after: Screen)

  /** A submitted sale empties the cart, clears the client and returns the
      method to cash; a refused press leaves the screen as it was. */
  function PressPagar(screen: Screen, clients: seq<Client>, confirmed: bool): (r: Press)
    ensures r.order == Finish(screen.cart, screen.payMethod, screen.selectedClientId, clients, confirmed)
    ensures r.order.Some? ==> r.after == OpenScreen()
    ensures r.order.None? ==> r.after == screen
  {
    var order := Finish(screen.cart, screen.payMethod, screen.selectedClientId, clients, confirmed);
    if order.Some? then Press(order, OpenScreen()) else Press(order, screen)
  }

  /** Every sale starts from an empty cart: after a submitted sale the screen
      is back to how it opens, so pressing "Pagar" again submits nothing,
      whatever the operator answers. */
  lemma SaleStartsAfresh(screen: Screen, clients: seq<Client>, confirmed: bool, again: bool)
    requires PressPagar(screen, clients, confirmed).order.Some?
    ensures var next := PressPagar(screen, clients, confirmed).after;
            && next.cart == [] && next.payMethod == Efectivo && next.selectedClientId == ""
            && PressPagar(next, clients, again).order.None?
  {
  }
}
