/** The state transitions of the application shell: completing a sale,
    recording a credit payment, registering a client, adding and replacing a
    product. Each is a pure function from the old state to the new one; the
    clock reading `now` stands for `Date.now()`. */
module Ledger {
  import opened Optional
  import opened Seqs
  import opened Text
  import opened Types

  /** price × quantity of one line. */
  function Subtotal(item: SaleItem): int {
    item.price * item.quantity
  }

  /** cost × quantity of one line. */
  function SubtotalCost(item: SaleItem): int {
    item.cost * item.quantity
  }

  /** Lines whose subtotals can only add: no negative price or quantity. */
  predicate NonNegativePrices(items: seq<SaleItem>) {
    forall i :: 0 <= i < |items| ==> items[i].price >= 0 && items[i].quantity >= 0
  }

  /** Lines whose costs can only add: no negative cost or quantity. */
  predicate NonNegativeCosts(items: seq<SaleItem>) {
    forall i :: 0 <= i < |items| ==> items[i].cost >= 0 && items[i].quantity >= 0
  }

  /** No product in the catalogue has a negative stock. */
  predicate NonNegativeStock(products: seq<Product>) {
    forall p :: p in products ==> p.stock >= 0
  }

  /** Σ price × quantity over the lines (the sale total and the cart total).
      Over lines that can only add, it is never negative and no line's
      subtotal exceeds it. */
  function ItemsTotal(items: seq<SaleItem>): (r: int)
    ensures NonNegativePrices(items) ==>
              0 <= r && forall i :: 0 <= i < |items| ==> Subtotal(items[i]) <= r
  {
    if |items| == 0 then 0 else Subtotal(items[0]) + ItemsTotal(items[1..])
  }

  /** Σ cost × quantity over the lines, with the same bounds. */
  function ItemsCost(items: seq<SaleItem>): (r: int)
    ensures NonNegativeCosts(items) ==>
              0 <= r && forall i :: 0 <= i < |items| ==> SubtotalCost(items[i]) <= r
  {
    if |items| == 0 then 0 else SubtotalCost(items[0]) + ItemsCost(items[1..])
  }

  /** Both sums are additive over concatenation, which with the one-line case
      pins them down as the sums over all lines in any grouping. */
  lemma {:induction false} ItemsTotalAppend(a: seq<SaleItem>, b: seq<SaleItem>)
    ensures ItemsTotal(a + b) == ItemsTotal(a) + ItemsTotal(b)
    ensures ItemsCost(a + b) == ItemsCost(a) + ItemsCost(b)
  {
    if |a| == 0 {
      assert a + b == b;
    } else {
      assert (a + b)[1..] == a[1..] + b;
      ItemsTotalAppend(a[1..], b);
    }
  }

  /** Σ quantity over the lines for product `id`: how many units a list of
      lines sells of that product. */
  function QuantityOf(items: seq<SaleItem>, id: string): int {
    if |items| == 0 then 0
    else (if items[0].productId == id then items[0].quantity else 0) + QuantityOf(items[1..], id)
  }

  /** The quantity of the first line for product `id` (what `items.find`
      yields), or 0 when there is none. */
  function FirstQuantity(items: seq<SaleItem>, id: string): (q: int)
    ensures (forall j :: 0 <= j < |items| ==> items[j].productId != id) ==> q == 0
  {
    var k := FirstIndex(items, LineKey, id);
    if k < |items| then items[k].quantity else 0
  }

  /** When no two lines share a product, the first line's quantity is all
      that the lines sell of that product. */
  lemma {:induction false} FirstQuantityIsQuantityOf(items: seq<SaleItem>, id: string)
    requires DistinctBy(items, LineKey)
    ensures FirstQuantity(items, id) == QuantityOf(items, id)
  {
    if |items| > 0 {
      assert DistinctBy(items[1..], LineKey) by {
        forall i, j | 0 <= i < j < |items[1..]|
          ensures LineKey(items[1..][i]) != LineKey(items[1..][j])
        {
          assert items[1..][i] == items[i + 1] && items[1..][j] == items[j + 1];
        }
      }
      FirstQuantityIsQuantityOf(items[1..], id);
      if items[0].productId == id {
        QuantityOfAbsent(items[1..], id);
      }
    }
  }

  lemma {:induction false} QuantityOfAbsent(items: seq<SaleItem>, id: string)
    requires forall j :: 0 <= j < |items| ==> items[j].productId != id
    ensures QuantityOf(items, id) == 0
  {
    if |items| > 0 {
      QuantityOfAbsent(items[1..], id);
    }
  }

  /** A journal entry whose totals agree with its lines. */
  predicate Balanced(sale: Sale) {
    sale.total == ItemsTotal(sale.items) && sale.totalCost == ItemsCost(sale.items)
  }

  /** The product after a sale: its stock drops by the first matching line's
      quantity; nothing checks that the stock stays non-negative. */
  function SellStock(p: Product, items: seq<SaleItem>): Product {
    p.(stock := p.stock - FirstQuantity(items, p.id))
  }

  /** The client after a sale: a credit sale naming this client adds `total`
      to the balance. */
  function ChargeClient(c: Client, payMethod: PaymentMethod, clientId: Option<string>, total: int): Client {
    if payMethod == Credito && clientId == Some(c.id) then c.(balance := c.balance + total) else c
  }

  /** `handleCompleteSale`: journal the sale, lower the stock, charge the
      client of a credit sale. It performs no validation of its own. */
  function CompleteSale(s: POSState, items: seq<SaleItem>, payMethod: PaymentMethod,
                        clientId: Option<string>, now: nat): (r: POSState)
    ensures r.payments == s.payments
    ensures |r.sales| == |s.sales| + 1 && r.sales[..|s.sales|] == s.sales
    ensures var sale := r.sales[|s.sales|];
            && sale.items == items && Balanced(sale)
            && sale.paymentMethod == payMethod && sale.clientId == clientId
            && sale.timestamp == now && sale.id == DecimalString(now)
    ensures |r.products| == |s.products|
    ensures forall i :: 0 <= i < |s.products| ==>
              r.products[i] == s.products[i].(stock := s.products[i].stock - FirstQuantity(items, s.products[i].id))
    ensures |r.clients| == |s.clients|
    ensures forall i :: 0 <= i < |s.clients| ==>
              && r.clients[i] == s.clients[i].(balance := r.clients[i].balance)
              && r.clients[i].balance == s.clients[i].balance +
                   (if payMethod == Credito && clientId == Some(s.clients[i].id) then ItemsTotal(items) else 0)
  {
    var total := ItemsTotal(items);
    var sale := Sale(DecimalString(now), now, items, total, ItemsCost(items), payMethod, clientId);
    POSState(
      seq(|s.products|, i requires 0 <= i < |s.products| => SellStock(s.products[i], items)),
      seq(|s.clients|, i requires 0 <= i < |s.clients| => ChargeClient(s.clients[i], payMethod, clientId, total)),
      s.sales + [sale],
      s.payments)
  }

  /** A cash sale, or a credit sale naming no registered client, changes no client. */
  lemma SaleWithoutDebtorKeepsClients(s: POSState, items: seq<SaleItem>, payMethod: PaymentMethod,
                                      clientId: Option<string>, now: nat)
    requires payMethod == Efectivo || forall i :: 0 <= i < |s.clients| ==> clientId != Some(s.clients[i].id)
    ensures CompleteSale(s, items, payMethod, clientId, now).clients == s.clients
  {
    var r := CompleteSale(s, items, payMethod, clientId, now);
    assert forall i :: 0 <= i < |s.clients| ==> r.clients[i] == s.clients[i];
  }

  /** A product no line names keeps its stock. */
  lemma UnsoldProductKeepsStock(s: POSState, items: seq<SaleItem>, payMethod: PaymentMethod,
                                clientId: Option<string>, now: nat, i: nat)
    requires i < |s.products|
    requires forall j :: 0 <= j < |items| ==> items[j].productId != s.products[i].id
    ensures CompleteSale(s, items, payMethod, clientId, now).products[i] == s.products[i]
  {
  }

  /** `handleAddPayment`: journal the payment and subtract its amount from the
      balance of every client with that id, with no floor. */
  function AddPayment(s: POSState, clientId: string, amount: int, now: nat): (r: POSState)
    ensures r.products == s.products && r.sales == s.sales
    ensures |r.payments| == |s.payments| + 1 && r.payments[..|s.payments|] == s.payments
    ensures r.payments[|s.payments|] == CreditPayment("pay" + DecimalString(now), clientId, amount, now)
    ensures |r.clients| == |s.clients|
    ensures forall i :: 0 <= i < |s.clients| ==>
              && r.clients[i] == s.clients[i].(balance := r.clients[i].balance)
              && r.clients[i].balance == s.clients[i].balance - (if s.clients[i].id == clientId then amount else 0)
  {
    var payment := CreditPayment("pay" + DecimalString(now), clientId, amount, now);
    s.(payments := s.payments + [payment],
       clients := seq(|s.clients|, i requires 0 <= i < |s.clients| =>
                    if s.clients[i].id == clientId
                    then s.clients[i].(balance := s.clients[i].balance - amount)
                    else s.clients[i]))
  }

  /** `handleAddClient`: append a client with a fresh "c"-prefixed id and a
      zero balance. */
  function AddClient(s: POSState, draft: ClientDraft, now: nat): (r: POSState)
    ensures r.products == s.products && r.sales == s.sales && r.payments == s.payments
    ensures |r.clients| == |s.clients| + 1 && r.clients[..|s.clients|] == s.clients
    ensures var c := r.clients[|s.clients|];
            && c.balance == 0 && c.id == "c" + DecimalString(now)
            && c.name == draft.name && c.address == draft.address && c.phone == draft.phone
  {
    s.(clients := s.clients + [Client("c" + DecimalString(now), draft.name, draft.address, draft.phone, 0)])
  }

  /** `handleAddProduct`: append the drafted product under the id the clock gives. */
  function AddProduct(s: POSState, draft: ProductDraft, now: nat): (r: POSState)
    ensures r.clients == s.clients && r.sales == s.sales && r.payments == s.payments
    ensures |r.products| == |s.products| + 1 && r.products[..|s.products|] == s.products
    ensures var p := r.products[|s.products|];
            && p.id == DecimalString(now) && p.name == draft.name
            && p.buyPrice == draft.buyPrice && p.sellPrice == draft.sellPrice
            && p.stock == draft.stock && p.category == draft.category
  {
    var p := Product(DecimalString(now), draft.name, draft.buyPrice, draft.sellPrice, draft.stock, draft.category);
    s.(products := s.products + [p])
  }

  /** `handleUpdateProduct`: every product with the edited id is replaced;
      the journal is never touched, so recorded totals survive price edits. */
  function UpdateProduct(s: POSState, updated: Product): (r: POSState)
    ensures r.clients == s.clients && r.sales == s.sales && r.payments == s.payments
    ensures |r.products| == |s.products|
    ensures forall i :: 0 <= i < |s.products| ==>
              r.products[i] == (if s.products[i].id == updated.id then updated else s.products[i])
  {
    s.(products := seq(|s.products|, i requires 0 <= i < |s.products| =>
                        if s.products[i].id == updated.id then updated else s.products[i]))
  }

  /** Editing an id nobody has changes nothing. */
  lemma UpdateUnknownProductIsNoOp(s: POSState, updated: Product)
    requires forall i :: 0 <= i < |s.products| ==> s.products[i].id != updated.id
    ensures UpdateProduct(s, updated) == s
  {
    assert UpdateProduct(s, updated).products == s.products;
  }
}
