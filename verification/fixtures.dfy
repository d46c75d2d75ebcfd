/** The catalogue and client list the application starts with, and a few
    worked sales from that starting state. Prices are in centavos. */
module Fixtures {
  import opened Optional
  import opened Seqs
  import opened Types
  import opened Ledger
  import opened Journal
  import Cart

  function InitialProducts(): seq<Product> {
    [ Product("1", "Kilo de Tortilla", 1800, 2400, 200, MasaYTortilla),
      Product("2", "Paquete de Tostadas", 2500, 3500, 50, MasaYTortilla),
      Product("3", "Coca-Cola 600ml", 1450, 1900, 24, Bebidas),
      Product("4", "Pepsi 600ml", 1300, 1750, 24, Bebidas),
      Product("5", "Galletas Surtidas", 1500, 2200, 15, Abarrotes),
      Product("6", "Kilo de Masa", 1500, 2000, 100, MasaYTortilla) ]
  }

  function InitialClients(): seq<Client> {
    [ Client("c1", "Doña María", "Calle 5 de Mayo #12", "555-0101", 15000),
      Client("c2", "Don José (El de la esquina)", "Av. Principal #45", "555-0202", 0),
      Client("c3", "Fonda \"Las Delicias\"", "Callejón de la Paz #3", "555-0303", 45050) ]
  }

  /** The category menu, in display order. */
  function Categories(): seq<Category> {
    [MasaYTortilla, Abarrotes, Bebidas, Varios]
  }

  /** The state of a first start: the fixtures and empty journals. */
  function InitialState(): POSState {
    POSState(InitialProducts(), InitialClients(), [], [])
  }

  /** The starting catalogue is well formed: distinct ids, no negative stock,
      every product sold above its purchase price, every category listed. */
  lemma InitialProductsWellFormed()
    ensures DistinctBy(InitialProducts(), ProductKey)
    ensures forall p :: p in InitialProducts() ==>
              p.stock >= 0 && p.sellPrice > p.buyPrice && p.category in Categories()
  {
  }

  /** The menu lists every category exactly once. */
  lemma CategoriesListEachOnce()
    ensures forall c: Category :: c in Categories()
    ensures forall i, j :: 0 <= i < j < |Categories()| ==> Categories()[i] != Categories()[j]
    ensures |Categories()| == 4
  {
    forall c: Category
      ensures c in Categories()
    {
      match c
      case MasaYTortilla => assert Categories()[0] == c;
      case Abarrotes => assert Categories()[1] == c;
      case Bebidas => assert Categories()[2] == c;
      case Varios => assert Categories()[3] == c;
    }
  }

  /** The starting clients have distinct ids and owe nothing negative. */
  lemma InitialClientsWellFormed()
    ensures DistinctBy(InitialClients(), ClientKey)
    ensures forall c :: c in InitialClients() ==> c.balance >= 0
  {
  }

  /** Five kilos of tortilla staged by five clicks on the catalogue card. */
  function FiveKilos(): seq<SaleItem> {
    var p := InitialProducts()[0];
    Cart.AddToCart(Cart.AddToCart(Cart.AddToCart(Cart.AddToCart(Cart.AddToCart([], p), p), p), p), p)
  }

  /** Five clicks give one line of five kilos at the card's prices. */
  lemma FiveKilosIsOneLine()
    ensures FiveKilos() == [SaleItem("1", "Kilo de Tortilla", 5, 2400, 1800)]
  {
  }

  /** A cash sale of that line of five kilos from the first start charges
      $120.00, costs $90.00, leaves 195 kilos and no client owing more. */
  lemma CashSaleOfFiveKilos(now: nat)
    ensures var items := [SaleItem("1", "Kilo de Tortilla", 5, 2400, 1800)];
            var s := CompleteSale(InitialState(), items, Efectivo, None, now);
            && |s.sales| == 1
            && s.sales[0].total == 12000 && s.sales[0].totalCost == 9000
            && s.products[0].stock == 195
            && (forall i :: 1 <= i < |s.products| ==> s.products[i] == InitialProducts()[i])
            && s.clients == InitialClients()
  {
    var items := [SaleItem("1", "Kilo de Tortilla", 5, 2400, 1800)];
    var s := CompleteSale(InitialState(), items, Efectivo, None, now);
    assert ItemsTotal(items) == 12000 && ItemsCost(items) == 9000;
    assert FirstQuantity(items, "1") == 5;
    forall i | 1 <= i < |s.products|
      ensures s.products[i] == InitialProducts()[i]
    {
      assert items[0].productId != InitialProducts()[i].id;
    }
    SaleWithoutDebtorKeepsClients(InitialState(), items, Efectivo, None, now);
  }

  /** Two kilos on credit for Doña María raise her debt from $150.00 to
      $198.00; a later payment of $300.00 leaves her $102.00 in credit. */
  lemma CreditThenOverpayment(t1: nat, t2: nat)
    ensures var items := [SaleItem("1", "Kilo de Tortilla", 2, 2400, 1800)];
            var s1 := CompleteSale(InitialState(), items, Credito, Some("c1"), t1);
            var s2 := AddPayment(s1, "c1", 30000, t2);
            && s1.clients[0].balance == 19800
            && s2.clients[0].balance == -10200
            && s2.clients[1..] == InitialClients()[1..]
            && |s2.payments| == 1 && s2.payments[0].amount == 30000
  {
  }
}
