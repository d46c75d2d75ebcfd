/** The records of the point-of-sale state. Money (prices, costs, totals,
    balances, payment amounts) is an exact integer number of centavos. */
module Types {
  import opened Optional

  /** The closed set of product categories. */
  datatype Category = MasaYTortilla | Abarrotes | Bebidas | Varios

  /** 'Efectivo' is a cash sale, 'Crédito' a sale on credit ("fiado"). */
  datatype PaymentMethod = Efectivo | Credito

  datatype Product = Product(
    id: string,
    name: string,
    buyPrice: int,
    sellPrice: int,
    stock: int,
    category: Category)

  /** `balance` is what the client owes; it is signed and unbounded. */
  datatype Client = Client(
    id: string,
    name: string,
    address: string,
    phone: string,
    balance: int)

  /** A sale line. Name, price and cost are snapshots taken when the line was
      staged, not references to the product. */
  datatype SaleItem = SaleItem(
    productId: string,
    name: string,
    quantity: int,
    price: int,
    cost: int)

  /** A journal entry (the source names the payment method field `method`).
      `clientId` is optional and not tied to the payment method. */
  datatype Sale = Sale(
    id: string,
    timestamp: int,
    items: seq<SaleItem>,
    total: int,
    totalCost: int,
    paymentMethod: PaymentMethod,
    clientId: Option<string>)

  datatype CreditPayment = CreditPayment(
    id: string,
    clientId: string,
    amount: int,
    timestamp: int)

  /** The whole application state: four sequences and nothing else. */
  datatype POSState = POSState(
    products: seq<Product>,
    clients: seq<Client>,
    sales: seq<Sale>,
    payments: seq<CreditPayment>)

  /** A product without its id, as the catalogue form submits it. */
  datatype ProductDraft = ProductDraft(
    name: string,
    buyPrice: int,
    sellPrice: int,
    stock: int,
    category: Category)

  /** A client without id and balance, as the registration form submits it. */
  datatype ClientDraft = ClientDraft(name: string, address: string, phone: string)

  /** The keys the source looks records up by. */
  function ProductKey(p: Product): string { p.id }
  function LineKey(item: SaleItem): string { item.productId }
  function ClientKey(c: Client): string { c.id }

  /** The label each category carries in the data and in the menus. */
  function CategoryName(c: Category): string {
    match c
    case MasaYTortilla => "Masa y Tortilla"
    case Abarrotes => "Abarrotes"
    case Bebidas => "Bebidas"
    case Varios => "Varios"
  }

  /** The cast `value as Category` of a menu selection: only the four labels
      name a category. */
  function ParseCategory(s: string): (r: Option<Category>)
    ensures r.Some? ==> CategoryName(r.value) == s
  {
    if s == "Masa y Tortilla" then Some(MasaYTortilla)
    else if s == "Abarrotes" then Some(Abarrotes)
    else if s == "Bebidas" then Some(Bebidas)
    else if s == "Varios" then Some(Varios)
    else None
  }

  /** Every category label reads back as its category, so the labels are distinct. */
  lemma CategoryNameRoundTrip(c: Category)
    ensures ParseCategory(CategoryName(c)) == Some(c)
  {
  }
}
