/** The inventory screen: manual stock corrections, the searchable and
    category-filtered catalogue, and the add/edit product form. */
module Inventory {
  import opened Optional
  import opened Seqs
  import opened Text
  import opened Types
  import opened Ledger

  /** `handleAdjustStock`: move the stock by `delta`, clamping at zero. Only
      the stock changes. */
  function AdjustStock(p: Product, delta: int): (r: Product)
    ensures r == p.(stock := r.stock)
    ensures r.stock >= 0 && r.stock >= p.stock + delta
    ensures r.stock == 0 || r.stock == p.stock + delta
  {
    p.(stock := if p.stock + delta > 0 then p.stock + delta else 0)
  }

  /** The outbound button on an empty shelf leaves it empty. */
  lemma ShrinkEmptyShelf(p: Product)
    requires p.stock == 0
    ensures AdjustStock(p, -1).stock == 0
  {
  }

  /** Inbound corrections add up: with a non-negative stock, receiving `a`
      and then `b` units is receiving `a + b`. */
  lemma InboundAdjustmentsAdd(p: Product, a: nat, b: nat)
    requires p.stock >= 0
    ensures AdjustStock(AdjustStock(p, a), b) == AdjustStock(p, a + b)
  {
  }

  /** A correction reaches the state through `onUpdateProduct`: every product
      with that id gets the corrected record, the corrected product's stock
      is non-negative, and no stock that was non-negative becomes negative,
      whatever the other stocks are. */
  lemma AdjustmentInState(s: POSState, i: nat, delta: int)
    requires i < |s.products|
    ensures var r := UpdateProduct(s, AdjustStock(s.products[i], delta));
            && |r.products| == |s.products|
            && r.products[i] == AdjustStock(s.products[i], delta)
            && r.products[i].stock >= 0
            && (forall k :: 0 <= k < |s.products| && s.products[k].stock >= 0 ==> r.products[k].stock >= 0)
            && (NonNegativeStock(s.products) ==> NonNegativeStock(r.products))
  {
  }

  /** The category menu: 'Todos' or one category. */
  datatype CategoryFilter = Todos | Only(category: Category)

  /** The menu value as the screen reads it: 'Todos' or a category label.
      The screen casts the value with an unchecked `as`; its options are
      exactly 'Todos' and the four labels, and any other string is `None`
      here. */
  function ParseCategoryFilter(s: string): (r: Option<CategoryFilter>)
    ensures s == "Todos" <==> r == Some(Todos)
    ensures r.Some? && r.value.Only? ==> CategoryName(r.value.category) == s
  {
    if s == "Todos" then Some(Todos)
    else match ParseCategory(s)
      case Some(c) => Some(Only(c))
      case None => None
  }

  /** Each category's own label selects that category, and no other. */
  lemma ParseCategoryFilterRoundTrip(c: Category)
    ensures ParseCategoryFilter(CategoryName(c)) == Some(Only(c))
  {
    CategoryNameRoundTrip(c);
  }

  predicate InCategory(p: Product, filter: CategoryFilter) {
    filter.Todos? || p.category == filter.category
  }

  /** `filteredProducts`: the products whose name matches the search and,
      unless 'Todos' is selected, whose category is the selected one. */
  function FilteredProducts(products: seq<Product>, term: string, filter: CategoryFilter): (r: seq<Product>)
    ensures |r| <= |products|
    ensures forall p :: p in r <==> p in products && NameMatches(p.name, term) && InCategory(p, filter)
  {
    Filter(products, (p: Product) => NameMatches(p.name, term) && InCategory(p, filter))
  }

  /** With 'Todos' the category plays no part: every product matching the
      search is listed. */
  lemma TodosKeepsAllMatches(products: seq<Product>, term: string, p: Product)
    requires p in products && NameMatches(p.name, term)
    ensures p in FilteredProducts(products, term, Todos)
  {
  }

  /** The filtered list is order preserving: filtering a concatenation
      filters each part, in the same order. */
  lemma FilteredProductsInOrder(a: seq<Product>, b: seq<Product>, term: string, filter: CategoryFilter)
    ensures FilteredProducts(a + b, term, filter) == FilteredProducts(a, term, filter) + FilteredProducts(b, term, filter)
  {
    FilterAppend(a, b, (p: Product) => NameMatches(p.name, term) && InCategory(p, filter));
  }

  /** What submitting the product form asks of the ledger. */
  datatype FormAction = Replace(product: Product) | Create(draft: ProductDraft)

  /** The form's submit handler: while editing, the submitted fields replace
      the product under its original id; otherwise the fields go out with no
      id, to be given one when the product is added. */
  function SubmitProductForm(editing: Option<Product>, data: ProductDraft): (r: FormAction)
    ensures editing.Some? <==> r.Replace?
    ensures r.Replace? ==>
              && r.product.id == editing.value.id
              && r.product.name == data.name && r.product.buyPrice == data.buyPrice
              && r.product.sellPrice == data.sellPrice && r.product.stock == data.stock
              && r.product.category == data.category
    ensures r.Create? ==> r.draft == data
  {
    match editing
    case Some(e) => Replace(Product(e.id, data.name, data.buyPrice, data.sellPrice, data.stock, data.category))
    case None => Create(data)
  }

  function ApplyForm(s: POSState, action: FormAction, now: nat): POSState {
    match action
    case Replace(p) => UpdateProduct(s, p)
    case Create(d) => AddProduct(s, d, now)
  }

  /** Editing a listed product keeps every product id where it was, so the
      catalogue's ids are the same before and after. */
  lemma EditKeepsIds(s: POSState, i: nat, data: ProductDraft, now: nat)
    requires i < |s.products|
    ensures var r := ApplyForm(s, SubmitProductForm(Some(s.products[i]), data), now);
            && |r.products| == |s.products|
            && forall k :: 0 <= k < |s.products| ==> r.products[k].id == s.products[k].id
  {
  }
}
