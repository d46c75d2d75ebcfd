/** The fiado ledger: what the journals say about every client's balance
    after any run of the application's state transitions. */
module Journal {
  import opened Optional
  import opened Seqs
  import opened Types
  import opened Ledger

  /** One user action that reaches the application state. */
  datatype Command =
    | Sell(items: seq<SaleItem>, payMethod: PaymentMethod, clientId: Option<string>, now: nat)
    | Pay(payer: string, amount: int, now: nat)
    | Register(client: ClientDraft, now: nat)
    | NewProduct(product: ProductDraft, now: nat)
    | Edit(updated: Product)

  function Apply(s: POSState, c: Command): POSState {
    match c
    case Sell(items, m, id, now) => CompleteSale(s, items, m, id, now)
    case Pay(id, amount, now) => AddPayment(s, id, amount, now)
    case Register(draft, now) => AddClient(s, draft, now)
    case NewProduct(draft, now) => AddProduct(s, draft, now)
    case Edit(updated) => UpdateProduct(s, updated)
  }

  /** The state after applying the commands in order. */
  function Run(s: POSState, cmds: seq<Command>): POSState
    decreases |cmds|
  {
    if |cmds| == 0 then s else Apply(Run(s, cmds[..|cmds| - 1]), cmds[|cmds| - 1])
  }

  /** Σ totals of the credit sales charged to client `id`. */
  function CreditTotal(sales: seq<Sale>, id: string): int {
    if |sales| == 0 then 0
    else (if sales[0].paymentMethod == Credito && sales[0].clientId == Some(id) then sales[0].total else 0)
         + CreditTotal(sales[1..], id)
  }

  /** Σ amounts of the payments recorded for client `id`. */
  function PaidTotal(payments: seq<CreditPayment>, id: string): int {
    if |payments| == 0 then 0
    else (if payments[0].clientId == id then payments[0].amount else 0) + PaidTotal(payments[1..], id)
  }

  lemma {:induction false} CreditTotalAppend(a: seq<Sale>, b: seq<Sale>, id: string)
    ensures CreditTotal(a + b, id) == CreditTotal(a, id) + CreditTotal(b, id)
  {
    if |a| == 0 {
      assert a + b == b;
    } else {
      assert (a + b)[1..] == a[1..] + b;
      CreditTotalAppend(a[1..], b, id);
    }
  }

  lemma {:induction false} PaidTotalAppend(a: seq<CreditPayment>, b: seq<CreditPayment>, id: string)
    ensures PaidTotal(a + b, id) == PaidTotal(a, id) + PaidTotal(b, id)
  {
    if |a| == 0 {
      assert a + b == b;
    } else {
      assert (a + b)[1..] == a[1..] + b;
      PaidTotalAppend(a[1..], b, id);
    }
  }

  /** The identity after one command, for a client that already exists. */
  lemma StepLedger(t: POSState, c: Command, i: nat)
    requires i < |t.clients|
    ensures var u := Apply(t, c);
            && |t.clients| <= |u.clients| && u.clients[i].id == t.clients[i].id
            && t.sales <= u.sales && t.payments <= u.payments
            && u.clients[i].balance == t.clients[i].balance
                 + CreditTotal(u.sales[|t.sales|..], t.clients[i].id)
                 - PaidTotal(u.payments[|t.payments|..], t.clients[i].id)
  {
    var u := Apply(t, c);
    var id := t.clients[i].id;
    match c
    case Sell(items, m, cid, now) =>
      assert u.sales[|t.sales|..] == [u.sales[|t.sales|]];
      assert u.payments[|t.payments|..] == [];
    case Pay(cid, amount, now) =>
      assert u.sales[|t.sales|..] == [];
      assert u.payments[|t.payments|..] == [u.payments[|t.payments|]];
    case Register(draft, now) =>
      assert u.sales[|t.sales|..] == [] && u.payments[|t.payments|..] == [];
      assert u.clients[i] == u.clients[..|t.clients|][i];
    case NewProduct(draft, now) =>
      assert u.sales[|t.sales|..] == [] && u.payments[|t.payments|..] == [];
    case Edit(updated) =>
      assert u.sales[|t.sales|..] == [] && u.payments[|t.payments|..] == [];
  }

  /** Totals over the entries added since `a`, split at an intermediate `b`. */
  lemma CreditSinceSplit(a: seq<Sale>, b: seq<Sale>, c: seq<Sale>, id: string)
    requires a <= b <= c
    ensures CreditTotal(c[|a|..], id) == CreditTotal(b[|a|..], id) + CreditTotal(c[|b|..], id)
  {
    assert c[|a|..] == b[|a|..] + c[|b|..];
    CreditTotalAppend(b[|a|..], c[|b|..], id);
  }

  lemma PaidSinceSplit(a: seq<CreditPayment>, b: seq<CreditPayment>, c: seq<CreditPayment>, id: string)
    requires a <= b <= c
    ensures PaidTotal(c[|a|..], id) == PaidTotal(b[|a|..], id) + PaidTotal(c[|b|..], id)
  {
    assert c[|a|..] == b[|a|..] + c[|b|..];
    PaidTotalAppend(b[|a|..], c[|b|..], id);
  }

  /** The fiado ledger identity: after any run, each client that existed at
      the start owes its starting balance plus the totals of the credit sales
      charged to its id since then, minus the payments recorded for its id
      since then. The journals only grow, so no recorded sale or payment is
      altered by the run. */
  lemma {:induction false} LedgerIdentity(s0: POSState, cmds: seq<Command>, i: nat)
    requires i < |s0.clients|
    ensures var s := Run(s0, cmds);
            && |s0.clients| <= |s.clients| && s.clients[i].id == s0.clients[i].id
            && s0.sales <= s.sales && s0.payments <= s.payments
            && s.clients[i].balance == s0.clients[i].balance
                 + CreditTotal(s.sales[|s0.sales|..], s0.clients[i].id)
                 - PaidTotal(s.payments[|s0.payments|..], s0.clients[i].id)
    decreases |cmds|
  {
    if |cmds| > 0 {
      var mid := Run(s0, cmds[..|cmds| - 1]);
      var s := Run(s0, cmds);
      var id := s0.clients[i].id;
      assert s == Apply(mid, cmds[|cmds| - 1]);
      LedgerIdentity(s0, cmds[..|cmds| - 1], i);
      StepLedger(mid, cmds[|cmds| - 1], i);
      CreditSinceSplit(s0.sales, mid.sales, s.sales, id);
      PaidSinceSplit(s0.payments, mid.payments, s.payments, id);
    }
  }

  /** From a state with empty journals (the first start), a client's balance
      is its initial balance plus all its credit sales minus all its payments. */
  lemma LedgerIdentityFromFreshStart(s0: POSState, cmds: seq<Command>, i: nat)
    requires i < |s0.clients| && s0.sales == [] && s0.payments == []
    ensures var s := Run(s0, cmds);
            && i < |s.clients|
            && s.clients[i].balance == s0.clients[i].balance
              + CreditTotal(s.sales, s0.clients[i].id) - PaidTotal(s.payments, s0.clients[i].id)
  {
    LedgerIdentity(s0, cmds, i);
    var s := Run(s0, cmds);
    assert s.sales[0..] == s.sales && s.payments[0..] == s.payments;
  }

  /** A client registered in the middle of a run owes exactly its credit
      sales since registration minus its payments since registration. */
  lemma RegisteredClientLedger(s0: POSState, draft: ClientDraft, now: nat, cmds: seq<Command>)
    ensures var t := AddClient(s0, draft, now);
            var s := Run(t, cmds);
            && |s0.clients| < |s.clients| && |s0.sales| <= |s.sales| && |s0.payments| <= |s.payments|
            && s.clients[|s0.clients|].balance ==
                 CreditTotal(s.sales[|s0.sales|..], "c" + Text.DecimalString(now))
                 - PaidTotal(s.payments[|s0.payments|..], "c" + Text.DecimalString(now))
  {
    LedgerIdentity(AddClient(s0, draft, now), cmds, |s0.clients|);
  }

  /** Every journal entry's totals agree with its lines. */
  predicate JournalBalanced(sales: seq<Sale>) {
    forall k :: 0 <= k < |sales| ==> Balanced(sales[k])
  }

  /** Every journal entry stays balanced: entries the run adds are balanced,
      and entries already there are never rewritten. */
  lemma {:induction false} RunKeepsJournalBalanced(s0: POSState, cmds: seq<Command>)
    requires JournalBalanced(s0.sales)
    ensures JournalBalanced(Run(s0, cmds).sales)
    decreases |cmds|
  {
    if |cmds| > 0 {
      var mid := Run(s0, cmds[..|cmds| - 1]);
      RunKeepsJournalBalanced(s0, cmds[..|cmds| - 1]);
      var s := Run(s0, cmds);
      var c := cmds[|cmds| - 1];
      assert s == Apply(mid, c);
      match c
      case Sell(items, m, cid, now) =>
        forall k | 0 <= k < |s.sales|
          ensures Balanced(s.sales[k])
        {
          if k < |mid.sales| {
            assert s.sales[k] == s.sales[..|mid.sales|][k];
          }
        }
      case _ =>
    }
  }

  /** No product of the catalogue carries `id`. */
  predicate IdUnused(products: seq<Product>, id: string) {
    forall p :: p in products ==> p.id != id
  }

  /** Every product added during the run gets an id no product had at the
      time: the clock's rendering never matches an existing id. */
  predicate FreshProductIds(s0: POSState, cmds: seq<Command>)
    decreases |cmds|
  {
    |cmds| == 0
    || (&& FreshProductIds(s0, cmds[..|cmds| - 1])
        && (cmds[|cmds| - 1].NewProduct? ==>
              IdUnused(Run(s0, cmds[..|cmds| - 1]).products, Text.DecimalString(cmds[|cmds| - 1].now))))
  }

  /** One command keeps product ids distinct, provided an added product's id
      is unused. Sales and edits never change an id, and the other commands
      leave the catalogue alone. */
  lemma StepKeepsDistinctIds(t: POSState, c: Command)
    requires DistinctBy(t.products, ProductKey)
    requires c.NewProduct? ==> IdUnused(t.products, Text.DecimalString(c.now))
    ensures DistinctBy(Apply(t, c).products, ProductKey)
  {
    var u := Apply(t, c);
    match c
    case NewProduct(draft, now) =>
      forall i, j | 0 <= i < j < |u.products|
        ensures ProductKey(u.products[i]) != ProductKey(u.products[j])
      {
        if j == |t.products| {
          assert t.products[i] in t.products;
        } else {
          assert ProductKey(t.products[i]) != ProductKey(t.products[j]);
        }
      }
    case Edit(updated) =>
      forall i, j | 0 <= i < j < |u.products|
        ensures ProductKey(u.products[i]) != ProductKey(u.products[j])
      {
        assert ProductKey(t.products[i]) != ProductKey(t.products[j]);
      }
    case Sell(items, m, cid, now) =>
      forall i, j | 0 <= i < j < |u.products|
        ensures ProductKey(u.products[i]) != ProductKey(u.products[j])
      {
        assert ProductKey(t.products[i]) != ProductKey(t.products[j]);
      }
    case _ =>
  }

  /** Product ids stay distinct over any run whose added products get fresh
      ids, so every lookup by id finds the one product meant. */
  lemma {:induction false} RunKeepsDistinctIds(s0: POSState, cmds: seq<Command>)
    requires DistinctBy(s0.products, ProductKey)
    requires FreshProductIds(s0, cmds)
    ensures DistinctBy(Run(s0, cmds).products, ProductKey)
    decreases |cmds|
  {
    if |cmds| > 0 {
      var mid := Run(s0, cmds[..|cmds| - 1]);
      RunKeepsDistinctIds(s0, cmds[..|cmds| - 1]);
      StepKeepsDistinctIds(mid, cmds[|cmds| - 1]);
    }
  }
}
