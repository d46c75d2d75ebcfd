/** The clients screen: the searchable client list, the payment form's
    guards, and the payment history of the selected client. */
module Clients {
  import opened Optional
  import opened Seqs
  import opened Text
  import opened Types
  import opened Ledger

  /** `filteredClients`: the clients whose name matches the search, in order. */
  function FilteredClients(clients: seq<Client>, term: string): (r: seq<Client>)
    ensures |r| <= |clients|
    ensures forall c :: c in r <==> c in clients && NameMatches(c.name, term)
  {
    Filter(clients, (c: Client) => NameMatches(c.name, term))
  }

  /** An empty search lists every client, in order. */
  lemma EmptySearchListsAll(clients: seq<Client>)
    ensures FilteredClients(clients, "") == clients
  {
    forall i | 0 <= i < |clients|
      ensures NameMatches(clients[i].name, "")
    {
      EmptyTermMatchesAll(clients[i].name);
    }
    FilterKeepsAll(clients, (c: Client) => NameMatches(c.name, ""));
  }

  /** The list keeps the clients' order: filtering a concatenation filters
      each part, in the same order. */
  lemma FilteredClientsInOrder(a: seq<Client>, b: seq<Client>, term: string)
    ensures FilteredClients(a + b, term) == FilteredClients(a, term) + FilteredClients(b, term)
  {
    FilterAppend(a, b, (c: Client) => NameMatches(c.name, term));
  }

  /** A submitted payment: the client it is for, the amount, and the selected
      client as the screen shows it afterwards. */
  datatype PaymentSubmission = PaymentSubmission(clientId: string, amount: int, shown: Client)

  /** `handlePayment`. `amountText` is the form field and `parsed` what
      `parseFloat` makes of it (`None` for NaN). Nothing is submitted without
      a selected client, with an empty field, or with an amount that is NaN
      or not positive. */
  function HandlePayment(selected: Option<Client>, amountText: string, parsed: Option<int>): (r: Option<PaymentSubmission>)
    ensures r.Some? <==> selected.Some? && amountText != "" && parsed.Some? && parsed.value > 0
    ensures r.Some? ==>
              && r.value.clientId == selected.value.id && r.value.amount == parsed.value
              && r.value.shown == selected.value.(balance := selected.value.balance - parsed.value)
  {
    if selected.None? || amountText == "" then None
    else if parsed.None? || parsed.value <= 0 then None
    else
      var c := selected.value;
      Some(PaymentSubmission(c.id, parsed.value, c.(balance := c.balance - parsed.value)))
  }

  /** The balance the screen shows after a payment is the balance the ledger
      records, for a selected client that was up to date. */
  lemma ShownBalanceMatchesLedger(s: POSState, i: nat, amountText: string, parsed: Option<int>, now: nat)
    requires i < |s.clients|
    requires HandlePayment(Some(s.clients[i]), amountText, parsed).Some?
    ensures var sub := HandlePayment(Some(s.clients[i]), amountText, parsed).value;
            AddPayment(s, sub.clientId, sub.amount, now).clients[i] == sub.shown
  {
  }

  /** A payment larger than the debt leaves a negative balance; nothing
      rejects or clamps it. */
  lemma OverpaymentGoesNegative(s: POSState, i: nat, amountText: string, parsed: Option<int>, now: nat)
    requires i < |s.clients|
    requires HandlePayment(Some(s.clients[i]), amountText, parsed).Some?
    requires parsed.value > s.clients[i].balance
    ensures AddPayment(s, s.clients[i].id, parsed.value, now).clients[i].balance < 0
  {
  }

  // ---------------------------------------------------------------------
  // clientPayments: filter by client, newest first
  // ---------------------------------------------------------------------

  predicate NewestFirst(ps: seq<CreditPayment>) {
    forall i, j :: 0 <= i < j < |ps| ==> ps[i].timestamp >= ps[j].timestamp
  }

  /** Insert `p` before the first payment that is not newer than it. */
  function InsertNewestFirst(p: CreditPayment, ps: seq<CreditPayment>): (r: seq<CreditPayment>)
    requires NewestFirst(ps)
    ensures |r| == |ps| + 1
    ensures r[0] == p || (|ps| > 0 && r[0] == ps[0])
    ensures NewestFirst(r)
    ensures multiset(r) == multiset(ps) + multiset{p}
  {
    if |ps| == 0 then [p]
    else if p.timestamp >= ps[0].timestamp then [p] + ps
    else
      var rest := InsertNewestFirst(p, ps[1..]);
      assert ps == [ps[0]] + ps[1..];
      assert forall j :: 0 < j < |rest| ==> rest[0].timestamp >= rest[j].timestamp;
      [ps[0]] + rest
  }

  /** `sort((a, b) => b.timestamp - a.timestamp)`: an insertion sort that,
      like the stable library sort, places newer payments first. */
  function SortNewestFirst(ps: seq<CreditPayment>): (r: seq<CreditPayment>)
    ensures NewestFirst(r)
    ensures multiset(r) == multiset(ps)
  {
    if |ps| == 0 then []
    else
      assert ps == [ps[0]] + ps[1..];
      InsertNewestFirst(ps[0], SortNewestFirst(ps[1..]))
  }

  /** `clientPayments`: the payments of the selected client (none when no
      client is selected), newest first. */
  function ClientPayments(payments: seq<CreditPayment>, selected: Option<Client>): (r: seq<CreditPayment>)
    ensures NewestFirst(r)
    ensures forall p :: p in r <==> p in payments && selected.Some? && p.clientId == selected.value.id
    ensures selected.Some? ==>
              multiset(r) == multiset(Filter(payments, (p: CreditPayment) => p.clientId == selected.value.id))
  {
    match selected
    case None => []
    case Some(c) =>
      var mine := Filter(payments, (p: CreditPayment) => p.clientId == c.id);
      var r := SortNewestFirst(mine);
      assert forall p :: p in r <==> p in multiset(r);
      assert forall p :: p in mine <==> p in multiset(mine);
      r
  }
}
