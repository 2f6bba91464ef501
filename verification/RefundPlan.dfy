/** Invoices of consultation requests, and how a refund is drawn from them: newest paid invoice first, never
    more than an invoice has left. */
module RefundPlan {
  import opened Wrappers

  datatype InvoiceState = Unpaid | Paid | PartiallyRefunded | Refunded | Cancelled

  datatype Kind = Plain | Charge | Credit

  /** Invoices are kept in the order they were issued and are named by their place in it. */
  datatype Invoice = Invoice(request: string, state: InvoiceState, total: nat, paid: nat, available: nat, kind: Kind)

  datatype Allocation = Allocation(invoice: nat, state: InvoiceState, amount: nat, availableBefore: nat)

  predicate Refundable(state: InvoiceState) {
    state.Paid? || state.PartiallyRefunded?
  }

  predicate Eligible(invoice: Invoice, request: string) {
    invoice.request == request && invoice.available > 0 && Refundable(invoice.state)
  }

  function Min(a: nat, b: nat): nat {
    if a < b then a else b
  }

  /** What could be refunded of a request's invoices. */
  function Available(invoices: seq<Invoice>, request: string): nat {
    if invoices == [] then 0
    else
      var last := invoices[|invoices| - 1];
      Available(invoices[..|invoices| - 1], request) + if Eligible(last, request) then last.available else 0
  }

  /** The allocations that draw `amount`, in the order the invoices are asked. */
  function Plan(invoices: seq<Invoice>, request: string, amount: nat): seq<Allocation> {
    if invoices == [] || amount == 0 then []
    else
      var last, older := invoices[|invoices| - 1], invoices[..|invoices| - 1];
      if Eligible(last, request)
      then
        var taken := Min(amount, last.available);
        [Allocation(|older|, last.state, taken, last.available)] + Plan(older, request, amount - taken)
      else Plan(older, request, amount)
  }

  function Sum(plan: seq<Allocation>): nat {
    if plan == [] then 0 else plan[0].amount + Sum(plan[1..])
  }

  /** The sum allocated to one invoice. */
  function Taken(plan: seq<Allocation>, id: nat): nat {
    if plan == [] then 0 else (if plan[0].invoice == id then plan[0].amount else 0) + Taken(plan[1..], id)
  }

  /** The invoice's own share when `amount` is drawn newest first. */
  function Share(invoices: seq<Invoice>, request: string, amount: nat, i: nat): nat
    requires i < |invoices|
  {
    var newer := Available(invoices[i + 1..], request);
    if !Eligible(invoices[i], request) || newer >= amount then 0 else Min(amount - newer, invoices[i].available)
  }

  // ---------------------------------------------------------------- what a plan adds up to

  lemma {:induction false} PlanSums(invoices: seq<Invoice>, request: string, amount: nat)
    ensures Sum(Plan(invoices, request, amount)) == Min(amount, Available(invoices, request))
  {
    if invoices != [] && amount > 0 {
      var last, older := invoices[|invoices| - 1], invoices[..|invoices| - 1];
      if Eligible(last, request) {
        var taken := Min(amount, last.available);
        PlanSums(older, request, amount - taken);
        assert Plan(invoices, request, amount)[1..] == Plan(older, request, amount - taken);
      } else {
        PlanSums(older, request, amount);
      }
    }
  }

  lemma {:induction false} TakenJoins(a: seq<Allocation>, b: seq<Allocation>, id: nat)
    ensures Taken(a + b, id) == Taken(a, id) + Taken(b, id)
  {
    if a == [] {
      assert a + b == b;
    } else {
      assert (a + b)[1..] == a[1..] + b;
      TakenJoins(a[1..], b, id);
    }
  }

  lemma {:induction false} AvailableJoins(a: seq<Invoice>, b: seq<Invoice>, request: string)
    ensures Available(a + b, request) == Available(a, request) + Available(b, request)
  {
    if b == [] {
      assert a + b == a;
    } else {
      assert (a + b)[..|a + b| - 1] == a + b[..|b| - 1];
      AvailableJoins(a, b[..|b| - 1], request);
    }
  }

  /** A plan names only invoices that are there. */
  lemma {:induction false} PlanNames(invoices: seq<Invoice>, request: string, amount: nat, id: nat)
    requires id >= |invoices|
    ensures Taken(Plan(invoices, request, amount), id) == 0
  {
    if invoices != [] && amount > 0 {
      var last, older := invoices[|invoices| - 1], invoices[..|invoices| - 1];
      if Eligible(last, request) {
        var taken := Min(amount, last.available);
        PlanNames(older, request, amount - taken, id);
        assert Plan(invoices, request, amount)[1..] == Plan(older, request, amount - taken);
      } else {
        PlanNames(older, request, amount, id);
      }
    }
  }

  /** What the newest invoice gives, and what that leaves for the older ones. */
  lemma ShareOlder(invoices: seq<Invoice>, request: string, amount: nat, i: nat)
    requires i < |invoices|
    ensures var n := |invoices| - 1;
      var taken := Share(invoices, request, amount, n);
      && taken == (if Eligible(invoices[n], request) then Min(amount, invoices[n].available) else 0)
      && taken <= amount
      && (i < n ==> Share(invoices, request, amount, i) == Share(invoices[..n], request, amount - taken, i))
  {
    var n := |invoices| - 1;
    assert invoices[n + 1..] == [];
    if i < n {
      assert invoices[i + 1..] == invoices[..n][i + 1..] + [invoices[n]];
      AvailableJoins(invoices[..n][i + 1..], [invoices[n]], request);
    }
  }

  lemma PlanOlder(invoices: seq<Invoice>, request: string, amount: nat, i: nat)
    requires invoices != [] && amount > 0
    ensures var n := |invoices| - 1;
      var taken := if Eligible(invoices[n], request) then Min(amount, invoices[n].available) else 0;
      Taken(Plan(invoices, request, amount), i)
        == (if i == n then taken else 0) + Taken(Plan(invoices[..n], request, amount - taken), i)
  {
    var n := |invoices| - 1;
    if Eligible(invoices[n], request) {
      var rest := Plan(invoices[..n], request, amount - Min(amount, invoices[n].available));
      assert Plan(invoices, request, amount)[1..] == rest;
    }
  }

  /** Every invoice gives exactly its share: all of the newer ones, part of one, nothing of the older. */
  lemma {:induction false} PlanShares(invoices: seq<Invoice>, request: string, amount: nat, i: nat)
    requires i < |invoices|
    ensures Taken(Plan(invoices, request, amount), i) == Share(invoices, request, amount, i)
  {
    var n := |invoices| - 1;
    if amount > 0 {
      var taken := Share(invoices, request, amount, n);
      ShareOlder(invoices, request, amount, i);
      PlanOlder(invoices, request, amount, i);
      if i == n {
        PlanNames(invoices[..n], request, amount - taken, i);
      } else {
        PlanShares(invoices[..n], request, amount - taken, i);
      }
    }
  }

  /** An invoice gives something exactly if it is the request's, paid or partially refunded, with something left, and
      the newer ones do not cover the amount. */
  lemma GivesIff(invoices: seq<Invoice>, request: string, amount: nat, i: nat)
    requires i < |invoices|
    ensures var invoice := invoices[i];
      var mayGive := invoice.request == request && (invoice.state == Paid || invoice.state == PartiallyRefunded);
      && (Taken(Plan(invoices, request, amount), i) > 0 <==>
            mayGive && invoice.available > 0 && Available(invoices[i + 1..], request) < amount)
      && Available([invoice], request) == if mayGive then invoice.available else 0
  {
    PlanShares(invoices, request, amount, i);
  }

  lemma ShareFits(invoices: seq<Invoice>, request: string, amount: nat, i: nat)
    requires i < |invoices|
    ensures Share(invoices, request, amount, i) <= invoices[i].available
    ensures amount >= Available(invoices, request) && Eligible(invoices[i], request) ==>
        Share(invoices, request, amount, i) == invoices[i].available
  {
    assert invoices == invoices[..i] + ([invoices[i]] + invoices[i + 1..]);
    AvailableJoins(invoices[..i], [invoices[i]] + invoices[i + 1..], request);
    AvailableJoins([invoices[i]], invoices[i + 1..], request);
  }

  // ---------------------------------------------------------------- drawing

  /** The invoice at `i` once its share has been drawn. */
  function DrawnInvoice(invoices: seq<Invoice>, request: string, amount: nat, i: nat): Invoice
    requires i < |invoices|
  {
    ShareFits(invoices, request, amount, i);
    invoices[i].(available := invoices[i].available - Share(invoices, request, amount, i))
  }

  /** The invoices once `amount` has been drawn. */
  function Drawn(invoices: seq<Invoice>, request: string, amount: nat): (r: seq<Invoice>)
    ensures |r| == |invoices|
  {
    seq(|invoices|, i requires 0 <= i < |invoices| => DrawnInvoice(invoices, request, amount, i))
  }

  lemma DrawnAt(invoices: seq<Invoice>, request: string, amount: nat)
    ensures forall i :: 0 <= i < |invoices| ==>
      && Share(invoices, request, amount, i) <= invoices[i].available
      && Drawn(invoices, request, amount)[i]
         == invoices[i].(available := invoices[i].available - Share(invoices, request, amount, i))
  {
    forall i | 0 <= i < |invoices| ensures Share(invoices, request, amount, i) <= invoices[i].available {
      ShareFits(invoices, request, amount, i);
    }
  }

  /** Allocations are of invoices that are there. */
  lemma {:induction false} PlanFits(invoices: seq<Invoice>, request: string, amount: nat, k: nat)
    requires k < |Plan(invoices, request, amount)|
    ensures Plan(invoices, request, amount)[k].invoice < |invoices|
  {
    var last, older := invoices[|invoices| - 1], invoices[..|invoices| - 1];
    if !Eligible(last, request) {
      PlanFits(older, request, amount, k);
    } else if k > 0 {
      PlanFits(older, request, amount - Min(amount, last.available), k - 1);
    }
  }

  /** No part of a plan takes more from an invoice than it has. */
  lemma TakenWithin(invoices: seq<Invoice>, request: string, amount: nat, k: nat, i: nat)
    requires k <= |Plan(invoices, request, amount)| && i < |invoices|
    ensures Taken(Plan(invoices, request, amount)[..k], i) <= invoices[i].available
  {
    var plan := Plan(invoices, request, amount);
    assert plan == plan[..k] + plan[k..];
    TakenJoins(plan[..k], plan[k..], i);
    PlanShares(invoices, request, amount, i);
    ShareFits(invoices, request, amount, i);
  }

  /** One turn of the loop: what the newest invoice not yet asked adds to the plan and to the balance. */
  lemma NextAllocation(invoices: seq<Invoice>, request: string, left: nat, n: nat)
    requires n < |invoices|
    ensures Available(invoices[..n + 1], request)
         == Available(invoices[..n], request) + if Eligible(invoices[n], request) then invoices[n].available else 0
    ensures left > 0 && Eligible(invoices[n], request) ==>
      var taken := Min(left, invoices[n].available);
      Plan(invoices[..n + 1], request, left)
        == [Allocation(n, invoices[n].state, taken, invoices[n].available)] + Plan(invoices[..n], request, left - taken)
    ensures !Eligible(invoices[n], request) ==>
      Plan(invoices[..n + 1], request, left) == Plan(invoices[..n], request, left)
  {
    assert invoices[..n + 1][..n] == invoices[..n];
  }

  /** The loop that computes a refund plan: `limit` is the sum to recover, or nothing when a request is
      closed and everything left is returned. */
  method PlanRefunds(invoices: seq<Invoice>, request: string, limit: Option<nat>)
    returns (plan: seq<Allocation>, remaining: nat)
    ensures plan == Plan(invoices, request, if limit.Some? then limit.value else Available(invoices, request))
    ensures limit.Some? ==> remaining == limit.value - Min(limit.value, Available(invoices, request))
    ensures limit.None? ==> remaining == 0
  {
    plan, remaining := [], if limit.Some? then limit.value else 0;
    ghost var amount := if limit.Some? then limit.value else Available(invoices, request);
    ghost var left := amount;
    var n := |invoices|;
    assert invoices[..n] == invoices;
    while n > 0 && !(limit.Some? && remaining == 0)
      invariant n <= |invoices|
      invariant if limit.Some? then remaining == left else remaining == 0 && left == Available(invoices[..n], request)
      invariant Sum(plan) + left == amount
      invariant Plan(invoices, request, amount) == plan + Plan(invoices[..n], request, left)
    {
      n := n - 1;
      NextAllocation(invoices, request, left, n);
      var invoice := invoices[n];
      if invoice.request == request && Refundable(invoice.state) && invoice.available > 0 {
        var taken := if limit.Some? && remaining < invoice.available then remaining else invoice.available;
        var allocation := Allocation(n, invoice.state, taken, invoice.available);
        SumAppends(plan, allocation);
        AppendJoins(plan, allocation, Plan(invoices[..n], request, left - taken));
        plan := plan + [allocation];
        left := left - taken;
        if limit.Some? { remaining := remaining - taken; }
      }
    }
    PlanSums(invoices, request, amount);
    assert plan + [] == plan;
  }

  lemma AppendJoins(plan: seq<Allocation>, allocation: Allocation, rest: seq<Allocation>)
    ensures plan + ([allocation] + rest) == (plan + [allocation]) + rest
  {}

  lemma {:induction false} SumAppends(plan: seq<Allocation>, allocation: Allocation)
    ensures Sum(plan + [allocation]) == Sum(plan) + allocation.amount
  {
    if plan != [] {
      assert (plan + [allocation])[1..] == plan[1..] + [allocation];
      SumAppends(plan[1..], allocation);
    }
  }

  // ---------------------------------------------------------------- what a request's invoices are worth

  /** What an invoice stands for: the money left on a paid one, the charge of an unpaid one. */
  function Worth(invoice: Invoice, request: string): nat {
    if invoice.request != request then 0
    else if Refundable(invoice.state) then invoice.available
    else if invoice.state.Unpaid? then invoice.total else 0
  }

  function Total(invoices: seq<Invoice>, request: string): nat {
    if invoices == [] then 0
    else Total(invoices[..|invoices| - 1], request) + Worth(invoices[|invoices| - 1], request)
  }

  lemma {:induction false} TotalSame(a: seq<Invoice>, b: seq<Invoice>, request: string)
    requires |a| == |b| && forall i :: 0 <= i < |a| ==> Worth(a[i], request) == Worth(b[i], request)
    ensures Total(a, request) == Total(b, request)
  {
    if a != [] {
      TotalSame(a[..|a| - 1], b[..|b| - 1], request);
    }
  }

  lemma {:induction false} TotalUpdate(invoices: seq<Invoice>, i: nat, invoice: Invoice, request: string)
    requires i < |invoices|
    ensures Total(invoices[i := invoice], request)
         == Total(invoices, request) - Worth(invoices[i], request) + Worth(invoice, request)
  {
    var n := |invoices| - 1;
    if i == n {
      assert invoices[i := invoice][..n] == invoices[..n];
    } else {
      assert invoices[i := invoice][..n] == invoices[..n][i := invoice];
      TotalUpdate(invoices[..n], i, invoice, request);
    }
  }

  lemma TotalAppend(invoices: seq<Invoice>, invoice: Invoice, request: string)
    ensures Total(invoices + [invoice], request) == Total(invoices, request) + Worth(invoice, request)
  {
    assert (invoices + [invoice])[..|invoices|] == invoices;
  }

  /** Drawing from the older invoices is drawing what the newest one left to draw. */
  lemma DrawnOlder(invoices: seq<Invoice>, request: string, amount: nat)
    requires invoices != []
    ensures var n := |invoices| - 1;
      var taken := Share(invoices, request, amount, n);
      && taken == (if Eligible(invoices[n], request) then Min(amount, invoices[n].available) else 0)
      && taken <= amount
      && Drawn(invoices, request, amount)[..n] == Drawn(invoices[..n], request, amount - taken)
  {
    var n := |invoices| - 1;
    ShareOlder(invoices, request, amount, n);
    var taken := Share(invoices, request, amount, n);
    DrawnAt(invoices, request, amount);
    DrawnAt(invoices[..n], request, amount - taken);
    forall i | 0 <= i < n
      ensures Share(invoices, request, amount, i)
           == Share(invoices[..n], request, amount - Share(invoices, request, amount, n), i)
    {
      ShareOlder(invoices, request, amount, i);
    }
  }

  /** The newest invoice after a draw: it has given its share. */
  lemma DrawnNewest(invoices: seq<Invoice>, request: string, amount: nat)
    requires invoices != []
    ensures var n := |invoices| - 1;
      var taken, after := Share(invoices, request, amount, n), Drawn(invoices, request, amount)[n];
      && Worth(after, request) == Worth(invoices[n], request) - taken
      && (if Eligible(after, request) then after.available else 0)
         == (if Eligible(invoices[n], request) then invoices[n].available else 0) - taken
  {
    ShareOlder(invoices, request, amount, |invoices| - 1);
    DrawnAt(invoices, request, amount);
  }

  lemma {:induction false} DrawnTotal(invoices: seq<Invoice>, request: string, amount: nat)
    ensures Total(Drawn(invoices, request, amount), request) + Min(amount, Available(invoices, request))
         == Total(invoices, request)
  {
    if invoices != [] {
      var n := |invoices| - 1;
      DrawnOlder(invoices, request, amount);
      DrawnNewest(invoices, request, amount);
      DrawnTotal(invoices[..n], request, amount - Share(invoices, request, amount, n));
    }
  }

  lemma {:induction false} DrawnAvailable(invoices: seq<Invoice>, request: string, amount: nat)
    ensures Available(Drawn(invoices, request, amount), request) + Min(amount, Available(invoices, request))
         == Available(invoices, request)
  {
    if invoices != [] {
      var n := |invoices| - 1;
      DrawnOlder(invoices, request, amount);
      DrawnNewest(invoices, request, amount);
      DrawnAvailable(invoices[..n], request, amount - Share(invoices, request, amount, n));
    }
  }

  /** Drawing lowers what the invoices are worth, and what can still be refunded, by what is drawn. */
  lemma DrawnTotals(invoices: seq<Invoice>, request: string, amount: nat)
    ensures Total(Drawn(invoices, request, amount), request) + Min(amount, Available(invoices, request))
         == Total(invoices, request)
    ensures Available(Drawn(invoices, request, amount), request) + Min(amount, Available(invoices, request))
         == Available(invoices, request)
  {
    DrawnTotal(invoices, request, amount);
    DrawnAvailable(invoices, request, amount);
  }

  function Left(invoice: Invoice, request: string): nat {
    if Eligible(invoice, request) then invoice.available else 0
  }

  lemma {:induction false} AvailableSame(a: seq<Invoice>, b: seq<Invoice>, request: string)
    requires |a| == |b| && forall i :: 0 <= i < |a| ==> Left(a[i], request) == Left(b[i], request)
    ensures Available(a, request) == Available(b, request)
  {
    if a != [] {
      AvailableSame(a[..|a| - 1], b[..|b| - 1], request);
    }
  }
}
