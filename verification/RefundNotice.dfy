/** The notice of a refund's outcome: an inbox row for each outcome, and for a new completion an outbox row
    with its delivery jobs and history, all in the transaction of the refund itself. */
module RefundNotice {
  import opened Wrappers

  datatype State = Completed | Rejected | Failed

  datatype Refund = Refund(id: string, invoice: string, profile: string, amount: nat, toWallet: bool, state: State)

  /** The order a refund belongs to, when there is one. */
  datatype Order =
    | Electricity(order: string, reason: string)
    | Savings(order: string, reason: string)
    | OtherOrder(reason: string)

  datatype Content =
    | FailedNotice(amount: nat)
    | RejectedNotice(amount: nat)
    | WalletNotice(amount: nat, reason: Option<string>)
    | BankNotice(amount: nat)

  datatype Link = ElectricityOrder(order: string) | SavingsOrder(order: string) | InvoicePage(invoice: string)

  /** Inbox rows have a unique delivery key: the refund and its outcome. */
  datatype DeliveryKey = DeliveryKey(refund: string, state: State)

  datatype Inbox = Inbox(id: nat, user: string, profile: string, content: Content, link: Link)

  datatype Outbox = Outbox(user: string, profile: string, inbox: nat, refund: Refund)

  datatype Channel = InApp | Email

  datatype JobStatus = Done | Queued

  datatype Job = Job(outbox: nat, channel: Channel, status: JobStatus, attempts: nat, provider: Option<nat>)

  datatype Delivered = Delivered(outbox: nat, attempt: nat, provider: nat)

  /** The tables; identities from `next` on have not been given out. */
  datatype Tables = Tables(
    inbox: map<DeliveryKey, Inbox>,
    outbox: map<nat, Outbox>,
    jobs: seq<Job>,
    history: seq<Delivered>,
    next: nat)

  /** The statements that can fail and take the transaction back. */
  datatype Statement = InsertInbox | InsertOutbox | InsertInAppJob | InsertEmailJob | InsertHistory | ReadRetained

  datatype Call = Call(refund: Refund, owner: Option<string>, order: Option<Order>, fails: set<Statement>)

  function KeyOf(refund: Refund): DeliveryKey {
    DeliveryKey(refund.id, refund.state)
  }

  function ReasonOf(order: Option<Order>): Option<string> {
    if order.Some? then Some(order.value.reason) else None
  }

  function ContentOf(refund: Refund, order: Option<Order>): Content {
    if refund.state.Failed? then FailedNotice(refund.amount)
    else if refund.state.Rejected? then RejectedNotice(refund.amount)
    else if refund.toWallet then WalletNotice(refund.amount, ReasonOf(order))
    else BankNotice(refund.amount)
  }

  /** Orders are looked up for completed refunds only. */
  function LinkOf(refund: Refund, order: Option<Order>): Link {
    if refund.state.Completed? && order.Some? && order.value.Electricity? then ElectricityOrder(order.value.order)
    else if refund.state.Completed? && order.Some? && order.value.Savings? then SavingsOrder(order.value.order)
    else InvoicePage(refund.invoice)
  }

  function InAppJob(outbox: nat, inbox: nat): Job {
    Job(outbox, InApp, Done, 1, Some(inbox))
  }

  function EmailJob(outbox: nat): Job {
    Job(outbox, Email, Queued, 0, None)
  }

  function NewInbox(t: Tables, call: Call): Inbox
    requires call.owner.Some?
  {
    Inbox(t.next, call.owner.value, call.refund.profile,
          ContentOf(call.refund, call.order), LinkOf(call.refund, call.order))
  }

  predicate DeliveryFails(fails: set<Statement>) {
    InsertOutbox in fails || InsertInAppJob in fails || InsertEmailJob in fails || InsertHistory in fails
  }

  /** Whether a call throws, in which case its transaction is taken back. */
  predicate Throws(t: Tables, call: Call) {
    || call.owner.None?
    || InsertInbox in call.fails
    || (call.refund.state.Completed? && KeyOf(call.refund) !in t.inbox &&
        DeliveryFails(call.fails))
    || (call.refund.state.Completed? && KeyOf(call.refund) in t.inbox &&
        (ReadRetained in call.fails || t.inbox[KeyOf(call.refund)].profile != call.refund.profile))
  }

  function Notified(t: Tables, call: Call): Tables {
    if Throws(t, call) || KeyOf(call.refund) in t.inbox then t
    else
      var withInbox := t.(inbox := t.inbox[KeyOf(call.refund) := NewInbox(t, call)], next := t.next + 1);
      if !call.refund.state.Completed? then withInbox
      else
        withInbox.(outbox := t.outbox[t.next + 1 := Outbox(call.owner.value, call.refund.profile, t.next, call.refund)],
                   jobs := t.jobs + [InAppJob(t.next + 1, t.next), EmailJob(t.next + 1)],
                   history := t.history + [Delivered(t.next + 1, 1, t.next)],
                   next := t.next + 2)
  }

  function Run(t: Tables, calls: seq<Call>): Tables
    decreases |calls|
  {
    if calls == [] then t else Run(Notified(t, calls[0]), calls[1..])
  }

  // ---------------------------------------------------------------- what every sequence of calls keeps

  function JobsOf(jobs: seq<Job>, outbox: nat): seq<Job> {
    if jobs == [] then []
    else
      var last := jobs[|jobs| - 1];
      JobsOf(jobs[..|jobs| - 1], outbox) + if last.outbox == outbox then [last] else []
  }

  function HistoryOf(history: seq<Delivered>, outbox: nat): seq<Delivered> {
    if history == [] then []
    else
      var last := history[|history| - 1];
      HistoryOf(history[..|history| - 1], outbox) + if last.outbox == outbox then [last] else []
  }

  /** The outbox row of a completion: it belongs to the inbox row of that completion, and it has exactly one
      finished in-app job, one queued email job, and one delivery in its history, all of that inbox row. */
  ghost predicate Delivers(t: Tables, id: nat) {
    id in t.outbox &&
    var row := t.outbox[id];
    var key := KeyOf(row.refund);
    && row.refund.state.Completed? && row.refund.profile == row.profile
    && key in t.inbox && t.inbox[key].id == row.inbox
    && t.inbox[key].user == row.user && t.inbox[key].profile == row.profile
    && JobsOf(t.jobs, id) == [Job(id, InApp, Done, 1, Some(row.inbox)), Job(id, Email, Queued, 0, None)]
    && HistoryOf(t.history, id) == [Delivered(id, 1, row.inbox)]
  }

  ghost predicate InboxSound(inbox: map<DeliveryKey, Inbox>, next: nat) {
    && (forall k :: k in inbox ==> inbox[k].id < next)
    && (forall j, k :: j in inbox && k in inbox && inbox[j].id == inbox[k].id ==> j == k)
  }

  ghost predicate OncePerRefund(outbox: map<nat, Outbox>) {
    forall a, b :: a in outbox && b in outbox && outbox[a].refund.id == outbox[b].refund.id ==> a == b
  }

  ghost predicate GivenOut(t: Tables) {
    && (forall id :: id in t.outbox ==> id < t.next)
    && (forall i :: 0 <= i < |t.jobs| ==> t.jobs[i].outbox < t.next)
    && (forall i :: 0 <= i < |t.history| ==> t.history[i].outbox < t.next)
  }

  ghost predicate Inv(t: Tables) {
    && InboxSound(t.inbox, t.next)
    && OncePerRefund(t.outbox)
    && GivenOut(t)
    && (forall id :: id in t.outbox ==> Delivers(t, id))
  }

  lemma {:induction false} NoJobsYet(jobs: seq<Job>, outbox: nat)
    requires forall i :: 0 <= i < |jobs| ==> jobs[i].outbox != outbox
    ensures JobsOf(jobs, outbox) == []
  {
    if jobs != [] {
      NoJobsYet(jobs[..|jobs| - 1], outbox);
    }
  }

  lemma {:induction false} NoHistoryYet(history: seq<Delivered>, outbox: nat)
    requires forall i :: 0 <= i < |history| ==> history[i].outbox != outbox
    ensures HistoryOf(history, outbox) == []
  {
    if history != [] {
      NoHistoryYet(history[..|history| - 1], outbox);
    }
  }

  lemma JobsAppend(jobs: seq<Job>, a: Job, b: Job, outbox: nat)
    ensures JobsOf(jobs + [a, b], outbox)
         == JobsOf(jobs, outbox) + (if a.outbox == outbox then [a] else []) + (if b.outbox == outbox then [b] else [])
  {
    assert (jobs + [a, b])[..|jobs| + 1] == jobs + [a];
    assert (jobs + [a])[..|jobs|] == jobs;
  }

  lemma HistoryAppend(history: seq<Delivered>, a: Delivered, outbox: nat)
    ensures HistoryOf(history + [a], outbox) == HistoryOf(history, outbox) + if a.outbox == outbox then [a] else []
  {
    assert (history + [a])[..|history|] == history;
  }

  lemma NewDelivers(t: Tables, call: Call)
    requires Inv(t) && !Throws(t, call) && KeyOf(call.refund) !in t.inbox && call.refund.state.Completed?
    ensures Delivers(Notified(t, call), t.next + 1)
  {
    var id := t.next + 1;
    NoJobsYet(t.jobs, id);
    NoHistoryYet(t.history, id);
    JobsAppend(t.jobs, InAppJob(id, t.next), EmailJob(id), id);
    HistoryAppend(t.history, Delivered(id, 1, t.next), id);
  }

  lemma OldDelivers(t: Tables, call: Call, id: nat)
    requires Inv(t) && id in t.outbox
    ensures id in Notified(t, call).outbox && Notified(t, call).outbox[id] == t.outbox[id]
    ensures Delivers(Notified(t, call), id)
  {
    assert Delivers(t, id);
    JobsAppend(t.jobs, InAppJob(t.next + 1, t.next), EmailJob(t.next + 1), id);
    HistoryAppend(t.history, Delivered(t.next + 1, 1, t.next), id);
  }

  lemma NotifiedOnce(t: Tables, call: Call)
    requires Inv(t)
    ensures OncePerRefund(Notified(t, call).outbox)
  {
    var t' := Notified(t, call);
    forall id | id in t.outbox && KeyOf(call.refund) !in t.inbox && call.refund.state.Completed?
      ensures t.outbox[id].refund.id != call.refund.id
    {
      assert Delivers(t, id);
    }
  }

  lemma NotifiedInbox(t: Tables, call: Call)
    requires InboxSound(t.inbox, t.next)
    ensures InboxSound(Notified(t, call).inbox, Notified(t, call).next)
  {}

  lemma NotifiedGivenOut(t: Tables, call: Call)
    requires GivenOut(t)
    ensures GivenOut(Notified(t, call))
  {}

  lemma NotifiedDelivers(t: Tables, call: Call, id: nat)
    requires Inv(t) && id in Notified(t, call).outbox
    ensures Delivers(Notified(t, call), id)
  {
    if id in t.outbox { OldDelivers(t, call, id); } else { NewDelivers(t, call); }
  }

  lemma NotifiedKeeps(t: Tables, call: Call)
    requires Inv(t)
    ensures Inv(Notified(t, call))
  {
    var t' := Notified(t, call);
    NotifiedOnce(t, call);
    NotifiedInbox(t, call);
    NotifiedGivenOut(t, call);
    forall id | id in t'.outbox ensures Delivers(t', id) {
      NotifiedDelivers(t, call, id);
    }
  }

  /** Over any calls, thrown ones included: each outcome has one inbox row at most, each refund one completion
      outbox at most, and every such outbox is delivered exactly once in the app and queued once by email. */
  lemma {:induction false} NoticeTheorem(t: Tables, calls: seq<Call>)
    requires Inv(t)
    ensures Inv(Run(t, calls))
    ensures forall k :: k in t.inbox ==> k in Run(t, calls).inbox && Run(t, calls).inbox[k] == t.inbox[k]
    decreases |calls|
  {
    if calls != [] {
      NotifiedKeeps(t, calls[0]);
      NoticeTheorem(Notified(t, calls[0]), calls[1..]);
    }
  }

  /** A refund whose outcome was notified is never notified of it again, and nothing else changes. */
  lemma RepeatChangesNothing(t: Tables, call: Call, between: seq<Call>, again: Call)
    requires Inv(t) && !Throws(t, call) && KeyOf(again.refund) == KeyOf(call.refund)
    ensures Notified(Run(Notified(t, call), between), again) == Run(Notified(t, call), between)
  {
    NotifiedKeeps(t, call);
    NoticeTheorem(Notified(t, call), between);
  }

  /** A completion adds an outbox exactly when its inbox row is new: old receipts stay as they are. */
  lemma DeliveryIffNew(t: Tables, call: Call)
    requires Inv(t) && !Throws(t, call)
    ensures (exists id :: id in Notified(t, call).outbox && id !in t.outbox)
       <==> call.refund.state.Completed? && KeyOf(call.refund) !in t.inbox
    ensures var t' := Notified(t, call);
      && (forall id :: id in t.outbox ==> id in t'.outbox && t'.outbox[id] == t.outbox[id])
      && (forall k :: k in t.inbox ==> k in t'.inbox && t'.inbox[k] == t.inbox[k])
      && t.jobs <= t'.jobs && t.history <= t'.history
  {
    if call.refund.state.Completed? && KeyOf(call.refund) !in t.inbox {
      assert t.next + 1 in Notified(t, call).outbox && t.next + 1 !in t.outbox;
    }
  }

  /** The statements a call comes to. */
  function Issued(t: Tables, call: Call): set<Statement> {
    if !call.refund.state.Completed? then {InsertInbox}
    else if KeyOf(call.refund) in t.inbox then {InsertInbox, ReadRetained}
    else {InsertInbox, InsertOutbox, InsertInAppJob, InsertEmailJob, InsertHistory}
  }

  /** A call throws exactly if its profile has no owner, a statement it comes to fails, or the retained row of a
      completion belongs to another profile. */
  lemma ThrowsIff(t: Tables, call: Call)
    ensures Throws(t, call) <==>
      || call.owner.None?
      || (exists s :: s in call.fails && s in Issued(t, call))
      || (ReadRetained in Issued(t, call) && t.inbox[KeyOf(call.refund)].profile != call.refund.profile)
  {}

  /** A new inbox row is the owner's; it leads to the order of a completed refund, if that is one of electricity or
      savings, and otherwise to the invoice. A new outbox row names the completed refund. */
  lemma NewRowsAre(t: Tables, call: Call)
    requires Inv(t) && !Throws(t, call) && KeyOf(call.refund) !in t.inbox
    ensures var t' := Notified(t, call);
      KeyOf(call.refund) in t'.inbox &&
      var row := t'.inbox[KeyOf(call.refund)];
      && call.owner == Some(row.user) && row.profile == call.refund.profile && row.content.amount == call.refund.amount
      && (row.link == if call.refund.state.Completed? then
                        match call.order
                        case Some(Electricity(order, _)) => ElectricityOrder(order)
                        case Some(Savings(order, _)) => SavingsOrder(order)
                        case _ => InvoicePage(call.refund.invoice)
                      else InvoicePage(call.refund.invoice))
      && (call.refund.state.Completed? ==>
            exists id :: id in t'.outbox && id !in t.outbox && t'.outbox[id].refund == call.refund)
  {
    if call.refund.state.Completed? {
      assert t.next + 1 in Notified(t, call).outbox && t.next + 1 !in t.outbox;
    }
  }

  // ---------------------------------------------------------------- the transaction

  /** The notice's text, by outcome: money is said to be back only when the refund completed. */
  method ContentFor(refund: Refund, order: Option<Order>) returns (content: Content)
    ensures content == ContentOf(refund, order)
    ensures content.FailedNotice? <==> refund.state.Failed?
    ensures content.RejectedNotice? <==> refund.state.Rejected?
    ensures content.WalletNotice? <==> refund.state.Completed? && refund.toWallet
    ensures content.BankNotice? <==> refund.state.Completed? && !refund.toWallet
    ensures content.WalletNotice? ==>
      content.reason == match order { case Some(o) => Some(o.reason) case None => None }
    ensures content.amount == refund.amount
  {
    if refund.state.Failed? { return FailedNotice(refund.amount); }
    if refund.state.Rejected? { return RejectedNotice(refund.amount); }
    if !refund.toWallet { return BankNotice(refund.amount); }
    return WalletNotice(refund.amount, if order.Some? then Some(order.value.reason) else None);
  }

  class Database {
    var inbox: map<DeliveryKey, Inbox>
    var outbox: map<nat, Outbox>
    var jobs: seq<Job>
    var history: seq<Delivered>
    var next: nat

    constructor ()
      ensures View() == Tables(map[], map[], [], [], 0)
    {
      inbox, outbox, jobs, history, next := map[], map[], [], [], 0;
    }

    function View(): Tables
      reads this
    {
      Tables(inbox, outbox, jobs, history, next)
    }

    /** The statements in order; the result says whether one threw, and the tables are then as far as it got. */
    method Statements(call: Call) returns (threw: bool)
      modifies this
      ensures threw == Throws(old(View()), call)
      ensures !threw ==> View() == Notified(old(View()), call)
    {
      if call.owner.None? || InsertInbox in call.fails { return true; }
      var key, id := KeyOf(call.refund), next;
      var inserted := key !in inbox;
      if inserted {
        var content := ContentFor(call.refund, call.order);
        var link := InvoicePage(call.refund.invoice);
        if call.refund.state.Completed? && call.order.Some? {
          if call.order.value.Electricity? { link := ElectricityOrder(call.order.value.order); }
          else if call.order.value.Savings? { link := SavingsOrder(call.order.value.order); }
        }
        inbox := inbox[key := Inbox(id, call.owner.value, call.refund.profile, content, link)];
        next := next + 1;
      }
      if call.refund.state.Completed? && inserted {
        var outboxId := next;
        next := next + 1;
        if InsertOutbox in call.fails { return true; }
        outbox := outbox[outboxId := Outbox(call.owner.value, call.refund.profile, id, call.refund)];
        if InsertInAppJob in call.fails { return true; }
        jobs := jobs + [InAppJob(outboxId, id)];
        if InsertEmailJob in call.fails { return true; }
        jobs := jobs + [EmailJob(outboxId)];
        if InsertHistory in call.fails { return true; }
        history := history + [Delivered(outboxId, 1, id)];
        assert jobs == old(jobs) + [InAppJob(outboxId, id), EmailJob(outboxId)];
      } else if call.refund.state.Completed? {
        if ReadRetained in call.fails || inbox[key].profile != call.refund.profile { return true; }
      }
      return false;
    }

    /** The caller's transaction: it commits what the statements did, or takes it back. */
    method NotifyRefundOutcome(call: Call) returns (threw: bool)
      modifies this
      ensures View() == Notified(old(View()), call)
      ensures threw == Throws(old(View()), call)
    {
      var saved := View();
      threw := Statements(call);
      if threw {
        inbox, outbox, jobs, history, next := saved.inbox, saved.outbox, saved.jobs, saved.history, saved.next;
      }
    }

    /** Notices one after the other, thrown ones included. */
    method Serve(calls: seq<Call>)
      requires Inv(View())
      modifies this
      ensures View() == Run(old(View()), calls) && Inv(View())
    {
      ghost var before := View();
      var k := 0;
      while k < |calls|
        invariant k <= |calls| && Inv(View())
        invariant Run(View(), calls[k..]) == Run(before, calls)
      {
        assert calls[k..][1..] == calls[k + 1..];
        NotifiedKeeps(View(), calls[k]);
        var _ := NotifyRefundOutcome(calls[k]);
        k := k + 1;
      }
    }
  }
}
