/** Consultation requests and their money: fee offers, adjustments of a paid fee, payment, closing,
    recovery of an uncovered credit, refund progress, and replays of all commands. */
module ConsultationLedger {
  import opened Wrappers
  import opened RefundPlan

  datatype Status = Submitted | OfferPending | OfferAccepted | RequestCancelled | RequestRejected

  datatype Row = Row(fee: nat, uncovered: nat, status: Status, invoice: Option<nat>,
                     invoiceState: Option<InvoiceState>, terms: string)

  datatype Action = RecoverRefund | Cancel | Reject

  datatype Order =
    | Offer(fee: nat, terms: string)
    | AdjustPaid(fee: nat, reason: string)
    | Resolve(action: Action, reason: string)

  /** A command as it arrives: its key, its raw body, and the hash of the review that was confirmed. */
  datatype Command = Command(request: string, key: string, raw: string, order: Order, expected: string)

  datatype Review =
    | OfferReview(request: string, fee: nat, terms: string, previous: Option<Invoice>)
    | AdjustReview(request: string, previousFee: nat, revisedFee: nat, reason: string, current: Invoice,
                   plan: seq<Allocation>)
    | ResolveReview(request: string, action: Action, before: Status, after: Status, reason: string,
                    previous: Option<Invoice>, cancelled: Option<nat>, uncovered: nat, plan: seq<Allocation>)

  datatype Fault = BodyChanged | NotCovered | ReviewMismatch

  datatype Receipt = Receipt(status: Status, invoice: Option<nat>, cancelled: Option<nat>, refunds: nat, review: Review)

  /** Fee commands and resolutions keep their receipts apart. */
  datatype SavedKey = SavedKey(resolution: bool, request: string, key: string)

  datatype Saved = Saved(raw: string, receipt: Receipt)

  /** `refunds` lists every allocation made so far. */
  datatype Books = Books(
    invoices: seq<Invoice>,
    rows: map<string, Row>,
    refunds: seq<Allocation>,
    saved: map<SavedKey, Saved>)

  datatype Event =
    | Do(command: Command)
    | Pay(request: string)
    | Progress(request: string)

  function InvoiceAt(books: Books, id: Option<nat>): Option<Invoice> {
    if id.Some? && id.value < |books.invoices| then Some(books.invoices[id.value]) else None
  }

  function Current(books: Books, request: string): Option<Invoice>
    requires request in books.rows
  {
    InvoiceAt(books, books.rows[request].invoice)
  }

  predicate Open(row: Row) {
    !row.status.RequestCancelled? && !row.status.RequestRejected?
  }

  function KeyOf(command: Command): SavedKey {
    SavedKey(command.order.Resolve?, command.request, command.key)
  }

  /** The sum a command would draw from the paid invoices. */
  function ToDraw(books: Books, request: string, order: Order): nat
    requires request in books.rows
  {
    var row := books.rows[request];
    match order
    case Offer(_, _) => 0
    case AdjustPaid(fee, _) => if fee < row.fee then row.fee - fee else 0
    case Resolve(action, _) => if action.RecoverRefund? then row.uncovered else Available(books.invoices, request)
  }

  function CancelledBy(books: Books, request: string, action: Action): Option<nat>
    requires request in books.rows
  {
    var current := Current(books, request);
    if !action.RecoverRefund? && current.Some? && current.value.paid == 0 && !current.value.kind.Credit?
    then books.rows[request].invoice else None
  }

  function After(row: Row, action: Action): Status {
    match action
    case RecoverRefund => row.status
    case Cancel => RequestCancelled
    case Reject => RequestRejected
  }

  function ReviewOf(books: Books, request: string, order: Order): Result<Review, Fault>
    requires request in books.rows && (order.AdjustPaid? ==> Current(books, request).Some?)
  {
    var row, current := books.rows[request], Current(books, request);
    var draw := ToDraw(books, request, order);
    var plan := Plan(books.invoices, request, draw);
    match order
    case Offer(fee, terms) => Ok(OfferReview(request, fee, terms, current))
    case AdjustPaid(fee, reason) =>
      if Available(books.invoices, request) < draw then Err(NotCovered)
      else Ok(AdjustReview(request, row.fee, fee, reason, current.value, plan))
    case Resolve(action, reason) =>
      if Available(books.invoices, request) < draw then Err(NotCovered)
      else Ok(ResolveReview(request, action, row.status, After(row, action), reason, current,
                            CancelledBy(books, request, action),
                            if action.RecoverRefund? then row.uncovered else 0, plan))
  }

  function WithState(invoices: seq<Invoice>, id: Option<nat>, state: InvoiceState): (r: seq<Invoice>)
    ensures |r| == |invoices|
  {
    if id.None? || id.value >= |invoices| then invoices
    else invoices[id.value := invoices[id.value].(state := state)]
  }

  function NewInvoice(request: string, total: nat): Invoice {
    Invoice(request, Unpaid, total, 0, 0, Plain)
  }

  function AfterOffer(books: Books, request: string, fee: nat, terms: string): Books
    requires request in books.rows
  {
    var row := books.rows[request];
    books.(invoices := WithState(books.invoices, row.invoice, InvoiceState.Cancelled) + [NewInvoice(request, fee)],
           rows := books.rows[request := row.(fee := fee, terms := terms, status := OfferPending,
                                invoice := Some(|books.invoices|), invoiceState := Some(Unpaid))])
  }

  function AfterCharge(books: Books, request: string, charge: nat): Books
    requires request in books.rows
  {
    var row := books.rows[request];
    books.(invoices := books.invoices + [NewInvoice(request, charge)],
           rows := books.rows[request := row.(fee := row.fee + charge, status := OfferPending,
                                invoice := Some(|books.invoices|), invoiceState := Some(Unpaid))])
  }

  function AfterCredit(books: Books, request: string, credit: nat): Books
    requires request in books.rows && credit <= books.rows[request].fee
  {
    var row := books.rows[request];
    books.(invoices := Drawn(books.invoices, request, credit),
           rows := books.rows[request := row.(fee := row.fee - credit, status := OfferAccepted)],
           refunds := books.refunds + Plan(books.invoices, request, credit))
  }

  function AfterAdjustment(books: Books, request: string, fee: nat): Books
    requires request in books.rows
  {
    var row := books.rows[request];
    if fee > row.fee then AfterCharge(books, request, fee - row.fee) else AfterCredit(books, request, row.fee - fee)
  }

  function AfterResolution(books: Books, request: string, action: Action): Books
    requires request in books.rows
  {
    var row := books.rows[request];
    var cancelled := CancelledBy(books, request, action);
    var draw := ToDraw(books, request, Resolve(action, ""));
    books.(invoices := WithState(Drawn(books.invoices, request, draw), cancelled, InvoiceState.Cancelled),
           rows := books.rows[request := row.(status := After(row, action), uncovered := 0,
                                invoiceState := if cancelled.Some? then Some(InvoiceState.Cancelled)
                                                 else row.invoiceState)],
           refunds := books.refunds + Plan(books.invoices, request, draw))
  }

  function AfterOrder(books: Books, request: string, order: Order): Books
    requires request in books.rows
  {
    match order
    case Offer(fee, terms) => AfterOffer(books, request, fee, terms)
    case AdjustPaid(fee, _) => AfterAdjustment(books, request, fee)
    case Resolve(action, _) => AfterResolution(books, request, action)
  }

  function ReceiptOf(books: Books, request: string, order: Order, review: Review): Receipt
    requires request in books.rows
  {
    var row := AfterOrder(books, request, order).rows[request];
    Receipt(row.status,
            row.invoice,
            if order.Resolve? then CancelledBy(books, request, order.action) else None,
            |Plan(books.invoices, request, ToDraw(books, request, order))|,
            review)
  }

  predicate CanPersist(books: Books, command: Command) {
    KeyOf(command) in books.saved ||
    (command.request in books.rows && (command.order.AdjustPaid? ==> Current(books, command.request).Some?))
  }

  /** A replay returns what was saved; anything else is carried out if it is covered and confirmed. */
  function Persisted(digest: Review -> string, books: Books, command: Command): (Books, Result<Receipt, Fault>)
    requires CanPersist(books, command)
  {
    var key := KeyOf(command);
    if key in books.saved then
      (books, if books.saved[key].raw == command.raw then Ok(books.saved[key].receipt) else Err(BodyChanged))
    else
      var review := ReviewOf(books, command.request, command.order);
      if review.Err? then (books, Err(review.error))
      else if digest(review.value) != command.expected then (books, Err(ReviewMismatch))
      else
        var receipt := ReceiptOf(books, command.request, command.order, review.value);
        (AfterOrder(books, command.request, command.order).(saved := books.saved[key := Saved(command.raw, receipt)]),
         Ok(receipt))
  }

  function Paying(books: Books, request: string): Books
    requires request in books.rows && books.rows[request].invoice.Some?
  {
    var row := books.rows[request];
    var i := row.invoice.value;
    if i >= |books.invoices| then books
    else
      var invoice := books.invoices[i];
      var settled := invoice.(state := Paid, paid := invoice.total, available := invoice.total);
      books.(invoices := books.invoices[i := settled],
             rows := books.rows[request := row.(status := OfferAccepted, invoiceState := Some(Paid))])
  }

  function Progressed(invoice: Invoice, request: string): Invoice {
    if invoice.request == request && invoice.paid > 0
    then invoice.(state := if invoice.available == 0 then Refunded else PartiallyRefunded) else invoice
  }

  function Progressing(books: Books, request: string): Books
    requires request in books.rows
  {
    var books' := books.(invoices := seq(|books.invoices|, i requires 0 <= i < |books.invoices| =>
                                           Progressed(books.invoices[i], request)));
    var current := Current(books', request);
    if current.None? then books'
    else books'.(rows := books.rows[request := books.rows[request].(invoiceState := Some(current.value.state))])
  }

  // ---------------------------------------------------------------- the invoices and the refunds made of them

  predicate Sound(invoice: Invoice) {
    && invoice.available <= invoice.paid <= invoice.total
    && (invoice.state.Unpaid? || invoice.state.Cancelled? ==> invoice.paid == 0)
    && (invoice.state.Refunded? ==> invoice.available == 0)
  }

  /** What was paid on an invoice is what is left of it plus the refunds made of it. */
  ghost predicate Balanced(invoices: seq<Invoice>, refunds: seq<Allocation>) {
    forall i :: 0 <= i < |invoices| ==> invoices[i].paid == invoices[i].available + Taken(refunds, i)
  }

  ghost predicate Coherent(invoices: seq<Invoice>, refunds: seq<Allocation>) {
    && (forall i :: 0 <= i < |invoices| ==> Sound(invoices[i]))
    && Balanced(invoices, refunds)
    && forall k: nat :: k >= |invoices| ==> Taken(refunds, k) == 0
  }

  lemma DrawKeeps(invoices: seq<Invoice>, refunds: seq<Allocation>, request: string, amount: nat)
    requires Coherent(invoices, refunds)
    ensures Coherent(Drawn(invoices, request, amount), refunds + Plan(invoices, request, amount))
  {
    var plan := Plan(invoices, request, amount);
    DrawnAt(invoices, request, amount);
    forall i | 0 <= i < |invoices|
      ensures Taken(refunds + plan, i) == Taken(refunds, i) + Share(invoices, request, amount, i)
    {
      TakenJoins(refunds, plan, i);
      PlanShares(invoices, request, amount, i);
    }
    forall k: nat | k >= |invoices| ensures Taken(refunds + plan, k) == 0 {
      TakenJoins(refunds, plan, k);
      PlanNames(invoices, request, amount, k);
    }
  }

  lemma IssueKeeps(invoices: seq<Invoice>, refunds: seq<Allocation>, invoice: Invoice)
    requires Coherent(invoices, refunds)
    requires invoice.state.Unpaid? && invoice.paid == invoice.available == 0
    ensures Coherent(invoices + [invoice], refunds)
  {}

  lemma UpdateKeeps(invoices: seq<Invoice>, refunds: seq<Allocation>, i: nat, invoice: Invoice)
    requires Coherent(invoices, refunds) && i < |invoices| && Sound(invoice)
    requires invoice.paid - invoice.available == invoices[i].paid - invoices[i].available
    ensures Coherent(invoices[i := invoice], refunds)
  {}

  // ---------------------------------------------------------------- the requests

  /** A request's current invoice is its own, and the row shows its state. */
  ghost predicate Linked(request: string, row: Row, invoices: seq<Invoice>) {
    row.invoice.Some? ==>
      var i := row.invoice.value;
      i < |invoices| && invoices[i].request == request && row.invoiceState == Some(invoices[i].state)
  }

  /** The fee of an open request, with any credit not yet covered, is what its invoices are worth; a closed
      request has nothing left to give back. */
  ghost predicate Lawful(request: string, row: Row, invoices: seq<Invoice>) {
    if Open(row) then row.fee + row.uncovered == Total(invoices, request)
    else row.uncovered == 0 && Available(invoices, request) == 0
  }

  ghost predicate RowsHold(rows: map<string, Row>, invoices: seq<Invoice>) {
    forall r :: r in rows ==> Linked(r, rows[r], invoices) && Lawful(r, rows[r], invoices)
  }

  ghost predicate Inv(books: Books) {
    Coherent(books.invoices, books.refunds) && RowsHold(books.rows, books.invoices)
  }

  /** Requests other than the one a step is about see the same invoices as before. */
  ghost predicate Elsewhere(a: seq<Invoice>, b: seq<Invoice>, request: string) {
    && |a| <= |b|
    && (forall i :: 0 <= i < |a| ==> b[i].request == a[i].request)
    && (forall i :: 0 <= i < |a| && a[i].request != request ==> b[i] == a[i])
    && (forall i :: |a| <= i < |b| ==> b[i].request == request)
  }

  lemma {:induction false} ElsewhereKeepsTotals(a: seq<Invoice>, b: seq<Invoice>, request: string, other: string)
    requires Elsewhere(a, b, request) && other != request
    ensures Total(b, other) == Total(a, other) && Available(b, other) == Available(a, other)
    decreases |b|
  {
    if |b| > |a| {
      ElsewhereKeepsTotals(a, b[..|b| - 1], request, other);
    } else {
      TotalSame(b, a, other);
      AvailableSame(b, a, other);
    }
  }

  /** A step about one request keeps all rows exactly when it keeps that request's law. */
  lemma RowStep(rows: map<string, Row>, before: seq<Invoice>, request: string, row: Row, invoices: seq<Invoice>)
    requires RowsHold(rows, before) && Elsewhere(before, invoices, request)
    requires Linked(request, row, invoices)
    ensures RowsHold(rows[request := row], invoices) <==> Lawful(request, row, invoices)
  {
    forall r | r in rows && r != request ensures Linked(r, rows[r], invoices) && Lawful(r, rows[r], invoices) {
      assert Linked(r, rows[r], before) && Lawful(r, rows[r], before);
      ElsewhereKeepsTotals(before, invoices, request, r);
    }
    if RowsHold(rows[request := row], invoices) {
      assert request in rows[request := row];
    }
  }

  // ---------------------------------------------------------------- the operations

  /** What the current invoice still asks for. */
  function Outstanding(books: Books, request: string): nat
    requires request in books.rows
  {
    var current := Current(books, request);
    if current.Some? && current.value.state.Unpaid? then current.value.total else 0
  }

  /** Cancelling an invoice on which nothing was paid takes its charge off the request. */
  lemma CancelKeeps(invoices: seq<Invoice>, refunds: seq<Allocation>, id: nat, request: string)
    requires Coherent(invoices, refunds)
    requires id < |invoices| && invoices[id].request == request && invoices[id].paid == 0
    ensures var cancelled := WithState(invoices, Some(id), InvoiceState.Cancelled);
      && Coherent(cancelled, refunds)
      && Elsewhere(invoices, cancelled, request)
      && Total(cancelled, request) == Total(invoices, request) - Worth(invoices[id], request)
      && Available(cancelled, request) == Available(invoices, request)
  {
    var invoice := invoices[id].(state := InvoiceState.Cancelled);
    UpdateKeeps(invoices, refunds, id, invoice);
    TotalUpdate(invoices, id, invoice, request);
    AvailableSame(invoices[id := invoice], invoices, request);
  }

  /** The fee and the uncovered credit are what the invoices are worth; true of every open request. */
  predicate Accounted(books: Books, request: string)
    requires request in books.rows
  {
    books.rows[request].fee + books.rows[request].uncovered == Total(books.invoices, request)
  }

  /** When an offer may replace the current invoice: nothing was paid on it, and nothing but the uncovered
      credit is left on the others. */
  predicate OfferGuard(books: Books, request: string)
    requires request in books.rows
  {
    && Total(books.invoices, request) == books.rows[request].uncovered + Outstanding(books, request)
    && (Current(books, request).Some? ==> Current(books, request).value.paid == 0)
  }

  /** An invoice that is unpaid, free, or paid in full with nothing returned of it: booking its payment gives it
      the worth it has. */
  predicate MayBePaid(invoice: Invoice) {
    invoice.state.Unpaid? || invoice.total == 0 || (Refundable(invoice.state) && invoice.available == invoice.total)
  }

  /** When a payment of the current invoice may be booked. On a closed request, which the payment opens again,
      nothing may ever have been paid on the invoice, and the fee must be this invoice and what else is unpaid. */
  predicate PayGuard(books: Books, request: string)
    requires request in books.rows && Current(books, request).Some?
  {
    var row, invoice := books.rows[request], Current(books, request).value;
    if Open(row) then MayBePaid(invoice)
    else
      && invoice.paid == 0
      && row.fee == Total(books.invoices, request) + if invoice.state.Unpaid? then 0 else invoice.total
  }

  lemma CurrentIsOwn(books: Books, request: string)
    requires Inv(books) && request in books.rows
    ensures Linked(request, books.rows[request], books.invoices) && Lawful(request, books.rows[request], books.invoices)
    ensures books.rows[request].invoice.Some? ==>
      var id := books.rows[request].invoice.value;
      && id < |books.invoices| && Current(books, request) == Some(books.invoices[id]) && Sound(books.invoices[id])
      && books.invoices[id].request == request
  {}

  /** The invoices after an offer: the old one cancelled, the new one issued. */
  lemma ReplaceKeeps(invoices: seq<Invoice>, refunds: seq<Allocation>, former: Option<nat>, invoice: Invoice)
    requires Coherent(invoices, refunds)
    requires former.Some? ==> former.value < |invoices|
    requires former.Some? ==> invoices[former.value].request == invoice.request && invoices[former.value].paid == 0
    requires invoice.state.Unpaid? && invoice.paid == invoice.available == 0
    ensures var replaced := WithState(invoices, former, InvoiceState.Cancelled) + [invoice];
      && Coherent(replaced, refunds)
      && Elsewhere(invoices, replaced, invoice.request)
      && Total(replaced, invoice.request) == Total(invoices, invoice.request) + invoice.total
           - (if former.Some? then Worth(invoices[former.value], invoice.request) else 0)
  {
    var replaced := WithState(invoices, former, InvoiceState.Cancelled);
    if former.Some? { CancelKeeps(invoices, refunds, former.value, invoice.request); }
    IssueKeeps(replaced, refunds, invoice);
    TotalAppend(replaced, invoice, invoice.request);
  }

  /** Cancelling an invoice that was paid takes its money out of the books. */
  lemma PaidOfferBreaks(books: Books, request: string, fee: nat, terms: string)
    requires Inv(books) && request in books.rows
    requires Current(books, request).Some? && Current(books, request).value.paid > 0
    ensures !Inv(AfterOffer(books, request, fee, terms))
  {
    CurrentIsOwn(books, request);
    assert !Sound(AfterOffer(books, request, fee, terms).invoices[books.rows[request].invoice.value]);
  }

  lemma UnpaidOfferKeeps(books: Books, request: string, fee: nat, terms: string)
    requires Inv(books) && request in books.rows
    requires Current(books, request).Some? ==> Current(books, request).value.paid == 0
    ensures Inv(AfterOffer(books, request, fee, terms)) <==> OfferGuard(books, request)
  {
    var books', row := AfterOffer(books, request, fee, terms), books.rows[request];
    CurrentIsOwn(books, request);
    ReplaceKeeps(books.invoices, books.refunds, row.invoice, NewInvoice(request, fee));
    RowStep(books.rows, books.invoices, request, books'.rows[request], books'.invoices);
  }

  lemma OfferKeepsIff(books: Books, request: string, fee: nat, terms: string)
    requires Inv(books) && request in books.rows
    ensures Inv(AfterOffer(books, request, fee, terms)) <==> OfferGuard(books, request)
  {
    if Current(books, request).Some? && Current(books, request).value.paid > 0 {
      PaidOfferBreaks(books, request, fee, terms);
    } else {
      UnpaidOfferKeeps(books, request, fee, terms);
    }
  }

  /** On an open request an offer keeps the books exactly when the fee so far is all on the invoice it
      replaces and nothing was paid on that invoice. */
  lemma OfferConservesIff(books: Books, request: string, fee: nat, terms: string)
    requires Inv(books) && request in books.rows && Open(books.rows[request])
    ensures Inv(AfterOffer(books, request, fee, terms))
       <==> books.rows[request].fee == Outstanding(books, request)
            && (Current(books, request).Some? ==> Current(books, request).value.paid == 0)
  {
    CurrentIsOwn(books, request);
    OfferKeepsIff(books, request, fee, terms);
  }

  lemma ChargeKeepsIff(books: Books, request: string, charge: nat)
    requires Inv(books) && request in books.rows
    ensures Inv(AfterCharge(books, request, charge)) <==> Accounted(books, request)
  {
    var books', invoice := AfterCharge(books, request, charge), NewInvoice(request, charge);
    IssueKeeps(books.invoices, books.refunds, invoice);
    TotalAppend(books.invoices, invoice, request);
    RowStep(books.rows, books.invoices, request, books'.rows[request], books'.invoices);
  }

  /** Drawing no more than there is keeps everything but the total, which falls by the sum drawn. */
  lemma DrawingKeeps(invoices: seq<Invoice>, refunds: seq<Allocation>, request: string, amount: nat)
    requires Coherent(invoices, refunds) && amount <= Available(invoices, request)
    ensures var drawn := Drawn(invoices, request, amount);
      && Coherent(drawn, refunds + Plan(invoices, request, amount))
      && Elsewhere(invoices, drawn, request)
      && Total(drawn, request) == Total(invoices, request) - amount
      && Available(drawn, request) == Available(invoices, request) - amount
  {
    DrawKeeps(invoices, refunds, request, amount);
    DrawnTotals(invoices, request, amount);
    DrawnElsewhere(invoices, request, amount);
  }

  lemma DrawnElsewhere(invoices: seq<Invoice>, request: string, amount: nat)
    ensures Elsewhere(invoices, Drawn(invoices, request, amount), request)
    ensures forall i :: 0 <= i < |invoices| ==>
      && Drawn(invoices, request, amount)[i].state == invoices[i].state
      && Drawn(invoices, request, amount)[i].paid == invoices[i].paid
  {
    DrawnAt(invoices, request, amount);
  }

  /** A draw leaves the request's link alone; whether it keeps the books is up to the new row. */
  lemma DrawStep(books: Books, request: string, draw: nat, row: Row)
    requires Inv(books) && request in books.rows && draw <= Available(books.invoices, request)
    requires row.invoice == books.rows[request].invoice && row.invoiceState == books.rows[request].invoiceState
    ensures var drawn := Drawn(books.invoices, request, draw);
      && Coherent(drawn, books.refunds + Plan(books.invoices, request, draw))
      && Total(drawn, request) == Total(books.invoices, request) - draw
      && Available(drawn, request) == Available(books.invoices, request) - draw
      && (RowsHold(books.rows[request := row], drawn) <==> Lawful(request, row, drawn))
  {
    CurrentIsOwn(books, request);
    DrawingKeeps(books.invoices, books.refunds, request, draw);
    DrawnElsewhere(books.invoices, request, draw);
    RowStep(books.rows, books.invoices, request, row, Drawn(books.invoices, request, draw));
  }

  lemma CreditKeepsIff(books: Books, request: string, credit: nat)
    requires Inv(books) && request in books.rows && credit <= books.rows[request].fee
    requires credit <= Available(books.invoices, request)
    ensures Inv(AfterCredit(books, request, credit)) <==> Accounted(books, request)
  {
    var row := books.rows[request];
    var row' := row.(fee := row.fee - credit, status := OfferAccepted);
    var drawn, refunds := Drawn(books.invoices, request, credit), books.refunds + Plan(books.invoices, request, credit);
    assert AfterCredit(books, request, credit)
        == books.(invoices := drawn, rows := books.rows[request := row'], refunds := refunds);
    DrawStep(books, request, credit, row');
    assert Lawful(request, row', drawn) <==> Accounted(books, request);
  }

  /** Recovery always keeps the books; on a closed request there is nothing to recover. */
  lemma RecoveryKeeps(books: Books, request: string)
    requires Inv(books) && request in books.rows
    requires books.rows[request].uncovered <= Available(books.invoices, request)
    ensures Inv(AfterResolution(books, request, RecoverRefund))
  {
    var row := books.rows[request];
    CurrentIsOwn(books, request);
    DrawStep(books, request, row.uncovered, row.(uncovered := 0));
  }

  lemma ElsewhereJoins(a: seq<Invoice>, b: seq<Invoice>, c: seq<Invoice>, request: string)
    requires Elsewhere(a, b, request) && Elsewhere(b, c, request) && |a| == |b| == |c|
    ensures Elsewhere(a, c, request)
  {}

  /** Drawing all that is left, and then cancelling an invoice on which nothing was paid. */
  lemma DrawAllThenCancel(invoices: seq<Invoice>, refunds: seq<Allocation>, request: string, id: nat)
    requires Coherent(invoices, refunds) && id < |invoices|
    requires invoices[id].request == request && invoices[id].paid == 0
    ensures var draw := Available(invoices, request);
      var closed := WithState(Drawn(invoices, request, draw), Some(id), InvoiceState.Cancelled);
      && Coherent(closed, refunds + Plan(invoices, request, draw))
      && Elsewhere(invoices, closed, request)
      && Available(closed, request) == 0
  {
    var draw := Available(invoices, request);
    var drawn := Drawn(invoices, request, draw);
    DrawingKeeps(invoices, refunds, request, draw);
    DrawnElsewhere(invoices, request, draw);
    CancelKeeps(drawn, refunds + Plan(invoices, request, draw), id, request);
    ElsewhereJoins(invoices, drawn, WithState(drawn, Some(id), InvoiceState.Cancelled), request);
  }

  lemma ClosedLinks(books: Books, request: string, action: Action)
    requires Inv(books) && request in books.rows && !action.RecoverRefund?
    ensures Linked(request, AfterResolution(books, request, action).rows[request],
                   AfterResolution(books, request, action).invoices)
  {
    CurrentIsOwn(books, request);
    DrawnElsewhere(books.invoices, request, Available(books.invoices, request));
  }

  lemma DrawAllThenMaybeCancel(invoices: seq<Invoice>, refunds: seq<Allocation>, request: string, id: Option<nat>)
    requires Coherent(invoices, refunds)
    requires id.Some? ==> id.value < |invoices|
    requires id.Some? ==> invoices[id.value].request == request && invoices[id.value].paid == 0
    ensures var draw := Available(invoices, request);
      var closed := WithState(Drawn(invoices, request, draw), id, InvoiceState.Cancelled);
      && Coherent(closed, refunds + Plan(invoices, request, draw))
      && Elsewhere(invoices, closed, request)
      && Available(closed, request) == 0
  {
    if id.Some? {
      DrawAllThenCancel(invoices, refunds, request, id.value);
    } else {
      DrawingKeeps(invoices, refunds, request, Available(invoices, request));
    }
  }

  lemma CancelledIsOwn(books: Books, request: string, action: Action)
    requires Inv(books) && request in books.rows
    ensures var id := CancelledBy(books, request, action);
      id.Some? ==> id.value < |books.invoices| && books.invoices[id.value].request == request
                   && books.invoices[id.value].paid == 0
  {
    CurrentIsOwn(books, request);
  }

  lemma ClosingIs(books: Books, request: string, action: Action)
    requires request in books.rows && !action.RecoverRefund?
    ensures var books', draw := AfterResolution(books, request, action), Available(books.invoices, request);
      && books'.invoices == WithState(Drawn(books.invoices, request, draw), CancelledBy(books, request, action),
                                      InvoiceState.Cancelled)
      && books'.refunds == books.refunds + Plan(books.invoices, request, draw)
  {}

  /** The invoices after closing: all that was left is drawn, and the unpaid current one is cancelled. */
  lemma ClosedInvoices(books: Books, request: string, action: Action)
    requires Inv(books) && request in books.rows && !action.RecoverRefund?
    ensures var books' := AfterResolution(books, request, action);
      && Coherent(books'.invoices, books'.refunds)
      && Elsewhere(books.invoices, books'.invoices, request)
      && Available(books'.invoices, request) == 0
  {
    CancelledIsOwn(books, request, action);
    DrawAllThenMaybeCancel(books.invoices, books.refunds, request, CancelledBy(books, request, action));
    ClosingIs(books, request, action);
  }

  /** Closing, be it for the first time or again, keeps the books and leaves nothing to give back. */
  lemma ClosingKeeps(books: Books, request: string, action: Action)
    requires Inv(books) && request in books.rows && !action.RecoverRefund?
    ensures Inv(AfterResolution(books, request, action))
    ensures Available(AfterResolution(books, request, action).invoices, request) == 0
  {
    var books' := AfterResolution(books, request, action);
    ClosedInvoices(books, request, action);
    ClosedLinks(books, request, action);
    RowStep(books.rows, books.invoices, request, books'.rows[request], books'.invoices);
  }

  predicate NothingToPay(invoices: seq<Invoice>, request: string) {
    forall i :: 0 <= i < |invoices| && invoices[i].request == request ==> !invoices[i].state.Unpaid?
  }

  /** Closing leaves nothing to pay exactly when no invoice is unpaid but the current one, which must not
      be a credit. */
  lemma ClosingClearsIff(books: Books, request: string, action: Action)
    requires Inv(books) && request in books.rows && !action.RecoverRefund?
    ensures NothingToPay(AfterResolution(books, request, action).invoices, request)
       <==> forall i :: 0 <= i < |books.invoices| && books.invoices[i].request == request
                        && books.invoices[i].state.Unpaid? ==>
              books.rows[request].invoice == Some(i) && !books.invoices[i].kind.Credit?
  {
    CurrentIsOwn(books, request);
    DrawnElsewhere(books.invoices, request, Available(books.invoices, request));
    var after := AfterResolution(books, request, action).invoices;
    forall i | 0 <= i < |books.invoices|
      ensures after[i].request == books.invoices[i].request
      ensures after[i].state == if CancelledBy(books, request, action) == Some(i) then InvoiceState.Cancelled
                                else books.invoices[i].state
      ensures books.invoices[i].state.Unpaid? ==> books.invoices[i].paid == 0
    {
      assert Sound(books.invoices[i]);
    }
  }

  lemma {:induction false} NothingAvailable(invoices: seq<Invoice>, request: string, i: nat)
    requires Available(invoices, request) == 0 && i < |invoices|
    ensures !Eligible(invoices[i], request)
  {
    if i < |invoices| - 1 {
      NothingAvailable(invoices[..|invoices| - 1], request, i);
    }
  }

  /** What a payment books, in terms of the refunds and of the law it leaves. */
  lemma PayingLeaves(books: Books, request: string)
    requires Inv(books) && request in books.rows && Current(books, request).Some?
    ensures var row, invoice := books.rows[request], Current(books, request).value;
      Inv(Paying(books, request)) <==>
        && Taken(books.refunds, row.invoice.value) == 0
        && row.fee + row.uncovered + Worth(invoice, request) == Total(books.invoices, request) + invoice.total
  {
    var books', row := Paying(books, request), books.rows[request];
    CurrentIsOwn(books, request);
    var i := row.invoice.value;
    PaidInvoices(books.invoices, books.refunds, i);
    TotalUpdate(books.invoices, i, books'.invoices[i], request);
    RowStep(books.rows, books.invoices, request, books'.rows[request], books'.invoices);
  }

  /** Booking a payment of the current invoice keeps the books exactly under its guard, whatever the states of
      the invoice and the request. */
  lemma PayingKeepsIff(books: Books, request: string)
    requires Inv(books) && request in books.rows && Current(books, request).Some?
    ensures Inv(Paying(books, request)) <==> PayGuard(books, request)
  {
    var row := books.rows[request];
    var i := row.invoice.value;
    CurrentIsOwn(books, request);
    PayingLeaves(books, request);
    assert books.invoices[i].paid == books.invoices[i].available + Taken(books.refunds, i);
    if !Open(row) { NothingAvailable(books.invoices, request, i); }
  }

  /** Booking the payment of an accepted and settled invoice again changes nothing. */
  lemma PayingAgainChangesNothing(books: Books, request: string)
    requires Inv(books) && request in books.rows && Current(books, request).Some?
    requires books.rows[request].status.OfferAccepted?
    requires var c := Current(books, request).value; c.state == Paid && c.available == c.total
    ensures PayGuard(books, request) && Paying(books, request) == books
  {
    CurrentIsOwn(books, request);
    var books', row := Paying(books, request), books.rows[request];
    assert books'.invoices == books.invoices && books'.rows[request] == row;
    assert books'.rows == books.rows;
  }

  lemma PaidInvoices(invoices: seq<Invoice>, refunds: seq<Allocation>, i: nat)
    requires Coherent(invoices, refunds) && i < |invoices|
    ensures var total := invoices[i].total;
      Coherent(invoices[i := invoices[i].(state := Paid, paid := total, available := total)], refunds)
      <==> Taken(refunds, i) == 0
  {
    var total := invoices[i].total;
    var paid := invoices[i := invoices[i].(state := Paid, paid := total, available := total)];
    if Taken(refunds, i) != 0 {
      assert paid[i].paid != paid[i].available + Taken(refunds, i);
    }
  }

  lemma ProgressedIsSound(invoice: Invoice, request: string)
    requires Sound(invoice)
    ensures var next := Progressed(invoice, request);
      && Sound(next) && Worth(next, request) == Worth(invoice, request) && Left(next, request) == Left(invoice, request)
  {}

  lemma ProgressInvoices(invoices: seq<Invoice>, refunds: seq<Allocation>, request: string, progressed: seq<Invoice>)
    requires Coherent(invoices, refunds) && |progressed| == |invoices|
    requires forall i :: 0 <= i < |invoices| ==> progressed[i] == Progressed(invoices[i], request)
    ensures Coherent(progressed, refunds)
    ensures Elsewhere(invoices, progressed, request)
    ensures Total(progressed, request) == Total(invoices, request)
    ensures Available(progressed, request) == Available(invoices, request)
  {
    forall i | 0 <= i < |invoices|
      ensures Sound(progressed[i]) && Worth(progressed[i], request) == Worth(invoices[i], request)
      ensures Left(progressed[i], request) == Left(invoices[i], request)
    {
      ProgressedIsSound(invoices[i], request);
    }
    TotalSame(progressed, invoices, request);
    AvailableSame(progressed, invoices, request);
  }

  lemma ProgressingKeeps(books: Books, request: string)
    requires Inv(books) && request in books.rows
    ensures Inv(Progressing(books, request))
  {
    var books', row := Progressing(books, request), books.rows[request];
    ProgressInvoices(books.invoices, books.refunds, request, books'.invoices);
    assert Linked(request, row, books.invoices) && Lawful(request, row, books.invoices);
    RowStep(books.rows, books.invoices, request, books'.rows[request], books'.invoices);
    assert books.rows[request := books.rows[request]] == books.rows;
  }

  // ---------------------------------------------------------------- runs

  /** What the code dereferences without a check. */
  predicate CanStep(books: Books, e: Event) {
    match e
    case Pay(r) => r in books.rows && Current(books, r).Some?
    case Progress(r) => r in books.rows
    case Do(command) => CanPersist(books, command)
  }

  function Step(digest: Review -> string, books: Books, e: Event): Books
    requires CanStep(books, e)
  {
    match e
    case Pay(r) => Paying(books, r)
    case Progress(r) => Progressing(books, r)
    case Do(command) => Persisted(digest, books, command).0
  }

  /** The command is new, covered and confirmed: it will be carried out. */
  predicate Executes(digest: Review -> string, books: Books, command: Command)
    requires CanPersist(books, command)
  {
    KeyOf(command) !in books.saved && Persisted(digest, books, command).1.Ok?
  }

  predicate OrderGuard(books: Books, request: string, order: Order)
    requires request in books.rows
  {
    match order
    case Offer(_, _) => OfferGuard(books, request)
    case AdjustPaid(_, _) => Accounted(books, request)
    case Resolve(_, _) => true
  }

  /** What a caller has to see to before a step for the books to be kept. Resolutions, refund progress,
      replays and refusals need nothing. */
  predicate Guard(digest: Review -> string, books: Books, e: Event)
    requires CanStep(books, e)
  {
    match e
    case Pay(r) => PayGuard(books, r)
    case Progress(_) => true
    case Do(command) => Executes(digest, books, command) ==> OrderGuard(books, command.request, command.order)
  }

  ghost predicate GuardedRun(digest: Review -> string, books: Books, events: seq<Event>)
    decreases |events|
  {
    events == [] ||
    (CanStep(books, events[0]) && Guard(digest, books, events[0])
     && GuardedRun(digest, Step(digest, books, events[0]), events[1..]))
  }

  function Run(digest: Review -> string, books: Books, events: seq<Event>): Books
    requires GuardedRun(digest, books, events)
    decreases |events|
  {
    if events == [] then books else Run(digest, Step(digest, books, events[0]), events[1..])
  }

  lemma AdjustmentKeepsIff(books: Books, request: string, fee: nat)
    requires Inv(books) && request in books.rows
    requires fee < books.rows[request].fee ==> books.rows[request].fee - fee <= Available(books.invoices, request)
    ensures Inv(AfterAdjustment(books, request, fee)) <==> Accounted(books, request)
  {
    var now := books.rows[request].fee;
    if fee > now {
      var charge := fee - now;
      assert AfterAdjustment(books, request, fee) == AfterCharge(books, request, charge);
      ChargeKeepsIff(books, request, charge);
    } else {
      var credit := now - fee;
      assert AfterAdjustment(books, request, fee) == AfterCredit(books, request, credit);
      CreditKeepsIff(books, request, credit);
    }
  }

  lemma OrderKeepsIff(books: Books, request: string, order: Order)
    requires Inv(books) && request in books.rows
    requires ToDraw(books, request, order) <= Available(books.invoices, request)
    ensures Inv(AfterOrder(books, request, order)) <==> OrderGuard(books, request, order)
  {
    match order
    case Offer(fee, terms) => OfferKeepsIff(books, request, fee, terms);
    case AdjustPaid(fee, _) => AdjustmentKeepsIff(books, request, fee);
    case Resolve(action, _) =>
      if action.RecoverRefund? { RecoveryKeeps(books, request); } else { ClosingKeeps(books, request, action); }
  }

  lemma SavingIsApart(books: Books, saved: map<SavedKey, Saved>)
    ensures Inv(books.(saved := saved)) <==> Inv(books)
  {}

  /** A step keeps the books exactly when its guard holds. */
  lemma KeepsIffGuard(digest: Review -> string, books: Books, e: Event)
    requires Inv(books) && CanStep(books, e)
    ensures Inv(Step(digest, books, e)) <==> Guard(digest, books, e)
  {
    match e
    case Pay(r) => PayingKeepsIff(books, r);
    case Progress(r) => ProgressingKeeps(books, r);
    case Do(command) =>
      if Executes(digest, books, command) {
        var after := AfterOrder(books, command.request, command.order);
        OrderKeepsIff(books, command.request, command.order);
        SavingIsApart(after, Persisted(digest, books, command).0.saved);
      }
  }

  /** Over every run of guarded steps the fee of an open request, with its uncovered credit, equals what its
      invoices are worth; every payment equals what is left of it plus its refunds; closed requests have
      nothing left. */
  lemma {:induction false} ConservationTheorem(digest: Review -> string, books: Books, events: seq<Event>)
    requires Inv(books) && GuardedRun(digest, books, events)
    ensures Inv(Run(digest, books, events))
    decreases |events|
  {
    if events != [] {
      KeepsIffGuard(digest, books, events[0]);
      ConservationTheorem(digest, Step(digest, books, events[0]), events[1..]);
    }
  }

  /** On open requests adjustments need no guard, offers need a fee that is all on an invoice without
      payments, and payments an invoice that is unpaid, free or settled in full. */
  lemma OpenRequestGuards(books: Books, request: string)
    requires Inv(books) && request in books.rows && Open(books.rows[request])
    ensures Accounted(books, request)
    ensures OfferGuard(books, request)
       <==> books.rows[request].fee == Outstanding(books, request)
            && (Current(books, request).Some? ==> Current(books, request).value.paid == 0)
    ensures Current(books, request).Some? ==>
      var c := Current(books, request).value;
      (PayGuard(books, request) <==>
       c.state.Unpaid? || c.total == 0 || (Refundable(c.state) && c.available == c.total))
  {
    CurrentIsOwn(books, request);
  }

  /** The state the resolution fixture sets up: two open requests, one with a charge still unpaid, one with
      an earlier credit that its rejected refunds left uncovered. */
  function FixtureBooks(closing: string, recovering: string): Books {
    Books(
      [Invoice(closing, Paid, 500000, 500000, 500000, Plain),
       Invoice(closing, Paid, 200000, 200000, 200000, Charge),
       Invoice(closing, Unpaid, 150000, 0, 0, Charge),
       Invoice(recovering, Paid, 450000, 450000, 450000, Plain),
       Invoice(recovering, Paid, 200000, 200000, 200000, Charge)],
      map[closing := Row(850000, 0, OfferPending, Some(2), Some(Unpaid), ""),
          recovering := Row(300000, 350000, OfferAccepted, Some(4), Some(Paid), "")],
      [], map[])
  }

  lemma FixtureHolds(closing: string, recovering: string)
    requires closing != recovering
    ensures Inv(FixtureBooks(closing, recovering))
  {
    var invoices := FixtureBooks(closing, recovering).invoices;
    assert [] + [invoices[0]] + [invoices[1]] + [invoices[2]] + [invoices[3]] + [invoices[4]] == invoices;
    forall r ensures Total(invoices, r) == Worth(invoices[0], r) + Worth(invoices[1], r) + Worth(invoices[2], r)
                                           + Worth(invoices[3], r) + Worth(invoices[4], r)
    {
      TotalAppend([], invoices[0], r);
      TotalAppend([] + [invoices[0]], invoices[1], r);
      TotalAppend([] + [invoices[0]] + [invoices[1]], invoices[2], r);
      TotalAppend([] + [invoices[0]] + [invoices[1]] + [invoices[2]], invoices[3], r);
      TotalAppend([] + [invoices[0]] + [invoices[1]] + [invoices[2]] + [invoices[3]], invoices[4], r);
    }
  }

  // ---------------------------------------------------------------- what the guards keep out

  /** One request with one invoice of 500,000 IRR, paid in full. */
  function PaidBooks(request: string): Books {
    Books([Invoice(request, Paid, 500000, 500000, 500000, Plain)],
          map[request := Row(500000, 0, OfferAccepted, Some(0), Some(Paid), "")], [], map[])
  }

  lemma PaidBooksHold(request: string)
    ensures Inv(PaidBooks(request))
    ensures Total(PaidBooks(request).invoices, request) == Available(PaidBooks(request).invoices, request) == 500000
  {
    var invoices := PaidBooks(request).invoices;
    assert invoices[..|invoices| - 1] == [];
    assert Total(invoices, request) == Total([], request) + Worth(invoices[0], request);
    assert Available(invoices, request) == Available([], request) + 500000;
  }

  /** An offer over a paid invoice cancels it: its money is neither refunded nor part of any later plan. */
  lemma PaidOfferLosesMoney(request: string, fee: nat, terms: string)
    ensures var after := AfterOffer(PaidBooks(request), request, fee, terms);
      && PaidBooks(request).rows[request].fee == Total(PaidBooks(request).invoices, request)
      && after.invoices[0].available == 500000 && after.refunds == []
      && Available(after.invoices, request) == 0 && !Inv(after)
  {
    PaidBooksHold(request);
    PaidOfferBreaks(PaidBooks(request), request, fee, terms);
    NothingEligible(AfterOffer(PaidBooks(request), request, fee, terms).invoices, request);
  }

  lemma {:induction false} NothingEligible(invoices: seq<Invoice>, request: string)
    requires forall i :: 0 <= i < |invoices| ==> !Eligible(invoices[i], request)
    ensures Available(invoices, request) == 0
  {
    if invoices != [] {
      NothingEligible(invoices[..|invoices| - 1], request);
    }
  }

  /** The request of `PaidBooks` once it is cancelled and its money returned. */
  lemma CancelledBooks(request: string) returns (closed: Books)
    ensures closed == AfterResolution(PaidBooks(request), request, Cancel) && Inv(closed)
    ensures |closed.invoices| == 1 && closed.invoices[0] == PaidBooks(request).invoices[0].(available := 0)
    ensures closed.rows[request] == PaidBooks(request).rows[request].(status := RequestCancelled)
    ensures Taken(closed.refunds, 0) == 500000 && Total(closed.invoices, request) == 0
  {
    var books := PaidBooks(request);
    closed := AfterResolution(books, request, Cancel);
    PaidBooksHold(request);
    ClosingKeeps(books, request, Cancel);
    ClosingIs(books, request, Cancel);
    DrawnAt(books.invoices, request, 500000);
    ShareFits(books.invoices, request, 500000, 0);
    assert closed.invoices[..|closed.invoices| - 1] == [];
    assert Total(closed.invoices, request) == Total([], request) + Worth(closed.invoices[0], request);
  }

  /** Adjusting the fee of a closed request opens it again with a fee that its invoices do not carry. */
  lemma AdjustingClosedBreaks(request: string)
    ensures var closed := AfterResolution(PaidBooks(request), request, Cancel);
      Inv(closed) && !Accounted(closed, request) && !Inv(AfterAdjustment(closed, request, 700000))
  {
    var closed := CancelledBooks(request);
    AdjustmentKeepsIff(closed, request, 700000);
  }

  /** Booking a payment of a refunded invoice makes money available that was already returned. */
  lemma PayingRefundedBreaks(request: string)
    ensures var closed := AfterResolution(PaidBooks(request), request, Cancel);
      && Inv(closed) && Current(closed, request).Some? && !PayGuard(closed, request)
      && Paying(closed, request).invoices[0].available == 500000
      && Taken(Paying(closed, request).refunds, 0) == 500000 && !Inv(Paying(closed, request))
  {
    var closed := CancelledBooks(request);
    PayingKeepsIff(closed, request);
  }

  /** Closing cancels the current invoice only: an older charge that nobody paid stays unpaid. */
  lemma ClosingLeavesCharge(closing: string, recovering: string)
    requires closing != recovering
    ensures var adjusted := AfterAdjustment(FixtureBooks(closing, recovering), closing, 900000);
      var after := AfterResolution(adjusted, closing, Cancel);
      && Inv(after) && !Open(after.rows[closing])
      && after.invoices[2].state.Unpaid? && after.invoices[2].total == 150000 && !NothingToPay(after.invoices, closing)
  {
    var books := FixtureBooks(closing, recovering);
    var adjusted := AfterAdjustment(books, closing, 900000);
    FixtureHolds(closing, recovering);
    OpenRequestGuards(books, closing);
    AdjustmentKeepsIff(books, closing, 900000);
    ClosingKeeps(adjusted, closing, Cancel);
    DrawnElsewhere(adjusted.invoices, closing, Available(adjusted.invoices, closing));
    DrawnAt(adjusted.invoices, closing, Available(adjusted.invoices, closing));
    assert adjusted.invoices[2] == books.invoices[2];
  }

  // ---------------------------------------------------------------- what commands promise

  lemma OrderRefunds(books: Books, request: string, order: Order)
    requires request in books.rows
    ensures AfterOrder(books, request, order).refunds
         == books.refunds + Plan(books.invoices, request, ToDraw(books, request, order))
  {
    assert books.refunds + [] == books.refunds;
  }

  lemma PlanIsExact(invoices: seq<Invoice>, request: string, amount: nat)
    requires amount <= Available(invoices, request)
    ensures Sum(Plan(invoices, request, amount)) == amount
    ensures forall i :: 0 <= i < |invoices| ==> Taken(Plan(invoices, request, amount), i) <= invoices[i].available
  {
    PlanSums(invoices, request, amount);
    forall i | 0 <= i < |invoices| ensures Taken(Plan(invoices, request, amount), i) <= invoices[i].available {
      PlanShares(invoices, request, amount, i);
      ShareFits(invoices, request, amount, i);
    }
  }

  /** A command that is carried out draws exactly its sum: the decrease of the fee, the uncovered credit, or
      everything left; no invoice gives more than it has; and the confirmed review is the one carried out. */
  lemma DrawsExactly(digest: Review -> string, books: Books, command: Command)
    requires CanPersist(books, command) && KeyOf(command) !in books.saved
    requires Persisted(digest, books, command).1.Ok?
    ensures var books', receipt := Persisted(digest, books, command).0, Persisted(digest, books, command).1.value;
      var drawn := Plan(books.invoices, command.request, ToDraw(books, command.request, command.order));
      && digest(receipt.review) == command.expected
      && receipt.refunds == |drawn|
      && books'.refunds == books.refunds + drawn
      && Sum(drawn) == ToDraw(books, command.request, command.order)
      && forall i :: 0 <= i < |books.invoices| ==> Taken(drawn, i) <= books.invoices[i].available
  {
    OrderRefunds(books, command.request, command.order);
    PlanIsExact(books.invoices, command.request, ToDraw(books, command.request, command.order));
  }

  /** What the confirmed review shows is what the command then does: the fees before and after, the status,
      the invoice it cancels or replaces, and the refunds. */
  ghost predicate Shows(review: Review, before: Books, after: Books, request: string)
    requires request in before.rows && request in after.rows && before.refunds <= after.refunds
  {
    var was, now := before.rows[request], after.rows[request];
    var refunds := after.refunds[|before.refunds|..];
    match review
    case OfferReview(r, fee, terms, previous) =>
      && r == request && fee == now.fee && terms == now.terms && previous == Current(before, request)
      && refunds == [] && now.status.OfferPending?
      && Current(after, request) == Some(Invoice(request, Unpaid, fee, 0, 0, Plain))
      && (previous.Some? ==> InvoiceAt(after, was.invoice) == Some(previous.value.(state := InvoiceState.Cancelled)))
    case AdjustReview(r, previousFee, revisedFee, _, current, plan) =>
      && r == request && previousFee == was.fee && revisedFee == now.fee && Some(current) == Current(before, request)
      && refunds == plan && Sum(plan) == (if revisedFee < previousFee then previousFee - revisedFee else 0)
      && (now.status.OfferPending? <==> revisedFee > previousFee)
      && (revisedFee > previousFee ==>
            Current(after, request) == Some(Invoice(request, Unpaid, revisedFee - previousFee, 0, 0, Plain)))
    case ResolveReview(r, action, previousStatus, resulting, _, previous, cancelled, uncovered, plan) =>
      && r == request && previousStatus == was.status && resulting == now.status
      && previous == Current(before, request) && refunds == plan && now.uncovered == 0
      && Sum(plan) == (if action.RecoverRefund? then uncovered else Available(before.invoices, request))
      && (action.RecoverRefund? ==> uncovered == was.uncovered && cancelled.None? && resulting == previousStatus)
      && (cancelled.Some? ==>
            && cancelled == was.invoice && previous.Some? && previous.value.paid == 0
            && InvoiceAt(after, cancelled) == Some(previous.value.(state := InvoiceState.Cancelled)))
      && (!action.RecoverRefund? ==> !Open(now) && Available(after.invoices, request) == 0)
  }

  lemma OfferShows(books: Books, request: string, fee: nat, terms: string)
    requires Inv(books) && request in books.rows
    ensures Shows(OfferReview(request, fee, terms, Current(books, request)), books,
                  AfterOffer(books, request, fee, terms), request)
  {
    assert books.refunds[|books.refunds|..] == [];
  }

  lemma AdjustmentShows(books: Books, request: string, fee: nat, reason: string)
    requires Inv(books) && request in books.rows && Current(books, request).Some?
    requires ToDraw(books, request, AdjustPaid(fee, reason)) <= Available(books.invoices, request)
    ensures var after := AfterAdjustment(books, request, fee);
      && books.refunds <= after.refunds
      && Shows(ReviewOf(books, request, AdjustPaid(fee, reason)).value, books, after, request)
  {
    var draw := ToDraw(books, request, AdjustPaid(fee, reason));
    OrderRefunds(books, request, AdjustPaid(fee, reason));
    PlanIsExact(books.invoices, request, draw);
    RefundsSince(books.refunds, Plan(books.invoices, request, draw));
  }

  /** What a resolution cancels is the unpaid current invoice, and cancelling it leaves the balances alone. */
  lemma ResolutionCancels(books: Books, request: string, action: Action, draw: nat)
    requires Inv(books) && request in books.rows && CancelledBy(books, request, action).Some?
    ensures var id, drawn := books.rows[request].invoice, Drawn(books.invoices, request, draw);
      && CancelledBy(books, request, action) == id && Current(books, request).Some? && id.value < |drawn|
      && drawn[id.value] == Current(books, request).value && drawn[id.value].paid == 0
      && Available(WithState(drawn, id, InvoiceState.Cancelled), request) == Available(drawn, request)
  {
    assert Linked(request, books.rows[request], books.invoices);
    DrawKeeps(books.invoices, books.refunds, request, draw);
    var drawn, id := Drawn(books.invoices, request, draw), books.rows[request].invoice.value;
    assert Sound(books.invoices[id]);
    CancelKeeps(drawn, books.refunds + Plan(books.invoices, request, draw), id, request);
  }

  lemma RecoveryShows(books: Books, request: string, reason: string)
    requires Inv(books) && request in books.rows
    requires books.rows[request].uncovered <= Available(books.invoices, request)
    ensures var after := AfterResolution(books, request, RecoverRefund);
      && books.refunds <= after.refunds
      && Shows(ReviewOf(books, request, Resolve(RecoverRefund, reason)).value, books, after, request)
  {
    var draw := books.rows[request].uncovered;
    PlanIsExact(books.invoices, request, draw);
    RefundsSince(books.refunds, Plan(books.invoices, request, draw));
  }

  lemma ClosingCancels(books: Books, request: string, action: Action)
    requires Inv(books) && request in books.rows && CancelledBy(books, request, action).Some?
    ensures var cancelled, current := CancelledBy(books, request, action), Current(books, request);
      && cancelled == books.rows[request].invoice && current.Some? && current.value.paid == 0
      && InvoiceAt(AfterResolution(books, request, action), cancelled)
         == Some(current.value.(state := InvoiceState.Cancelled))
  {
    ResolutionCancels(books, request, action, ToDraw(books, request, Resolve(action, "")));
  }

  lemma ClosingShows(books: Books, request: string, action: Action, reason: string)
    requires Inv(books) && request in books.rows && !action.RecoverRefund?
    ensures var after := AfterResolution(books, request, action);
      && books.refunds <= after.refunds
      && Shows(ReviewOf(books, request, Resolve(action, reason)).value, books, after, request)
  {
    var draw := Available(books.invoices, request);
    PlanIsExact(books.invoices, request, draw);
    RefundsSince(books.refunds, Plan(books.invoices, request, draw));
    ClosedInvoices(books, request, action);
    if CancelledBy(books, request, action).Some? { ClosingCancels(books, request, action); }
  }

  lemma RefundsSince(refunds: seq<Allocation>, plan: seq<Allocation>)
    ensures (refunds + plan)[|refunds|..] == plan
  {}

  lemma CarriedOutAsShown(digest: Review -> string, books: Books, command: Command)
    requires Inv(books) && CanPersist(books, command) && KeyOf(command) !in books.saved
    requires Persisted(digest, books, command).1.Ok?
    ensures var after, receipt := Persisted(digest, books, command).0, Persisted(digest, books, command).1.value;
      && command.request in after.rows && books.refunds <= after.refunds
      && Shows(receipt.review, books, after, command.request)
      && receipt.status == after.rows[command.request].status
      && receipt.invoice == after.rows[command.request].invoice
  {
    var request := command.request;
    match command.order
    case Offer(fee, terms) => OfferShows(books, request, fee, terms);
    case AdjustPaid(fee, reason) => AdjustmentShows(books, request, fee, reason);
    case Resolve(action, reason) =>
      if action.RecoverRefund? {
        RecoveryShows(books, request, reason);
      } else {
        ClosingShows(books, request, action, reason);
      }
  }

  // ---------------------------------------------------------------- what each command leaves behind

  /** An offer waits for acceptance, and so does an increase; a decrease is accepted at once; a cancellation
      leaves the request cancelled, a rejection rejected, and a recovery as it was. Row, receipt and review agree. */
  lemma StatusFollowsOrder(digest: Review -> string, books: Books, command: Command)
    requires CanPersist(books, command) && Executes(digest, books, command)
    ensures var after, receipt := Persisted(digest, books, command).0, Persisted(digest, books, command).1.value;
      && command.request in after.rows && receipt.status == after.rows[command.request].status
      && (match command.order
          case Offer(_, _) => receipt.status == OfferPending
          case AdjustPaid(fee, _) =>
            receipt.status == if fee > books.rows[command.request].fee then OfferPending else OfferAccepted
          case Resolve(Cancel, _) => receipt.status == receipt.review.after == RequestCancelled
          case Resolve(Reject, _) => receipt.status == receipt.review.after == RequestRejected
          case Resolve(RecoverRefund, _) =>
            receipt.status == receipt.review.after == books.rows[command.request].status)
  {}

  /** The fee is the one the command names, and stays in a resolution; only a resolution settles the uncovered
      credit; only an offer changes the terms. */
  lemma AmountsFollowOrder(digest: Review -> string, books: Books, command: Command)
    requires CanPersist(books, command) && Executes(digest, books, command)
    ensures var was, now := books.rows[command.request], Persisted(digest, books, command).0.rows[command.request];
      match command.order
      case Offer(fee, terms) => now.fee == fee && now.terms == terms && now.uncovered == was.uncovered
      case AdjustPaid(fee, _) => now.fee == fee && now.terms == was.terms && now.uncovered == was.uncovered
      case Resolve(_, _) => now.fee == was.fee && now.terms == was.terms && now.uncovered == 0
  {}

  /** A resolution that closes cancels the current invoice exactly if nothing was paid on it and it is no credit. */
  predicate ClosingCancelsCurrent(books: Books, command: Command)
    requires command.request in books.rows
  {
    var current := Current(books, command.request);
    && command.order.Resolve? && !command.order.action.RecoverRefund?
    && current.Some? && current.value.paid == 0 && !current.value.kind.Credit?
  }

  /** An offer replaces the current invoice by one of its fee; an increase adds one of the difference; nothing else
      adds one, and nothing else but closing cancels one. */
  lemma InvoicesFollowOrder(digest: Review -> string, books: Books, command: Command)
    requires CanPersist(books, command) && Executes(digest, books, command) && Inv(books)
    ensures var after, was := Persisted(digest, books, command).0, books.rows[command.request];
      var now, n := after.rows[command.request], |books.invoices|;
      match command.order
      case Offer(fee, _) =>
        && |after.invoices| == n + 1 && now.invoice == Some(n) && now.invoiceState == Some(Unpaid)
        && after.invoices[n] == Invoice(command.request, Unpaid, fee, 0, 0, Plain)
        && (was.invoice.Some? ==> after.invoices[was.invoice.value].state == InvoiceState.Cancelled)
      case AdjustPaid(fee, _) =>
        if fee > was.fee then
          && after.invoices == books.invoices + [Invoice(command.request, Unpaid, fee - was.fee, 0, 0, Plain)]
          && now.invoice == Some(n) && now.invoiceState == Some(Unpaid)
        else |after.invoices| == n && now.invoice == was.invoice && now.invoiceState == was.invoiceState
      case Resolve(_, _) =>
        && |after.invoices| == n && now.invoice == was.invoice
        && now.invoiceState == (if ClosingCancelsCurrent(books, command) then Some(InvoiceState.Cancelled)
                                else was.invoiceState)
  {
    CurrentIsOwn(books, command.request);
  }

  /** What a receipt says besides: the invoice that is now current, the one cancelled, and how many refunds were
      made; and it is kept, with the raw body, under the command's key. */
  lemma ReceiptIsKept(digest: Review -> string, books: Books, command: Command)
    requires CanPersist(books, command) && Executes(digest, books, command) && Inv(books)
    ensures var after, receipt := Persisted(digest, books, command).0, Persisted(digest, books, command).1.value;
      && receipt.invoice == after.rows[command.request].invoice
      && receipt.cancelled ==
           (if ClosingCancelsCurrent(books, command) then books.rows[command.request].invoice else None)
      && |after.refunds| == |books.refunds| + receipt.refunds
      && after.saved == books.saved[KeyOf(command) := Saved(command.raw, receipt)]
      && digest(receipt.review) == command.expected
      && (forall r :: r in books.rows && r != command.request ==> r in after.rows && after.rows[r] == books.rows[r])
  {}

  /** A new command is refused exactly if the balances do not cover it, or the review confirmed is another one;
      a refusal changes nothing. */
  lemma RefusedIff(digest: Review -> string, books: Books, command: Command)
    requires command.request in books.rows && KeyOf(command) !in books.saved
    requires command.order.AdjustPaid? ==> Current(books, command.request).Some?
    ensures var (after, result) := Persisted(digest, books, command);
      var was, available := books.rows[command.request], Available(books.invoices, command.request);
      && (result == Err(NotCovered) <==>
            match command.order
            case Offer(_, _) => false
            case AdjustPaid(fee, _) => fee < was.fee && available < was.fee - fee
            case Resolve(action, _) => action.RecoverRefund? && available < was.uncovered)
      && (result == Err(ReviewMismatch) <==>
            ReviewOf(books, command.request, command.order).Ok?
            && digest(ReviewOf(books, command.request, command.order).value) != command.expected)
      && (result.Ok? <==> result != Err(NotCovered) && result != Err(ReviewMismatch))
      && (result.Ok? <==> Executes(digest, books, command))
      && Step(digest, books, Do(command)) == if result.Ok? then after else books
  {}

  /** A resolution is shown with the request's status, the invoice it cancels and the credit it pays out: the uncovered
      one in a recovery, none otherwise. An adjustment is shown with the fee so far and the fee to come. */
  lemma ReviewTells(books: Books, command: Command)
    requires command.request in books.rows && (command.order.AdjustPaid? ==> Current(books, command.request).Some?)
    requires ReviewOf(books, command.request, command.order).Ok?
    ensures var review, was := ReviewOf(books, command.request, command.order).value, books.rows[command.request];
      review.request == command.request &&
      match command.order
      case Offer(fee, terms) =>
        && review.fee == fee && review.terms == terms
        && review.previous == Current(books, command.request)
      case AdjustPaid(fee, reason) =>
        review.previousFee == was.fee && review.revisedFee == fee && review.reason == reason
      case Resolve(action, reason) =>
        && review.action == action && review.before == was.status && review.reason == reason
        && review.uncovered == (match action { case RecoverRefund => was.uncovered case _ => 0 })
        && review.cancelled == (if ClosingCancelsCurrent(books, command) then was.invoice else None)
  {}

  /** A payment settles the current invoice in full and accepts the offer; nothing else changes. */
  lemma PaymentSettles(digest: Review -> string, books: Books, request: string)
    requires Inv(books) && request in books.rows && Current(books, request).Some?
    ensures var after, i := Step(digest, books, Pay(request)), books.rows[request].invoice.value;
      && i < |after.invoices| == |books.invoices|
      && after.invoices[i].state == Paid && after.invoices[i].total == books.invoices[i].total
      && after.invoices[i].paid == after.invoices[i].available == books.invoices[i].total
      && (forall k :: 0 <= k < |books.invoices| && k != i ==> after.invoices[k] == books.invoices[k])
      && after.rows[request].status == OfferAccepted && after.rows[request].invoiceState == Some(Paid)
      && after.rows[request].fee == books.rows[request].fee && after.refunds == books.refunds
  {
    CurrentIsOwn(books, request);
  }

  /** Refund progress: an invoice of the request on which something was paid ends refunded exactly if nothing is
      left of it, and partially refunded otherwise; no other invoice moves, and the row follows its current one. */
  lemma ProgressIs(digest: Review -> string, books: Books, request: string, i: nat)
    requires Inv(books) && request in books.rows && i < |books.invoices|
    ensures var after, was := Step(digest, books, Progress(request)), books.invoices[i];
      && |after.invoices| == |books.invoices|
      && after.invoices[i].available == was.available && after.invoices[i].paid == was.paid
      && (was.request == request && was.paid > 0 ==>
            (after.invoices[i].state == Refunded <==> was.available == 0)
            && (after.invoices[i].state == PartiallyRefunded <==> was.available > 0))
      && (was.request != request || was.paid == 0 ==> after.invoices[i] == was)
      && (Current(after, request).Some? ==>
            after.rows[request].invoiceState == Some(Current(after, request).value.state))
  {
    CurrentIsOwn(books, request);
  }

  lemma {:induction false} ReceiptsStay(digest: Review -> string, books: Books, events: seq<Event>, key: SavedKey)
    requires GuardedRun(digest, books, events) && key in books.saved
    ensures key in Run(digest, books, events).saved && Run(digest, books, events).saved[key] == books.saved[key]
    decreases |events|
  {
    if events != [] {
      ReceiptsStay(digest, Step(digest, books, events[0]), events[1..], key);
    }
  }

  /** Repeating a command after anything else has happened gives the first receipt again and changes
      nothing; another body under the same key is refused and changes nothing. */
  lemma ReplayIsHarmless(digest: Review -> string, books: Books, command: Command, events: seq<Event>, again: Command)
    requires CanPersist(books, command) && Persisted(digest, books, command).1.Ok?
    requires GuardedRun(digest, Persisted(digest, books, command).0, events)
    requires KeyOf(again) == KeyOf(command)
    ensures var later := Run(digest, Persisted(digest, books, command).0, events);
      && CanPersist(later, again)
      && Persisted(digest, later, again).0 == later
      && Persisted(digest, later, again).1 ==
           (if again.raw == command.raw then Persisted(digest, books, command).1 else Err(BodyChanged))
  {
    var after := Persisted(digest, books, command).0;
    ReceiptsStay(digest, after, events, KeyOf(command));
  }

  // ---------------------------------------------------------------- the stores

  /** The invoices once the first `k` allocations of a plan were taken off. */
  ghost predicate DrawnSoFar(before: seq<Invoice>, after: seq<Invoice>, plan: seq<Allocation>, k: nat)
    requires k <= |plan|
  {
    |after| == |before| && forall i :: 0 <= i < |before| ==>
      && Taken(plan[..k], i) <= before[i].available
      && after[i] == before[i].(available := before[i].available - Taken(plan[..k], i))
  }

  lemma TakenNext(plan: seq<Allocation>, k: nat, i: nat)
    requires k < |plan|
    ensures Taken(plan[..k + 1], i) == Taken(plan[..k], i) + if plan[k].invoice == i then plan[k].amount else 0
  {
    assert plan[..k + 1] == plan[..k] + [plan[k]];
    TakenJoins(plan[..k], [plan[k]], i);
  }

  lemma DrawNext(before: seq<Invoice>, after: seq<Invoice>, request: string, amount: nat, k: nat)
    requires k < |Plan(before, request, amount)| && DrawnSoFar(before, after, Plan(before, request, amount), k)
    ensures var allocation := Plan(before, request, amount)[k];
      var at := allocation.invoice;
      && at < |after| && allocation.amount <= after[at].available
      && DrawnSoFar(before, after[at := after[at].(available := after[at].available - allocation.amount)],
                    Plan(before, request, amount), k + 1)
  {
    PlanFits(before, request, amount, k);
    forall i | 0 <= i < |before|
      ensures Taken(Plan(before, request, amount)[..k + 1], i)
           == Taken(Plan(before, request, amount)[..k], i)
              + (if Plan(before, request, amount)[k].invoice == i then Plan(before, request, amount)[k].amount else 0)
           <= before[i].available
    {
      TakenNext(Plan(before, request, amount), k, i);
      TakenWithin(before, request, amount, k + 1, i);
    }
  }

  lemma DrawDone(before: seq<Invoice>, after: seq<Invoice>, request: string, amount: nat)
    requires DrawnSoFar(before, after, Plan(before, request, amount), |Plan(before, request, amount)|)
    ensures after == Drawn(before, request, amount)
  {
    var plan := Plan(before, request, amount);
    assert plan[..|plan|] == plan;
    DrawnAt(before, request, amount);
    forall i | 0 <= i < |before| ensures after[i] == Drawn(before, request, amount)[i] {
      PlanShares(before, request, amount, i);
    }
  }

  class Ledger {
    var invoices: seq<Invoice>
    var rows: map<string, Row>
    var refunds: seq<Allocation>
    var saved: map<SavedKey, Saved>

    constructor (invoices: seq<Invoice>, rows: map<string, Row>)
      ensures View() == Books(invoices, rows, [], map[])
    {
      this.invoices, this.rows := invoices, rows;
      refunds, saved := [], map[];
    }

    function View(): Books
      reads this
    {
      Books(invoices, rows, refunds, saved)
    }

    /** Takes every allocation of a plan off its invoice. */
    method Draw(request: string, ghost amount: nat, plan: seq<Allocation>)
      requires plan == Plan(invoices, request, amount)
      modifies this`invoices, this`refunds
      ensures invoices == Drawn(old(invoices), request, amount)
      ensures refunds == old(refunds) + plan
    {
      ghost var before := invoices;
      for k := 0 to |plan|
        invariant refunds == old(refunds) && DrawnSoFar(before, invoices, plan, k)
      {
        var at := plan[k].invoice;
        DrawNext(before, invoices, request, amount, k);
        invoices := invoices[at := invoices[at].(available := invoices[at].available - plan[k].amount)];
      }
      DrawDone(before, invoices, request, amount);
      refunds := refunds + plan;
    }

    /** What a person is shown before confirming; refused when the balances leave part of the sum over. */
    method ReviewFor(request: string, order: Order) returns (review: Result<Review, Fault>)
      requires request in rows && (order.AdjustPaid? ==> Current(View(), request).Some?)
      ensures review == ReviewOf(View(), request, order)
      ensures review == Err(NotCovered) <==> Available(invoices, request) < ToDraw(View(), request, order)
    {
      var row, current := rows[request], Current(View(), request);
      match order {
        case Offer(fee, terms) =>
          return Ok(OfferReview(request, fee, terms, current));
        case AdjustPaid(fee, reason) =>
          var plan, remaining := [], 0;
          if fee < row.fee {
            plan, remaining := PlanRefunds(invoices, request, Some(row.fee - fee));
          }
          if remaining > 0 { return Err(NotCovered); }
          return Ok(AdjustReview(request, row.fee, fee, reason, current.value, plan));
        case Resolve(action, reason) =>
          var recovery := action.RecoverRefund?;
          var plan, remaining := PlanRefunds(invoices, request, if recovery then Some(row.uncovered) else None);
          if remaining != 0 { return Err(NotCovered); }
          var cancelled := if !recovery && current.Some? && current.value.paid == 0 && !current.value.kind.Credit?
                           then row.invoice else None;
          return Ok(ResolveReview(request, action, row.status, After(row, action), reason, current, cancelled,
                                  if recovery then row.uncovered else 0, plan));
      }
    }

    method Persist(digest: Review -> string, command: Command) returns (result: Result<Receipt, Fault>)
      requires CanPersist(View(), command)
      modifies this
      ensures (View(), result) == Persisted(digest, old(View()), command)
    {
      var key := KeyOf(command);
      if key in saved {
        return if saved[key].raw == command.raw then Ok(saved[key].receipt) else Err(BodyChanged);
      }
      var request, order := command.request, command.order;
      var review := ReviewFor(request, order);
      if review.Err? { return Err(review.error); }
      if digest(review.value) != command.expected { return Err(ReviewMismatch); }
      var receipt := ReceiptOf(View(), request, order, review.value);
      var row := rows[request];
      match order {
        case Offer(fee, terms) =>
          var id := |invoices|;
          invoices := WithState(invoices, row.invoice, InvoiceState.Cancelled) + [NewInvoice(request, fee)];
          rows := rows[request := row.(fee := fee, terms := terms, status := OfferPending,
                                       invoice := Some(id), invoiceState := Some(Unpaid))];
        case AdjustPaid(fee, _) =>
          if fee > row.fee {
            rows := rows[request := row.(fee := fee, status := OfferPending,
                                         invoice := Some(|invoices|), invoiceState := Some(Unpaid))];
            invoices := invoices + [NewInvoice(request, fee - row.fee)];
          } else {
            Draw(request, row.fee - fee, review.value.plan);
            rows := rows[request := row.(fee := fee, status := OfferAccepted)];
          }
        case Resolve(action, _) =>
          Draw(request, ToDraw(View(), request, order), review.value.plan);
          var cancelled := review.value.cancelled;
          invoices := WithState(invoices, cancelled, InvoiceState.Cancelled);
          rows := rows[request := row.(status := After(row, action), uncovered := 0,
                         invoiceState := if cancelled.Some? then Some(InvoiceState.Cancelled) else row.invoiceState)];
      }
      saved := saved[key := Saved(command.raw, receipt)];
      return Ok(receipt);
    }

    method AcceptAndPay(request: string)
      requires request in rows && rows[request].invoice.Some? && rows[request].invoice.value < |invoices|
      modifies this`invoices, this`rows
      ensures View() == Paying(old(View()), request)
    {
      var row := rows[request];
      var invoice := invoices[row.invoice.value];
      var settled := invoice.(state := Paid, paid := invoice.total, available := invoice.total);
      invoices := invoices[row.invoice.value := settled];
      rows := rows[request := row.(status := OfferAccepted, invoiceState := Some(Paid))];
    }

    method ProgressRefunds(request: string)
      requires request in rows
      modifies this`invoices, this`rows
      ensures View() == Progressing(old(View()), request)
    {
      for i := 0 to |invoices|
        invariant |invoices| == |old(invoices)| && rows == old(rows)
        invariant forall k :: 0 <= k < i ==> invoices[k] == Progressed(old(invoices)[k], request)
        invariant forall k :: i <= k < |invoices| ==> invoices[k] == old(invoices)[k]
      {
        var invoice := invoices[i];
        if invoice.request == request && invoice.paid > 0 {
          invoices := invoices[i := invoice.(state := if invoice.available == 0 then Refunded else PartiallyRefunded)];
        }
      }
      assert invoices == Progressing(old(View()), request).invoices;
      var row := rows[request];
      if row.invoice.Some? && row.invoice.value < |invoices| {
        rows := rows[request := row.(invoiceState := Some(invoices[row.invoice.value].state))];
      }
    }

    /** Any sequence of guarded calls: the store follows the run, and the law holds throughout. */
    method Serve(digest: Review -> string, events: seq<Event>)
      requires Inv(View()) && GuardedRun(digest, View(), events)
      modifies this
      ensures View() == Run(digest, old(View()), events) && Inv(View())
    {
      ghost var start := View();
      for n := 0 to |events|
        invariant Inv(View()) && GuardedRun(digest, View(), events[n..])
        invariant Run(digest, View(), events[n..]) == Run(digest, start, events)
      {
        ghost var before := View();
        assert events[n..][1..] == events[n + 1..];
        KeepsIffGuard(digest, before, events[n]);
        match events[n] {
          case Do(command) => var _ := Persist(digest, command);
          case Pay(request) => AcceptAndPay(request);
          case Progress(request) => ProgressRefunds(request);
        }
      }
    }
  }
}
