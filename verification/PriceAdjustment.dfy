/** Changing the price of electricity that is still to be delivered: every paid invoice is a component
    billed over its own term, and only the part of the term after the effective date is repriced. */
module PriceAdjustment {
  import opened Wrappers
  import opened Rounding

  /** A paid invoice (a credit when negative) and its term, in milliseconds. */
  datatype Component = Component(invoiceId: string, amount: int, start: int, end: int)

  datatype Priced = Priced(component: Component, eligibleFrom: int, remaining: nat, period: nat,
                           future: int, change: int)

  datatype Quote = Quote(amount: int, oldFuture: int, newFuture: int, charge: bool, components: seq<Priced>)

  datatype Refusal = PercentageOutOfRange | NoBasis | InvalidBasis | NoPositivePrice | NotPayable

  const MAX_IRR := 9_223_372_036_854_775_807

  predicate ValidBps(bps: int) {
    bps != 0 && -10_000 < bps <= MAX_IRR
  }

  predicate ValidBasis(component: Component) {
    component.amount != 0 && component.start < component.end
  }

  function Max(a: int, b: int): int {
    if a < b then b else a
  }

  function Price(component: Component, from: int, bps: int): (p: Priced)
    requires ValidBasis(component)
    ensures p.period > 0 && p.remaining <= p.period
  {
    var eligibleFrom := Max(component.start, from);
    var remaining, period := Max(0, component.end - eligibleFrom), component.end - component.start;
    Priced(component, eligibleFrom, remaining, period,
           RoundSigned(component.amount * remaining, period),
           RoundSigned(component.amount * bps * remaining, 10_000 * period))
  }

  ghost predicate AllValid(components: seq<Component>) {
    forall i :: 0 <= i < |components| ==> ValidBasis(components[i])
  }

  function Prices(components: seq<Component>, from: int, bps: int): (r: seq<Priced>)
    requires forall i :: 0 <= i < |components| ==> ValidBasis(components[i])
    ensures |r| == |components|
    ensures forall i :: 0 <= i < |r| ==> r[i] == Price(components[i], from, bps)
  {
    seq(|components|, i requires 0 <= i < |components| => Price(components[i], from, bps))
  }

  function Change(priced: seq<Priced>): int {
    if priced == [] then 0 else Change(priced[..|priced| - 1]) + priced[|priced| - 1].change
  }

  function Future(priced: seq<Priced>): int {
    if priced == [] then 0 else Future(priced[..|priced| - 1]) + priced[|priced| - 1].future
  }

  /** The verdict on what the components add up to. */
  ghost function Verdict(change: int, future: int, priced: seq<Priced>): Result<Quote, Refusal> {
    if future + change <= 0 then Err(NoPositivePrice)
    else if change == 0 || change > MAX_IRR || change < -MAX_IRR then Err(NotPayable)
    else Ok(Quote(change, future, future + change, change > 0, priced))
  }

  /** The outcome of a request, by what it adds up to. */
  ghost function Outcome(components: seq<Component>, from: int, bps: int): Result<Quote, Refusal> {
    if !ValidBps(bps) then Err(PercentageOutOfRange)
    else if components == [] then Err(NoBasis)
    else if !AllValid(components) then Err(InvalidBasis)
    else
      var priced := Prices(components, from, bps);
      Verdict(Change(priced), Future(priced), priced)
  }

  method Calculate(components: seq<Component>, from: int, bps: int) returns (result: Result<Quote, Refusal>)
    ensures result == Outcome(components, from, bps)
  {
    if bps == 0 || bps <= -10_000 || bps > MAX_IRR { return Err(PercentageOutOfRange); }
    if components == [] { return Err(NoBasis); }
    var amount, oldFuture, calculation := 0, 0, [];
    for i := 0 to |components|
      invariant forall k :: 0 <= k < i ==> ValidBasis(components[k])
      invariant calculation == Prices(components[..i], from, bps)
      invariant amount == Change(calculation) && oldFuture == Future(calculation)
    {
      if components[i].amount == 0 || components[i].end <= components[i].start {
        assert !ValidBasis(components[i]);
        return Err(InvalidBasis);
      }
      var priced := Price(components[i], from, bps);
      assert (calculation + [priced])[..|calculation|] == calculation;
      calculation := calculation + [priced];
      amount, oldFuture := amount + priced.change, oldFuture + priced.future;
    }
    assert components[..|components|] == components;
    if oldFuture + amount <= 0 { return Err(NoPositivePrice); }
    if amount == 0 || amount > MAX_IRR || amount < -MAX_IRR { return Err(NotPayable); }
    return Ok(Quote(amount, oldFuture, oldFuture + amount, amount > 0, calculation));
  }

  /** What is refused before anything is added up: a percentage of 0, of -100% or less, or beyond the limit; no
      components; or a component of nothing, or without a term. */
  lemma EarlyRefusals(components: seq<Component>, from: int, bps: int)
    ensures var ranged := -10_000 < bps < 9_223_372_036_854_775_808 && bps != 0;
      var empty := exists i :: 0 <= i < |components| &&
                     (components[i].amount == 0 || components[i].end <= components[i].start);
      && (Outcome(components, from, bps) == Err(PercentageOutOfRange) <==> !ranged)
      && (Outcome(components, from, bps) == Err(NoBasis) <==> ranged && components == [])
      && (Outcome(components, from, bps) == Err(InvalidBasis) <==> ranged && components != [] && empty)
  {}

  // ---------------------------------------------------------------- one component

  /** The repriced value of a component is within one IRR of the exact one. */
  lemma ComponentWithinOne(component: Component, from: int, bps: int)
    requires ValidBasis(component)
    ensures var p := Price(component, from, bps);
      var unit := 10_000 * p.period;
      (p.future + p.change) * unit - unit
        <= component.amount * p.remaining * (10_000 + bps)
        <= (p.future + p.change) * unit + unit
  {
    var p := Price(component, from, bps);
    var x := component.amount * p.remaining;
    Reorder(component.amount, bps, p.remaining);
    SignedWithinHalf(x, p.period);
    SignedWithinHalf(x * bps, 10_000 * p.period);
    HalvesAdd(p.period, x, x * bps, p.future, p.change);
    assert x * (10_000 + bps) == 10_000 * x + x * bps;
  }

  /** Two values, each within half a unit of its exact one, add up to one within a unit. */
  lemma HalvesAdd(period: nat, x: int, y: int, future: int, change: int)
    requires 2 * period * future - period <= 2 * x <= 2 * period * future + period
    requires 2 * (10_000 * period) * change - 10_000 * period <= 2 * y
    requires 2 * y <= 2 * (10_000 * period) * change + 10_000 * period
    ensures (future + change) * (10_000 * period) - 10_000 * period
         <= 10_000 * x + y
         <= (future + change) * (10_000 * period) + 10_000 * period
  {
    var f, c := period * future, period * change;
    assert 2 * period * future == 2 * f;
    assert 2 * (10_000 * period) * change == 20_000 * c;
    assert (future + change) * (10_000 * period) == 10_000 * (f + c);
  }

  lemma Reorder(a: int, b: int, c: int)
    ensures a * b * c == a * c * b
  {}

  lemma Lower(x: nat, b: int, c: int)
    requires b <= c
    ensures x * b <= x * c
  {}

  /** The change at a percentage, on a component that is not a credit, is monotone in the percentage. */
  lemma ChangeIsMonotone(component: Component, from: int, low: int, high: int)
    requires ValidBasis(component) && component.amount >= 0 && low <= high
    ensures Price(component, from, low).change <= Price(component, from, high).change
  {
    var p := Price(component, from, low);
    Lower(component.amount * p.remaining, low, high);
    Reorder(component.amount, low, p.remaining);
    Reorder(component.amount, high, p.remaining);
    SignedIsMonotone(component.amount * low * p.remaining, component.amount * high * p.remaining, 10_000 * p.period);
  }

  /** Taking everything off takes off exactly the future value. */
  lemma WholeDecrease(component: Component, from: int)
    requires ValidBasis(component) && component.amount >= 0
    ensures Price(component, from, -10_000).change == -Price(component, from, -10_000).future
  {
    var p := Price(component, from, -10_000);
    var x: nat := component.amount * p.remaining;
    Reorder(component.amount, -10_000, p.remaining);
    assert component.amount * -10_000 * p.remaining == -(10_000 * x);
    SignedIsOdd(10_000 * x, 10_000 * p.period);
    SameRounding(10_000 * x, 10_000 * p.period);
    HalfUpCancels(x, p.period, 10_000);
    SameRounding(x, p.period);
  }

  lemma NoChange(component: Component, from: int)
    requires ValidBasis(component)
    ensures Price(component, from, 0).change == 0
  {
    var p := Price(component, from, 0);
    SignedIsOdd(0, 10_000 * p.period);
    assert component.amount * 0 * p.remaining == 0;
  }

  /** A paid component is never repriced below zero, and the change has the sign of the percentage. */
  lemma ComponentStaysPayable(component: Component, from: int, bps: int)
    requires ValidBasis(component) && component.amount >= 0 && bps >= -10_000
    ensures var p := Price(component, from, bps);
      && p.future >= 0 && p.future + p.change >= 0
      && (bps >= 0 ==> p.change >= 0) && (bps <= 0 ==> p.change <= 0)
  {
    var p := Price(component, from, bps);
    SignedIsNearest(component.amount * p.remaining, p.period);
    WholeDecrease(component, from);
    NoChange(component, from);
    ChangeIsMonotone(component, from, -10_000, bps);
    if bps >= 0 { ChangeIsMonotone(component, from, 0, bps); }
    if bps <= 0 { ChangeIsMonotone(component, from, bps, 0); }
  }

  /** Delivery before the effective date is not repriced. */
  lemma PastIsUntouched(component: Component, from: int, bps: int)
    requires ValidBasis(component) && from >= component.end
    ensures Price(component, from, bps).future == 0 && Price(component, from, bps).change == 0
  {
    var p := Price(component, from, bps);
    assert p.remaining == 0;
    SignedIsOdd(0, p.period);
    SignedIsOdd(0, 10_000 * p.period);
    assert component.amount * p.remaining == 0 && component.amount * bps * p.remaining == 0;
  }

  // ---------------------------------------------------------------- the whole quote

  ghost function Exact(components: seq<Component>, from: int, bps: int): real
    requires AllValid(components)
  {
    if components == [] then 0.0
    else
      var last := components[|components| - 1];
      var p := Price(last, from, bps);
      Exact(components[..|components| - 1], from, bps)
        + (last.amount * p.remaining * (10_000 + bps)) as real / (10_000 * p.period) as real
  }

  lemma DividesUp(low: real, exact: real, unit: real)
    requires unit > 0.0 && low * unit <= exact
    ensures low <= exact / unit
  {
    assert exact / unit * unit == exact;
    if exact / unit < low { ScaleReal(exact / unit, low, unit); }
  }

  lemma DividesDown(high: real, exact: real, unit: real)
    requires unit > 0.0 && exact <= high * unit
    ensures exact / unit <= high
  {
    assert exact / unit * unit == exact;
    if high < exact / unit { ScaleReal(high, exact / unit, unit); }
  }

  lemma ScaleReal(a: real, b: real, unit: real)
    requires a < b && unit > 0.0
    ensures a * unit < b * unit
  {}

  lemma RealProduct(a: int, b: int)
    ensures (a * b) as real == a as real * b as real
  {}

  lemma QuotientWithin(value: int, unit: nat, exact: int)
    requires unit > 0 && value * unit - unit <= exact <= value * unit + unit
    ensures (value - 1) as real <= exact as real / unit as real <= (value + 1) as real
  {
    assert (value - 1) * unit == value * unit - unit && (value + 1) * unit == value * unit + unit;
    RealProduct(value - 1, unit);
    RealProduct(value + 1, unit);
    DividesUp((value - 1) as real, exact as real, unit as real);
    DividesDown((value + 1) as real, exact as real, unit as real);
  }

  /** The new price of all that is left is within one IRR per component of the exact one. */
  lemma {:induction false} QuoteWithinOneEach(components: seq<Component>, from: int, bps: int)
    requires AllValid(components)
    ensures var priced := Prices(components, from, bps);
      (Future(priced) + Change(priced) - |components|) as real
        <= Exact(components, from, bps)
        <= (Future(priced) + Change(priced) + |components|) as real
  {
    if components != [] {
      var n := |components| - 1;
      var p := Price(components[n], from, bps);
      QuoteWithinOneEach(components[..n], from, bps);
      assert Prices(components, from, bps)[..n] == Prices(components[..n], from, bps);
      ComponentWithinOne(components[n], from, bps);
      QuotientWithin(p.future + p.change, 10_000 * p.period, components[n].amount * p.remaining * (10_000 + bps));
    }
  }

  // ---------------------------------------------------------------- paid invoices and earlier credits

  /** The earlier credits among the components, or the paid invoices among them. */
  ghost function Part(priced: seq<Priced>, credits: bool): seq<Priced> {
    if priced == [] then []
    else
      var n := |priced| - 1;
      if (priced[n].component.amount < 0) == credits then Part(priced[..n], credits) + [priced[n]]
      else Part(priced[..n], credits)
  }

  lemma SumsNext(priced: seq<Priced>, last: Priced)
    ensures Future(priced + [last]) == Future(priced) + last.future
    ensures Change(priced + [last]) == Change(priced) + last.change
  {
    assert (priced + [last])[..|priced|] == priced;
  }

  /** The last component counts in its own part and not in the other. */
  lemma PartNext(priced: seq<Priced>, credits: bool)
    requires priced != []
    ensures var n := |priced| - 1;
      var part, before := Part(priced, credits), Part(priced[..n], credits);
      var mine := (priced[n].component.amount < 0) == credits;
      && Future(part) == Future(before) + (if mine then priced[n].future else 0)
      && Change(part) == Change(before) + (if mine then priced[n].change else 0)
  {
    var n := |priced| - 1;
    SumsNext(Part(priced[..n], credits), priced[n]);
  }

  lemma {:induction false} PartsAddUp(priced: seq<Priced>)
    ensures Future(priced) == Future(Part(priced, false)) + Future(Part(priced, true))
    ensures Change(priced) == Change(Part(priced, false)) + Change(Part(priced, true))
  {
    if priced != [] {
      var n := |priced| - 1;
      PartsAddUp(priced[..n]);
      PartNext(priced, false);
      PartNext(priced, true);
    }
  }

  /** A credit is repriced to the opposite of what an invoice over the same amount is. */
  lemma CreditMirrorsInvoice(component: Component, from: int, bps: int)
    requires ValidBasis(component)
    ensures var p, m := Price(component, from, bps), Price(component.(amount := -component.amount), from, bps);
      m.future == -p.future && m.change == -p.change
  {
    var p := Price(component, from, bps);
    assert -component.amount * p.remaining == -(component.amount * p.remaining);
    NegatedProduct(component.amount, bps, p.remaining);
    SignedIsOdd(component.amount * p.remaining, p.period);
    SignedIsOdd(component.amount * bps * p.remaining, 10_000 * p.period);
  }

  lemma NegatedProduct(a: int, b: int, c: int)
    ensures -a * b * c == -(a * b * c)
  {
    assert -a * b == -(a * b);
  }

  /** What is left stays on its side of zero, and the change goes the way of the percentage. */
  predicate Payable(future: int, change: int, bps: int) {
    future >= 0 && future + change >= 0 && (bps >= 0 ==> change >= 0) && (bps <= 0 ==> change <= 0)
  }

  predicate OnItsSide(p: Priced, bps: int) {
    if p.component.amount < 0 then Payable(-p.future, -p.change, bps) else Payable(p.future, p.change, bps)
  }

  lemma PriceIsOnItsSide(component: Component, from: int, bps: int)
    requires ValidBasis(component) && bps >= -10_000
    ensures OnItsSide(Price(component, from, bps), bps)
  {
    if component.amount < 0 {
      CreditMirrorsInvoice(component, from, bps);
      ComponentStaysPayable(component.(amount := -component.amount), from, bps);
    } else {
      ComponentStaysPayable(component, from, bps);
    }
  }

  lemma {:induction false} PartsKeepTheirSides(priced: seq<Priced>, bps: int)
    requires forall i :: 0 <= i < |priced| ==> OnItsSide(priced[i], bps)
    ensures Payable(Future(Part(priced, false)), Change(Part(priced, false)), bps)
    ensures Payable(-Future(Part(priced, true)), -Change(Part(priced, true)), bps)
  {
    if priced != [] {
      var n := |priced| - 1;
      assert OnItsSide(priced[n], bps);
      PartsKeepTheirSides(priced[..n], bps);
      PartNext(priced, false);
      PartNext(priced, true);
    }
  }

  function Abs(x: int): nat {
    if x < 0 then -x else x
  }

  /** Two sums that pull apart: the total goes the way of the larger. */
  lemma VerdictOfParts(future: int, change: int, futureCredit: int, changeCredit: int, priced: seq<Priced>, bps: int)
    requires bps != 0 && Payable(future, change, bps) && Payable(-futureCredit, -changeCredit, bps)
    ensures var verdict := Verdict(change + changeCredit, future + futureCredit, priced);
      && (verdict.Ok? ==>
            && (verdict.value.charge == (bps > 0) <==> Abs(change) > Abs(changeCredit))
            && 0 < verdict.value.newFuture == verdict.value.oldFuture + verdict.value.amount)
      && (verdict == Err(NoPositivePrice) <==> future + change <= Abs(futureCredit + changeCredit))
      && (verdict == Err(NotPayable) <==>
            && future + change > Abs(futureCredit + changeCredit)
            && (Abs(change) == Abs(changeCredit) || Abs(change + changeCredit) > MAX_IRR))
  {}

  /** Every well-formed request: the quote leaves something to pay; an increase is a charge, and a decrease a
      credit, exactly when the paid invoices change by more than the earlier credits do; and a request is
      refused for want of a price exactly when the repriced credits use up the repriced invoices. */
  lemma QuoteTheorem(components: seq<Component>, from: int, bps: int)
    requires ValidBps(bps) && components != [] && AllValid(components)
    ensures var outcome, priced := Outcome(components, from, bps), Prices(components, from, bps);
      var paid, credits := Part(priced, false), Part(priced, true);
      && (outcome.Ok? ==>
            && (outcome.value.charge == (bps > 0) <==> Abs(Change(paid)) > Abs(Change(credits)))
            && 0 < outcome.value.newFuture == outcome.value.oldFuture + outcome.value.amount)
      && (outcome == Err(NoPositivePrice) <==>
            Future(paid) + Change(paid) <= Abs(Future(credits) + Change(credits)))
      && (outcome == Err(NotPayable) <==>
            && Future(paid) + Change(paid) > Abs(Future(credits) + Change(credits))
            && (Abs(Change(paid)) == Abs(Change(credits)) || Abs(Change(paid) + Change(credits)) > MAX_IRR))
  {
    var priced := Prices(components, from, bps);
    forall i | 0 <= i < |priced| ensures OnItsSide(priced[i], bps) {
      PriceIsOnItsSide(components[i], from, bps);
    }
    PartsAddUp(priced);
    PartsKeepTheirSides(priced, bps);
    var paid, credits := Part(priced, false), Part(priced, true);
    VerdictOfParts(Future(paid), Change(paid), Future(credits), Change(credits), priced, bps);
  }

  ghost predicate NoCredits(components: seq<Component>) {
    forall i :: 0 <= i < |components| ==> components[i].amount >= 0
  }

  lemma {:induction false} AllPaid(priced: seq<Priced>)
    requires forall i :: 0 <= i < |priced| ==> priced[i].component.amount >= 0
    ensures Part(priced, false) == priced && Part(priced, true) == []
  {
    if priced != [] {
      AllPaid(priced[..|priced| - 1]);
    }
  }

  /** Without earlier credits an increase is always a charge and a decrease a credit, and what is refused
      leaves no price or changes nothing by a whole IRR. */
  lemma PaidQuoteTheorem(components: seq<Component>, from: int, bps: int)
    requires ValidBps(bps) && components != [] && AllValid(components) && NoCredits(components)
    ensures var outcome, priced := Outcome(components, from, bps), Prices(components, from, bps);
      && (outcome.Ok? ==>
            && outcome.value.charge == (bps > 0)
            && 0 < outcome.value.newFuture == outcome.value.oldFuture + outcome.value.amount)
      && (outcome == Err(NoPositivePrice) <==> Future(priced) + Change(priced) == 0)
      && (outcome == Err(NotPayable) ==> Change(priced) == 0 || Change(priced) > MAX_IRR || Change(priced) < -MAX_IRR)
  {
    var priced := Prices(components, from, bps);
    AllPaid(priced);
    forall i | 0 <= i < |priced| ensures OnItsSide(priced[i], bps) {
      PriceIsOnItsSide(components[i], from, bps);
    }
    PartsKeepTheirSides(priced, bps);
    VerdictOfParts(Future(priced), Change(priced), 0, 0, priced, bps);
  }

  // ---------------------------------------------------------------- the kind of a quote, read off the request

  function Remaining(component: Component, from: int): nat {
    Max(0, component.end - Max(component.start, from))
  }

  /** What is left of a component, at its old price and without rounding. */
  function BasisOf(component: Component, from: int): real
    requires ValidBasis(component)
  {
    (component.amount * Remaining(component, from)) as real / (component.end - component.start) as real
  }

  function SumOf(terms: seq<real>): real {
    if terms == [] then 0.0 else SumOf(terms[..|terms| - 1]) + terms[|terms| - 1]
  }

  function Bases(components: seq<Component>, from: int): seq<real>
    requires forall i :: 0 <= i < |components| ==> ValidBasis(components[i])
  {
    seq(|components|, i requires 0 <= i < |components| => BasisOf(components[i], from))
  }

  /** What is left of them all, credits taken off. */
  ghost function NetBasis(components: seq<Component>, from: int): real
    requires AllValid(components)
  {
    SumOf(Bases(components, from))
  }

  lemma CrossDivide(q: real, k: real, d: real, low: real, high: real)
    requires d > 0.0 && low * d <= q * d * k <= high * d
    ensures low <= q * k <= high
  {
    var y := q * k;
    assert q * d * k == y * d;
    if y < low { ScaleReal(y, low, d); }
    if high < y { ScaleReal(high, y, d); }
  }

  lemma WithinUnits(x: int, bps: int, period: nat, low: int, high: int)
    requires period > 0 && low * period <= x * bps <= high * period
    ensures low as real <= x as real / period as real * bps as real <= high as real
  {
    var q := x as real / period as real;
    assert q * period as real == x as real;
    RealProduct(low, period);
    RealProduct(high, period);
    RealProduct(x, bps);
    CrossDivide(q, bps as real, period as real, low as real, high as real);
  }

  lemma HalfUnits(change: int, period: nat, n: int)
    requires 2 * (10_000 * period) * change - 10_000 * period <= 2 * n
    requires 2 * n <= 2 * (10_000 * period) * change + 10_000 * period
    ensures (10_000 * change - 5_000) * period <= n <= (10_000 * change + 5_000) * period
  {
    var c := period * change;
    assert 2 * (10_000 * period) * change == 20_000 * c;
    assert (10_000 * change - 5_000) * period == 10_000 * c - 5_000 * period;
    assert (10_000 * change + 5_000) * period == 10_000 * c + 5_000 * period;
  }

  predicate WithinHalf(exact: real, change: int) {
    (10_000 * change - 5_000) as real <= exact <= (10_000 * change + 5_000) as real
  }

  lemma RoundedWithinHalf(x: int, bps: int, period: nat)
    requires period > 0
    ensures WithinHalf(x as real / period as real * bps as real, RoundSigned(x * bps, 10_000 * period))
  {
    var change := RoundSigned(x * bps, 10_000 * period);
    SignedWithinHalf(x * bps, 10_000 * period);
    HalfUnits(change, period, x * bps);
    WithinUnits(x, bps, period, 10_000 * change - 5_000, 10_000 * change + 5_000);
  }

  /** A component's change, times 10,000, is within half a unit of the percentage of its basis. */
  lemma ShareWithinHalf(component: Component, from: int, bps: int)
    requires ValidBasis(component)
    ensures ShareHolds(BasisOf(component, from), bps as real, Price(component, from, bps))
  {
    var remaining, period := Remaining(component, from), component.end - component.start;
    Reorder(component.amount, bps, remaining);
    RoundedWithinHalf(component.amount * remaining, bps, period);
    assert Price(component, from, bps).change == RoundSigned(component.amount * remaining * bps, 10_000 * period);
  }

  lemma RealDistributes(a: real, b: real, k: real)
    ensures (a + b) * k == a * k + b * k
  {}

  predicate WithinHalves(exact: real, change: int, n: nat) {
    (10_000 * change - 5_000 * n) as real <= exact <= (10_000 * change + 5_000 * n) as real
  }

  lemma HalvesAddUp(basis: real, share: real, k: real, change: int, more: int, n: nat)
    requires WithinHalves(basis * k, change, n) && WithinHalf(share * k, more)
    ensures WithinHalves((basis + share) * k, change + more, n + 1)
  {
    RealDistributes(basis, share, k);
  }

  predicate ShareHolds(term: real, k: real, p: Priced) {
    WithinHalf(term * k, p.change)
  }

  /** The change is within half an IRR per component of the percentage of the exact basis. */
  lemma {:induction false} SharesAddUp(terms: seq<real>, priced: seq<Priced>, k: real)
    requires SharesHold(terms, k, priced)
    ensures WithinHalves(SumOf(terms) * k, Change(priced), |priced|)
  {
    if priced != [] {
      var n := |priced| - 1;
      SharesAddUp(terms[..n], priced[..n], k);
      assert ShareHolds(terms[n], k, priced[n]);
      HalvesAddUp(SumOf(terms[..n]), terms[n], k, Change(priced[..n]), priced[n].change, n);
    }
  }

  lemma ShareAt(components: seq<Component>, from: int, bps: int, i: nat)
    requires AllValid(components) && i < |components|
    ensures ShareHolds(Bases(components, from)[i], bps as real, Prices(components, from, bps)[i])
  {
    ShareWithinHalf(components[i], from, bps);
  }

  ghost predicate SharesHold(terms: seq<real>, k: real, priced: seq<Priced>) {
    |terms| == |priced| && forall i :: 0 <= i < |priced| ==> ShareHolds(terms[i], k, priced[i])
  }

  lemma AllSharesHold(components: seq<Component>, from: int, bps: int)
    requires AllValid(components)
    ensures SharesHold(Bases(components, from), bps as real, Prices(components, from, bps))
  {
    var terms, priced := Bases(components, from), Prices(components, from, bps);
    forall i | 0 <= i < |priced| ensures ShareHolds(terms[i], bps as real, priced[i]) {
      ShareAt(components, from, bps, i);
    }
  }

  lemma SignOfProduct(a: real, b: real)
    ensures a > 0.0 ==> (a * b > 0.0 <==> b > 0.0)
  {}

  lemma SignOfChange(change: int, exact: real, n: nat)
    requires WithinHalves(exact, change, n) && (exact > (5_000 * n) as real || exact < (-5_000 * n) as real)
    ensures change != 0 && (change > 0 <==> exact > 0.0)
  {}

  /** The percentage of the basis exceeds what rounding the components can cost. */
  predicate Clear(basis: real, bps: int, n: nat) {
    basis * bps as real > (5_000 * n) as real || basis * bps as real < (-5_000 * n) as real
  }

  lemma KindOfVerdict(exact: real, change: int, future: int, priced: seq<Priced>, n: nat)
    requires WithinHalves(exact, change, n) && (exact > (5_000 * n) as real || exact < (-5_000 * n) as real)
    ensures var verdict := Verdict(change, future, priced);
      (verdict.Ok? ==> verdict.value.charge == (exact > 0.0)) && change != 0
  {
    SignOfChange(change, exact, n);
  }

  lemma KindOfShares(terms: seq<real>, bps: int, priced: seq<Priced>, exact: real)
    requires SharesHold(terms, bps as real, priced) && exact == SumOf(terms) * bps as real
    requires exact > (5_000 * |priced|) as real || exact < (-5_000 * |priced|) as real
    ensures var verdict := Verdict(Change(priced), Future(priced), priced);
      (verdict.Ok? ==> verdict.value.charge == (exact > 0.0)) && Change(priced) != 0
  {
    SharesAddUp(terms, priced, bps as real);
    KindOfVerdict(exact, Change(priced), Future(priced), priced, |priced|);
  }

  lemma KindOfBasis(terms: seq<real>, bps: int, priced: seq<Priced>, basis: real)
    requires SharesHold(terms, bps as real, priced) && basis == SumOf(terms) && Clear(basis, bps, |priced|)
    ensures var verdict := Verdict(Change(priced), Future(priced), priced);
      && (verdict.Ok? ==> verdict.value.charge == (basis * bps as real > 0.0))
      && (verdict.Ok? && basis > 0.0 ==> verdict.value.charge == (bps > 0))
      && Change(priced) != 0
  {
    KindOfShares(terms, bps, priced, basis * bps as real);
    SignOfProduct(basis, bps as real);
  }

  /** When the percentage of the exact net basis exceeds the half units that rounding the components can cost,
      the quote's kind follows the request: a charge for an increase of a positive basis, a credit for a
      decrease of one. */
  lemma KindFollowsBasis(components: seq<Component>, from: int, bps: int)
    requires ValidBps(bps) && components != [] && AllValid(components)
    requires Clear(NetBasis(components, from), bps, |components|)
    ensures var outcome, basis := Outcome(components, from, bps), NetBasis(components, from);
      && (outcome.Ok? ==> outcome.value.charge == (basis * bps as real > 0.0))
      && (outcome.Ok? && basis > 0.0 ==> outcome.value.charge == (bps > 0))
      && Change(Prices(components, from, bps)) != 0
  {
    AllSharesHold(components, from, bps);
    KindOfBasis(Bases(components, from), bps, Prices(components, from, bps), NetBasis(components, from));
  }

  // ---------------------------------------------------------------- an increase that ends in a credit

  lemma {:induction false} LevelSums(priced: seq<Priced>, first: Priced)
    requires |priced| > 0 && priced[0] == first
    requires forall i :: 1 <= i < |priced| ==> priced[i].future == priced[i].change == -1
    ensures Future(priced) == first.future - |priced| + 1 && Change(priced) == first.change - |priced| + 1
  {
    if |priced| == 1 {
      assert priced[..0] == [];
    } else {
      LevelSums(priced[..|priced| - 1], first);
    }
  }

  lemma ExampleInvoice(component: Component)
    requires component == Component("invoice", 10, 0, 1)
    ensures Price(component, 0, 5_000).future == 10 && Price(component, 0, 5_000).change == 5
  {
    var p := Price(component, 0, 5_000);
    assert component.amount * p.remaining == 10 && component.amount * 5_000 * p.remaining == 50_000;
    assert 10_000 * p.period == 10_000;
  }

  lemma ExampleCredit(component: Component)
    requires component == Component("credit", -1, 0, 1)
    ensures Price(component, 0, 5_000).future == -1 && Price(component, 0, 5_000).change == -1
  {
    var p := Price(component, 0, 5_000);
    assert component.amount * p.remaining == -1 && component.amount * 5_000 * p.remaining == -5_000;
    assert 10_000 * p.period == 10_000;
  }

  /** With credits, each rounded by itself, an increase by half can end in a credit: 5 more for an invoice of 10,
      and 1 less for each of six credits of 1. */
  lemma IncreaseCanBeCredit(components: seq<Component>)
    requires |components| == 7 && components[0] == Component("invoice", 10, 0, 1)
    requires forall i :: 1 <= i < 7 ==> components[i] == Component("credit", -1, 0, 1)
    ensures var outcome := Outcome(components, 0, 5_000);
      outcome.Ok? && !outcome.value.charge && outcome.value.amount == -1 && outcome.value.oldFuture == 4
  {
    var priced := Prices(components, 0, 5_000);
    ExampleInvoice(components[0]);
    forall i | 1 <= i < 7 ensures priced[i].future == priced[i].change == -1 {
      ExampleCredit(components[i]);
    }
    LevelSums(priced, priced[0]);
  }

  lemma {:induction false} NothingLeft(components: seq<Component>, from: int, bps: int)
    requires AllValid(components) && forall i :: 0 <= i < |components| ==> components[i].end <= from
    ensures var priced := Prices(components, from, bps); Future(priced) == 0 && Change(priced) == 0
  {
    if components != [] {
      var n := |components| - 1;
      NothingLeft(components[..n], from, bps);
      assert Prices(components, from, bps)[..n] == Prices(components[..n], from, bps);
      PastIsUntouched(components[n], from, bps);
    }
  }

  /** A date after every term is refused: there is nothing left to reprice. */
  lemma ElapsedIsRefused(components: seq<Component>, from: int, bps: int)
    requires ValidBps(bps) && components != [] && AllValid(components)
    requires forall i :: 0 <= i < |components| ==> components[i].end <= from
    ensures Outcome(components, from, bps) == Err(NoPositivePrice)
  {
    NothingLeft(components, from, bps);
  }
}
