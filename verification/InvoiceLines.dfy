/** Invoice totals: an order discount absorbed by the lines in order, VAT on what is left of each line, and
    the inputs that are refused. */
module InvoiceLines {
  import opened Wrappers
  import opened Text
  import opened Rounding

  datatype Line = Line(description: string, quantity: int, unitPrice: int, vatRate: int, taxable: bool)

  /** A line after its discount: `total` is what VAT is computed on. */
  datatype Charged = Charged(line: Line, discount: int, total: int, vat: int)

  datatype Invoice = Invoice(lines: seq<Charged>, total: int, discount: int)

  datatype Fault =
    | NoLines | NegativeDiscount | EmptyDescription | BadQuantity | NegativeUnitPrice | BadVatRate
    | DiscountExceedsInvoice | ZeroTotal

  const MAX_SAFE_INTEGER := 0x1F_FFFF_FFFF_FFFF

  predicate ValidLine(line: Line) {
    && 0 < line.quantity <= MAX_SAFE_INTEGER
    && 0 <= line.unitPrice
    && 0 <= line.vatRate <= 10_000
  }

  predicate AllValid(lines: seq<Line>) {
    forall i :: 0 <= i < |lines| ==> ValidLine(lines[i])
  }

  function Gross(line: Line): int {
    line.quantity * line.unitPrice
  }

  function TotalGross(lines: seq<Line>): int {
    if lines == [] then 0 else TotalGross(lines[..|lines| - 1]) + Gross(lines[|lines| - 1])
  }

  /** The line at `i` takes what the lines before it have left of the discount, up to its own price. */
  function Absorbed(lines: seq<Line>, discount: int, i: nat): int
    requires i < |lines|
  {
    var rest := discount - TotalGross(lines[..i]);
    if rest <= 0 then 0 else if rest < Gross(lines[i]) then rest else Gross(lines[i])
  }

  function VatOf(line: Line, total: nat): nat
    requires ValidLine(line)
  {
    if line.taxable then RoundHalfUpDiv(total * line.vatRate, 10_000) else 0
  }

  function Amount(lines: seq<Charged>): int {
    if lines == [] then 0
    else Amount(lines[..|lines| - 1]) + lines[|lines| - 1].total + lines[|lines| - 1].vat
  }

  function Discounts(lines: seq<Charged>): int {
    if lines == [] then 0 else Discounts(lines[..|lines| - 1]) + lines[|lines| - 1].discount
  }

  function Vats(lines: seq<Charged>): int {
    if lines == [] then 0 else Vats(lines[..|lines| - 1]) + lines[|lines| - 1].vat
  }

  /** A line's share of the discount, and half-up VAT on what is left of it. */
  predicate ChargeOf(line: Line, share: int, charged: Charged) {
    && ValidLine(line) && charged.line == line
    && charged.discount == share
    && charged.total == Gross(line) - share >= 0
    && charged.vat == VatOf(line, charged.total)
  }

  /** The first lines, charged in order. */
  ghost predicate Charges(lines: seq<Line>, discount: int, charged: seq<Charged>) {
    && |charged| <= |lines|
    && forall i :: 0 <= i < |charged| ==> ChargeOf(lines[i], Absorbed(lines, discount, i), charged[i])
  }

  function LineFault(line: Line): Option<Fault> {
    if line.quantity <= 0 || line.quantity > MAX_SAFE_INTEGER then Some(BadQuantity)
    else if line.unitPrice < 0 then Some(NegativeUnitPrice)
    else if line.vatRate < 0 || line.vatRate > 10_000 then Some(BadVatRate)
    else None
  }

  /** A line is refused for the first of these: a quantity that is not positive or not a safe integer, a negative
      price, a rate beyond 100%. Any other line is valid. */
  lemma FaultNamesReason(line: Line)
    ensures var counted := 1 <= line.quantity <= 9007199254740991;
      && (LineFault(line) == Some(BadQuantity) <==> !counted)
      && (LineFault(line) == Some(NegativeUnitPrice) <==> counted && line.unitPrice <= -1)
      && (LineFault(line) == Some(BadVatRate) <==> counted && line.unitPrice > -1 && !(-1 < line.vatRate < 10_001))
      && (LineFault(line).None? <==> counted && line.unitPrice > -1 && -1 < line.vatRate < 10_001)
      && (LineFault(line).None? <==> ValidLine(line))
  {}

  lemma GrossOfLine(line: Line)
    requires ValidLine(line)
    ensures Gross(line) >= 0
  {}

  lemma TotalGrossNext(lines: seq<Line>, i: nat)
    requires i < |lines|
    ensures TotalGross(lines[..i + 1]) == TotalGross(lines[..i]) + Gross(lines[i])
  {
    assert lines[..i + 1][..i] == lines[..i];
  }

  lemma {:induction false} GrossIsPositive(lines: seq<Line>)
    requires AllValid(lines)
    ensures TotalGross(lines) >= 0
  {
    if lines != [] {
      GrossIsPositive(lines[..|lines| - 1]);
      GrossOfLine(lines[|lines| - 1]);
    }
  }

  /** The lines absorb the discount in order, as far as they can. */
  lemma {:induction false} AbsorbedAddsUp(lines: seq<Line>, discount: nat, charged: seq<Charged>)
    requires Charges(lines, discount, charged)
    ensures var gross := TotalGross(lines[..|charged|]);
      gross >= 0 && Discounts(charged) == if discount < gross then discount else gross
  {
    if charged != [] {
      var n := |charged| - 1;
      AbsorbedAddsUp(lines, discount, charged[..n]);
      TotalGrossNext(lines, n);
      GrossOfLine(lines[n]);
      assert ChargeOf(lines[n], Absorbed(lines, discount, n), charged[n]);
    }
  }

  /** The invoice is the price of its lines, less the discount, plus the VAT of what is left. */
  lemma {:induction false} AmountAddsUp(lines: seq<Line>, discount: int, charged: seq<Charged>)
    requires Charges(lines, discount, charged)
    ensures Amount(charged) == TotalGross(lines[..|charged|]) - Discounts(charged) + Vats(charged)
  {
    if charged != [] {
      var n := |charged| - 1;
      AmountAddsUp(lines, discount, charged[..n]);
      TotalGrossNext(lines, n);
      assert ChargeOf(lines[n], Absorbed(lines, discount, n), charged[n]);
    }
  }

  lemma VatWithinPrice(line: Line, total: nat)
    requires ValidLine(line)
    ensures VatOf(line, total) <= total
  {
    var n := total * line.vatRate;
    assert n <= total * 10_000;
    HalfUpIsMonotone(n, 10_000 * total, 10_000);
    HalfUpWhole(total, 10_000);
  }

  lemma {:induction false} VatsWithinPrice(lines: seq<Line>, discount: int, charged: seq<Charged>)
    requires Charges(lines, discount, charged)
    ensures 0 <= Vats(charged) <= TotalGross(lines[..|charged|]) - Discounts(charged)
  {
    if charged != [] {
      var n := |charged| - 1;
      VatsWithinPrice(lines, discount, charged[..n]);
      TotalGrossNext(lines, n);
      assert ChargeOf(lines[n], Absorbed(lines, discount, n), charged[n]);
      VatWithinPrice(lines[n], charged[n].total);
    }
  }

  /** The exact VAT of the taxable lines, times 10,000. */
  function ExactVat(charged: seq<Charged>): int {
    if charged == [] then 0
    else
      var last := charged[|charged| - 1];
      ExactVat(charged[..|charged| - 1]) + if last.line.taxable then last.total * last.line.vatRate else 0
  }

  /** Rounding at every line costs at most half an IRR for each. */
  lemma {:induction false} VatsWithinHalfEach(lines: seq<Line>, discount: int, charged: seq<Charged>)
    requires Charges(lines, discount, charged)
    ensures -10_000 * |charged| <= 20_000 * Vats(charged) - 2 * ExactVat(charged) <= 10_000 * |charged|
  {
    if charged != [] {
      var n := |charged| - 1;
      VatsWithinHalfEach(lines, discount, charged[..n]);
      assert ChargeOf(lines[n], Absorbed(lines, discount, n), charged[n]);
      HalfUpIsNearest(charged[n].total * lines[n].vatRate, 10_000);
    }
  }

  /** An invoice costs nothing exactly when the discount covers all of it. */
  lemma FreeIffCovered(lines: seq<Line>, discount: nat, charged: seq<Charged>)
    requires Charges(lines, discount, charged) && |charged| == |lines| && discount <= TotalGross(lines)
    ensures Discounts(charged) == discount
    ensures Amount(charged) == 0 <==> discount == TotalGross(lines)
    ensures 0 <= Amount(charged) <= 2 * (TotalGross(lines) - discount)
  {
    assert lines[..|charged|] == lines;
    AbsorbedAddsUp(lines, discount, charged);
    AmountAddsUp(lines, discount, charged);
    VatsWithinPrice(lines, discount, charged);
  }

  // ---------------------------------------------------------------- the calculations

  method FirstFault(lines: seq<Line>) returns (fault: Option<Fault>)
    ensures fault.None? <==> AllValid(lines)
    ensures fault.Some? ==> exists i :: 0 <= i < |lines| && fault == LineFault(lines[i]) && AllValid(lines[..i])
  {
    for i := 0 to |lines|
      invariant forall k :: 0 <= k < i ==> ValidLine(lines[k])
    {
      fault := LineFault(lines[i]);
      if fault.Some? { return; }
    }
    return None;
  }

  /** What is left of a discount once the lines before `i` have taken their shares. */
  function LeftOver(lines: seq<Line>, discount: nat, i: nat): int
    requires i <= |lines|
  {
    if discount < TotalGross(lines[..i]) then 0 else discount - TotalGross(lines[..i])
  }

  function Share(remaining: int, gross: int): int {
    if remaining > 0 then (if remaining < gross then remaining else gross) else 0
  }

  /** One turn of the loop: the next line takes its share of what the lines before it left. */
  lemma NextShare(lines: seq<Line>, discount: nat, i: nat)
    requires i < |lines| && ValidLine(lines[i]) && TotalGross(lines[..i]) >= 0
    ensures var taken := Share(LeftOver(lines, discount, i), Gross(lines[i]));
      && taken == Absorbed(lines, discount, i) && 0 <= taken <= Gross(lines[i])
      && TotalGross(lines[..i + 1]) >= 0
      && LeftOver(lines, discount, i) - taken == LeftOver(lines, discount, i + 1)
  {
    GrossOfLine(lines[i]);
    TotalGrossNext(lines, i);
  }

  lemma NextCharge(lines: seq<Line>, discount: nat, charged: seq<Charged>, next: Charged)
    requires Charges(lines, discount, charged) && |charged| < |lines|
    requires ChargeOf(lines[|charged|], Absorbed(lines, discount, |charged|), next)
    ensures Charges(lines, discount, charged + [next])
  {}

  /** Lets the lines absorb a discount in order; what is left over is returned. */
  method ChargeLines(lines: seq<Line>, discount: nat) returns (charged: seq<Charged>, remaining: int)
    requires AllValid(lines)
    ensures |charged| == |lines| && Charges(lines, discount, charged)
    ensures remaining == if discount < TotalGross(lines) then 0 else discount - TotalGross(lines)
  {
    charged, remaining := [], discount;
    for i := 0 to |lines|
      invariant |charged| == i && Charges(lines, discount, charged)
      invariant TotalGross(lines[..i]) >= 0
      invariant remaining == LeftOver(lines, discount, i)
    {
      NextShare(lines, discount, i);
      var gross := Gross(lines[i]);
      var taken := if remaining > 0 then (if remaining < gross then remaining else gross) else 0;
      var next := Charged(lines[i], taken, gross - taken, VatOf(lines[i], gross - taken));
      NextCharge(lines, discount, charged, next);
      remaining := remaining - taken;
      charged := charged + [next];
    }
    assert lines[..|lines|] == lines;
  }

  method SumUp(charged: seq<Charged>) returns (amount: int, discounts: int)
    ensures amount == Amount(charged) && discounts == Discounts(charged)
  {
    amount, discounts := 0, 0;
    for i := 0 to |charged|
      invariant amount == Amount(charged[..i]) && discounts == Discounts(charged[..i])
    {
      assert charged[..i + 1][..i] == charged[..i];
      amount, discounts := amount + charged[i].total + charged[i].vat, discounts + charged[i].discount;
    }
    assert charged[..|charged|] == charged;
  }

  /** Any lines, any discount: either one fault of the inputs, or an invoice that absorbs the whole discount. */
  method CalculateAuto(lines: seq<Line>, discount: int) returns (result: Result<Invoice, Fault>)
    ensures result.Ok? <==>
        lines != [] && discount >= 0 && AllValid(lines) && discount <= TotalGross(lines) && TotalGross(lines) > 0
    ensures result.Ok? ==>
        && |result.value.lines| == |lines| && Charges(lines, discount, result.value.lines)
        && result.value.total == Amount(result.value.lines)
        && result.value.discount == Discounts(result.value.lines) == discount
    ensures result == Err(NoLines) <==> lines == []
    ensures result == Err(NegativeDiscount) <==> lines != [] && discount < 0
    ensures lines != [] && discount >= 0 && !AllValid(lines) ==>
        exists i :: 0 <= i < |lines| && AllValid(lines[..i]) && LineFault(lines[i]).Some? &&
                    result == Err(LineFault(lines[i]).value)
    ensures result == Err(DiscountExceedsInvoice) <==>
        lines != [] && discount >= 0 && AllValid(lines) && discount > TotalGross(lines)
    ensures result == Err(ZeroTotal) <==>
        lines != [] && discount == 0 && AllValid(lines) && TotalGross(lines) == 0
  {
    if lines == [] { return Err(NoLines); }
    if discount < 0 { return Err(NegativeDiscount); }
    var fault := FirstFault(lines);
    if fault.Some? { return Err(fault.value); }
    var charged, remaining := ChargeLines(lines, discount);
    GrossIsPositive(lines);
    if remaining > 0 { return Err(DiscountExceedsInvoice); }
    FreeIffCovered(lines, discount, charged);
    var amount, discounts := SumUp(charged);
    if amount == 0 && discounts == 0 { return Err(ZeroTotal); }
    return Ok(Invoice(charged, amount, discounts));
  }

  predicate Blank(text: string) {
    forall i :: 0 <= i < |text| ==> IsSpace(text[i] as int)
  }

  /** Blank is a text of nothing but white space, the empty one included. */
  lemma BlankIff(text: string)
    ensures Blank(text) <==> forall c :: c in text ==> IsSpace(c as int)
  {
    forall i | 0 <= i < |text| ensures text[i] in text {}
  }

  /** An invoice entered by hand: no discount, every line described, and a price above zero. */
  method CalculateManual(lines: seq<Line>) returns (result: Result<Invoice, Fault>)
    ensures result.Ok? <==>
        && lines != [] && AllValid(lines) && TotalGross(lines) > 0
        && forall i :: 0 <= i < |lines| ==> !Blank(lines[i].description)
    ensures result.Ok? ==>
        && |result.value.lines| == |lines| && Charges(lines, 0, result.value.lines)
        && result.value.total == Amount(result.value.lines) == TotalGross(lines) + Vats(result.value.lines)
    ensures result == Err(NoLines) <==> lines == []
    ensures result == Err(ZeroTotal) <==>
        && lines != [] && AllValid(lines) && TotalGross(lines) == 0
        && forall i :: 0 <= i < |lines| ==> !Blank(lines[i].description)
    ensures result.Err? && result.error != NoLines && result.error != ZeroTotal ==>
        exists i ::
          && 0 <= i < |lines| && AllValid(lines[..i]) && (forall k :: 0 <= k < i ==> !Blank(lines[k].description))
          && (if Blank(lines[i].description) then result == Err(EmptyDescription)
              else LineFault(lines[i]) == Some(result.error))
  {
    if lines == [] { return Err(NoLines); }
    for i := 0 to |lines|
      invariant forall k :: 0 <= k < i ==> !Blank(lines[k].description) && ValidLine(lines[k])
    {
      if Blank(lines[i].description) { return Err(EmptyDescription); }
      var fault := LineFault(lines[i]);
      if fault.Some? { return Err(fault.value); }
    }
    var charged, _ := ChargeLines(lines, 0);
    var amount, _ := SumUp(charged);
    GrossIsPositive(lines);
    FreeIffCovered(lines, 0, charged);
    AmountAddsUp(lines, 0, charged);
    assert lines[..|charged|] == lines;
    if amount <= 0 { return Err(ZeroTotal); }
    return Ok(Invoice(charged, amount, 0));
  }
}
