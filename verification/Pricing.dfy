/** Tiers, the fixed price table and proration (backend/internal/plan/plan.go, offers.go,
    period.go). */
module Pricing {
  import opened Basics
  import opened Calendar

  datatype Plan = Free | Light | Basic | Pro | Max | Master
  datatype Term = Monthly | Annual

  function Rank(p: Plan): nat {
    match p
    case Free => 0 case Light => 1 case Basic => 2 case Pro => 3 case Max => 4 case Master => 5
  }

  predicate Billable(p: Plan) { p.Light? || p.Basic? || p.Pro? || p.Max? }

  datatype Offer = Offer(monthlyKRW: nat, annualKRW: nat, monthlyBonus: nat, serverExports: nat)

  /** offers.go: the commercial offer of a tier. The operator tier is not sold. */
  function CommercialOffer(p: Plan): Option<Offer> {
    match p
    case Free => Some(Offer(0, 0, 0, 0))
    case Light => Some(Offer(1900, 19000, 290, 0))
    case Basic => Some(Offer(4900, 49000, 510, 0))
    case Pro => Some(Offer(9900, 99000, 1070, 0))
    case Max => Some(Offer(29900, 299000, 3170, 60))
    case Master => None
  }

  /** subscription.go: offerQuote. */
  function OfferPrice(p: Plan, term: Term): (krw: int)
    requires Billable(p)
    ensures krw > 0
  {
    var offer := CommercialOffer(p).value;
    if term.Annual? then offer.annualKRW else offer.monthlyKRW
  }

  /** The quotient of n by d, and the least integer no smaller than the quotient. */
  function FloorDiv(n: int, d: int): int requires d > 0 { n / d }

  function CeilDiv(n: int, d: int): int requires d > 0 { n / d + if n % d > 0 then 1 else 0 }

  predicate Proratable(amount: int, start: Time, end: Time, at: Time) {
    0 <= amount && start < end && start <= at <= end
  }

  /** period.go: ProrateFloor and ProrateCeil, the part of `amount` for the time left. */
  function ProrateFloor(amount: int, start: Time, end: Time, at: Time): Option<int> {
    if !Proratable(amount, start, end, at) then None
    else Some(FloorDiv(amount * (end - at), end - start))
  }

  function ProrateCeil(amount: int, start: Time, end: Time, at: Time): Option<int> {
    if !Proratable(amount, start, end, at) then None
    else Some(CeilDiv(amount * (end - at), end - start))
  }

  datatype UpgradeAmounts = UpgradeAmounts(chargeKRW: int, bonusCredits: int, serverExports: int)

  function Price(p: Plan, annual: bool): int
    requires !p.Master?
  {
    var offer := CommercialOffer(p).value;
    if annual then offer.annualKRW else offer.monthlyKRW
  }

  /** period.go: QuoteUpgrade; None is ErrInvalidProration. */
  function QuoteUpgrade(current: Plan, next: Plan, annual: bool, paidStart: Time, paidEnd: Time,
                        benefitStart: Time, benefitEnd: Time, at: Time): Option<UpgradeAmounts>
  {
    if current.Master? || next.Master? || current.Free? || Rank(next) <= Rank(current) then None
    else
      var older, newer := CommercialOffer(current).value, CommercialOffer(next).value;
      var charge := ProrateCeil(Price(next, annual) - Price(current, annual), paidStart, paidEnd, at);
      var bonus := ProrateCeil(newer.monthlyBonus - older.monthlyBonus, benefitStart, benefitEnd, at);
      var exports := ProrateFloor(newer.serverExports - older.serverExports, benefitStart, benefitEnd, at);
      if charge.None? || bonus.None? || exports.None? then None
      else Some(UpgradeAmounts(charge.value, bonus.value, exports.value))
  }

  lemma MulMonotone(a: int, b: int, c: int)
    requires a <= b && 0 <= c
    ensures a * c <= b * c
  {}

  /** CeilDiv is the only integer whose multiple of d reaches n while the one below does not. */
  lemma CeilDivUnique(n: int, d: int, q: int)
    requires d > 0
    ensures (q - 1) * d < n <= q * d <==> q == CeilDiv(n, d)
  {
    var c := CeilDiv(n, d);
    assert n == d * (n / d) + n % d;
    assert (c - 1) * d < n <= c * d;
    if q < c { MulMonotone(q, c - 1, d); }
    if c < q { MulMonotone(c, q - 1, d); }
  }

  /** Rounding up two parts separately costs at most one more than rounding their sum. */
  lemma CeilOfSum(m: int, n: int, d: int)
    requires d > 0
    ensures CeilDiv(m + n, d) <= CeilDiv(m, d) + CeilDiv(n, d) <= CeilDiv(m + n, d) + 1
  {
    hide CeilDiv;
    var a, b, c := CeilDiv(m, d), CeilDiv(n, d), CeilDiv(m + n, d);
    CeilDivUnique(m, d, a);
    CeilDivUnique(n, d, b);
    CeilDivUnique(m + n, d, c);
    assert (a - 1) * d + (b - 1) * d == (a + b - 2) * d;
    assert a * d + b * d == (a + b) * d;
    if a + b < c { MulMonotone(a + b, c - 1, d); }
    if c < a + b - 1 { MulMonotone(c, a + b - 2, d); }
  }

  lemma CeilDivMonotone(m: int, n: int, d: int)
    requires d > 0 && m <= n
    ensures CeilDiv(m, d) <= CeilDiv(n, d)
  {
    hide CeilDiv;
    CeilDivUnique(m, d, CeilDiv(m, d));
    CeilDivUnique(n, d, CeilDiv(n, d));
    if CeilDiv(n, d) < CeilDiv(m, d) { MulMonotone(CeilDiv(n, d), CeilDiv(m, d) - 1, d); }
  }

  /** A part for time left is nothing only at the end, the whole amount at the start, and never
      grows as time passes. */
  lemma ProrationFalls(amount: int, start: Time, end: Time, at: Time, later: Time)
    requires Proratable(amount, start, end, at) && Proratable(amount, start, end, later) && at <= later
    ensures 0 <= ProrateCeil(amount, start, end, later).value <= ProrateCeil(amount, start, end, at).value <= amount
    ensures ProrateCeil(amount, start, end, start).value == amount
    ensures ProrateCeil(amount, start, end, at).value == 0 <==> amount == 0 || at == end
  {
    hide CeilDiv;
    var d := end - start;
    MulMonotone(0, end - later, amount);
    MulMonotone(end - later, end - at, amount);
    MulMonotone(end - at, d, amount);
    CeilDivUnique(0, d, 0);
    CeilDivUnique(amount * d, d, amount);
    CeilDivMonotone(0, amount * (end - later), d);
    CeilDivMonotone(amount * (end - later), amount * (end - at), d);
    CeilDivMonotone(amount * (end - at), amount * d, d);
    if amount > 0 && at < end {
      MulMonotone(1, end - at, amount);
      CeilDivUnique(1, d, 1);
      CeilDivMonotone(1, amount * (end - at), d);
    }
  }

  /** Inside the paid term an upgrade always charges something, and never more than the whole
      price difference: the refusal of a non-positive amount cannot be reached from a quote. */
  lemma UpgradeCharges(current: Plan, next: Plan, annual: bool, paidStart: Time, paidEnd: Time,
                       benefitStart: Time, benefitEnd: Time, at: Time)
    ensures var quote := QuoteUpgrade(current, next, annual, paidStart, paidEnd, benefitStart, benefitEnd, at);
            && (quote.Some? <==> && !current.Free? && !next.Master? && Rank(current) < Rank(next)
                                 && paidStart <= at <= paidEnd && paidStart < paidEnd
                                 && benefitStart <= at <= benefitEnd && benefitStart < benefitEnd)
            && (quote.Some? && at < paidEnd ==>
                  0 < quote.value.chargeKRW <= Price(next, annual) - Price(current, annual))
  {
    hide ProrateCeil, ProrateFloor;
    if !current.Free? && !next.Master? && Rank(current) < Rank(next) {
      var older, newer := CommercialOffer(current).value, CommercialOffer(next).value;
      var difference := Price(next, annual) - Price(current, annual);
      assert difference > 0;
      ProrationDefined(difference, paidStart, paidEnd, at);
      ProrationDefined(newer.monthlyBonus - older.monthlyBonus, benefitStart, benefitEnd, at);
      ProrationDefined(newer.serverExports - older.serverExports, benefitStart, benefitEnd, at);
      if Proratable(difference, paidStart, paidEnd, at) {
        ProrationFalls(difference, paidStart, paidEnd, at, at);
      }
    }
  }

  lemma ProrationDefined(amount: int, start: Time, end: Time, at: Time)
    ensures ProrateCeil(amount, start, end, at).Some? <==> Proratable(amount, start, end, at)
    ensures ProrateFloor(amount, start, end, at).Some? <==> Proratable(amount, start, end, at)
  {}

  /** Two upgrades in a row at one instant cost what the direct one costs, up to one won of
      rounding. */
  lemma UpgradesTelescope(a: Plan, b: Plan, c: Plan, annual: bool, paidStart: Time, paidEnd: Time,
                          benefitStart: Time, benefitEnd: Time, at: Time)
    requires var q := (x, y) => QuoteUpgrade(x, y, annual, paidStart, paidEnd, benefitStart, benefitEnd, at);
             q(a, b).Some? && q(b, c).Some?
    ensures var q := (x, y) => QuoteUpgrade(x, y, annual, paidStart, paidEnd, benefitStart, benefitEnd, at);
            && q(a, c).Some?
            && q(a, c).value.chargeKRW <= q(a, b).value.chargeKRW + q(b, c).value.chargeKRW
                 <= q(a, c).value.chargeKRW + 1
  {
    hide ProrateFloor;
    UpgradeCharges(a, b, annual, paidStart, paidEnd, benefitStart, benefitEnd, at);
    UpgradeCharges(b, c, annual, paidStart, paidEnd, benefitStart, benefitEnd, at);
    UpgradeCharges(a, c, annual, paidStart, paidEnd, benefitStart, benefitEnd, at);
    var x, y := Price(b, annual) - Price(a, annual), Price(c, annual) - Price(b, annual);
    hide CeilDiv, Price;
    assert x * (paidEnd - at) + y * (paidEnd - at) == (x + y) * (paidEnd - at);
    CeilOfSum(x * (paidEnd - at), y * (paidEnd - at), paidEnd - paidStart);
  }
}
