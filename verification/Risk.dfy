/** The risk of an invoice: by amount and delay, or by what the model predicts, which is a decimal that is rounded away
    from zero to a 32-bit integer before it is compared. */
module Risk {
  import opened Options

  const LOW := "Low"
  const MEDIUM := "Medium"
  const HIGH := "High"
  const LATE := "Late"
  const DEFAULT_MODEL := "anomaly-classifier-predictor"

  // ---------- decimals ----------

  function Pow10(n: nat): (p: nat)
    ensures p > 0
  {
    if n == 0 then 1 else 10 * Pow10(n - 1)
  }

  /** `unscaled` times ten to the power of `-scale`. */
  datatype Decimal = Decimal(unscaled: int, scale: int)

  /** The exact comparison with an integer. */
  predicate Above(d: Decimal, t: int) {
    if d.scale > 0 then d.unscaled > t * Pow10(d.scale) else d.unscaled * Pow10(-d.scale) > t
  }

  /** `setScale(0, RoundingMode.UP)`: a quotient truncated towards zero, and one further from zero if anything is
      left. */
  function RoundUp(d: Decimal): int {
    if d.scale <= 0 then d.unscaled * Pow10(-d.scale) else
    var p := Pow10(d.scale);
    if d.unscaled >= 0
    then d.unscaled / p + (if d.unscaled % p == 0 then 0 else 1)
    else -((-d.unscaled) / p + (if (-d.unscaled) % p == 0 then 0 else 1))
  }

  /** `intValue`: the low 32 bits, with sign. */
  function Low32(n: int): int { (n + 0x8000_0000) % 0x1_0000_0000 - 0x8000_0000 }

  predicate Fits32(n: int) { -0x8000_0000 <= n < 0x8000_0000 }

  /** The low 32 bits are the one integer of 32 bits that differs from the whole by a multiple of 2 to the power of 32,
      so an integer is kept iff it has 32 bits. */
  lemma Low32IsCongruent(n: int)
    ensures -2_147_483_648 <= Low32(n) <= 2_147_483_647 && (Low32(n) - n) % 4_294_967_296 == 0
    ensures Low32(n) == n <==> Fits32(n)
  {
  }

  /** The rounded-up quotient exceeds a bound exactly when the dividend exceeds the bound's multiple. */
  lemma CeilingAbove(u: nat, p: nat, t: nat)
    requires p > 0
    ensures u / p + (if u % p == 0 then 0 else 1) > t <==> u > t * p
  {
    var q, r := u / p, u % p;
    assert u == q * p + r;
    if q > t { assert q * p >= (t + 1) * p; } else if q < t { assert (q + 1) * p <= t * p; }
  }

  /** What is left over counts as one more. */
  function Ceiling(u: nat, p: nat): nat
    requires p > 0
  {
    u / p + (if u % p == 0 then 0 else 1)
  }

  lemma CeilingTwice(u: nat, p: nat)
    requires p > 0
    ensures Ceiling(u, 10 * p) == Ceiling(Ceiling(u, 10), p)
  {
    SameSide(u, p, Ceiling(u, 10 * p));
    SameSide(u, p, Ceiling(Ceiling(u, 10), p));
  }

  lemma SameSide(u: nat, p: nat, t: nat)
    requires p > 0
    ensures Ceiling(u, 10 * p) > t <==> Ceiling(Ceiling(u, 10), p) > t
  {
    assert Ceiling(u, 10 * p) > t <==> u > t * (10 * p) by { CeilingAbove(u, 10 * p, t); }
    assert Ceiling(Ceiling(u, 10), p) > t <==> Ceiling(u, 10) > t * p by { CeilingAbove(Ceiling(u, 10), p, t); }
    assert Ceiling(u, 10) > t * p <==> u > (t * p) * 10 by { CeilingAbove(u, 10, t * p); }
    Regrouped(t, p);
  }

  lemma Regrouped(t: nat, p: nat)
    ensures t * (10 * p) == (t * p) * 10
  {
  }

  // Rounding away from zero, without powers of ten: an integer stays and one decimal place goes to the next integer
  // away from zero; of several places the last can be rounded first; a zero behind the last digit changes nothing; and
  // signs do not matter.

  lemma RoundsOnePlace(u: int)
    ensures RoundUp(Decimal(u, 0)) == u
    ensures var n := RoundUp(Decimal(u, 1)); u >= 0 ==> 10 * n >= u > 10 * (n - 1)
    ensures u % 10 == 0 ==> 10 * RoundUp(Decimal(u, 1)) == u
  {
    assert Pow10(1) == 10 * Pow10(0) == 10;
  }

  lemma RoundsPlaceByPlace(u: int, s: nat)
    ensures RoundUp(Decimal(u, s + 1)) == RoundUp(Decimal(RoundUp(Decimal(u, 1)), s))
  {
    assert Pow10(1) == 10 * Pow10(0) && Pow10(s + 1) == 10 * Pow10(s);
    Rounded(u, 1);
    Rounded(u, s + 1);
    Rounded(RoundUp(Decimal(u, 1)), s);
    CeilingTwice(if u >= 0 then u else -u, Pow10(s));
  }

  lemma {:induction false} Rounded(u: int, s: nat)
    ensures RoundUp(Decimal(u, s)) == if u >= 0 then Ceiling(u, Pow10(s)) else -(Ceiling(-u, Pow10(s)) as int)
  {
  }

  lemma RoundsTrailingZero(u: int, s: int)
    ensures RoundUp(Decimal(10 * u, s + 1)) == RoundUp(Decimal(u, s))
  {
    if s >= 0 {
      RoundsPlaceByPlace(10 * u, s);
      RoundsOnePlace(10 * u);
    } else {
      assert 10 * u * Pow10(-s - 1) == u * Pow10(-s);
    }
  }

  lemma RoundsMirrored(u: int, s: int)
    ensures RoundUp(Decimal(-u, s)) == -RoundUp(Decimal(u, s))
  {
    if s <= 0 { assert (-u) * Pow10(-s) == -(u * Pow10(-s)); }
  }

  lemma NegativeBelow(u: nat, p: nat, b: nat)
    requires p > 0
    ensures u / p >= 0 && b * p >= 0
  {
  }

  /** Rounding away from zero does not move a decimal across a bound that is a natural number. */
  lemma RoundingKeepsAbove(d: Decimal, t: nat)
    ensures RoundUp(d) > t <==> Above(d, t)
  {
    if d.scale > 0 {
      if d.unscaled >= 0 {
        CeilingAbove(d.unscaled, Pow10(d.scale), t);
      } else {
        NegativeBelow(-d.unscaled, Pow10(d.scale), t);
      }
    }
  }

  // ---------- classes ----------

  /** The successive tests on an integer. */
  function ClassOf(out: int): string { if out > 100 then HIGH else if out > 50 then MEDIUM else LOW }

  /** The same tests on the exact decimal. */
  function ExactClass(d: Decimal): string { if Above(d, 100) then HIGH else if Above(d, 50) then MEDIUM else LOW }

  /** The comparison without powers of ten. */
  lemma AboveByPlace(u: int, s: int, t: int)
    ensures Above(Decimal(u, 0), t) <==> u > t
    ensures Above(Decimal(10 * u, s + 1), t) <==> Above(Decimal(u, s), t)
    ensures AtLeast(Decimal(u, s), t) <==> !Above(Decimal(-u, s), -t)
  {
    if s >= 0 {
      assert t * Pow10(s + 1) == 10 * (t * Pow10(s));
      assert (-t) * Pow10(s) == -(t * Pow10(s));
    } else {
      assert 10 * u * Pow10(-s - 1) == u * Pow10(-s);
      assert (-u) * Pow10(-s) == -(u * Pow10(-s));
    }
  }

  lemma ClassesDiffer()
    ensures LOW != MEDIUM && MEDIUM != HIGH && LOW != HIGH
  {
  }

  /** The class of the rounded and truncated prediction is that of the exact decimal if the rounded integer fits into
      32 bits; if it does not, the two agree only when the low bits happen to fall on the right side. */
  lemma RoundingAgrees(d: Decimal)
    ensures var n := RoundUp(d);
            ClassOf(Low32(n)) == ExactClass(d)
            <==> Fits32(n) || (n > 0 && Low32(n) > 100) || (n < 0 && Low32(n) <= 50)
  {
    RoundingKeepsAbove(d, 50);
    RoundingKeepsAbove(d, 100);
    ClassesDiffer();
  }

  /** Truncation can turn the highest prediction into the lowest class: two to the power of 32 has no low bits. */
  lemma OverflowIsLow()
    ensures var d := Decimal(0x1_0000_0000, 0); ExactClass(d) == HIGH && ClassOf(Low32(RoundUp(d))) == LOW
  {
  }

  /** The other rounding that needs no look at the remainder: towards zero. */
  function RoundDown(d: Decimal): int {
    if d.scale <= 0 then d.unscaled * Pow10(-d.scale)
    else if d.unscaled >= 0 then d.unscaled / Pow10(d.scale)
    else -((-d.unscaled) / Pow10(d.scale))
  }

  /** The exact comparison with an integer, equality included. */
  predicate AtLeast(d: Decimal, t: int) {
    if d.scale > 0 then d.unscaled >= t * Pow10(d.scale) else d.unscaled * Pow10(-d.scale) >= t
  }

  lemma FloorAbove(u: nat, p: nat, t: nat)
    requires p > 0
    ensures u / p > t <==> u >= (t + 1) * p
  {
    var q, r := u / p, u % p;
    assert u == q * p + r;
    if q > t { assert q * p >= (t + 1) * p; } else { assert (q + 1) * p <= (t + 1) * p; }
  }

  lemma RoundingDownAbove(d: Decimal, t: nat)
    ensures RoundDown(d) > t <==> AtLeast(d, t + 1)
  {
    if d.scale > 0 {
      if d.unscaled >= 0 { FloorAbove(d.unscaled, Pow10(d.scale), t); }
      else { NegativeBelow(-d.unscaled, Pow10(d.scale), t + 1); }
    }
  }

  lemma AtLeastIsAbove(d: Decimal, t: int)
    ensures AtLeast(d, t + 1) ==> Above(d, t)
    ensures Above(d, t + 1) ==> AtLeast(d, t + 1)
  {
    if d.scale > 0 { assert (t + 1) * Pow10(d.scale) == t * Pow10(d.scale) + Pow10(d.scale); }
  }

  lemma {:induction false} AtLeastDescends(d: Decimal, t: int, n: nat)
    requires AtLeast(d, t + n)
    ensures AtLeast(d, t)
    decreases n
  {
    if n > 0 {
      AtLeastIsAbove(d, t + n - 1);
      AtLeastIsAbove(d, t + n - 2);
      AtLeastDescends(d, t, n - 1);
    }
  }

  /** The rounding mode matters: rounding towards zero gives a wrong class exactly to the decimals strictly between 50
      and 51 and strictly between 100 and 101. */
  lemma RoundingDownDisagrees(d: Decimal)
    ensures ClassOf(RoundDown(d)) != ExactClass(d)
            <==> (Above(d, 50) && !AtLeast(d, 51)) || (Above(d, 100) && !AtLeast(d, 101))
  {
    RoundingDownAbove(d, 50);
    RoundingDownAbove(d, 100);
    AtLeastIsAbove(d, 50);
    AtLeastIsAbove(d, 100);
    AtLeastIsAbove(d, 99);
    if AtLeast(d, 100) { AtLeastDescends(d, 51, 49); }
    ClassesDiffer();
  }

  // ---------- invoices ----------

  /** A float: a number, an infinity, or none. Comparisons with what is no number are false. */
  datatype Amount = Finite(value: real) | PlusInfinity | MinusInfinity | NotANumber

  predicate AtMost(a: Amount, bound: real) { a.MinusInfinity? || (a.Finite? && a.value <= bound) }
  predicate GreaterThan(a: Amount, bound: real) { a.PlusInfinity? || (a.Finite? && a.value > bound) }

  /** The contents of an invoice; an absent value is a null. */
  datatype Bill = Bill(id: string, amount: Amount, dueDate: string, payType: Option<string>, payDelay: int,
                       risk: Option<string>, modelName: Option<string>)

  predicate IsLate(b: Bill) { b.payType == Some(LATE) }
  predicate IsValid(b: Bill) { GreaterThan(b.amount, 0.0) }

  function RiskOf(b: Bill): string {
    if AtMost(b.amount, 5000.0) then LOW else if b.payDelay <= 90 then MEDIUM else HIGH
  }

  function Rated(b: Bill): Bill { b.(risk := Some(RiskOf(b))) }

  /** Of two amounts the first is not the larger one; what is no number compares with itself only. */
  predicate NoLarger(a: Amount, b: Amount) {
    || a == b
    || (a.MinusInfinity? && !b.NotANumber?)
    || (b.PlusInfinity? && !a.NotANumber?)
    || (a.Finite? && b.Finite? && a.value <= b.value)
  }

  /** A larger amount and a longer delay never lower the risk, in the order Low, Medium, High; among the same amount
      above 5000 (or none) the risk rises exactly between 90 days and 91. */
  lemma RiskIsMonotone(a: Bill, b: Bill)
    requires NoLarger(a.amount, b.amount) && a.payDelay <= b.payDelay
    ensures Rated(a).risk == Rated(b).risk || Rated(a).risk == Some("Low") || Rated(b).risk == Some("High")
    ensures a.amount == b.amount && (a.amount.Finite? ==> a.amount.value > 5000.0) && !a.amount.MinusInfinity? ==>
              (Rated(a).risk == Some("Medium") && Rated(b).risk == Some("High") <==> a.payDelay <= 90 < b.payDelay)
              && (Rated(a).risk == Rated(b).risk <==> !(a.payDelay <= 90 < b.payDelay))
  {
    ClassesDiffer();
  }

  /** What the model server answers: nothing usable, or the array of predictions, each an array of decimals. */
  datatype Answer = NoAnswer | Predictions(rows: seq<seq<Decimal>>)

  datatype Inference = Inference(output: int, modelName: Option<string>)

  class Invoice {
    const id: string
    const amount: Amount
    const dueDate: string
    const payType: Option<string>
    const payDelay: int
    var risk: Option<string>
    var modelName: Option<string>

    constructor (b: Bill)
      ensures Contents() == b
    {
      id, amount, dueDate, payType, payDelay := b.id, b.amount, b.dueDate, b.payType, b.payDelay;
      risk, modelName := b.risk, b.modelName;
    }

    function Contents(): Bill
      reads this
    {
      Bill(id, amount, dueDate, payType, payDelay, risk, modelName)
    }
  }

  /** `LateFilter.filter`. */
  method LateFilter(inv: Invoice) returns (keep: bool)
    ensures keep <==> inv.payType == Some("Late")
    ensures keep <==> IsLate(inv.Contents())
  {
    if inv.payType == Some(LATE) {
      return true;
    }
    return false;
  }

  /** `ValidFilter.filter`. */
  method ValidFilter(inv: Invoice) returns (keep: bool)
    ensures keep <==> inv.amount.PlusInfinity? || (inv.amount.Finite? && inv.amount.value > 0.0)
    ensures keep <==> IsValid(inv.Contents())
  {
    if GreaterThan(inv.amount, 0.0) {
      return true;
    }
    return false;
  }

  /** `RiskMap.map`: the risk is written into the invoice passed in, and nothing else is. An amount that is no number is
      not small. */
  method RiskMap(inv: Invoice)
    modifies inv`risk
    ensures inv.Contents() == old(inv.Contents()).(risk := inv.risk)
    ensures inv.risk in {Some("Low"), Some("Medium"), Some("High")}
    ensures inv.risk == Some("Low") <==> inv.amount.MinusInfinity? || (inv.amount.Finite? && inv.amount.value <= 5000.0)
    ensures inv.risk == Some("High") <==>
              !(inv.amount.MinusInfinity? || (inv.amount.Finite? && inv.amount.value <= 5000.0)) && inv.payDelay > 90
    ensures inv.Contents() == Rated(old(inv.Contents()))
  {
    ClassesDiffer();
    if AtMost(inv.amount, 5000.0) {
      inv.risk := Some(LOW);
    } else if inv.payDelay <= 90 {
      inv.risk := Some(MEDIUM);
    } else {
      inv.risk := Some(HIGH);
    }
  }

  /** `callRestInferenceService`. Without predictions there is no inference (a null); an empty first row, like no
      answer, throws. The model's name is never filled in. */
  method CallInferenceService(answer: Answer) returns (result: Option<Inference>, thrown: bool)
    ensures thrown <==> answer.NoAnswer? || (|answer.rows| > 0 && |answer.rows[0]| == 0)
    ensures !thrown ==> (result.None? <==> |answer.rows| == 0)
    ensures !thrown && result.Some? ==> result.value == Inference(Low32(RoundUp(answer.rows[0][0])), None)
  {
    result := None;
    if answer.NoAnswer? {
      return result, true;
    }
    if |answer.rows| > 0 {
      if |answer.rows[0]| == 0 {
        return result, true;
      }
      var d := answer.rows[0][0];
      var rounded := if d.scale <= 0 then d.unscaled * Pow10(-d.scale) else 0;
      if d.scale > 0 {
        var p := Pow10(d.scale);
        var magnitude := if d.unscaled < 0 then -d.unscaled else d.unscaled;
        rounded := magnitude / p;
        if magnitude % p != 0 {
          rounded := rounded + 1;
        }
        if d.unscaled < 0 {
          rounded := -rounded;
        }
      }
      result := Some(Inference(Low32(rounded), None));
    }
    thrown := false;
  }

  /** What `ModelRiskMap.map` makes of a response: successive tests overwrite the risk. */
  method Classify(inv: Invoice, response: Inference)
    modifies inv
    ensures inv.risk
            == Some(if response.output <= 50 then "Low" else if response.output <= 100 then "Medium" else "High")
    ensures inv.modelName
            == if response.modelName.None? then Some("anomaly-classifier-predictor") else response.modelName
    ensures inv.Contents() == old(inv.Contents()).(risk := Some(ClassOf(response.output)),
                                modelName := if response.modelName.None? then Some(DEFAULT_MODEL)
                                  else response.modelName)
  {
    var out := response.output;
    inv.risk := Some(LOW);
    if out > 50 {
      inv.risk := Some(MEDIUM);
    }
    if out > 100 {
      inv.risk := Some(HIGH);
    }
    if response.modelName.None? {
      inv.modelName := Some(DEFAULT_MODEL);
    } else {
      inv.modelName := response.modelName;
    }
  }

  /** `ModelRiskMap.map`: the risk is the class of the exact first prediction whenever that rounds into 32 bits; the
      model's name is always the default one; and without a prediction it throws and leaves the invoice alone. */
  method ModelRiskMap(inv: Invoice, answer: Answer) returns (thrown: bool)
    modifies inv
    ensures thrown <==> answer.NoAnswer? || |answer.rows| == 0 || |answer.rows[0]| == 0
    ensures thrown ==> inv.Contents() == old(inv.Contents())
    ensures !thrown ==>
              var d := answer.rows[0][0];
              && inv.Contents() == old(inv.Contents()).(risk := inv.risk,
                                       modelName := Some("anomaly-classifier-predictor"))
              && inv.risk == Some(if Low32(RoundUp(d)) <= 50 then "Low" else if Low32(RoundUp(d)) <= 100 then "Medium"
                                  else "High")
              && (-2_147_483_648 <= RoundUp(d) <= 2_147_483_647 ==>
                   inv.risk == Some(if Above(d, 100) then "High" else if Above(d, 50) then "Medium" else "Low"))
  {
    var response;
    response, thrown := CallInferenceService(answer);
    if thrown || response.None? {
      return true;
    }
    Classify(inv, response.value);
    RoundingAgrees(answer.rows[0][0]);
  }
}
