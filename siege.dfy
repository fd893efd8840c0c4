/**
 * The siege estimate computed by the bot's form callback: validate the
 * three grades and the two numbers, evaluate the unit attack, then derive
 * total attack, turns, elapsed time, the 9-turn verdict and, when the
 * verdict fails, the smallest unit count that finishes within 8 turns.
 * Python's float arithmetic is modelled with exact reals.
 */
module Siege {
  import opened Wrappers
  import opened Grades
  import opened UnitAttack

  /** One turn lasts 300 seconds. */
  const SecondsPerTurn: nat := 300
  /** A siege must succeed within 9 turns. */
  const TurnCap: nat := 9
  /** The recommendation aims at 8 turns, one turn of margin below the cap. */
  const SafetyTurns: nat := 8

  datatype Error =
    | InvalidGrade    // a grade field is not S, A, B or C
    | InvalidNumber   // durability or unit count is not an integer above 0
    | DivisionByZero  // the unit attack is 0, so the turn count is undefined

  datatype Estimate = Estimate(
    totalAttack: nat,
    turns: real,
    elapsedSeconds: nat,
    minutes: nat,
    seconds: nat,
    withinCap: bool,
    minUnits: Option<int>)

  /** Python's `math.ceil`. */
  function Ceil(x: real): int
  {
    -((-x).Floor)
  }

  /** Dividing both sides of an inequality by a positive real keeps it. */
  lemma ScaleDown(a: real, b: real, q: real)
    requires q > 0.0 && a * q <= b * q
    ensures a <= b
  {
  }

  lemma ScaleDownStrict(a: real, b: real, q: real)
    requires q > 0.0 && a * q < b * q
    ensures a < b
  {
  }

  /** The floor of an exact quotient is integer division (Dafny's `/` floors for q > 0). */
  lemma FloorOfQuotient(p: int, q: int)
    requires q > 0
    ensures (p as real / q as real).Floor == p / q
  {
    var k := p / q;
    var x := p as real / q as real;
    var qr := q as real;
    assert x * qr == p as real;
    assert q * k <= p < q * k + q;
    assert (k as real) * qr == (q * k) as real;
    assert (k as real + 1.0) * qr == (q * k + q) as real;
    ScaleDown(k as real, x, qr);
    ScaleDownStrict(x, k as real + 1.0, qr);
  }

  /** `u` unit groups of attack `unitAttack` bring down `durability` within the safety margin. */
  predicate Covers(durability: int, unitAttack: nat, u: int)
  {
    durability <= unitAttack * SafetyTurns * u
  }

  /** `math.ceil(durability / (unit_attack * 8))`. */
  function MinUnits(durability: nat, unitAttack: nat): int
    requires unitAttack > 0
  {
    Ceil(durability as real / (unitAttack * SafetyTurns) as real)
  }

  /** The ceiling of an exact quotient p / q is the least c with p <= q x c. */
  lemma CeilOfQuotient(p: int, q: int)
    requires q > 0
    ensures var c := Ceil(p as real / q as real);
            q * (c - 1) < p <= q * c
  {
    FloorOfQuotient(-p, q);
    assert -(p as real / q as real) == (-p) as real / q as real;
  }

  /**
   * Any unit count covers the durability within 8 turns exactly when it is
   * at least the recommendation: the recommendation is the least such count,
   * and it is positive.
   */
  lemma MinUnitsLeast(durability: nat, unitAttack: nat, v: int)
    requires durability > 0 && unitAttack > 0
    ensures Covers(durability, unitAttack, v) <==> MinUnits(durability, unitAttack) <= v
    ensures MinUnits(durability, unitAttack) >= 1
  {
    var q := unitAttack * SafetyTurns;
    CeilOfQuotient(durability, q);
    var c := MinUnits(durability, unitAttack);
    assert q * (c - 1) < durability <= q * c;
    if v >= c {
      assert q * v >= q * c by { MulMonotone(q, c, v); }
    } else {
      assert q * v <= q * (c - 1) by { MulMonotone(q, v, c - 1); }
    }
  }

  lemma MulMonotone(q: nat, a: int, b: int)
    requires a <= b
    ensures q * a <= q * b
  {
  }

  /** `int(turns * 300)`: the whole seconds the siege lasts, the floor of durability x 300 / total. */
  function ElapsedOf(durability: nat, total: nat): (sec: nat)
    requires total > 0
    ensures sec == durability * SecondsPerTurn / total
  {
    ElapsedSeconds(durability, total);
    (durability as real / total as real * SecondsPerTurn as real).Floor
  }

  /** `turns <= 9`: the verdict against the turn cap. */
  function VerdictOf(durability: nat, total: nat): (within: bool)
    requires total > 0
    ensures within <==> durability <= TurnCap * total
  {
    TurnVerdict(durability, total);
    durability as real / total as real <= TurnCap as real
  }

  /**
   * Lines 67-69: a recommendation exists exactly when `turns > 9`; it is the
   * least unit count that covers the durability within 8 turns, and it
   * exceeds the current count.
   */
  function Recommendation(durability: nat, unitAttack: nat, units: nat): (m: Option<int>)
    requires durability > 0 && unitAttack > 0 && units > 0
    ensures m.Some? <==> durability > TurnCap * (unitAttack * units)
    ensures m.Some? ==> m.value > units
    ensures m.Some? ==> forall v :: Covers(durability, unitAttack, v) <==> m.value <= v
  {
    var total := unitAttack * units;
    TurnVerdict(durability, total);
    if durability as real / total as real > TurnCap as real then
      RecommendationExceedsUnits(durability, unitAttack, units);
      assert forall v :: Covers(durability, unitAttack, v) <==> MinUnits(durability, unitAttack) <= v by {
        forall v ensures Covers(durability, unitAttack, v) <==> MinUnits(durability, unitAttack) <= v {
          MinUnitsLeast(durability, unitAttack, v);
        }
      }
      Some(MinUnits(durability, unitAttack))
    else
      None
  }

  /**
   * Lines 61-69 of the callback: total attack, exact turns, elapsed
   * seconds, the verdict against the 9-turn cap and the recommendation.
   * A zero unit attack stops at the division, as `ZeroDivisionError` does.
   */
  function EstimateSiege(unitAttack: nat, units: nat, durability: nat): (r: Result<Estimate, Error>)
    requires units > 0 && durability > 0
    ensures r.Err? <==> unitAttack == 0
    ensures r.Err? ==> r.error == DivisionByZero
    ensures r.Ok? ==>
      var e := r.value;
      && e.totalAttack == unitAttack * units
      && e.turns * e.totalAttack as real == durability as real
      && e.elapsedSeconds == durability * SecondsPerTurn / e.totalAttack
      && e.minutes * 60 + e.seconds == e.elapsedSeconds && e.seconds < 60
      && (e.withinCap <==> durability <= TurnCap * e.totalAttack)
      && (e.minUnits.Some? <==> !e.withinCap)
      && (e.minUnits.Some? ==> e.minUnits.value > units)
      && (e.minUnits.Some? ==> forall v :: Covers(durability, unitAttack, v) <==> e.minUnits.value <= v)
  {
    if unitAttack == 0 then Err(DivisionByZero)
    else
      var total := unitAttack * units;
      var sec := ElapsedOf(durability, total);
      Ok(Estimate(total, durability as real / total as real, sec, sec / 60, sec % 60,
                  VerdictOf(durability, total), Recommendation(durability, unitAttack, units)))
  }

  /** `int(turns * 300)` is the integer floor of durability x 300 / total. */
  lemma ElapsedSeconds(durability: nat, total: nat)
    requires total > 0
    ensures (durability as real / total as real * SecondsPerTurn as real).Floor
            == durability * SecondsPerTurn / total
  {
    var p := durability * SecondsPerTurn;
    assert durability as real / total as real * SecondsPerTurn as real == p as real / total as real;
    FloorOfQuotient(p, total);
  }

  /** `turns <= 9` holds exactly when durability <= 9 x total attack. */
  lemma TurnVerdict(durability: nat, total: nat)
    requires total > 0
    ensures durability as real / total as real <= TurnCap as real <==> durability <= TurnCap * total
  {
  }

  /**
   * When the 9-turn verdict fails, the current unit count does not cover
   * the durability even within 9 turns, let alone 8, so the recommendation
   * exceeds it.
   */
  lemma RecommendationExceedsUnits(durability: nat, unitAttack: nat, units: nat)
    requires durability > 0 && unitAttack > 0
    requires durability > TurnCap * (unitAttack * units)
    ensures MinUnits(durability, unitAttack) > units
  {
  }

  /** Total attack never decreases as the unit count grows. */
  lemma TotalAttackMonotone(unitAttack: nat, u1: nat, u2: nat, durability: nat)
    requires 0 < u1 <= u2 && durability > 0 && unitAttack > 0
    ensures EstimateSiege(unitAttack, u1, durability).value.totalAttack
            <= EstimateSiege(unitAttack, u2, durability).value.totalAttack
  {
  }

  /** Turns never increase with more units and never decrease with more durability. */
  lemma TurnsMonotone(unitAttack: nat, u1: nat, u2: nat, d1: nat, d2: nat)
    requires 0 < u1 <= u2 && 0 < d2 <= d1 && unitAttack > 0
    ensures EstimateSiege(unitAttack, u2, d2).value.turns <= EstimateSiege(unitAttack, u1, d1).value.turns
  {
    var t1 := unitAttack * u1;
    var t2 := unitAttack * u2;
    assert t1 <= t2;
    var x1 := d1 as real / t1 as real;
    var x2 := d2 as real / t2 as real;
    assert x2 * t2 as real == d2 as real;
    assert x1 * t1 as real == d1 as real;
    assert x2 * t1 as real <= x2 * t2 as real;
    assert x2 * t1 as real <= x1 * t1 as real;
  }

  /** All three grade fields name a grade. */
  predicate GradesValid(r1: string, r2: string, r3: string)
  {
    ParseGrade(r1).Some? && ParseGrade(r2).Some? && ParseGrade(r3).Some?
  }

  /** Both numbers parsed as integers and both are above 0. */
  predicate NumbersValid(durability: Option<int>, units: Option<int>)
  {
    durability.Some? && units.Some? && durability.value > 0 && units.value > 0
  }

  /** What the callback reports: normalised grades, the unit attack and its formula, the estimate. */
  datatype Report = Report(ratings: seq<string>, evaluation: Evaluation, estimate: Estimate)

  /**
   * Lines 60-69 once both checks passed: evaluate the unit attack on the
   * normalised grades and estimate the siege. Only an unknown unit type
   * makes the unit attack 0 and the division fail.
   */
  function Evaluate(unitName: string, r1: string, r2: string, r3: string,
                    durability: nat, units: nat): (r: Result<Report, Error>)
    requires GradesValid(r1, r2, r3) && durability > 0 && units > 0
    ensures r.Err? <==> UnitTypeOf(unitName) == Unknown
    ensures r.Err? ==> r.error == DivisionByZero
    ensures r.Ok? ==>
      && r.value.ratings == [Normalise(r1), Normalise(r2), Normalise(r3)]
      && r.value.evaluation == CalcUnitAttack(unitName, [r1, r2, r3])
      && 84 <= r.value.evaluation.attack <= 360
      && EstimateSiege(r.value.evaluation.attack, units, durability) == Ok(r.value.estimate)
  {
    var ratingsUp := [Normalise(r1), Normalise(r2), Normalise(r3)];
    var ev := CalcUnitAttack(unitName, ratingsUp);
    NormalisedCoefList(r1, r2, r3);
    assert ev == CalcUnitAttack(unitName, [r1, r2, r3]);
    AttackZero(unitName, [r1, r2, r3]);
    if UnitTypeOf(unitName) != Unknown then
      ValidatedAttack(unitName, r1, r2, r3);
      Ok(Report(ratingsUp, ev, EstimateSiege(ev.attack, units, durability).value))
    else
      Err(EstimateSiege(ev.attack, units, durability).error)
  }

  /**
   * The form callback without its messages: the grade check (lines 39-46),
   * then the number check (lines 48-58), then the arithmetic. `durability`
   * and `units` are the outcomes of Python's `int()` on the two text
   * fields, None when it raised `ValueError`.
   */
  function Callback(unitName: string, r1: string, r2: string, r3: string,
                    durability: Option<int>, units: Option<int>): (r: Result<Report, Error>)
    ensures r == Err(InvalidGrade) <==> !GradesValid(r1, r2, r3)
    ensures r == Err(InvalidNumber) <==> GradesValid(r1, r2, r3) && !NumbersValid(durability, units)
    ensures r == Err(DivisionByZero)
            <==> GradesValid(r1, r2, r3) && NumbersValid(durability, units) && UnitTypeOf(unitName) == Unknown
    ensures r.Ok? ==> NumbersValid(durability, units) && Evaluate(unitName, r1, r2, r3, durability.value, units.value) == r
  {
    var ratingsUp := [Normalise(r1), Normalise(r2), Normalise(r3)];
    if !(GradeOf(ratingsUp[0]).Some? && GradeOf(ratingsUp[1]).Some? && GradeOf(ratingsUp[2]).Some?) then
      Err(InvalidGrade)
    else if durability.None? || units.None? || durability.value <= 0 || units.value <= 0 then
      Err(InvalidNumber)
    else
      Evaluate(unitName, r1, r2, r3, durability.value, units.value)
  }

  lemma NormalisedCoef(r: string)
    ensures CoefTenths(Normalise(r)) == CoefTenths(r)
  {
    NormalisedParse(r);
  }

  lemma NormalisedCoefList(r1: string, r2: string, r3: string)
    ensures CoefList([Normalise(r1), Normalise(r2), Normalise(r3)]) == CoefList([r1, r2, r3])
  {
    var xs := [Normalise(r1), Normalise(r2), Normalise(r3)];
    var ys := [r1, r2, r3];
    NormalisedCoef(r1);
    NormalisedCoef(r2);
    NormalisedCoef(r3);
    CoefListPointwise(xs, ys);
  }

  /**
   * Every type the menu offers has a base attack, so an input that passes
   * both checks never reaches a division by zero.
   */
  lemma MenuNeverDividesByZero(unitName: string, r1: string, r2: string, r3: string,
                               durability: Option<int>, units: Option<int>)
    requires unitName in MenuLabels
    ensures Callback(unitName, r1, r2, r3, durability, units).Ok?
            <==> GradesValid(r1, r2, r3) && NumbersValid(durability, units)
  {
    MenuLabelsKnown(unitName);
  }

  /** 300 unit attack, 3 units, durability 50000: about 55.6 turns, 21 units recommended. */
  lemma EstimateExample()
    ensures var r := EstimateSiege(300, 3, 50000);
            && r.Ok?
            && r.value.totalAttack == 900
            && r.value.elapsedSeconds == 16666
            && r.value.minutes == 277 && r.value.seconds == 46
            && !r.value.withinCap
            && r.value.minUnits == Some(21)
  {
  }

  /** 兵器 with S, A, B, 3 units against durability 50000. */
  lemma SiegeWeaponExample()
    ensures var r := Callback("兵器", "S", "A", "B", Some(50000), Some(3));
            && r.Ok?
            && r.value.evaluation.attack == 300
            && r.value.estimate == EstimateSiege(300, 3, 50000).value
  {
    KeyNormalised(S);
    KeyNormalised(A);
    KeyNormalised(B);
    SiegeExample();
  }

  /** 槍 with S, S, S typed loosely, 5 units against durability 5000: total attack 720, within the cap. */
  lemma SpearExampleEstimate()
    ensures var r := Callback("槍", " s", "S ", "\U{17F}", Some(5000), Some(5));
            && r.Ok?
            && r.value.evaluation.attack == 144
            && r.value.estimate.totalAttack == 720
            && r.value.estimate.withinCap
            && r.value.estimate.minUnits == None
  {
    assert SpelledAt(" s", 1, S);
    assert SpelledAt("S ", 0, S);
    assert SpelledAt("\U{17F}", 0, S);
    ParseGradeSpec(" s", S);
    ParseGradeSpec("S ", S);
    ParseGradeSpec("\U{17F}", S);
    KeyCoef(S);
    SpearExample();
    var r := Callback("槍", " s", "S ", "\U{17F}", Some(5000), Some(5));
    assert CoefList([" s", "S ", "\U{17F}"]) == CoefList(["S", "S", "S"]);
  }
}
