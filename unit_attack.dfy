/**
 * Unit types, their base attack, and the unit-attack evaluator
 * `calc_unit_attack`: truncate the sum of base x coefficient over the
 * commander grades. Coefficients are exact tenths, so the unit attack is
 * (base * sum of tenths) / 10.
 */
module UnitAttack {
  import opened Wrappers
  import opened Grades

  /** The keys of the base-attack table, plus the case a lookup misses. */
  datatype UnitType = Siege | Spear | Cavalry | Bow | Shield | Unknown

  /** The table key (menu label) of a known unit type. */
  function Label(t: UnitType): string
    requires t != Unknown
  {
    match t
    case Siege => "兵器"
    case Spear => "槍"
    case Cavalry => "騎"
    case Bow => "弓"
    case Shield => "盾"
  }

  /** Lookup of a label among the table keys; a miss gives Unknown. */
  function UnitTypeOf(name: string): (t: UnitType)
    ensures t != Unknown ==> Label(t) == name
    ensures t == Unknown ==> forall u: UnitType :: u != Unknown ==> Label(u) != name
  {
    if name == "兵器" then Siege
    else if name == "槍" then Spear
    else if name == "騎" then Cavalry
    else if name == "弓" then Bow
    else if name == "盾" then Shield
    else Unknown
  }

  /** Base attack of a unit type; Unknown plays the lookup default 0. */
  function BaseAttack(t: UnitType): nat
  {
    match t
    case Siege => 100
    case Unknown => 0
    case _ => 40
  }

  /** The menu offers one option per table key, in table order. */
  const MenuLabels: seq<string> := [Label(Siege), Label(Spear), Label(Cavalry), Label(Bow), Label(Shield)]

  /** Every table key appears in the menu, and no label appears twice. */
  lemma MenuCoversTable()
    ensures forall t: UnitType :: t != Unknown ==> Label(t) in MenuLabels
    ensures forall i, j :: 0 <= i < j < |MenuLabels| ==> MenuLabels[i] != MenuLabels[j]
  {
  }

  lemma MenuLabelsKnown(name: string)
    requires name in MenuLabels
    ensures UnitTypeOf(name) != Unknown
    ensures BaseAttack(UnitTypeOf(name)) in {40, 100}
  {
  }

  /** Coefficient of a raw grade field in tenths; an unrecognised grade counts 0. */
  function CoefTenths(raw: string): (t: nat)
    ensures t == 0 <==> ParseGrade(raw).None?
    ensures t != 0 ==> 7 <= t <= 12
  {
    match ParseGrade(raw)
    case Some(g) => Tenths(g)
    case None => 0
  }

  function Sum(xs: seq<nat>): nat
  {
    if xs == [] then 0 else xs[0] + Sum(xs[1..])
  }

  lemma {:induction false} SumAppend(xs: seq<nat>, ys: seq<nat>)
    ensures Sum(xs + ys) == Sum(xs) + Sum(ys)
  {
    if xs == [] {
      assert xs + ys == ys;
    } else {
      assert (xs + ys)[1..] == xs[1..] + ys;
      SumAppend(xs[1..], ys);
    }
  }

  lemma {:induction false} SumZero(xs: seq<nat>)
    ensures Sum(xs) == 0 <==> forall i :: 0 <= i < |xs| ==> xs[i] == 0
  {
    if xs != [] {
      SumZero(xs[1..]);
      assert forall i :: 1 <= i < |xs| ==> xs[i] == xs[1..][i - 1];
    }
  }

  /** The value `calc_unit_attack` returns: the truncated attack and the parts of its formula. */
  datatype Evaluation = Evaluation(attack: nat, base: nat, coefTenths: seq<nat>)

  /** The coefficient list of the formula, one entry per grade field. */
  function CoefList(ratings: seq<string>): (cs: seq<nat>)
    ensures |cs| == |ratings|
    ensures forall i :: 0 <= i < |ratings| ==> cs[i] == CoefTenths(ratings[i])
  {
    seq(|ratings|, i requires 0 <= i < |ratings| => CoefTenths(ratings[i]))
  }

  /** Grade lists whose fields carry equal coefficients have equal coefficient lists. */
  lemma CoefListPointwise(xs: seq<string>, ys: seq<string>)
    requires |xs| == |ys|
    requires forall i :: 0 <= i < |xs| ==> CoefTenths(xs[i]) == CoefTenths(ys[i])
    ensures CoefList(xs) == CoefList(ys)
  {
  }

  /**
   * `calc_unit_attack`: the attack is base x (sum of coefficients),
   * truncated to an integer.
   */
  function CalcUnitAttack(name: string, ratings: seq<string>): (e: Evaluation)
    ensures e.base == BaseAttack(UnitTypeOf(name))
    ensures e.coefTenths == CoefList(ratings)
    ensures 10 * e.attack <= e.base * Sum(e.coefTenths) < 10 * e.attack + 10
  {
    var base := BaseAttack(UnitTypeOf(name));
    var coefs := CoefList(ratings);
    var scaled := base * Sum(coefs);
    Evaluation(scaled / 10, base, coefs)
  }

  lemma CoefListAppend(xs: seq<string>, ys: seq<string>)
    ensures CoefList(xs + ys) == CoefList(xs) + CoefList(ys)
  {
  }

  /** Sum of f over the elements of xs. */
  function SumMap<T>(f: T -> nat, xs: seq<T>): nat
  {
    if xs == [] then 0 else f(xs[0]) + SumMap(f, xs[1..])
  }

  lemma {:induction false} SumMapAppend<T>(f: T -> nat, xs: seq<T>, ys: seq<T>)
    ensures SumMap(f, xs + ys) == SumMap(f, xs) + SumMap(f, ys)
  {
    if xs != [] {
      assert (xs + ys)[1..] == xs[1..] + ys;
      SumMapAppend(f, xs[1..], ys);
    } else {
      assert xs + ys == ys;
    }
  }

  /** Removing the same element from two permutations of each other leaves permutations. */
  lemma RemoveMatching<T>(xs: seq<T>, ys: seq<T>, j: int)
    requires multiset(xs) == multiset(ys)
    requires xs != [] && 0 <= j < |ys| && ys[j] == xs[0]
    ensures multiset(xs[1..]) == multiset(ys[..j] + ys[j + 1..])
  {
    var x := xs[0];
    var rest := ys[..j] + ys[j + 1..];
    assert xs == [x] + xs[1..];
    assert ys == ys[..j] + ([x] + ys[j + 1..]);
    forall z
      ensures multiset(xs[1..])[z] == multiset(rest)[z]
    {
      assert multiset(xs)[z] == multiset([x])[z] + multiset(xs[1..])[z];
      assert multiset(ys)[z] == multiset(ys[..j])[z] + multiset([x])[z] + multiset(ys[j + 1..])[z];
    }
  }

  /** A sum over a sequence does not depend on the order of its elements. */
  lemma {:induction false} SumMapPermutation<T>(f: T -> nat, xs: seq<T>, ys: seq<T>)
    requires multiset(xs) == multiset(ys)
    ensures SumMap(f, xs) == SumMap(f, ys)
    decreases |xs|
  {
    if xs == [] {
      assert |ys| == |multiset(ys)| == 0;
    } else {
      assert xs[0] in multiset(ys);
      var j :| 0 <= j < |ys| && ys[j] == xs[0];
      RemoveMatching(xs, ys, j);
      SumMapPermutation(f, xs[1..], ys[..j] + ys[j + 1..]);
      assert ys == ys[..j] + ([ys[j]] + ys[j + 1..]);
      SumMapAppend(f, ys[..j], [ys[j]] + ys[j + 1..]);
      SumMapAppend(f, [ys[j]], ys[j + 1..]);
      SumMapAppend(f, ys[..j], ys[j + 1..]);
    }
  }

  /** The coefficient sum is the sum of each field's coefficient. */
  lemma {:induction false} CoefSum(rs: seq<string>)
    ensures Sum(CoefList(rs)) == SumMap(CoefTenths, rs)
  {
    if rs != [] {
      assert CoefList(rs)[1..] == CoefList(rs[1..]);
      CoefSum(rs[1..]);
    }
  }

  /** The unit attack does not depend on which commander slot holds which grade. */
  lemma AttackPermutation(name: string, xs: seq<string>, ys: seq<string>)
    requires multiset(xs) == multiset(ys)
    ensures CalcUnitAttack(name, xs).attack == CalcUnitAttack(name, ys).attack
  {
    CoefSum(xs);
    CoefSum(ys);
    SumMapPermutation(CoefTenths, xs, ys);
  }

  /**
   * The attack is zero exactly when the unit type is unknown or no grade
   * is recognised; these are the only ways to reach the divisions by zero.
   */
  lemma AttackZero(name: string, ratings: seq<string>)
    ensures CalcUnitAttack(name, ratings).attack == 0
            <==> UnitTypeOf(name) == Unknown || forall i :: 0 <= i < |ratings| ==> ParseGrade(ratings[i]).None?
  {
    var e := CalcUnitAttack(name, ratings);
    var b, total := e.base, Sum(e.coefTenths);
    SumZero(e.coefTenths);
    assert (forall i :: 0 <= i < |ratings| ==> ParseGrade(ratings[i]).None?) <==> total == 0;
    if b == 0 || total == 0 {
      assert b * total == 0;
    } else {
      assert b >= 40 && total >= 1;
      assert b * total >= b * 1 == b;
    }
  }


  lemma Sum3Coefs(r1: string, r2: string, r3: string)
    ensures Sum(CoefList([r1, r2, r3])) == CoefTenths(r1) + CoefTenths(r2) + CoefTenths(r3)
  {
    var cs := CoefList([r1, r2, r3]);
    assert cs == [CoefTenths(r1), CoefTenths(r2), CoefTenths(r3)];
    assert Sum(cs[2..]) == cs[2] + Sum(cs[3..]);
    assert Sum(cs[1..]) == cs[1] + Sum(cs[1..][1..]) && cs[1..][1..] == cs[2..];
    assert cs[3..] == [];
  }

  /**
   * With a known unit type and three recognised grades no truncation
   * happens, and the unit attack lies between 84 (40 x 0.7 x 3) and 360
   * (100 x 1.2 x 3).
   */
  lemma ValidatedAttack(name: string, r1: string, r2: string, r3: string)
    requires UnitTypeOf(name) != Unknown
    requires ParseGrade(r1).Some? && ParseGrade(r2).Some? && ParseGrade(r3).Some?
    ensures var e := CalcUnitAttack(name, [r1, r2, r3]);
            && 10 * e.attack == e.base * Sum(e.coefTenths)
            && 84 <= e.attack <= 360
  {
    var e := CalcUnitAttack(name, [r1, r2, r3]);
    Sum3Coefs(r1, r2, r3);
    var s := Sum(e.coefTenths);
    assert 21 <= s <= 36;
    if UnitTypeOf(name) == Siege {
      assert e.base == 100;
      assert 10 * e.attack <= 100 * s < 10 * e.attack + 10;
      assert e.attack == 10 * s;
    } else {
      assert e.base == 40;
      assert 10 * e.attack <= 40 * s < 10 * e.attack + 10;
      assert e.attack == 4 * s;
    }
  }

  /** A table key typed exactly as written carries its grade's coefficient. */
  lemma KeyCoef(g: Grade)
    ensures CoefTenths(Key(g)) == Tenths(g)
  {
    assert SpelledAt(Key(g), 0, g);
    ParseGradeSpec(Key(g), g);
  }

  /** 兵器 with grades S, A, B: 100 x (1.2 + 1.0 + 0.8) = 300. */
  lemma SiegeExample()
    ensures CalcUnitAttack("兵器", ["S", "A", "B"]).attack == 300
  {
    KeyCoef(S);
    KeyCoef(A);
    KeyCoef(B);
    Sum3Coefs("S", "A", "B");
  }

  /** 槍 with grades S, S, S: 40 x 3.6 = 144. */
  lemma SpearExample()
    ensures CalcUnitAttack("槍", ["S", "S", "S"]).attack == 144
  {
    KeyCoef(S);
    Sum3Coefs("S", "S", "S");
  }
}
