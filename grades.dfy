/**
 * Commander aptitude grades and the normalisation the bot applies to what a
 * user types into a grade field: surrounding whitespace is stripped
 * (Python's `str.strip()`), letters are upper-cased (`str.upper()`) and the
 * result is looked up among the keys S, A, B, C of the coefficient table.
 */
module Grades {
  import opened Wrappers

  /** The four aptitude grades, keys of the coefficient table. */
  datatype Grade = S | A | B | C

  /** The table key of a grade. */
  function Key(g: Grade): string
  {
    match g
    case S => "S"
    case A => "A"
    case B => "B"
    case C => "C"
  }

  /** The coefficient of a grade, in exact tenths (1.2, 1.0, 0.8, 0.7). */
  function Tenths(g: Grade): (t: nat)
    ensures 7 <= t <= 12
  {
    match g
    case S => 12
    case A => 10
    case B => 8
    case C => 7
  }

  /** Exact lookup of a table key: the inverse of Key. */
  function GradeOf(key: string): (r: Option<Grade>)
    ensures r.Some? ==> Key(r.value) == key
    ensures r.None? ==> forall g: Grade :: Key(g) != key
  {
    if key == "S" then Some(S)
    else if key == "A" then Some(A)
    else if key == "B" then Some(B)
    else if key == "C" then Some(C)
    else None
  }

  /** The characters Python's `str.isspace()` accepts, which `str.strip()` removes. */
  predicate IsSpace(c: char)
  {
    || c == ' '
    || '\t' <= c <= '\r'
    || '\U{1C}' <= c <= '\U{1F}'
    || c == '\U{85}' || c == '\U{A0}' || c == '\U{1680}'
    || '\U{2000}' <= c <= '\U{200A}'
    || c == '\U{2028}' || c == '\U{2029}' || c == '\U{202F}' || c == '\U{205F}'
    || c == '\U{3000}'
  }

  /** Number of whitespace characters at the start of s. */
  function LeadCount(s: string): (n: nat)
    ensures n <= |s|
    ensures forall k :: 0 <= k < n ==> IsSpace(s[k])
    ensures n == |s| || !IsSpace(s[n])
  {
    if |s| == 0 || !IsSpace(s[0]) then 0 else 1 + LeadCount(s[1..])
  }

  /** Number of whitespace characters at the end of s. */
  function TrailCount(s: string): (n: nat)
    ensures n <= |s|
    ensures forall k :: |s| - n <= k < |s| ==> IsSpace(s[k])
    ensures n == |s| || !IsSpace(s[|s| - 1 - n])
  {
    if |s| == 0 || !IsSpace(s[|s| - 1]) then 0 else 1 + TrailCount(s[..|s| - 1])
  }

  /**
   * Python's `str.strip()`: the result is the slice of s that starts at its
   * first non-space character and ends at its last one; everything outside
   * the slice is whitespace.
   */
  function Strip(s: string): (r: string)
    ensures |r| <= |s| - LeadCount(s)
    ensures r == s[LeadCount(s)..LeadCount(s) + |r|]
    ensures forall k :: 0 <= k < |s| && !(LeadCount(s) <= k < LeadCount(s) + |r|) ==> IsSpace(s[k])
    ensures r == [] || (!IsSpace(r[0]) && !IsSpace(r[|r| - 1]))
  {
    var t := s[LeadCount(s)..];
    t[..|t| - TrailCount(t)]
  }

  /**
   * Python's `str.upper()` on one character, restricted to the mappings that
   * can produce a table key: ASCII a-z, and U+017F (long s), whose upper case
   * is 'S'. Every other character is left as it is.
   */
  function UpperChar(c: char): (u: char)
    ensures IsSpace(u) <==> IsSpace(c)
  {
    if 'a' <= c <= 'z' then (c as int - 32) as char
    else if c == '\U{17F}' then 'S'
    else c
  }

  function Upper(s: string): (r: string)
    ensures |r| == |s|
  {
    seq(|s|, i requires 0 <= i < |s| => UpperChar(s[i]))
  }

  /** `r.strip().upper()` (shinsencal_koyed.py lines 16 and 40). */
  function Normalise(s: string): string
  {
    Upper(Strip(s))
  }

  /** The grade a raw field value denotes, or None when it names none. */
  function ParseGrade(raw: string): Option<Grade>
  {
    GradeOf(Normalise(raw))
  }

  /** The characters that, alone between whitespace, spell a grade. */
  predicate Spells(c: char, g: Grade)
  {
    match g
    case S => c == 'S' || c == 's' || c == '\U{17F}'
    case A => c == 'A' || c == 'a'
    case B => c == 'B' || c == 'b'
    case C => c == 'C' || c == 'c'
  }

  /** Exactly one character of raw is not whitespace, at index i, and it spells g. */
  predicate SpelledAt(raw: string, i: int, g: Grade)
  {
    && 0 <= i < |raw|
    && Spells(raw[i], g)
    && forall k :: 0 <= k < |raw| && k != i ==> IsSpace(raw[k])
  }

  lemma UpperCharSpells(c: char, g: Grade)
    ensures [UpperChar(c)] == Key(g) <==> Spells(c, g)
  {
  }

  /**
   * Grade matching ignores surrounding whitespace and letter case: a field
   * is accepted as grade g exactly when, apart from whitespace, it holds one
   * character spelling g.
   */
  lemma ParseGradeSpec(raw: string, g: Grade)
    ensures ParseGrade(raw) == Some(g) <==> exists i :: SpelledAt(raw, i, g)
  {
    var n := LeadCount(raw);
    var t := Strip(raw);
    if ParseGrade(raw) == Some(g) {
      assert Upper(t) == Key(g);
      assert |t| == 1;
      assert [UpperChar(t[0])] == Upper(t);
      UpperCharSpells(t[0], g);
      assert raw[n] == t[0];
      assert SpelledAt(raw, n, g);
    }
    if i :| SpelledAt(raw, i, g) {
      assert n == i;
      assert t != [] && t[0] == raw[i];
      assert |t| == 1;
      assert Upper(t) == [UpperChar(raw[i])];
      UpperCharSpells(raw[i], g);
    }
  }

  /**
   * Normalising twice changes nothing, so the second `strip().upper()` that
   * `calc_unit_attack` applies to the already normalised grades is harmless.
   */
  lemma NormaliseIdempotent(s: string)
    ensures Normalise(Normalise(s)) == Normalise(s)
  {
  }

  /** A table key typed exactly as written is already normalised. */
  lemma KeyNormalised(g: Grade)
    ensures Normalise(Key(g)) == Key(g)
  {
  }

  lemma NormalisedParse(s: string)
    ensures ParseGrade(Normalise(s)) == ParseGrade(s)
  {
    NormaliseIdempotent(s);
  }
}
