# Siege calculator — Dafny model

A Discord bot answers the question "how long will my formation take to bring
down this castle?" for a strategy game. The user picks a unit type (兵器
siege weapons, 槍 spear, 騎 cavalry, 弓 bow, 盾 shield). They then enter the
aptitude grade (S/A/B/C) of the three commanders, the castle's durability and
the number of participating unit groups. From these inputs the bot works out:

- the **unit attack**: the base attack of the type (100 for siege weapons, 40
  for the others) times the sum of the grade coefficients (S 1.2, A 1.0,
  B 0.8, C 0.7), truncated;
- the **total attack**: unit attack × unit count;
- the **turns**, durability / total attack, and the elapsed time
  `int(turns × 300)` seconds, split into minutes and seconds;
- the **verdict**: whether the siege fits in 9 turns;
- when it does not fit, the **recommendation**: the least unit count that
  fits in 8 turns, `ceil(durability / (unit attack × 8))`.

The model covers this arithmetic and the input checks in front of it, as
pure functions, in four modules:

- `Wrappers` (`wrappers.dfy`): `Option` and `Result`.
- `Grades` (`grades.dfy`): the grade datatype and its coefficients in exact
  tenths. It also models Python's `str.strip()` (the whole `isspace()` set)
  and the part of `str.upper()` that can produce a grade key. A grade field
  is parsed as `strip().upper()` followed by a lookup in the coefficient
  table.
- `UnitAttack` (`unit_attack.dfy`): the unit-type datatype. Its `Unknown`
  case stands for a missed lookup, which gets base 0. The module also holds
  the menu labels and `calc_unit_attack`. The formula is kept as its base and
  its list of coefficients.
- `Siege` (`siege.dfy`): the turn cap, the safety margin and the seconds per
  turn as named constants. It holds the estimator, the minimum-unit solver
  and the form callback as a pure function from the raw field values to
  either a report or an error. The arithmetic in the callback's lines 60-69
  is pulled out into a function of its own.

Python floats are modelled exactly. Coefficients are integers in tenths,
turns is a Dafny `real`, and `int()` and `math.ceil` become floor and
ceiling on reals. The contracts then restate each of these as integer facts:

- `sec = durability·300 / total`;
- `turns <= 9` ⇔ `durability <= 9·total`;
- the recommendation is the least `u` with `durability <= unit_attack·8·u`.

An unknown unit type or a zero unit attack could be rejected as an error of
its own. The code instead looks up a missing type as base 0 and divides
anyway, which raises `ZeroDivisionError`. The model follows the code: an
unknown type gives unit attack 0, and the estimator returns
`DivisionByZero`. It also proves that no type offered by the menu reaches
that error.

## Model

| member | source | states |
|---|---|---|
| `Grades.GradeOf` | shinsencal_koyed.py:12 | Looking up a key in the coefficient table gives a grade exactly for the keys "S", "A", "B", "C". It is the inverse of `Key`. |
| `Grades.Tenths` | shinsencal_koyed.py:12 | Every grade coefficient lies between 0.7 and 1.2 (7 to 12 tenths). |
| `Grades.Strip` | shinsencal_koyed.py:40 | `str.strip()` returns the slice of the input from its first to its last non-whitespace character. Everything outside the slice is whitespace. |
| `Grades.ParseGradeSpec` | shinsencal_koyed.py:39-46 | A field is accepted as grade g exactly when it holds one non-whitespace character that spells g in either case (`s`, `S` or long s for S). Every other character must be whitespace. Both directions are proved. |
| `Grades.NormaliseIdempotent` | shinsencal_koyed.py:16 | Normalising twice equals normalising once. So the second `strip().upper()` in `calc_unit_attack`, applied to grades already normalised at line 40, changes nothing. |
| `UnitAttack.UnitTypeOf` | shinsencal_koyed.py:11 | A label looks up to a known type exactly when it is that type's table key. Any other label is `Unknown`, which gets base 0 as with `.get(..., 0)`. |
| `UnitAttack.MenuLabelsKnown` | shinsencal_koyed.py:97 | Every label the menu offers is a known type with base 40 or 100. |
| `UnitAttack.MenuCoversTable` | shinsencal_koyed.py:97 | The menu is built from the table keys: every known type's label appears in it, and no label appears twice. |
| `UnitAttack.CoefTenths` | shinsencal_koyed.py:16 | A field's coefficient is 0 exactly when it names no grade. Otherwise it is between 7 and 12 tenths. |
| `UnitAttack.CalcUnitAttack` | shinsencal_koyed.py:14-19 | The unit attack is the truncation of base × Σ coefficients: 10·attack <= base·Σtenths < 10·attack + 10. The formula carries the base of the looked-up type and one coefficient per grade field. |
| `UnitAttack.SumAppend` | shinsencal_koyed.py:17 | The sum of a concatenated coefficient list is the sum of the sums. |
| `UnitAttack.SumZero` | shinsencal_koyed.py:17 | A coefficient sum is 0 exactly when every coefficient is 0. |
| `UnitAttack.CoefListPointwise` | shinsencal_koyed.py:16 | Two grade lists whose fields carry equal coefficients give equal coefficient lists. |
| `UnitAttack.SumMapAppend` | shinsencal_koyed.py:17 | A sum over a concatenation is the sum of the two sums. |
| `UnitAttack.SumMapPermutation` | shinsencal_koyed.py:17 | A sum over a sequence is the same for every reordering of the sequence (equal multisets). |
| `UnitAttack.CoefSum` | shinsencal_koyed.py:16-17 | The sum of the coefficient list is the sum of each field's coefficient. |
| `UnitAttack.AttackPermutation` | shinsencal_koyed.py:17 | Two grade lists with the same grades in any order (equal multisets) give the same unit attack, so it does not matter which commander slot holds which grade. |
| `UnitAttack.AttackZero` | shinsencal_koyed.py:15-17 | The unit attack is 0 exactly when the type is unknown or no grade is recognised. These are the only routes to the divisions by zero. |
| `UnitAttack.ValidatedAttack` | shinsencal_koyed.py:11-17 | With a known type and three recognised grades, no truncation takes place and 84 <= unit attack <= 360. |
| `UnitAttack.SiegeExample` | shinsencal_koyed.py:14-17 | 兵器 with S, A, B gives unit attack 300. |
| `UnitAttack.SpearExample` | shinsencal_koyed.py:14-17 | 槍 with S, S, S gives unit attack 144. |
| `Siege.MinUnitsLeast` | shinsencal_koyed.py:69 | `ceil(durability / (unit_attack·8))` is positive. For every count v, v units cover the durability within 8 turns exactly when v >= the recommendation. |
| `Siege.ElapsedSeconds` | shinsencal_koyed.py:62-63 | `int(durability / total × 300)` equals the integer floor of durability·300 / total. |
| `Siege.ElapsedOf` | shinsencal_koyed.py:62-63 | The elapsed seconds are durability·300 / total, floored. |
| `Siege.TurnVerdict` | shinsencal_koyed.py:65 | `durability / total <= 9` holds exactly when durability <= 9·total. |
| `Siege.VerdictOf` | shinsencal_koyed.py:65 | The verdict holds exactly when durability <= 9·total. |
| `Siege.Recommendation` | shinsencal_koyed.py:67-69 | A recommendation exists exactly when `turns > 9`. It is the least count that covers the durability within 8 turns, and it is greater than the current unit count. |
| `Siege.RecommendationExceedsUnits` | shinsencal_koyed.py:65-69 | When the 9-turn verdict fails, the recommended count is strictly greater than the current unit count. |
| `Siege.EstimateSiege` | shinsencal_koyed.py:61-69 | A zero unit attack gives `DivisionByZero`. Otherwise: total = unit attack × units; turns × total = durability; the seconds are the floor of durability·300 / total; minutes·60 + seconds = elapsed with 0 <= seconds < 60; the verdict ⇔ durability <= 9·total; a recommendation exists exactly when the verdict fails, exceeds the unit count, and is the least count that finishes within 8 turns. |
| `Siege.TotalAttackMonotone` | shinsencal_koyed.py:61 | Total attack never decreases as the unit count grows. |
| `Siege.TurnsMonotone` | shinsencal_koyed.py:61-62 | Turns never increase with more units and never decrease with more durability. |
| `Siege.Evaluate` | shinsencal_koyed.py:60-69 | Once both checks have passed, the only failure is `DivisionByZero`, and it happens exactly for an unknown type. Otherwise the evaluation on the normalised grades equals the one on the raw fields, 84 <= unit attack <= 360, and the estimate is the estimator's. |
| `Siege.Callback` | shinsencal_koyed.py:39-69 | `InvalidGrade` exactly when some field names no grade. `InvalidNumber` exactly when the grades pass but a number failed `int()` or is <= 0. `DivisionByZero` exactly when both checks pass and the type is unknown. Any other outcome is the evaluation of the checked input. |
| `Siege.NormalisedCoef` | shinsencal_koyed.py:60 | A grade field and its normalised form carry the same coefficient. |
| `Siege.NormalisedCoefList` | shinsencal_koyed.py:60 | Passing the normalised grades to `calc_unit_attack`, as line 60 does, gives the same coefficients as passing the raw fields. |
| `Siege.MenuNeverDividesByZero` | shinsencal_koyed.py:97 | For a type taken from the menu, the callback succeeds exactly when both checks pass. No menu choice reaches a division by zero. |
| `Siege.EstimateExample` | shinsencal_koyed.py:61-69 | Unit attack 300, 3 units, durability 50000 give total 900, 16666 s (277 min 46 s), over the cap, and 21 units recommended. |
| `Siege.SiegeWeaponExample` | shinsencal_koyed.py:39-69 | The form 兵器 / S, A, B / 50000 / 3 succeeds with unit attack 300 and the estimate above. |
| `Siege.SpearExampleEstimate` | shinsencal_koyed.py:39-69 | The form 槍 / " s", "S ", long s / 5000 / 5 is accepted as S, S, S: unit attack 144, total 720, within the cap, no recommendation. |

## Left out

- Discord plumbing is not modelled: the bot setup, the modal and view construction, the type-menu callback, the slash command and `bot.run` with the environment token (lines 1-10, 21-37, 92-111). They are UI, asynchronous I/O and a foreign library. The menu survives only as `MenuLabels`.
- Message rendering is not modelled: the summary, the result text, the `{turns:.1f}` rounding, the disclaimer and the formula string built from float `str()` (lines 18, 72-90). The formula is kept as its base and coefficient list.
- Python's `int()` grammar (signs, whitespace, underscores, non-ASCII digits; lines 49-50) is not modelled. `Callback` takes each parse's outcome as `Option<int>`, with `None` meaning that `ValueError` was raised.
- `str.upper()` is modelled only for ASCII a-z and U+017F (long s, whose upper case is "S"). Other Unicode case mappings cannot make a field equal to S, A, B or C, so every accept or reject verdict is unchanged.
- Floating point is modelled exactly. `ElapsedOf` is the exact floor of durability·300 / total. The source's `int(turns * 300)` on doubles can come out one second lower when durability·300 is an exact multiple of the total, because the double product can fall just below that integer (for example unit attack 84, 5 units, durability 77: exact 55). The 9-turn comparison and the ceiling at line 69 match the exact values unless the quotient is within a double's rounding error of an integer. A quotient with a fractional part of at least 1/divisor can only round to an integer once the durability exceeds about 2^53 ≈ 9·10^15 (for the ceiling the divisor is at most 360·8 = 2880), far beyond realistic castle durability.
- `EstimateSiege` and `Callback` do not model overflow of Python floats. For a durability above about 1.8·10^308 × total attack, `durability / total_attack` at line 62 raises `OverflowError`. For a somewhat smaller one, `turns * 300` becomes infinity and `int()` at line 63 raises `OverflowError`. In both cases the model, with unbounded integers and exact reals, returns a result.
- `CalcUnitAttack` accepts a grade list of any length, as the Python function does. The callback always passes three.
- An exception escaping the callback is modelled as the `DivisionByZero` error value. What nextcord does with the exception (logging it and sending no reply) is not modelled.
