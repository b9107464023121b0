# compare: comparison by magnitude, modelled in Dafny

The Go package `compare` exports five comparators, `Gt`, `Ge`, `Lt`, `Le` and `Eq`. Each takes
two `interface{}` operands. The shared helper `getValues` reduces each operand to a signed 64-bit
*magnitude* according to its runtime kind:

- an array, channel, map or slice has its length as its magnitude (for a channel, the number of queued elements);
- a signed integer of any width has its own value;
- a string has the value `strconv.ParseInt(s, 10, 64)` gives it, with the parse error discarded;
- every other kind panics.

Each comparator then applies one relational operator to the two magnitudes.

The model has four modules:

- `Wrappers` (`wrappers.dfy`): `Option` and `Result`.
- `Decimal` (`decimal.dfy`): base-10, 64-bit `ParseInt` as Go's standard library performs it. It
  scans the digits of `ParseUint` and stops at the first bad character (syntax error, value 0)
  or at the first digit that overflows uint64 (range error). It then clamps the result into the
  int64 range by sign. Beside it is a reference semantics: well-formedness, the positional
  value of a digit string, and clamping. Lemmas connect the scan to that reference.
- `Compare` (`compare.dfy`): `main.go`. Go's reflection is replaced by a closed datatype
  `Operand`. An operand has a `Shape` (container, signed integer with its kind, string, or one
  of the other `reflect.Kind`s). It also has `int64Method`, which is `Some(v)` when its type
  implements `Comparable` with `Int64()` returning `v`. A panic becomes a `Failure` value. That
  value records which of the two switches failed (`Left` is the left switch,
  main.go:34-38; `Right` is the right switch, main.go:48-52) and why. `Resolve` is one switch, `GetValues` is `getValues`, and the
  five comparators follow.
- `CompareTests` (`compare_tests.dfy`): the fixtures and expectation tables of `main_test.go`
  as lemmas.

`WellFormed(o)` holds what Go's type system guarantees of any operand:

- an integer fits its kind;
- a length fits `int`;
- a channel holds no more than its capacity;
- `Int64()` returns an int64;
- the untyped nil has no methods.

The resolver and the comparators require only this.

Where the code and its documentation disagree, the model follows the code:

- The doc comments (main.go:61, main.go:70, main.go:79, main.go:88, main.go:97) say that a type
  satisfying `Comparable` is compared by its `Int64()`. In the code, the `default` branch always
  panics after computing that value (main.go:35-38, main.go:49-52). `Resolve` fails for every
  kind outside the first three cases, Comparable or not (`OtherKindsFail`,
  `ComparableOperandFails`).

Behaviour worth noting:

- A string whose value is outside int64 does not wrap. `ParseInt` returns the int64 bound of its
  sign. `ParseInt` also returns on overflow before it looks at the characters that follow. So a
  string whose leading digits already denote a value above the uint64 maximum
  (18446744073709551615) resolves to the bound of its sign, whatever follows
  (`ParseOverflowFirst`).
- `untyped nil` reaches the `default` branch with `reflect.TypeOf(nil) == nil`. There, calling
  `Implements` is a nil dereference, not the "unsupported type" panic. The model gives it the
  separate reason `NilType`.
- `mTestString` (main_test.go:32) is the integer `1`, not a string. The fixture is modelled as it
  is written.

## Model

| member | source | states |
|---|---|---|
| `Decimal.ScanDigits` | main.go:33 | The digit loop returns a value within uint64: 0 on a syntax error, the uint64 maximum on a range error, and on success no less than the accumulator it started from |
| `Decimal.ParseUint` | main.go:33 | Unsigned parsing returns a value within uint64; the empty string is a syntax error with value 0; a range error carries the uint64 maximum |
| `Decimal.ParseInt` | main.go:33 | The parsed value is always an int64; a syntax error gives 0; a range error gives MinInt64 on a leading `-` and MaxInt64 otherwise; the empty string is a syntax error |
| `Decimal.AccumulateValue` | main.go:47 | Accumulating digits from `n` gives `n` times ten to the digit count plus the positional value of the digits |
| `Decimal.ScanDigitsOutcome` | main.go:47 | The digit loop overflows exactly when its leading digits exceed uint64; otherwise it succeeds with their value exactly when every character is a digit, and fails with a syntax error otherwise |
| `Decimal.ParseUintDigits` | main.go:33 | A non-empty digit string parses unsigned to its positional value with no error when that value fits uint64, and to the uint64 maximum with a range error otherwise |
| `Decimal.ParseWellFormed` | main.go:33 | A numeral (optional sign, one or more digits) parses to its value clamped to int64, with a range error exactly when it lies outside int64 |
| `Decimal.ParseMalformed` | main.go:33 | Empty text, a bare sign or a text with a non-digit parses to 0 with a syntax error, unless its leading digits already overflow |
| `Decimal.ParseOverflowFirst` | main.go:47 | Leading digits beyond uint64 give the int64 bound of the sign with a range error, whatever follows |
| `Compare.Resolve` | main.go:27-39 | One switch of getValues succeeds exactly for containers, signed integers and strings, with an int64 magnitude; all other kinds fail, on the side being resolved |
| `Compare.GetValues` | main.go:18-56 | getValues succeeds exactly when both operands are supported, with both magnitudes; a failure is on the left when the left operand is unsupported and on the right otherwise |
| `Compare.Gt` | main.go:62-65 | Fails exactly when getValues fails, with its failure; otherwise returns left magnitude > right magnitude |
| `Compare.Ge` | main.go:71-74 | Fails exactly when getValues fails, with its failure; otherwise returns left magnitude >= right magnitude |
| `Compare.Lt` | main.go:80-83 | Fails exactly when getValues fails, with its failure; otherwise returns left magnitude < right magnitude |
| `Compare.Le` | main.go:89-92 | Fails exactly when getValues fails, with its failure; otherwise returns left magnitude <= right magnitude |
| `Compare.Eq` | main.go:98-101 | Fails exactly when getValues fails, with its failure; otherwise returns whether the magnitudes are equal |
| `Compare.ContainerMagnitude` | main.go:28-29 | An array, channel, map or slice resolves to its element count whatever its kind or elements; two containers of equal count are Eq |
| `Compare.ChannelCountsQueued` | main.go:42-43 | A channel resolves to its number of queued elements; channels with the same contents and different capacities are Eq |
| `Compare.IntegerMagnitude` | main.go:30-31 | A signed integer of any kind resolves to its own value, sign preserved |
| `Compare.MethodsIgnored` | main.go:27-33 | For the supported kinds the magnitude does not depend on whether the type has an Int64() method |
| `Compare.TextMagnitude` | main.go:32-33 | A string resolves to ParseInt's value with the error dropped; a numeral resolves to its value clamped to int64 |
| `Compare.UnparsableTextsEqual` | main.go:46-47 | A non-numeral string (without overflowing leading digits) resolves to 0, and two such strings are Eq |
| `Compare.OtherKindsFail` | main.go:34-38 | Every other kind fails on the side resolved: nil by the nil-type dereference, every other kind, Comparable or not, by the unsupported-type panic |
| `Compare.ComparableOperandFails` | main.go:35-38 | A left operand of an unsupported kind that implements Comparable makes all five comparators fail with the left unsupported-type panic |
| `Compare.LeftResolvedFirst` | main.go:27-53 | An unsupported left operand fails the comparison with the left failure whatever the right operand is; the right failure arises only when the left operand is supported |
| `Compare.IntegersCompareByValue` | main.go:62-101 | For two signed integers each comparator returns the integer relation of their values |
| `Compare.Trichotomy` | main.go:62-101 | For supported operands exactly one of Lt, Eq and Gt holds |
| `Compare.NegatedPairs` | main.go:71-92 | Ge is the negation of Lt and Le the negation of Gt, failures included |
| `Compare.Converse` | main.go:62-101 | Swapping supported operands turns Gt into Lt, Ge into Le, and leaves Eq unchanged |
| `Compare.EqReflexive` | main.go:98-101 | Eq(x, x) holds for every supported x and fails on the left for every unsupported x |
| `Compare.Transitive` | main.go:80-101 | Le, Lt and Eq are transitive |
| `Compare.GtAsymmetric` | main.go:62-65 | Gt(a, b) true implies Gt(b, a) false |
| `Compare.IntVersusZeroString` | main_test.go:23-24 | Gt(0, "0") is false |
| `Compare.SliceEqualsMap` | main.go:28-29 | Eq([]int{0, 1}, map[int]int{0: 0, 1: 1}) is true |
| `Compare.OneLeTwo` | main_test.go:58 | Le(1, 2) is true |
| `CompareTests.TablesFromMagnitudes` | main_test.go:100-183 | Three supported operands of increasing magnitude meet all five expectation tables on the four pairs of a family |
| `CompareTests.FamilyMagnitudes` | main_test.go:22-53 | Every fixture family is well-formed and supported, with small < mid < large magnitudes |
| `CompareTests.FixturesMeetExpectationTables` | main_test.go:55-183 | Every pair of every family gets the result its test expects from all five comparators |

## Left out

- Go reflection (`reflect.ValueOf`, `TypeOf`, `Kind`, `Implements`, main.go:21-24, main.go:35, main.go:49) is replaced by the closed `Operand` datatype. The runtime type system is not modelled.
- Panics are `Failure` results. Stack unwinding and recovery are not modelled.
- The call to `Int64()` in the `default` branch (main.go:36, main.go:50) is not modelled. Its result is discarded before the panic. If a user's `Int64()` itself panics or never returns, Go fails differently from the model's unsupported-type failure, and the model does not capture that.
- Channels are their queued elements and capacity. Sending, receiving and the setup in `TestMain` (main_test.go:48-53) are concurrency and test plumbing; the fixtures hold the state after that setup.
- Container elements are fixed to `int`. The magnitude never reads them.
- Go's `int` is taken to be 64 bits wide, as on 64-bit platforms.
- `strconv`: only the base-10, 64-bit path is modelled. Underscores and base prefixes apply only to base 0. The `NumError` fields other than the error kind are not modelled.
- Go strings are bytes and the model's are `seq<char>`. Any non-ASCII character is a non-digit either way, so parsing agrees.
- The test harness (`testing.T`, `os.Exit`, main_test.go:100-183) is stated as lemmas, not modelled.
