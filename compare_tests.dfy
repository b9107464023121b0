/** The fixtures and expectation tables of main_test.go, stated as lemmas about the model. */
module CompareTests {
  import opened Wrappers
  import opened Compare
  import Decimal

  function IntValue(v: int): Operand { Operand(Integer(Int, v), None) }
  function StringValue(s: string): Operand { Operand(Text(s), None) }
  function ContainerValue(c: Container): Operand { Operand(Container(c), None) }
  /** The test type `comparable` is an int64 with a method Int(), not Int64(). */
  function ComparableValue(v: int): Operand { Operand(Integer(Int64, v), None) }

  // The small, mid and large fixture of each family (main_test.go:22-46). The channels hold
  // what TestMain sends to them before the tests run (main_test.go:49-51); mTestString is the
  // int 1, not a string.
  const sTestInt := IntValue(0)
  const sTestString := StringValue("0")
  const sTestArray := ContainerValue(Slice([]))
  const sTestMap := ContainerValue(Map(map[]))
  const sTestSlice := ContainerValue(Slice([0]))
  const sTestCh := ContainerValue(Chan([], 0))
  const sComparable := ComparableValue(0)

  const mTestInt := IntValue(1)
  const mTestString := IntValue(1)
  const mTestArray := ContainerValue(Array([0]))
  const mTestMap := ContainerValue(Map(map[0 := 0]))
  const mTestSlice := ContainerValue(Slice([0, 1]))
  const mTestCh := ContainerValue(Chan([0], 1))
  const mComparable := ComparableValue(1)

  const lTestInt := IntValue(2)
  const lTestString := StringValue("2")
  const lTestArray := ContainerValue(Array([0, 1]))
  const lTestMap := ContainerValue(Map(map[0 := 0, 1 := 1, 2 := 2]))
  const lTestSlice := ContainerValue(Slice([0, 1, 2]))
  const lTestCh := ContainerValue(Chan([0, 1], 2))
  const lComparable := ComparableValue(2)

  /** The four pairs of one family: (small, mid), (mid, large), (large, small), (mid, mid). */
  function Pairs(s: Operand, m: Operand, l: Operand): seq<(Operand, Operand)> {
    [(s, m), (m, l), (l, s), (m, m)]
  }

  const families: seq<(Operand, Operand, Operand)> := [
    (sTestInt, mTestInt, lTestInt),
    (sTestString, mTestString, lTestString),
    (sTestArray, mTestArray, lTestArray),
    (sTestMap, mTestMap, lTestMap),
    (sTestSlice, mTestSlice, lTestSlice),
    (sTestCh, mTestCh, lTestCh),
    (sComparable, mComparable, lComparable)
  ]

  /** testCases (main_test.go:55-98). */
  function TestCases(): (cases: seq<seq<(Operand, Operand)>>)
    ensures |cases| == |families|
  {
    seq(|families|, i requires 0 <= i < |families| => Pairs(families[i].0, families[i].1, families[i].2))
  }

  // The expected results of TestGt, TestGe, TestLt, TestLe and TestEq, pair by pair.
  const gtResults := [false, false, true, false]
  const geResults := [false, false, true, true]
  const ltResults := [true, true, false, false]
  const leResults := [true, true, false, true]
  const eqResults := [false, false, false, true]

  /** Any three supported operands with increasing magnitudes meet all five tables. */
  lemma TablesFromMagnitudes(s: Operand, m: Operand, l: Operand)
    requires WellFormed(s) && WellFormed(m) && WellFormed(l)
    requires Supported(s) && Supported(m) && Supported(l)
    requires Magnitude(s) < Magnitude(m) < Magnitude(l)
    ensures forall j :: 0 <= j < 4 ==>
      var (a, b) := Pairs(s, m, l)[j];
      && Gt(a, b) == Success(gtResults[j]) && Ge(a, b) == Success(geResults[j])
      && Lt(a, b) == Success(ltResults[j]) && Le(a, b) == Success(leResults[j])
      && Eq(a, b) == Success(eqResults[j])
  {
  }

  /** Each family's small, mid and large fixture resolve to increasing magnitudes (0, 1, 2 for
      most; 1, 2, 3 for the slices; 0, 1, 3 for the maps). */
  lemma FamilyMagnitudes(i: nat)
    requires i < |families|
    ensures var (s, m, l) := families[i];
      && WellFormed(s) && WellFormed(m) && WellFormed(l)
      && Supported(s) && Supported(m) && Supported(l)
      && Magnitude(s) < Magnitude(m) < Magnitude(l)
  {
    if i == 1 {
      Decimal.ParseWellFormed("0");
      Decimal.ParseWellFormed("2");
    } else if i == 3 {
      var empty: map<int, int> := map[];
      assert |empty| == 0 && sTestMap.shape.c.entries == empty;
      assert |map[0 := 0, 1 := 1, 2 := 2]| == 3;
    }
  }

  /** Every pair of every fixture family meets the five expectation tables of main_test.go. */
  lemma FixturesMeetExpectationTables()
    ensures forall i, j :: 0 <= i < |families| && 0 <= j < 4 ==>
      var (a, b) := TestCases()[i][j];
      && WellFormed(a) && WellFormed(b)
      && Gt(a, b) == Success(gtResults[j]) && Ge(a, b) == Success(geResults[j])
      && Lt(a, b) == Success(ltResults[j]) && Le(a, b) == Success(leResults[j])
      && Eq(a, b) == Success(eqResults[j])
  {
    forall i | 0 <= i < |families|
      ensures forall j :: 0 <= j < 4 ==>
        var (a, b) := TestCases()[i][j];
        && WellFormed(a) && WellFormed(b)
        && Gt(a, b) == Success(gtResults[j]) && Ge(a, b) == Success(geResults[j])
        && Lt(a, b) == Success(ltResults[j]) && Le(a, b) == Success(leResults[j])
        && Eq(a, b) == Success(eqResults[j])
    {
      FamilyMagnitudes(i);
      var (s, m, l) := families[i];
      TablesFromMagnitudes(s, m, l);
      assert TestCases()[i] == Pairs(s, m, l);
    }
  }
}
