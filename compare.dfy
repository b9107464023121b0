/** The comparison functions of package compare (main.go): each operand is reduced to a
    signed 64-bit magnitude by getValues, and one relational operator is applied to the two
    magnitudes. Go's reflection over `interface{}` is replaced by a closed datatype of the
    runtime kinds getValues distinguishes, and its panics by a Failure result. */
module Compare {
  import opened Wrappers
  import Decimal

  /** The signed integer kinds of the second case of getValues' switches. */
  datatype IntKind = Int | Int8 | Int16 | Int32 | Int64

  /** The smallest and largest value of each signed kind (`int` is 64 bits wide here). */
  function MinOf(k: IntKind): int {
    match k
    case Int8 => -0x80
    case Int16 => -0x8000
    case Int32 => -0x8000_0000
    case Int | Int64 => Decimal.MinInt64
  }

  function MaxOf(k: IntKind): int {
    match k
    case Int8 => 0x7F
    case Int16 => 0x7FFF
    case Int32 => 0x7FFF_FFFF
    case Int | Int64 => Decimal.MaxInt64
  }

  /** The kinds with a length; element types are fixed to `int`, as in the tests. A channel
      holds the elements currently queued in it and its buffer capacity. */
  datatype Container =
    | Array(elems: seq<int>)
    | Slice(elems: seq<int>)
    | Map(entries: map<int, int>)
    | Chan(queued: seq<int>, capacity: nat)

  /** reflect.Value.Len: the element count, and for a channel the count of queued elements. */
  function Len(c: Container): nat {
    match c
    case Array(e) => |e|
    case Slice(e) => |e|
    case Map(m) => |m|
    case Chan(q, _) => |q|
  }

  /** Every other reflect.Kind a value passed as `interface{}` can have; Nil stands for the
      untyped nil, whose reflect.Value has kind Invalid. */
  datatype OtherKind =
    | Nil | Bool
    | Uint | Uint8 | Uint16 | Uint32 | Uint64 | Uintptr
    | Float32 | Float64 | Complex64 | Complex128
    | Struct | Pointer | Func | UnsafePointer

  /** The runtime kind of an operand with the data getValues reads from it. */
  datatype Shape =
    | Container(c: Container)
    | Integer(width: IntKind, value: int)
    | Text(s: string)
    | Other(kind: OtherKind)

  /** A value passed as `interface{}`: its shape, and Some(v) when its dynamic type
      implements Comparable with Int64() returning v. */
  datatype Operand = Operand(shape: Shape, int64Method: Option<int>)

  /** What Go's type system guarantees of every operand: an integer fits its kind, a length
      fits `int`, a channel holds no more than its capacity, Int64() returns an int64, and
      the untyped nil has no methods. */
  predicate WellFormed(o: Operand) {
    && (o.shape.Integer? ==> MinOf(o.shape.width) <= o.shape.value <= MaxOf(o.shape.width))
    && (o.shape.Container? ==> Len(o.shape.c) <= Decimal.MaxInt64)
    && (o.shape.Container? && o.shape.c.Chan? ==> |o.shape.c.queued| <= o.shape.c.capacity)
    && (o.int64Method.Some? ==> Decimal.InInt64(o.int64Method.value))
    && (o.shape == Other(Nil) ==> o.int64Method.None?)
  }

  /** The kinds getValues resolves without panicking. */
  predicate Supported(o: Operand) {
    !o.shape.Other?
  }

  /** Which of the two switches of getValues failed: the left one (main.go:34-38) or the
      right one (main.go:48-52). */
  datatype Side = Left | Right

  /** UnsupportedType is the panic "can not compare unsupported type"; NilType is the nil
      dereference of calling Implements on reflect.TypeOf(nil), which is a nil Type. */
  datatype Reason = UnsupportedType | NilType

  datatype Failure = Panic(side: Side, reason: Reason)

  /** One switch of getValues: the magnitude of the operand on `side`. */
  function Resolve(o: Operand, side: Side): (r: Result<int, Failure>)
    requires WellFormed(o)
    ensures r.Success? <==> Supported(o)
    ensures r.Success? ==> Decimal.InInt64(r.value)
    ensures r.Failure? ==> r.error.side == side
  {
    match o.shape
    case Container(c) => Success(Len(c))
    case Integer(_, v) => Success(v)
    case Text(s) => Success(Decimal.ParseInt(s).value)  // the parse error is discarded
    case Other(k) =>
      if k == Nil then Failure(Panic(side, NilType))
      // Whether or not Int64() exists and is called, the switch panics afterwards.
      else Failure(Panic(side, UnsupportedType))
  }

  /** The magnitude of a supported operand; it does not depend on the side. */
  function Magnitude(o: Operand): int
    requires WellFormed(o) && Supported(o)
  {
    Resolve(o, Left).value
  }

  /** getValues: the left operand's magnitude, then the right one's. */
  function GetValues(a: Operand, b: Operand): (r: Result<(int, int), Failure>)
    requires WellFormed(a) && WellFormed(b)
    ensures r.Success? <==> Supported(a) && Supported(b)
    ensures r.Success? ==> r.value == (Magnitude(a), Magnitude(b))
    ensures r.Failure? ==> r.error.side == if Supported(a) then Right else Left
  {
    match Resolve(a, Left)
    case Failure(e) => Failure(e)
    case Success(left) =>
      match Resolve(b, Right)
      case Failure(e) => Failure(e)
      case Success(right) => Success((left, right))
  }

  /** The contract the five comparators share: they fail exactly when getValues does, with
      its failure, and otherwise return `holds` of the two magnitudes. */
  predicate Compares(a: Operand, b: Operand, r: Result<bool, Failure>, holds: (int, int) -> bool)
    requires WellFormed(a) && WellFormed(b)
  {
    && (r.Success? <==> Supported(a) && Supported(b))
    && (r.Failure? ==> r.error == GetValues(a, b).error)
    && (r.Success? ==> r.value == holds(Magnitude(a), Magnitude(b)))
  }

  function Gt(a: Operand, b: Operand): (r: Result<bool, Failure>)
    requires WellFormed(a) && WellFormed(b)
    ensures Compares(a, b, r, (x, y) => x > y)
  {
    match GetValues(a, b)
    case Failure(e) => Failure(e)
    case Success((left, right)) => Success(left > right)
  }

  function Ge(a: Operand, b: Operand): (r: Result<bool, Failure>)
    requires WellFormed(a) && WellFormed(b)
    ensures Compares(a, b, r, (x, y) => x >= y)
  {
    match GetValues(a, b)
    case Failure(e) => Failure(e)
    case Success((left, right)) => Success(left >= right)
  }

  function Lt(a: Operand, b: Operand): (r: Result<bool, Failure>)
    requires WellFormed(a) && WellFormed(b)
    ensures Compares(a, b, r, (x, y) => x < y)
  {
    match GetValues(a, b)
    case Failure(e) => Failure(e)
    case Success((left, right)) => Success(left < right)
  }

  function Le(a: Operand, b: Operand): (r: Result<bool, Failure>)
    requires WellFormed(a) && WellFormed(b)
    ensures Compares(a, b, r, (x, y) => x <= y)
  {
    match GetValues(a, b)
    case Failure(e) => Failure(e)
    case Success((left, right)) => Success(left <= right)
  }

  function Eq(a: Operand, b: Operand): (r: Result<bool, Failure>)
    requires WellFormed(a) && WellFormed(b)
    ensures Compares(a, b, r, (x, y) => x == y)
  {
    match GetValues(a, b)
    case Failure(e) => Failure(e)
    case Success((left, right)) => Success(left == right)
  }

  /** The boolean negation of a comparison result; a failure stays the same failure. */
  function Not(r: Result<bool, Failure>): Result<bool, Failure> {
    match r
    case Failure(e) => Failure(e)
    case Success(b) => Success(!b)
  }

  // ---------------------------------------------------------------------------------------
  // Magnitude resolution, kind by kind.

  /** A container resolves to its element count, whatever its kind, its elements, its
      capacity or its methods; two containers with equal counts have equal magnitudes. */
  lemma ContainerMagnitude(a: Operand, b: Operand)
    requires WellFormed(a) && WellFormed(b) && a.shape.Container? && b.shape.Container?
    ensures Supported(a) && Magnitude(a) == Len(a.shape.c)
    ensures Len(a.shape.c) == Len(b.shape.c) ==> Eq(a, b) == Success(true)
  {
  }

  /** A channel's magnitude is its count of queued elements, not its capacity. */
  lemma ChannelCountsQueued(q: seq<int>, cap1: nat, cap2: nat, m: Option<int>)
    requires |q| <= cap1 && |q| <= cap2 && |q| <= Decimal.MaxInt64
    requires m.Some? ==> Decimal.InInt64(m.value)
    ensures var a := Operand(Container(Chan(q, cap1)), m);
      WellFormed(a) && Resolve(a, Left) == Success(|q|)
    ensures Eq(Operand(Container(Chan(q, cap1)), m), Operand(Container(Chan(q, cap2)), None)) == Success(true)
  {
  }

  /** A signed integer of any kind resolves to its own value, sign included. */
  lemma IntegerMagnitude(o: Operand)
    requires WellFormed(o) && o.shape.Integer?
    ensures Supported(o) && Magnitude(o) == o.shape.value
  {
  }

  /** For the supported kinds the magnitude does not depend on the methods of the type: an
      integer, string or container type with an Int64() method still resolves by its kind. */
  lemma MethodsIgnored(shape: Shape, m: Option<int>)
    requires WellFormed(Operand(shape, m)) && WellFormed(Operand(shape, None))
    ensures Resolve(Operand(shape, m), Left) == Resolve(Operand(shape, None), Left)
  {
  }

  /** A string resolves to the value strconv.ParseInt gives it, with the error dropped: a
      well-formed numeral gives its value clamped to int64. */
  lemma TextMagnitude(o: Operand)
    requires WellFormed(o) && o.shape.Text?
    ensures Supported(o) && Magnitude(o) == Decimal.ParseInt(o.shape.s).value
    ensures Decimal.WellFormed(o.shape.s) ==>
      Magnitude(o) == Decimal.Clamp(Decimal.DecimalValue(o.shape.s))
  {
    if Decimal.WellFormed(o.shape.s) {
      Decimal.ParseWellFormed(o.shape.s);
    }
  }

  /** A string that is not a numeral resolves to 0 (unless its leading digits overflow), so
      two such strings compare equal. */
  lemma UnparsableTextsEqual(s: string, t: string)
    requires !Decimal.WellFormed(s) && Decimal.Accumulate(0, Decimal.LeadingDigits(Decimal.Unsigned(s))) <= Decimal.MaxUint64
    requires !Decimal.WellFormed(t) && Decimal.Accumulate(0, Decimal.LeadingDigits(Decimal.Unsigned(t))) <= Decimal.MaxUint64
    ensures Magnitude(Operand(Text(s), None)) == 0
    ensures Eq(Operand(Text(s), None), Operand(Text(t), None)) == Success(true)
  {
    Decimal.ParseMalformed(s);
    Decimal.ParseMalformed(t);
  }

  /** Every other kind fails, including a type that implements Comparable: its Int64() result
      is computed and then the switch panics. */
  lemma OtherKindsFail(o: Operand, side: Side)
    requires WellFormed(o) && o.shape.Other?
    ensures Resolve(o, side) ==
      Failure(Panic(side, if o.shape.kind == Nil then NilType else UnsupportedType))
  {
  }

  // ---------------------------------------------------------------------------------------
  // Failure propagation.

  /** The left operand is resolved first: when it fails, the comparison fails with the left
      panic, whatever the right operand is; only then can the right operand fail. */
  lemma LeftResolvedFirst(a: Operand, b: Operand)
    requires WellFormed(a) && WellFormed(b)
    ensures !Supported(a) ==> GetValues(a, b) == Failure(Resolve(a, Left).error)
    ensures Supported(a) && !Supported(b) ==> GetValues(a, b) == Failure(Resolve(b, Right).error)
  {
  }

  /** A Comparable value of an unsupported kind makes every comparator fail. */
  lemma ComparableOperandFails(a: Operand, b: Operand)
    requires WellFormed(a) && WellFormed(b) && a.shape.Other? && a.int64Method.Some?
    ensures var e := Failure(Panic(Left, UnsupportedType));
      Gt(a, b) == e && Ge(a, b) == e && Lt(a, b) == e && Le(a, b) == e && Eq(a, b) == e
  {
  }

  // ---------------------------------------------------------------------------------------
  // Order laws.

  /** Two signed integers compare as integers, for every operator. */
  lemma IntegersCompareByValue(a: Operand, b: Operand)
    requires WellFormed(a) && WellFormed(b) && a.shape.Integer? && b.shape.Integer?
    ensures var i, j := a.shape.value, b.shape.value;
      && Gt(a, b) == Success(i > j) && Ge(a, b) == Success(i >= j)
      && Lt(a, b) == Success(i < j) && Le(a, b) == Success(i <= j)
      && Eq(a, b) == Success(i == j)
  {
  }

  /** Exactly one of Lt, Eq and Gt holds of two supported operands. */
  lemma Trichotomy(a: Operand, b: Operand)
    requires WellFormed(a) && WellFormed(b) && Supported(a) && Supported(b)
    ensures Lt(a, b).Success? && Eq(a, b).Success? && Gt(a, b).Success?
    ensures Lt(a, b).value ==> !Eq(a, b).value && !Gt(a, b).value
    ensures Eq(a, b).value ==> !Gt(a, b).value
    ensures Lt(a, b).value || Eq(a, b).value || Gt(a, b).value
  {
  }

  /** Ge is the negation of Lt and Le the negation of Gt, failures included. */
  lemma NegatedPairs(a: Operand, b: Operand)
    requires WellFormed(a) && WellFormed(b)
    ensures Ge(a, b) == Not(Lt(a, b))
    ensures Le(a, b) == Not(Gt(a, b))
  {
  }

  /** Swapping the operands turns Gt into Lt and Ge into Le when both are supported. */
  lemma Converse(a: Operand, b: Operand)
    requires WellFormed(a) && WellFormed(b) && Supported(a) && Supported(b)
    ensures Gt(a, b) == Lt(b, a) && Ge(a, b) == Le(b, a) && Eq(a, b) == Eq(b, a)
  {
  }

  /** Every supported operand equals itself; an unsupported one fails on the left. */
  lemma EqReflexive(x: Operand)
    requires WellFormed(x)
    ensures Supported(x) ==> Eq(x, x) == Success(true)
    ensures !Supported(x) ==> Eq(x, x) == Failure(Resolve(x, Left).error)
  {
  }

  /** Le and Lt are transitive (a total preorder by magnitude), and Eq is an equivalence. */
  lemma Transitive(a: Operand, b: Operand, c: Operand)
    requires WellFormed(a) && WellFormed(b) && WellFormed(c)
    ensures Le(a, b) == Success(true) && Le(b, c) == Success(true) ==> Le(a, c) == Success(true)
    ensures Lt(a, b) == Success(true) && Lt(b, c) == Success(true) ==> Lt(a, c) == Success(true)
    ensures Eq(a, b) == Success(true) && Eq(b, c) == Success(true) ==> Eq(a, c) == Success(true)
  {
  }

  /** Gt is asymmetric. */
  lemma GtAsymmetric(a: Operand, b: Operand)
    requires WellFormed(a) && WellFormed(b)
    ensures Gt(a, b) == Success(true) ==> Gt(b, a) == Success(false)
  {
  }

  // ---------------------------------------------------------------------------------------
  // Concrete cases.

  /** Gt(0, "0") is false: both magnitudes are 0. */
  lemma IntVersusZeroString()
    ensures Gt(Operand(Integer(Int, 0), None), Operand(Text("0"), None)) == Success(false)
  {
    Decimal.ParseWellFormed("0");
  }

  /** Eq([]int{0, 1}, map[int]int{0: 0, 1: 1}) holds: both have two elements. */
  lemma SliceEqualsMap()
    ensures Eq(Operand(Container(Slice([0, 1])), None),
               Operand(Container(Map(map[0 := 0, 1 := 1])), None)) == Success(true)
  {
  }

  /** Le(1, 2) holds. */
  lemma OneLeTwo()
    ensures Le(Operand(Integer(Int, 1), None), Operand(Integer(Int, 2), None)) == Success(true)
  {
  }
}
