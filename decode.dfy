/**
 * The pure part of A2LEngine/Core.cs: the block markers, the engine's fields
 * as a value, name resolution through the parallel name lists, and the
 * positional field layout each builder decodes from one block body.
 */
module Decode {
  import opened Wrappers
  import opened Helpers
  import opened Models

  // ---------------------------------------------------------------------
  // Block markers (A2LEngine/Core.cs:18-27)
  // ---------------------------------------------------------------------

  const M_ST_START: Marker := Marker("/begin", "MEASUREMENT")
  const M_ST_END: Marker := Marker("/end", "MEASUREMENT")
  const C_ST_START: Marker := Marker("/begin", "CHARACTERISTIC")
  const C_ST_END: Marker := Marker("/end", "CHARACTERISTIC")
  const CM_ST_START: Marker := Marker("/begin", "COMPU_METHOD")
  const CM_ST_END: Marker := Marker("/end", "COMPU_METHOD")
  const CMV_ST_START: Marker := Marker("/begin", "COMPU_VTAB")
  const CMV_ST_END: Marker := Marker("/end", "COMPU_VTAB")
  const AXD_ST_START: Marker := Marker("/begin", "AXIS_DESCR")
  /** Written with a space, as the source has it. */
  const AXD_ST_END: Marker := Marker("/end", "AXIS DESCR")

  // ---------------------------------------------------------------------
  // The engine's fields and those of its A2LCollection, as one value
  // ---------------------------------------------------------------------

  datatype State = State(
    compuMethodRef: seq<string>,
    measurementRef: seq<string>,
    calibrationRef: seq<string>,
    compuMethodVTabRef: seq<string>,
    recordLayoutRef: seq<string>,
    descriptor: Option<string>,
    measurements: Option<seq<Measurement>>,
    calibrations: Option<seq<Calibration>>,
    compuMethods: Option<seq<CompuMethod>>,
    functions: Option<seq<Function>>,
    recordLayouts: Option<seq<RecordLayout>>,
    compuMethodVTab: Option<seq<CompuTable>>,
    isMeasurementsLoaded: bool,
    isCalibrationsLoaded: bool,
    isCompuMethodsLoaded: bool,
    isFunctionsLoaded: bool,
    isRecordLayoutsLoaded: bool,
    isCompuMethodVTabsLoaded: bool)

  /** A freshly constructed engine: empty name lists, null record lists, no flag set. */
  const Initial: State :=
    State([], [], [], [], [], None, None, None, None, None, None, None, false, false, false, false, false, false)

  // ---------------------------------------------------------------------
  // Name resolution (List<string>.IndexOf, then indexing the record list)
  // ---------------------------------------------------------------------

  /** List<string>.IndexOf: the first position of x, or -1. */
  function IndexOf(xs: seq<string>, x: string): (r: int)
    ensures -1 <= r < |xs|
    ensures r == -1 <==> x !in xs
    ensures 0 <= r ==> xs[r] == x && x !in xs[..r]
  {
    if xs == [] then -1
    else if xs[0] == x then 0
    else
      var i := IndexOf(xs[1..], x);
      assert xs[1..][..if i < 0 then 0 else i] == xs[1..if i < 0 then 1 else i + 1];
      if i == -1 then -1 else i + 1
  }

  /**
   * `recordList[names.IndexOf(key)]` when the name is registered, unset
   * otherwise; indexing a null or too short list throws.
   */
  function Resolve<T>(names: seq<string>, records: Option<seq<T>>, key: string): (r: Result<Option<T>, Error>)
    ensures r == Ok(None) <==> key !in names
    ensures r.Ok? && r.value.Some? ==>
      exists i | 0 <= i < |names| :: names[i] == key && key !in names[..i]
        && records.Some? && i < |records.value| && r.value.value == records.value[i]
    ensures r.Err? <==> key in names && (records.None? || IndexOf(names, key) >= |records.value|)
  {
    var i := IndexOf(names, key);
    if i == -1 then Ok(None)
    else if records.Some? && i < |records.value| then Ok(Some(records.value[i]))
    else Err(StaleReference(i))
  }

  // ---------------------------------------------------------------------
  // Fields of a block body
  // ---------------------------------------------------------------------

  /** `body.Cleanup().Split('\n')`. */
  function Lines(body: string): seq<string> {
    Split(Cleanup(body), '\n')
  }

  /** `lines[i].Cleanup()`; a missing line throws. */
  function Field(lines: seq<string>, i: nat): (r: Result<string, Error>)
    ensures r.Ok? <==> i < |lines|
    ensures r.Ok? ==> r.value == Cleanup(lines[i])
  {
    if i < |lines| then Ok(Cleanup(lines[i])) else Err(MissingLine(i))
  }

  /**
   * The cleaned text of line i, or "" past the end. Used only as a lookup
   * key: a block that short throws for the missing line before the lookup.
   */
  function LineKey(body: string, i: nat): string {
    var lines := Lines(body);
    if i < |lines| then Cleanup(lines[i]) else ""
  }

  function IntOf(text: string): (r: Result<int, Error>)
    ensures r.Ok? ==> INT32_MIN <= r.value <= INT32_MAX
  {
    match ParseInt32(text)
    case Some(n) => Ok(n)
    case None => Err(BadInteger(text))
  }

  function EnumOf<T>(parsed: Option<T>, text: string): Result<T, Error> {
    match parsed
    case Some(t) => Ok(t)
    case None => Err(BadEnumName(text))
  }

  // ---------------------------------------------------------------------
  // COMPU_VTAB (A2LEngine/Core.cs:174-185)
  // ---------------------------------------------------------------------

  const TWO_32: int := 0x1_0000_0000

  /** Unchecked 32-bit signed arithmetic: the result wraps around modulo 2^32. */
  function Wrap32(x: int): (r: int)
    ensures INT32_MIN <= r <= INT32_MAX
    ensures (r - x) % TWO_32 == 0
    ensures INT32_MIN <= x <= INT32_MAX ==> r == x
  {
    (x - INT32_MIN) % TWO_32 + INT32_MIN
  }

  /**
   * The number of passes of `for (int i = 4; i < NumberOfPairs + 4; i++)`,
   * where the bound is computed in 32-bit arithmetic.
   */
  function PairCount(n: int): (r: nat)
    requires INT32_MIN <= n <= INT32_MAX
    ensures 0 <= n <= INT32_MAX - 4 ==> r == n
    ensures n < 0 || n > INT32_MAX - 4 ==> r == 0
  {
    var bound := Wrap32(n + 4);
    if bound > 4 then bound - 4 else 0
  }

  /**
   * Pair j of a COMPU_VTAB body, on line 4 + j: the integer of its first
   * space-separated token and its second token, or "" when there is only one.
   */
  function Pair(lines: seq<string>, j: nat): (r: Result<(int, string), Error>)
    ensures 4 + j >= |lines| ==> r == Err(MissingLine(4 + j))
  {
    if 4 + j >= |lines| then Err(MissingLine(4 + j))
    else
      var tokens := Split(Cleanup(lines[4 + j]), ' ');
      var key :- IntOf(Cleanup(tokens[0]));
      Ok((key, if |tokens| == 1 then "" else Cleanup(tokens[1])))
  }

  /** The outcomes of the first k pair lines. */
  function PairList(lines: seq<string>, k: nat): (r: seq<Result<(int, string), Error>>)
    ensures |r| == k && forall j | 0 <= j < k :: r[j] == Pair(lines, j)
  {
    seq(k, j requires 0 <= j => Pair(lines, j))
  }

  /**
   * Dictionary.Add of each pair in turn: the dictionary, or the first
   * exception, from parsing a line or from a key added twice.
   */
  function AddPairs(ps: seq<Result<(int, string), Error>>): Result<map<int, string>, Error> {
    if ps == [] then Ok(map[])
    else
      var m :- AddPairs(ps[..|ps| - 1]);
      var pair :- ps[|ps| - 1];
      if pair.0 in m then Err(DuplicateKey(pair.0)) else Ok(m[pair.0 := pair.1])
  }

  /**
   * The dictionary after the k passes of the pair loop, or the exception it
   * throws: on success it holds one entry per pass, the key of each pair line
   * mapped to its value.
   */
  function Pairs(lines: seq<string>, k: nat): (r: Result<map<int, string>, Error>)
    ensures r.Ok? ==> |r.value| == k && (k > 0 ==> 4 + k <= |lines|)
    ensures r.Ok? ==> forall j | 0 <= j < k ::
      Pair(lines, j).Ok? && Pair(lines, j).value.0 in r.value && r.value[Pair(lines, j).value.0] == Pair(lines, j).value.1
  {
    AddPairsMeaning(PairList(lines, k));
    AddPairs(PairList(lines, k))
  }

  /** AddPairs' outcome on success: one entry per pair, each pair's key mapped to its value. */
  lemma AddPairsMeaning(ps: seq<Result<(int, string), Error>>)
    ensures var r := AddPairs(ps); r.Ok? ==> |r.value| == |ps| && forall j | 0 <= j < |ps| ::
      ps[j].Ok? && ps[j].value.0 in r.value && r.value[ps[j].value.0] == ps[j].value.1
  {
    if AddPairs(ps).Ok? {
      AddPairsSize(ps);
      forall j | 0 <= j < |ps|
        ensures ps[j].Ok? && ps[j].value.0 in AddPairs(ps).value && AddPairs(ps).value[ps[j].value.0] == ps[j].value.1
      {
        AddPairsEntry(ps, j);
      }
    }
  }

  /** One more pass of the pair loop: Dictionary.Add of pair j to the dictionary so far. */
  lemma PairsStep(lines: seq<string>, j: nat)
    ensures Pairs(lines, j + 1) ==
      (var m :- Pairs(lines, j);
       var pair :- Pair(lines, j);
       if pair.0 in m then Err(DuplicateKey(pair.0)) else Ok(m[pair.0 := pair.1]))
  {
    assert PairList(lines, j + 1)[..j] == PairList(lines, j);
  }

  /** Once a pass throws, the loop ends with that exception. */
  lemma PairsStuck(lines: seq<string>, j: nat, k: nat)
    requires j <= k && Pairs(lines, j).Err?
    ensures Pairs(lines, k) == Pairs(lines, j)
  {
    assert PairList(lines, k)[..j] == PairList(lines, j);
    AddPairsStuck(PairList(lines, k), j);
  }

  lemma {:induction false} AddPairsStuck(ps: seq<Result<(int, string), Error>>, j: nat)
    requires j <= |ps| && AddPairs(ps[..j]).Err?
    ensures AddPairs(ps) == AddPairs(ps[..j])
  {
    if j < |ps| {
      var init := ps[..|ps| - 1];
      assert init[..j] == ps[..j];
      AddPairsStuck(init, j);
    } else {
      assert ps[..j] == ps;
    }
  }

  /** The keys of a successful run are exactly the keys of its pairs. */
  lemma {:induction false} AddPairsKeys(ps: seq<Result<(int, string), Error>>)
    requires AddPairs(ps).Ok?
    ensures forall j | 0 <= j < |ps| :: ps[j].Ok?
    ensures AddPairs(ps).value.Keys == set j | 0 <= j < |ps| :: ps[j].value.0
  {
    if ps != [] {
      var init := ps[..|ps| - 1];
      AddPairsKeys(init);
      assert forall j | 0 <= j < |init| :: init[j] == ps[j];
    }
  }

  /** Pair j's key is mapped to pair j's value. */
  lemma {:induction false} AddPairsEntry(ps: seq<Result<(int, string), Error>>, j: nat)
    requires AddPairs(ps).Ok? && j < |ps|
    ensures ps[j].Ok? && ps[j].value.0 in AddPairs(ps).value && AddPairs(ps).value[ps[j].value.0] == ps[j].value.1
  {
    AddPairsKeys(ps);
    var init := ps[..|ps| - 1];
    if j < |init| {
      assert init[j] == ps[j];
      AddPairsEntry(init, j);
      AddPairsKeys(init);
      assert ps[j].value.0 in AddPairs(init).value.Keys;
    }
  }

  /** A successful run adds one distinct key per pair. */
  lemma {:induction false} AddPairsSize(ps: seq<Result<(int, string), Error>>)
    requires AddPairs(ps).Ok?
    ensures |AddPairs(ps).value| == |ps|
  {
    if ps != [] {
      AddPairsSize(ps[..|ps| - 1]);
    }
  }

  /** Two pairs with the same key make Dictionary.Add throw. */
  lemma {:induction false} AddPairsDuplicate(ps: seq<Result<(int, string), Error>>, i: nat, j: nat)
    requires i < j < |ps|
    requires ps[i].Ok? && ps[j].Ok? && ps[i].value.0 == ps[j].value.0
    ensures AddPairs(ps).Err?
  {
    var init := ps[..|ps| - 1];
    if j < |init| {
      assert init[i] == ps[i] && init[j] == ps[j];
      AddPairsDuplicate(init, i, j);
    } else if AddPairs(init).Ok? {
      AddPairsKeys(init);
      assert init[i] == ps[i];
      assert ps[i].value.0 in AddPairs(init).value.Keys;
    }
  }

  /** A failing pair makes the run fail. */
  lemma {:induction false} AddPairsFailure(ps: seq<Result<(int, string), Error>>, j: nat)
    requires j < |ps| && ps[j].Err?
    ensures AddPairs(ps).Err?
  {
    if AddPairs(ps).Ok? {
      AddPairsKeys(ps);
    }
  }

  /** Parsable pairs with distinct keys make the run succeed. */
  lemma {:induction false} AddPairsComplete(ps: seq<Result<(int, string), Error>>)
    requires forall j | 0 <= j < |ps| :: ps[j].Ok?
    requires forall i, j | 0 <= i < j < |ps| :: ps[i].value.0 != ps[j].value.0
    ensures AddPairs(ps).Ok?
  {
    if ps != [] {
      var init := ps[..|ps| - 1];
      assert forall j | 0 <= j < |init| :: init[j] == ps[j];
      AddPairsComplete(init);
      AddPairsKeys(init);
      assert ps[|ps| - 1].value.0 !in AddPairs(init).value.Keys;
    }
  }

  /** Too few lines for the declared pairs make the loop throw. */
  lemma PairsShort(lines: seq<string>, k: nat)
    requires 0 < k && |lines| < 4 + k
    ensures Pairs(lines, k).Err?
  {
    AddPairsFailure(PairList(lines, k), k - 1);
  }

  /**
   * A COMPU_VTAB block: name(0), description(1), kind(2), N(3), then N pair
   * lines. It decodes exactly when the header lines are there, the kind and N
   * parse, and the pair loop does not throw.
   */
  function DecodeCompuTable(body: string): (r: Result<CompuTable, Error>)
    ensures r.Ok? <==> var lines := Lines(body);
      |lines| >= 4 && ParseCompuMethodType(Cleanup(lines[2])).Some? && IntOf(Cleanup(lines[3])).Ok?
      && Pairs(lines, PairCount(IntOf(Cleanup(lines[3])).value)).Ok?
  {
    var lines := Lines(body);
    var name := Cleanup(lines[0]);
    var description :- Field(lines, 1);
    var kindText :- Field(lines, 2);
    var kind :- EnumOf(ParseCompuMethodType(kindText), kindText);
    var countText :- Field(lines, 3);
    var n :- IntOf(countText);
    assert INT32_MIN <= n <= INT32_MAX;
    var values :- Pairs(lines, PairCount(n));
    Ok(CompuTable(name, description, kind, n, values))
  }

  /** Where a decoded table's fields come from. */
  lemma CompuTableLayout(body: string)
    requires DecodeCompuTable(body).Ok?
    ensures var r := DecodeCompuTable(body).value; var lines := Lines(body);
      |lines| >= 4 && r.name == Cleanup(lines[0]) && r.description == Cleanup(lines[1])
      && ParseCompuMethodType(Cleanup(lines[2])) == Some(r.kind)
      && IntOf(Cleanup(lines[3])) == Ok(r.numberOfPairs)
      && Pairs(lines, PairCount(r.numberOfPairs)) == Ok(r.values)
  {
  }

  /**
   * For a block declaring 0 <= N <= INT32_MAX - 4 pairs that decodes, the table
   * holds exactly N entries, entry i taken from line 4 + i.
   */
  lemma CompuTableValues(body: string)
    requires DecodeCompuTable(body).Ok?
    requires 0 <= DecodeCompuTable(body).value.numberOfPairs <= INT32_MAX - 4
    ensures var t := DecodeCompuTable(body).value;
      |t.values| == t.numberOfPairs
      && (t.numberOfPairs == 0 || 4 + t.numberOfPairs <= |Lines(body)|)
    ensures var t := DecodeCompuTable(body).value;
      forall j | 0 <= j < t.numberOfPairs ::
        Pair(Lines(body), j).Ok? && Pair(Lines(body), j).value.0 in t.values
        && t.values[Pair(Lines(body), j).value.0] == Pair(Lines(body), j).value.1
  {
    CompuTableLayout(body);
  }

  /**
   * A declared count outside 0 ..= INT32_MAX - 4 leaves the wrapped loop bound
   * at or below 4, so no pass runs and a decoded table has no entries.
   */
  lemma CompuTableWrapped(body: string)
    requires DecodeCompuTable(body).Ok?
    requires var n := DecodeCompuTable(body).value.numberOfPairs; n < 0 || n > INT32_MAX - 4
    ensures DecodeCompuTable(body).value.values == map[]
  {
    CompuTableLayout(body);
  }

  /**
   * A table whose header parses and whose pair lines all parse, with distinct
   * keys, decodes.
   */
  lemma CompuTableComplete(body: string)
    requires var lines := Lines(body);
      |lines| >= 4 && ParseCompuMethodType(Cleanup(lines[2])).Some? && IntOf(Cleanup(lines[3])).Ok?
    requires var k := PairCount(IntOf(Cleanup(Lines(body)[3])).value);
      forall j | 0 <= j < k :: Pair(Lines(body), j).Ok?
    requires var k := PairCount(IntOf(Cleanup(Lines(body)[3])).value);
      forall i, j | 0 <= i < j < k :: Pair(Lines(body), i).value.0 != Pair(Lines(body), j).value.0
    ensures DecodeCompuTable(body).Ok?
  {
    var lines := Lines(body);
    var ps := PairList(lines, PairCount(IntOf(Cleanup(lines[3])).value));
    AddPairsComplete(ps);
  }

  /** A declared count the lines do not hold makes the block fail. */
  lemma CompuTableShort(body: string)
    requires var lines := Lines(body); |lines| >= 4 && IntOf(Cleanup(lines[3])).Ok?
    requires var n := IntOf(Cleanup(Lines(body)[3])).value; 0 < n <= INT32_MAX - 4 && |Lines(body)| < 4 + n
    ensures DecodeCompuTable(body).Err?
  {
    var lines := Lines(body);
    var n := IntOf(Cleanup(lines[3])).value;
    PairsShort(lines, n);
  }

  /** Two pair lines with one key make the block fail. */
  lemma CompuTableDuplicate(body: string, i: nat, j: nat)
    requires var lines := Lines(body); |lines| >= 4 && IntOf(Cleanup(lines[3])).Ok?
    requires var n := IntOf(Cleanup(Lines(body)[3])).value; 0 <= n <= INT32_MAX - 4 && i < j < n
    requires Pair(Lines(body), i).Ok? && Pair(Lines(body), j).Ok?
    requires Pair(Lines(body), i).value.0 == Pair(Lines(body), j).value.0
    ensures DecodeCompuTable(body).Err?
  {
    var lines := Lines(body);
    var n := IntOf(Cleanup(lines[3])).value;
    AddPairsDuplicate(PairList(lines, n), i, j);
  }

  // ---------------------------------------------------------------------
  // COMPU_METHOD (A2LEngine/Core.cs:149-161)
  // ---------------------------------------------------------------------

  /** The tokens after COEFFS: `GetStringAfter(body, "COEFFS").Cleanup().Split(' ')`. */
  function CoefficientTokens(body: string): seq<string> {
    Split(Cleanup(GetStringAfter(body, "COEFFS")), ' ')
  }

  /** The cleaned name after COMPU_TAB_REF. */
  function TableReferenceName(body: string): string {
    Cleanup(GetStringAfter(body, "COMPU_TAB_REF"))
  }

  /**
   * A COMPU_METHOD block: name(0), description(1), kind(2), format(3), unit(4);
   * coefficients only when more than one token follows COEFFS; the table
   * reference resolved against the COMPU_VTAB names only.
   */
  function DecodeCompuMethod(body: string, st: State): (r: Result<CompuMethod, Error>)
    ensures r.Ok? ==> var lines := Lines(body);
      |lines| >= 5 && r.value.name == Cleanup(lines[0]) && r.value.description == Cleanup(lines[1])
      && ParseCompuMethodType(Cleanup(lines[2])) == Some(r.value.kind)
      && r.value.displayFormat == Cleanup(lines[3]) && r.value.unit == Cleanup(lines[4])
    ensures r.Ok? ==> (r.value.coefficients.Some? <==> |CoefficientTokens(body)| > 1)
    ensures r.Ok? && r.value.coefficients.Some? ==> r.value.coefficients.value == CoefficientTokens(body)
    ensures r.Ok? ==> Resolve(st.compuMethodVTabRef, st.compuMethodVTab, TableReferenceName(body)) == Ok(r.value.compuTableReference)
    ensures r.Ok? <==> (|Lines(body)| >= 5 && ParseCompuMethodType(Cleanup(Lines(body)[2])).Some?
      && Resolve(st.compuMethodVTabRef, st.compuMethodVTab, TableReferenceName(body)).Ok?)
  {
    CompuMethodWith(body, Resolve(st.compuMethodVTabRef, st.compuMethodVTab, TableReferenceName(body)))
  }

  /** The COMPU_METHOD block read in order, given the outcome of its table lookup. */
  function CompuMethodWith(body: string, table: Result<Option<CompuTable>, Error>): (r: Result<CompuMethod, Error>)
    ensures r.Ok? ==> var lines := Lines(body);
      |lines| >= 5 && r.value.name == Cleanup(lines[0]) && r.value.description == Cleanup(lines[1])
      && ParseCompuMethodType(Cleanup(lines[2])) == Some(r.value.kind)
      && r.value.displayFormat == Cleanup(lines[3]) && r.value.unit == Cleanup(lines[4])
    ensures r.Ok? ==> (r.value.coefficients.Some? <==> |CoefficientTokens(body)| > 1)
    ensures r.Ok? && r.value.coefficients.Some? ==> r.value.coefficients.value == CoefficientTokens(body)
    ensures r.Ok? ==> table == Ok(r.value.compuTableReference)
    ensures r.Ok? <==> |Lines(body)| >= 5 && ParseCompuMethodType(Cleanup(Lines(body)[2])).Some? && table.Ok?
  {
    var lines := Lines(body);
    var name := Cleanup(lines[0]);
    var description :- Field(lines, 1);
    var kindText :- Field(lines, 2);
    var kind :- EnumOf(ParseCompuMethodType(kindText), kindText);
    var displayFormat :- Field(lines, 3);
    var unit :- Field(lines, 4);
    var tokens := CoefficientTokens(body);
    var coefficients := if |tokens| > 1 then Some(tokens) else None;
    var tableReference :- table;
    Ok(CompuMethod(name, description, kind, displayFormat, unit, coefficients, tableReference))
  }

  /**
   * A COMPU_TAB_REF that names no table leaves the link unset and does not
   * stop the block from decoding.
   */
  lemma CompuMethodUnresolved(body: string, st: State)
    requires |Lines(body)| >= 5 && ParseCompuMethodType(Cleanup(Lines(body)[2])).Some?
    requires TableReferenceName(body) !in st.compuMethodVTabRef
    ensures DecodeCompuMethod(body, st).Ok? && DecodeCompuMethod(body, st).value.compuTableReference.None?
  {
  }

  /** Without COEFFS in the body, Coefficients stays unset. */
  lemma NoCoeffsNoCoefficients(body: string, st: State)
    requires forall p | 0 <= p <= |body| :: !KeywordEndsAt(body, "COEFFS", p)
    requires DecodeCompuMethod(body, st).Ok?
    ensures DecodeCompuMethod(body, st).value.coefficients.None?
  {
    NoCoeffsTokens(body);
  }

  lemma NoCoeffsTokens(body: string)
    requires forall p | 0 <= p <= |body| :: !KeywordEndsAt(body, "COEFFS", p)
    ensures CoefficientTokens(body) == [""]
  {
    GetStringAfterAbsent(body, "COEFFS");
    EmptyTokens(GetStringAfter(body, "COEFFS"), ' ');
  }

  /** The cleaned empty text splits into one empty token. */
  lemma EmptyTokens(s: string, sep: char)
    requires s == ""
    ensures Split(Cleanup(s), sep) == [""]
  {
    assert Trim(s) == "";
    assert Cleanup(s) == "";
  }

  // ---------------------------------------------------------------------
  // AXIS_DESCR (A2LEngine/Core.cs:118-131)
  // ---------------------------------------------------------------------

  /**
   * An AXIS_DESCR block: kind(0), measurement reference(1), compu-method
   * reference(2), point count(3), minimum(4), maximum(5), optional MAX_GRAD.
   */
  function DecodeAxisDescriptor(body: string, st: State): (r: Result<AxisDescriptor, Error>)
    ensures r.Ok? ==> var lines := Lines(body);
      |lines| >= 6 && ParseAxisDescriptionType(Cleanup(lines[0])) == Some(r.value.kind)
      && IntOf(Cleanup(lines[3])) == Ok(r.value.numAxis)
      && r.value.minimum == Cleanup(lines[4]) && r.value.maximum == Cleanup(lines[5])
      && Resolve(st.measurementRef, st.measurements, Cleanup(lines[1])) == Ok(r.value.referenceMeasurement)
      && Resolve(st.compuMethodRef, st.compuMethods, Cleanup(lines[2])) == Ok(r.value.compuMethod)
    ensures r.Ok? ==> (r.value.maximumGradient.None? <==> Cleanup(GetStringAfter(body, "MAX_GRAD")) == "")
    ensures r.Ok? ==> r.value.displayFormat.None?
    ensures r.Ok? <==> var lines := Lines(body);
      |lines| >= 6 && ParseAxisDescriptionType(Cleanup(lines[0])).Some? && IntOf(Cleanup(lines[3])).Ok?
      && Resolve(st.measurementRef, st.measurements, Cleanup(lines[1])).Ok?
      && Resolve(st.compuMethodRef, st.compuMethods, Cleanup(lines[2])).Ok?
  {
    AxisDescriptorWith(body, Resolve(st.measurementRef, st.measurements, LineKey(body, 1)),
                       Resolve(st.compuMethodRef, st.compuMethods, LineKey(body, 2)))
  }

  /** The AXIS_DESCR block read in order, given the outcomes of its two lookups. */
  function AxisDescriptorWith(body: string, measurementLink: Result<Option<Measurement>, Error>,
                              compuMethodLink: Result<Option<CompuMethod>, Error>): (r: Result<AxisDescriptor, Error>)
    ensures r.Ok? ==> var lines := Lines(body);
      |lines| >= 6 && ParseAxisDescriptionType(Cleanup(lines[0])) == Some(r.value.kind)
      && IntOf(Cleanup(lines[3])) == Ok(r.value.numAxis)
      && r.value.minimum == Cleanup(lines[4]) && r.value.maximum == Cleanup(lines[5])
      && measurementLink == Ok(r.value.referenceMeasurement) && compuMethodLink == Ok(r.value.compuMethod)
    ensures r.Ok? ==> (r.value.maximumGradient.None? <==> Cleanup(GetStringAfter(body, "MAX_GRAD")) == "")
    ensures r.Ok? ==> r.value.displayFormat.None?
    ensures r.Ok? <==> var lines := Lines(body);
      |lines| >= 6 && ParseAxisDescriptionType(Cleanup(lines[0])).Some? && IntOf(Cleanup(lines[3])).Ok?
      && measurementLink.Ok? && compuMethodLink.Ok?
  {
    var lines := Lines(body);
    var kindText := Cleanup(lines[0]);
    var kind :- EnumOf(ParseAxisDescriptionType(kindText), kindText);
    var _ :- Field(lines, 1);
    var measurement :- measurementLink;
    var _ :- Field(lines, 2);
    var compuMethod :- compuMethodLink;
    var countText :- Field(lines, 3);
    var numAxis :- IntOf(countText);
    var minimum :- Field(lines, 4);
    var maximum :- Field(lines, 5);
    var maxGrad := Cleanup(GetStringAfter(body, "MAX_GRAD"));
    var gradient := if maxGrad != "" then Some(Cleanup(maxGrad)) else None;
    Ok(AxisDescriptor(kind, measurement, compuMethod, numAxis, minimum, maximum, gradient, None))
  }

  /**
   * Names on lines 1 and 2 that are not registered leave both links unset
   * and do not stop the block from decoding.
   */
  lemma AxisDescriptorUnresolved(body: string, st: State)
    requires var lines := Lines(body);
      |lines| >= 6 && ParseAxisDescriptionType(Cleanup(lines[0])).Some? && IntOf(Cleanup(lines[3])).Ok?
    requires Cleanup(Lines(body)[1]) !in st.measurementRef && Cleanup(Lines(body)[2]) !in st.compuMethodRef
    ensures var r := DecodeAxisDescriptor(body, st);
      r.Ok? && r.value.referenceMeasurement.None? && r.value.compuMethod.None?
  {
  }

  // ---------------------------------------------------------------------
  // Decoding every block of a kind, stopping at the first exception
  // ---------------------------------------------------------------------

  /** The records built before the first failing block, and that block's exception. */
  datatype Built<T> = Built(items: seq<T>, failure: Option<Error>)

  /** The foreach loop of a builder: decode block after block until one throws. */
  function DecodeEach<T>(bodies: seq<string>, decode: string -> Result<T, Error>): (r: Built<T>)
    ensures |r.items| <= |bodies|
    ensures forall i | 0 <= i < |r.items| :: decode(bodies[i]) == Ok(r.items[i])
    ensures r.failure.None? ==> |r.items| == |bodies|
    ensures r.failure.Some? ==> |r.items| < |bodies| && decode(bodies[|r.items|]) == Err(r.failure.value)
  {
    if bodies == [] then Built([], None)
    else
      match decode(bodies[0])
      case Err(e) => Built([], Some(e))
      case Ok(x) =>
        var rest := DecodeEach(bodies[1..], decode);
        var r := Built([x] + rest.items, rest.failure);
        assert forall i | 1 <= i < |r.items| :: r.items[i] == rest.items[i - 1] && bodies[i] == bodies[1..][i - 1];
        r
  }

  /**
   * DecodeEach is the only outcome of that loop: a list of records decoded
   * from the first blocks, ended by the end of the blocks or by a failing one.
   */
  lemma {:induction false} DecodeEachUnique<T>(bodies: seq<string>, decode: string -> Result<T, Error>, b: Built<T>)
    requires |b.items| <= |bodies|
    requires forall i | 0 <= i < |b.items| :: decode(bodies[i]) == Ok(b.items[i])
    requires b.failure.None? ==> |b.items| == |bodies|
    requires b.failure.Some? ==> |b.items| < |bodies| && decode(bodies[|b.items|]) == Err(b.failure.value)
    ensures DecodeEach(bodies, decode) == b
  {
    if bodies != [] {
      if b.items == [] {
        assert b.failure.Some?;
      } else {
        var rest := Built(b.items[1..], b.failure);
        assert forall i | 0 <= i < |rest.items| :: rest.items[i] == b.items[i + 1] && bodies[1..][i] == bodies[i + 1];
        DecodeEachUnique(bodies[1..], decode, rest);
        assert b.items == [b.items[0]] + rest.items;
      }
    }
  }

  /** Two decoders that agree on every block give the same outcome. */
  lemma DecodeEachAgree<T>(bodies: seq<string>, f: string -> Result<T, Error>, g: string -> Result<T, Error>)
    requires forall i | 0 <= i < |bodies| :: f(bodies[i]) == g(bodies[i])
    ensures DecodeEach(bodies, f) == DecodeEach(bodies, g)
  {
    var b := DecodeEach(bodies, f);
    DecodeEachUnique(bodies, g, b);
  }

  /** One more pass of that loop, on a block that decodes: the list grows by its record. */
  lemma DecodeEachExtend<T>(bodies: seq<string>, decode: string -> Result<T, Error>, i: nat, items: seq<T>)
    requires i < |bodies| && DecodeEach(bodies[..i], decode) == Built(items, None) && decode(bodies[i]).Ok?
    ensures DecodeEach(bodies[..i + 1], decode) == Built(items + [decode(bodies[i]).value], None)
  {
    var next := items + [decode(bodies[i]).value];
    forall k | 0 <= k < i + 1
      ensures decode(bodies[..i + 1][k]) == Ok(next[k])
    {
      if k < i {
        assert bodies[..i + 1][k] == bodies[..i][k];
      }
    }
    DecodeEachUnique(bodies[..i + 1], decode, Built(next, None));
  }

  /** One more pass of that loop, on a block that throws: the loop ends with its exception. */
  lemma DecodeEachStop<T>(bodies: seq<string>, decode: string -> Result<T, Error>, i: nat, items: seq<T>)
    requires i < |bodies| && DecodeEach(bodies[..i], decode) == Built(items, None) && decode(bodies[i]).Err?
    ensures DecodeEach(bodies, decode) == Built(items, Some(decode(bodies[i]).error))
  {
    forall k | 0 <= k < i
      ensures decode(bodies[k]) == Ok(items[k])
    {
      assert bodies[..i][k] == bodies[k];
    }
    DecodeEachUnique(bodies, decode, Built(items, Some(decode(bodies[i]).error)));
  }

  /** The foreach body of each builder, as a function of a block. */
  function CompuMethodDecoder(st: State): string -> Result<CompuMethod, Error> {
    body => DecodeCompuMethod(body, st)
  }

  function AxisDescriptorDecoder(st: State): string -> Result<AxisDescriptor, Error> {
    body => DecodeAxisDescriptor(body, st)
  }

  function CalibrationDecoder(st: State): string -> Result<Calibration, Error> {
    body => DecodeCalibration(body, st)
  }

  function MeasurementDecoder(st: State): string -> Result<Measurement, Error> {
    body => DecodeMeasurement(body, st)
  }

  /** The loop's outcome: its list, or the exception that ended it. */
  function Collect<T>(b: Built<T>): Result<seq<T>, Error> {
    if b.failure.None? then Ok(b.items) else Err(b.failure.value)
  }

  /**
   * GetAxisDescriptors over one calibration body: one descriptor per
   * AXIS_DESCR block, in order, and an exception exactly when some block
   * fails to decode.
   */
  function AxisDescriptorsOf(body: string, st: State): (r: Result<seq<AxisDescriptor>, Error>)
    ensures var blocks := GetFirstInstanceTextBetween(body, AXD_ST_START, AXD_ST_END);
      r.Ok? <==> forall i | 0 <= i < |blocks| :: DecodeAxisDescriptor(blocks[i], st).Ok?
    ensures var blocks := GetFirstInstanceTextBetween(body, AXD_ST_START, AXD_ST_END);
      r.Ok? ==> |r.value| == |blocks| && forall i | 0 <= i < |blocks| :: DecodeAxisDescriptor(blocks[i], st) == Ok(r.value[i])
  {
    Collect(DecodeEach(GetFirstInstanceTextBetween(body, AXD_ST_START, AXD_ST_END), AxisDescriptorDecoder(st)))
  }

  // ---------------------------------------------------------------------
  // CHARACTERISTIC (A2LEngine/Core.cs:89-105)
  // ---------------------------------------------------------------------

  /**
   * The fixed fields of a CHARACTERISTIC block: name(0), description(1),
   * kind(2), address(3), record-layout reference(4), max difference(5),
   * compu-method reference(6), minimum(7), maximum(8).
   */
  function DecodeCalibrationFields(body: string, st: State): (r: Result<Calibration, Error>)
    ensures r.Ok? ==> var lines := Lines(body);
      |lines| >= 9 && r.value.name == Cleanup(lines[0]) && r.value.description == Cleanup(lines[1])
      && ParseCalibrationType(Cleanup(lines[2])) == Some(r.value.kind)
      && r.value.ecuAddress == Cleanup(lines[3]) && r.value.maxDifference == Cleanup(lines[5])
      && r.value.minimum == Cleanup(lines[7]) && r.value.maximum == Cleanup(lines[8])
      && Resolve(st.recordLayoutRef, st.recordLayouts, Cleanup(lines[4])) == Ok(r.value.recordLayoutReference)
      && Resolve(st.compuMethodRef, st.compuMethods, Cleanup(lines[6])) == Ok(r.value.compuMethod)
    ensures r.Ok? ==> (r.value.axisDescriptors.None? && r.value.bitMask.None?
      && r.value.functionReference.None? && r.value.customDisplayIdentifier.None?)
    ensures r.Ok? <==> var lines := Lines(body);
      |lines| >= 9 && ParseCalibrationType(Cleanup(lines[2])).Some?
      && Resolve(st.recordLayoutRef, st.recordLayouts, Cleanup(lines[4])).Ok?
      && Resolve(st.compuMethodRef, st.compuMethods, Cleanup(lines[6])).Ok?
  {
    CalibrationFieldsWith(body, Resolve(st.recordLayoutRef, st.recordLayouts, LineKey(body, 4)),
                          Resolve(st.compuMethodRef, st.compuMethods, LineKey(body, 6)))
  }

  /** The fixed CHARACTERISTIC fields read in order, given the outcomes of their two lookups. */
  function CalibrationFieldsWith(body: string, layoutLink: Result<Option<RecordLayout>, Error>,
                                 compuMethodLink: Result<Option<CompuMethod>, Error>): (r: Result<Calibration, Error>)
    ensures r.Ok? ==> var lines := Lines(body);
      |lines| >= 9 && r.value.name == Cleanup(lines[0]) && r.value.description == Cleanup(lines[1])
      && ParseCalibrationType(Cleanup(lines[2])) == Some(r.value.kind)
      && r.value.ecuAddress == Cleanup(lines[3]) && r.value.maxDifference == Cleanup(lines[5])
      && r.value.minimum == Cleanup(lines[7]) && r.value.maximum == Cleanup(lines[8])
      && layoutLink == Ok(r.value.recordLayoutReference) && compuMethodLink == Ok(r.value.compuMethod)
    ensures r.Ok? ==> (r.value.axisDescriptors.None? && r.value.bitMask.None?
      && r.value.functionReference.None? && r.value.customDisplayIdentifier.None?)
    ensures r.Ok? <==> var lines := Lines(body);
      |lines| >= 9 && ParseCalibrationType(Cleanup(lines[2])).Some? && layoutLink.Ok? && compuMethodLink.Ok?
  {
    var lines := Lines(body);
    var name := Cleanup(lines[0]);
    var description :- Field(lines, 1);
    var kindText :- Field(lines, 2);
    var kind :- EnumOf(ParseCalibrationType(kindText), kindText);
    var ecuAddress :- Field(lines, 3);
    var _ :- Field(lines, 4);
    var layout :- layoutLink;
    var maxDifference :- Field(lines, 5);
    var _ :- Field(lines, 6);
    var compuMethod :- compuMethodLink;
    var minimum :- Field(lines, 7);
    var maximum :- Field(lines, 8);
    Ok(Calibration(name, description, kind, ecuAddress, None, layout, maxDifference, compuMethod,
                   minimum, maximum, None, None, None))
  }

  /**
   * A CHARACTERISTIC block: its fixed fields, then the axis descriptors
   * extracted from the body for the multi-dimensional kinds only.
   */
  function DecodeCalibration(body: string, st: State): (r: Result<Calibration, Error>)
    ensures r.Ok? ==> (DecodeCalibrationFields(body, st).Ok?
      && r.value.(axisDescriptors := None) == DecodeCalibrationFields(body, st).value)
    ensures r.Ok? ==> (r.value.axisDescriptors.Some? <==> IsMultiDimensional(r.value.kind))
    ensures r.Ok? && r.value.axisDescriptors.Some? ==> AxisDescriptorsOf(body, st) == Ok(r.value.axisDescriptors.value)
    ensures r.Ok? <==> (DecodeCalibrationFields(body, st).Ok?
      && (IsMultiDimensional(DecodeCalibrationFields(body, st).value.kind) ==> AxisDescriptorsOf(body, st).Ok?))
  {
    var calibration :- DecodeCalibrationFields(body, st);
    if IsMultiDimensional(calibration.kind) then
      var axes :- AxisDescriptorsOf(body, st);
      Ok(calibration.(axisDescriptors := Some(axes)))
    else
      Ok(calibration)
  }

  /**
   * Record-layout and compu-method names on lines 4 and 6 that are not
   * registered leave both links unset and do not stop the fixed fields from
   * decoding.
   */
  lemma CalibrationUnresolved(body: string, st: State)
    requires |Lines(body)| >= 9 && ParseCalibrationType(Cleanup(Lines(body)[2])).Some?
    requires Cleanup(Lines(body)[4]) !in st.recordLayoutRef && Cleanup(Lines(body)[6]) !in st.compuMethodRef
    ensures var r := DecodeCalibrationFields(body, st);
      r.Ok? && r.value.recordLayoutReference.None? && r.value.compuMethod.None?
  {
  }

  // ---------------------------------------------------------------------
  // MEASUREMENT (A2LEngine/Core.cs:60-72)
  // ---------------------------------------------------------------------

  /**
   * A MEASUREMENT block: name(0, trimmed only), description(1), data type(2),
   * compu-method reference(3), resolution(4), accuracy(5), minimum(6),
   * maximum(7); ECU_ADDRESS and DISPLAY_IDENTIFIER looked up by keyword.
   */
  function DecodeMeasurement(body: string, st: State): (r: Result<Measurement, Error>)
    ensures r.Ok? ==> var lines := Lines(body);
      |lines| >= 8 && r.value.name == Trim(lines[0]) && r.value.description == Cleanup(lines[1])
      && ParseDataType(Cleanup(lines[2])) == Some(r.value.dataType)
      && r.value.definedResolution == Cleanup(lines[4]) && r.value.definedAccuracyPrc == Cleanup(lines[5])
      && r.value.minimum == Cleanup(lines[6]) && r.value.maximum == Cleanup(lines[7])
      && Resolve(st.compuMethodRef, st.compuMethods, Cleanup(lines[3])) == Ok(r.value.compuMethod)
    ensures r.Ok? ==> (r.value.ecuAddress == Cleanup(GetStringAfter(body, "ECU_ADDRESS "))
      && r.value.customDisplayIdentifier == Cleanup(GetStringAfter(body, "DISPLAY_IDENTIFIER ")))
    ensures r.Ok? ==> r.value.functionReference.None?
    ensures r.Ok? <==> (|Lines(body)| >= 8 && ParseDataType(Cleanup(Lines(body)[2])).Some?
      && Resolve(st.compuMethodRef, st.compuMethods, Cleanup(Lines(body)[3])).Ok?)
  {
    MeasurementWith(body, Resolve(st.compuMethodRef, st.compuMethods, LineKey(body, 3)))
  }

  /** The MEASUREMENT block read in order, given the outcome of its compu-method lookup. */
  function MeasurementWith(body: string, compuMethodLink: Result<Option<CompuMethod>, Error>): (r: Result<Measurement, Error>)
    ensures r.Ok? ==> var lines := Lines(body);
      |lines| >= 8 && r.value.name == Trim(lines[0]) && r.value.description == Cleanup(lines[1])
      && ParseDataType(Cleanup(lines[2])) == Some(r.value.dataType)
      && r.value.definedResolution == Cleanup(lines[4]) && r.value.definedAccuracyPrc == Cleanup(lines[5])
      && r.value.minimum == Cleanup(lines[6]) && r.value.maximum == Cleanup(lines[7])
      && compuMethodLink == Ok(r.value.compuMethod)
    ensures r.Ok? ==> (r.value.ecuAddress == Cleanup(GetStringAfter(body, "ECU_ADDRESS "))
      && r.value.customDisplayIdentifier == Cleanup(GetStringAfter(body, "DISPLAY_IDENTIFIER ")))
    ensures r.Ok? ==> r.value.functionReference.None?
    ensures r.Ok? <==> |Lines(body)| >= 8 && ParseDataType(Cleanup(Lines(body)[2])).Some? && compuMethodLink.Ok?
  {
    var lines := Lines(body);
    var name := Trim(lines[0]);
    var description :- Field(lines, 1);
    var typeText :- Field(lines, 2);
    var dataType :- EnumOf(ParseDataType(typeText), typeText);
    var _ :- Field(lines, 3);
    var compuMethod :- compuMethodLink;
    var resolution :- Field(lines, 4);
    var accuracy :- Field(lines, 5);
    var minimum :- Field(lines, 6);
    var maximum :- Field(lines, 7);
    var ecuAddress := Cleanup(GetStringAfter(body, "ECU_ADDRESS "));
    var display := Cleanup(GetStringAfter(body, "DISPLAY_IDENTIFIER "));
    Ok(Measurement(name, display, description, dataType, compuMethod, resolution, accuracy,
                   maximum, minimum, ecuAddress, None))
  }

  /**
   * A compu-method name on line 3 that is not registered leaves the link
   * unset and does not stop the block from decoding.
   */
  lemma MeasurementUnresolved(body: string, st: State)
    requires |Lines(body)| >= 8 && ParseDataType(Cleanup(Lines(body)[2])).Some?
    requires Cleanup(Lines(body)[3]) !in st.compuMethodRef
    ensures DecodeMeasurement(body, st).Ok? && DecodeMeasurement(body, st).value.compuMethod.None?
  {
  }
}
