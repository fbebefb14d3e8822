/**
 * The A2LEngine class of A2LEngine/Core.cs and the A2LCollection it fills
 * (A2LEngine/Models.cs:7-23), as Dafny classes whose methods update their
 * fields in place. Each builder is proved against its function in module
 * Steps: the fields it leaves behind and the list it returns, or the
 * exception it throws, are the ones that function gives for the fields it
 * started from.
 */
module Engine {
  import opened Wrappers
  import opened Helpers
  import opened Models
  import opened Decode
  import opened Steps

  /** The record lists an engine fills, null until assigned, and their loaded flags. */
  class A2LCollection {
    var descriptor: Option<string>
    var measurements: Option<seq<Models.Measurement>>
    var calibrations: Option<seq<Calibration>>
    var compuMethods: Option<seq<CompuMethod>>
    var functions: Option<seq<Function>>
    var recordLayouts: Option<seq<RecordLayout>>
    var compuMethodVTab: Option<seq<CompuTable>>
    var isMeasurementsLoaded: bool
    var isCalibrationsLoaded: bool
    var isCompuMethodsLoaded: bool
    var isFunctionsLoaded: bool
    var isRecordLayoutsLoaded: bool
    var isCompuMethodVTabsLoaded: bool

    constructor ()
      ensures descriptor.None? && measurements.None? && calibrations.None? && compuMethods.None?
      ensures functions.None? && recordLayouts.None? && compuMethodVTab.None?
      ensures !isMeasurementsLoaded && !isCalibrationsLoaded && !isCompuMethodsLoaded
      ensures !isFunctionsLoaded && !isRecordLayoutsLoaded && !isCompuMethodVTabsLoaded
    {
      descriptor := None;
      measurements := None;
      calibrations := None;
      compuMethods := None;
      functions := None;
      recordLayouts := None;
      compuMethodVTab := None;
      isMeasurementsLoaded := false;
      isCalibrationsLoaded := false;
      isCompuMethodsLoaded := false;
      isFunctionsLoaded := false;
      isRecordLayoutsLoaded := false;
      isCompuMethodVTabsLoaded := false;
    }
  }

  /**
   * Reads one COMPU_VTAB block (A2LEngine/Core.cs:174-185): its four header
   * lines, then the pair loop.
   */
  method ReadCompuTable(body: string) returns (r: Result<CompuTable, Error>)
    ensures r == DecodeCompuTable(body)
  {
    var lines := Lines(body);
    var name := Cleanup(lines[0]);
    if |lines| <= 1 {
      return Err(MissingLine(1));
    }
    var description := Cleanup(lines[1]);
    if |lines| <= 2 {
      return Err(MissingLine(2));
    }
    var kindText := Cleanup(lines[2]);
    var kind := ParseCompuMethodType(kindText);
    if kind.None? {
      return Err(BadEnumName(kindText));
    }
    if |lines| <= 3 {
      return Err(MissingLine(3));
    }
    var countText := Cleanup(lines[3]);
    var count := ParseInt32(countText);
    if count.None? {
      return Err(BadInteger(countText));
    }
    var values := ReadPairs(lines, count.value);
    if values.Err? {
      return Err(values.error);
    }
    return Ok(CompuTable(name, description, kind.value, count.value, values.value));
  }

  /**
   * The pair loop `for (int i = 4; i < NumberOfPairs + 4; i++)`, its bound
   * computed in 32-bit arithmetic: Dictionary.Add of each pair line's key
   * and label, stopping at the first line that throws.
   */
  method ReadPairs(lines: seq<string>, n: int) returns (r: Result<map<int, string>, Error>)
    requires INT32_MIN <= n <= INT32_MAX
    ensures r == Pairs(lines, PairCount(n))
  {
    var bound := Wrap32(n + 4);
    var values: map<int, string> := map[];
    var i := 4;
    while i < bound
      invariant 4 <= i && (i <= bound || i == 4)
      invariant Pairs(lines, i - 4) == Ok(values)
    {
      PairsStep(lines, i - 4);
      if i >= |lines| {
        PairsStuck(lines, i - 3, PairCount(n));
        return Err(MissingLine(i));
      }
      var tokens := Split(Cleanup(lines[i]), ' ');
      var keyText := Cleanup(tokens[0]);
      var key := ParseInt32(keyText);
      if key.None? {
        PairsStuck(lines, i - 3, PairCount(n));
        return Err(BadInteger(keyText));
      }
      if key.value in values {
        PairsStuck(lines, i - 3, PairCount(n));
        return Err(DuplicateKey(key.value));
      }
      values := values[key.value := if |tokens| == 1 then "" else Cleanup(tokens[1])];
      i := i + 1;
    }
    return Ok(values);
  }

  /** The foreach loop of GetCompuMethodVTabs: the tables read before the first block that throws. */
  method ReadCompuTables(blocks: seq<string>) returns (tables: seq<CompuTable>, failure: Option<Error>)
    ensures DecodeEach(blocks, DecodeCompuTable) == Built(tables, failure)
  {
    tables := [];
    var i := 0;
    while i < |blocks|
      invariant 0 <= i <= |blocks|
      invariant DecodeEach(blocks[..i], DecodeCompuTable) == Built(tables, None)
    {
      var table := ReadCompuTable(blocks[i]);
      if table.Err? {
        DecodeEachStop(blocks, DecodeCompuTable, i, tables);
        return tables, Some(table.error);
      }
      DecodeEachExtend(blocks, DecodeCompuTable, i, tables);
      tables := tables + [table.value];
      i := i + 1;
    }
    assert blocks[..i] == blocks;
    return tables, None;
  }

  /**
   * The foreach loop of a builder whose blocks are decoded without a loop
   * of their own: the records decoded before the first block that throws.
   */
  method ReadEach<T>(blocks: seq<string>, decode: string -> Result<T, Error>) returns (items: seq<T>, failure: Option<Error>)
    ensures DecodeEach(blocks, decode) == Built(items, failure)
  {
    items := [];
    var i := 0;
    while i < |blocks|
      invariant 0 <= i <= |blocks|
      invariant DecodeEach(blocks[..i], decode) == Built(items, None)
    {
      var item := decode(blocks[i]);
      if item.Err? {
        DecodeEachStop(blocks, decode, i, items);
        return items, Some(item.error);
      }
      DecodeEachExtend(blocks, decode, i, items);
      items := items + [item.value];
      i := i + 1;
    }
    assert blocks[..i] == blocks;
    return items, None;
  }

  /** GetAxisDescriptors (A2LEngine/Core.cs:113-135) on the engine's fields st. */
  method ReadAxisDescriptors(body: string, st: State) returns (r: Result<seq<AxisDescriptor>, Error>)
    ensures r == AxisDescriptorsOf(body, st)
  {
    var axes, failure := ReadEach(GetFirstInstanceTextBetween(body, AXD_ST_START, AXD_ST_END), AxisDescriptorDecoder(st));
    if failure.Some? {
      return Err(failure.value);
    }
    return Ok(axes);
  }

  /**
   * One pass of the loop of GetCalibrations (A2LEngine/Core.cs:89-107): the
   * fixed fields, then the axis-descriptor loop for the multi-dimensional
   * kinds.
   */
  method ReadCalibration(body: string, st: State) returns (r: Result<Calibration, Error>)
    ensures r == DecodeCalibration(body, st)
  {
    var fields := DecodeCalibrationFields(body, st);
    if fields.Err? {
      return Err(fields.error);
    }
    var calibration := fields.value;
    if IsMultiDimensional(calibration.kind) {
      var axes := ReadAxisDescriptors(body, st);
      if axes.Err? {
        return Err(axes.error);
      }
      calibration := calibration.(axisDescriptors := Some(axes.value));
    }
    return Ok(calibration);
  }

  /** The foreach loop of GetCalibrations: the calibrations read before the first block that throws. */
  method ReadCalibrations(blocks: seq<string>, st: State) returns (calibrations: seq<Calibration>, failure: Option<Error>)
    ensures DecodeEach(blocks, CalibrationDecoder(st)) == Built(calibrations, failure)
  {
    ghost var decode := CalibrationDecoder(st);
    calibrations := [];
    var i := 0;
    while i < |blocks|
      invariant 0 <= i <= |blocks|
      invariant DecodeEach(blocks[..i], decode) == Built(calibrations, None)
    {
      var calibration := ReadCalibration(blocks[i], st);
      if calibration.Err? {
        DecodeEachStop(blocks, decode, i, calibrations);
        return calibrations, Some(calibration.error);
      }
      DecodeEachExtend(blocks, decode, i, calibrations);
      calibrations := calibrations + [calibration.value];
      i := i + 1;
    }
    assert blocks[..i] == blocks;
    return calibrations, None;
  }

  /** The loop of GetCompuMethodVTabs on the engine's fields st, and the outcome it gives. */
  method ReadVTabBlocks(st: State, data: string) returns (tables: seq<CompuTable>, failure: Option<Error>)
    ensures var s := st.(compuMethodVTabRef := st.compuMethodVTabRef + Names(tables, TableName));
      CompuMethodVTabs(st, data) ==
        if failure.None? then Outcome(s.(isCompuMethodVTabsLoaded := true), Ok(tables))
        else Outcome(s, Err(failure.value))
  {
    tables, failure := ReadCompuTables(VTabBlocks(data));
  }

  /** The loop of GetCompuMethods on the engine's fields st, and the outcome it gives. */
  method ReadCompuMethodBlocks(st: State, data: string) returns (methods: seq<CompuMethod>, failure: Option<Error>)
    ensures var s := st.(compuMethodRef := st.compuMethodRef + Names(methods, MethodName));
      CompuMethodsLoop(st, data) ==
        if failure.None? then Outcome(s.(isCompuMethodsLoaded := true), Ok(methods))
        else Outcome(s, Err(failure.value))
  {
    methods, failure := ReadEach(CompuMethodBlocks(data), CompuMethodDecoder(st));
  }

  /** The loop of GetCalibrations on the engine's fields st, and the outcome it gives. */
  method ReadCalibrationBlocks(st: State, data: string) returns (calibrations: seq<Calibration>, failure: Option<Error>)
    ensures var s := st.(calibrationRef := st.calibrationRef + Names(calibrations, CalibrationName));
      CalibrationsLoop(st, data) ==
        if failure.None? then Outcome(s.(isCalibrationsLoaded := true), Ok(calibrations))
        else Outcome(s, Err(failure.value))
  {
    calibrations, failure := ReadCalibrations(CalibrationBlocks(data), st);
  }

  /** The loop of GetMeasurements on the engine's fields st, and the outcome it gives. */
  method ReadMeasurementBlocks(st: State, data: string) returns (measurements: seq<Models.Measurement>, failure: Option<Error>)
    ensures MeasurementsLoop(st, data) ==
      if failure.None? then Outcome(st.(isMeasurementsLoaded := true), Ok(measurements))
      else Outcome(st, Err(failure.value))
  {
    measurements, failure := ReadEach(MeasurementBlocks(data), MeasurementDecoder(st));
  }

  /** The engine: its name lists, parallel to the collection's record lists. */
  class A2LEngine {
    const collection: A2LCollection
    var compuMethodRef: seq<string>
    var measurementRef: seq<string>
    var calibrationRef: seq<string>
    var compuMethodVTabRef: seq<string>
    var recordLayoutRef: seq<string>

    /** The engine's fields and its collection's, as one value. */
    function Snapshot(): State
      reads this, collection
    {
      State(compuMethodRef, measurementRef, calibrationRef, compuMethodVTabRef, recordLayoutRef,
            collection.descriptor, collection.measurements, collection.calibrations, collection.compuMethods,
            collection.functions, collection.recordLayouts, collection.compuMethodVTab,
            collection.isMeasurementsLoaded, collection.isCalibrationsLoaded, collection.isCompuMethodsLoaded,
            collection.isFunctionsLoaded, collection.isRecordLayoutsLoaded, collection.isCompuMethodVTabsLoaded)
    }

    constructor ()
      ensures fresh(collection) && Snapshot() == Initial
    {
      collection := new A2LCollection();
      compuMethodRef := [];
      measurementRef := [];
      calibrationRef := [];
      compuMethodVTabRef := [];
      recordLayoutRef := [];
    }

    /**
     * GetCompuMethodVTabs (A2LEngine/Core.cs:169-191). The loop appends
     * each table's name to CompuMethodVTabRef as it goes; here the names of
     * the tables read are appended when the loop ends, normally or by an
     * exception, since nothing reads that list in between.
     */
    method GetCompuMethodVTabs(data: string) returns (r: Result<seq<CompuTable>, Error>)
      modifies this, collection
      ensures var o := CompuMethodVTabs(old(Snapshot()), data); Snapshot() == o.state && r == o.result
    {
      var st := Snapshot();
      var tables, failure := ReadVTabBlocks(st, data);
      ghost var o := CompuMethodVTabs(st, data);
      compuMethodVTabRef := compuMethodVTabRef + Names(tables, TableName);
      if failure.Some? {
        assert Snapshot() == o.state;
        return Err(failure.value);
      }
      collection.isCompuMethodVTabsLoaded := true;
      assert Snapshot() == o.state;
      return Ok(tables);
    }

    /** `A2LCollection.CompuMethodVTab = await GetCompuMethodVTabs(data)`. */
    method AssignCompuMethodVTabs(data: string) returns (failure: Option<Error>)
      modifies this, collection
      ensures var run := LoadCompuMethodVTabs(old(Snapshot()), data); Snapshot() == run.state && failure == run.failure
    {
      var tables := GetCompuMethodVTabs(data);
      if tables.Err? {
        return Some(tables.error);
      }
      collection.compuMethodVTab := Some(tables.value);
      return None;
    }

    /**
     * The loop of GetCompuMethods (A2LEngine/Core.cs:146-165). Each
     * method's name is appended when the loop ends: the passes read only
     * the table names.
     */
    method RunCompuMethodsLoop(data: string) returns (r: Result<seq<CompuMethod>, Error>)
      modifies this, collection
      ensures var o := CompuMethodsLoop(old(Snapshot()), data); Snapshot() == o.state && r == o.result
    {
      var st := Snapshot();
      var methods, failure := ReadCompuMethodBlocks(st, data);
      ghost var o := CompuMethodsLoop(st, data);
      compuMethodRef := compuMethodRef + Names(methods, MethodName);
      if failure.Some? {
        assert Snapshot() == o.state;
        return Err(failure.value);
      }
      collection.isCompuMethodsLoaded := true;
      assert Snapshot() == o.state;
      return Ok(methods);
    }

    /** GetCompuMethods (A2LEngine/Core.cs:142-167): the tables first unless loaded, then the loop. */
    method GetCompuMethods(data: string) returns (r: Result<seq<CompuMethod>, Error>)
      modifies this, collection
      ensures var o := CompuMethodsOf(old(Snapshot()), data); Snapshot() == o.state && r == o.result
    {
      if !collection.isCompuMethodVTabsLoaded {
        var failure := AssignCompuMethodVTabs(data);
        if failure.Some? {
          return Err(failure.value);
        }
      }
      r := RunCompuMethodsLoop(data);
    }

    /** `A2LCollection.CompuMethods = await GetCompuMethods(data)`. */
    method AssignCompuMethods(data: string) returns (failure: Option<Error>)
      modifies this, collection
      ensures var run := LoadCompuMethods(old(Snapshot()), data); Snapshot() == run.state && failure == run.failure
    {
      var methods := GetCompuMethods(data);
      if methods.Err? {
        return Some(methods.error);
      }
      collection.compuMethods := Some(methods.value);
      return None;
    }

    /** GetRecordLayouts (A2LEngine/Core.cs:137-140): sets its flag and reads nothing. */
    method GetRecordLayouts(data: string)
      modifies collection
      ensures Snapshot() == RecordLayouts(old(Snapshot()))
    {
      collection.isRecordLayoutsLoaded := true;
    }

    /** GetAxisDescriptors (A2LEngine/Core.cs:113-135): changes nothing. */
    method GetAxisDescriptors(data: string) returns (r: Result<seq<AxisDescriptor>, Error>)
      ensures r == AxisDescriptorsOf(data, Snapshot())
    {
      r := ReadAxisDescriptors(data, Snapshot());
    }

    /**
     * The loop of GetCalibrations (A2LEngine/Core.cs:86-109), whose passes
     * read the fields as they were when it started.
     */
    method RunCalibrationsLoop(data: string) returns (r: Result<seq<Calibration>, Error>)
      modifies this, collection
      ensures var o := CalibrationsLoop(old(Snapshot()), data); Snapshot() == o.state && r == o.result
    {
      var st := Snapshot();
      var calibrations, failure := ReadCalibrationBlocks(st, data);
      ghost var o := CalibrationsLoop(st, data);
      calibrationRef := calibrationRef + Names(calibrations, CalibrationName);
      if failure.Some? {
        assert Snapshot() == o.state;
        return Err(failure.value);
      }
      collection.isCalibrationsLoaded := true;
      assert Snapshot() == o.state;
      return Ok(calibrations);
    }

    /** GetCalibrations (A2LEngine/Core.cs:80-111): record layouts and compu methods first unless loaded. */
    method GetCalibrations(data: string) returns (r: Result<seq<Calibration>, Error>)
      modifies this, collection
      ensures var o := CalibrationsOf(old(Snapshot()), data); Snapshot() == o.state && r == o.result
    {
      if !collection.isRecordLayoutsLoaded {
        GetRecordLayouts(data);
      }
      if !collection.isCompuMethodsLoaded {
        var failure := AssignCompuMethods(data);
        if failure.Some? {
          return Err(failure.value);
        }
      }
      r := RunCalibrationsLoop(data);
    }

    /** `A2LCollection.Calibrations = await GetCalibrations(data)`. */
    method AssignCalibrations(data: string) returns (failure: Option<Error>)
      modifies this, collection
      ensures var run := LoadCalibrations(old(Snapshot()), data); Snapshot() == run.state && failure == run.failure
    {
      var calibrations := GetCalibrations(data);
      if calibrations.Err? {
        return Some(calibrations.error);
      }
      collection.calibrations := Some(calibrations.value);
      return None;
    }

    /** The loop of GetMeasurements (A2LEngine/Core.cs:57-77): registers no names. */
    method RunMeasurementsLoop(data: string) returns (r: Result<seq<Models.Measurement>, Error>)
      modifies collection
      ensures var o := MeasurementsLoop(old(Snapshot()), data); Snapshot() == o.state && r == o.result
    {
      var st := Snapshot();
      var measurements, failure := ReadMeasurementBlocks(st, data);
      ghost var o := MeasurementsLoop(st, data);
      if failure.Some? {
        return Err(failure.value);
      }
      collection.isMeasurementsLoaded := true;
      assert Snapshot() == o.state;
      return Ok(measurements);
    }

    /** GetMeasurements (A2LEngine/Core.cs:53-78): compu methods first unless loaded, then the loop. */
    method GetMeasurements(data: string) returns (r: Result<seq<Models.Measurement>, Error>)
      modifies this, collection
      ensures var o := MeasurementsOf(old(Snapshot()), data); Snapshot() == o.state && r == o.result
    {
      if !collection.isCompuMethodsLoaded {
        var failure := AssignCompuMethods(data);
        if failure.Some? {
          return Err(failure.value);
        }
      }
      r := RunMeasurementsLoop(data);
    }

    /** `A2LCollection.Measurements = await GetMeasurements(data)`. */
    method AssignMeasurements(data: string) returns (failure: Option<Error>)
      modifies this, collection
      ensures var run := LoadMeasurements(old(Snapshot()), data); Snapshot() == run.state && failure == run.failure
    {
      var measurements := GetMeasurements(data);
      if measurements.Err? {
        return Some(measurements.error);
      }
      collection.measurements := Some(measurements.value);
      return None;
    }

    /**
     * The fall-through of ComponentType.All: compu methods, calibrations,
     * then measurements, each assigned to its list.
     */
    method AssignEverything(data: string) returns (failure: Option<Error>)
      modifies this, collection
      ensures var run := LoadEverything(old(Snapshot()), data); Snapshot() == run.state && failure == run.failure
    {
      failure := AssignCompuMethods(data);
      if failure.None? {
        failure := AssignCalibrations(data);
        if failure.None? {
          failure := AssignMeasurements(data);
        }
      }
    }

    /**
     * LoadA2l (A2LEngine/Core.cs:28-51) on the text of the file: the
     * builders of the requested component type, All running through compu
     * methods, calibrations and measurements. As in the source, the
     * component type is All when the caller gives none. The collection is
     * returned unless a builder throws.
     */
    method LoadA2l(data: string, kind: ComponentType := All) returns (r: Result<A2LCollection, Error>)
      modifies this, collection
      ensures var run := Load(old(Snapshot()), data, kind);
        Snapshot() == run.state && (r.Ok? <==> run.failure.None?)
        && (r.Ok? ==> r.value == collection) && (r.Err? ==> run.failure == Some(r.error))
    {
      var failure: Option<Error>;
      match kind {
        case CompuMethods =>
          failure := AssignCompuMethods(data);
        case Calibrations | Map | Curve =>
          failure := AssignCalibrations(data);
        case Measurement =>
          failure := AssignMeasurements(data);
        case All =>
          failure := AssignEverything(data);
      }
      if failure.Some? {
        return Err(failure.value);
      }
      return Ok(collection);
    }
  }
}
