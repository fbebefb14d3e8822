/**
 * What each builder of A2LEngine/Core.cs does to the engine, as functions on
 * its fields (Decode.State), and what LoadA2l does for each component type.
 * An exception ends a builder: the names it registered before the failing
 * block stay registered, its own list is not assigned and its flag stays as
 * it was.
 */
module Steps {
  import opened Wrappers
  import opened Helpers
  import opened Models
  import opened Decode

  /** A builder's effect: the new fields, and the list it returns or the exception it throws. */
  datatype Outcome<T> = Outcome(state: State, result: Result<seq<T>, Error>)

  /** A statement's effect: the new fields, and the exception it throws, if any. */
  datatype Run = Run(state: State, failure: Option<Error>)

  /** The component types LoadA2l accepts (A2LEngine/Core.cs:194-202). */
  datatype ComponentType = Measurement | Map | Curve | Calibrations | CompuMethods | All

  function TableName(t: CompuTable): string { t.name }

  function MethodName(m: CompuMethod): string { m.name }

  function CalibrationName(c: Calibration): string { c.name }

  /** The names of a list's records, in order. */
  function Names<T>(xs: seq<T>, name: T -> string): (r: seq<string>)
    ensures |r| == |xs| && forall i | 0 <= i < |xs| :: r[i] == name(xs[i])
  {
    seq(|xs|, i requires 0 <= i < |xs| => name(xs[i]))
  }

  // ---------------------------------------------------------------------
  // The foreach loop of a builder
  // ---------------------------------------------------------------------

  /**
   * A builder's result for its blocks: on success one record per block, in
   * order; otherwise the exception of the first block that fails.
   */
  ghost predicate Decoded<T>(bodies: seq<string>, decode: string -> Result<T, Error>, result: Result<seq<T>, Error>) {
    (result.Ok? ==> |result.value| == |bodies| && forall i | 0 <= i < |bodies| :: decode(bodies[i]) == Ok(result.value[i]))
    && (result.Err? ==> exists n | 0 <= n < |bodies| ::
          decode(bodies[n]) == Err(result.error) && forall i | 0 <= i < n :: decode(bodies[i]).Ok?)
  }

  /**
   * The name list after the loop: the old names, then the name of each block
   * decoded before the loop ended, all of them on success.
   */
  ghost predicate Registered<T>(before: seq<string>, after: seq<string>, bodies: seq<string>,
                          decode: string -> Result<T, Error>, name: T -> string, result: Result<seq<T>, Error>) {
    Decoded(bodies, decode, result)
    && |before| <= |after| <= |before| + |bodies| && after[..|before|] == before
    && (forall i | |before| <= i < |after| ::
          decode(bodies[i - |before|]).Ok? && after[i] == name(decode(bodies[i - |before|]).value))
    && (result.Ok? ==> |after| == |before| + |bodies|)
    && (result.Err? ==> |after| < |before| + |bodies| && decode(bodies[|after| - |before|]).Err?)
  }

  lemma LoopDecodes<T>(bodies: seq<string>, decode: string -> Result<T, Error>, result: Result<seq<T>, Error>)
    requires result == Collect(DecodeEach(bodies, decode))
    ensures Decoded(bodies, decode, result)
  {
    var b := DecodeEach(bodies, decode);
    if b.failure.Some? {
      var n := |b.items|;
      assert decode(bodies[n]) == Err(b.failure.value) && forall i | 0 <= i < n :: decode(bodies[i]).Ok?;
    }
  }

  lemma LoopRegisters<T>(before: seq<string>, after: seq<string>, bodies: seq<string>,
                         decode: string -> Result<T, Error>, name: T -> string, result: Result<seq<T>, Error>)
    requires var b := DecodeEach(bodies, decode); after == before + Names(b.items, name) && result == Collect(b)
    ensures Registered(before, after, bodies, decode, name, result)
  {
    LoopDecodes(bodies, decode, result);
    var b := DecodeEach(bodies, decode);
    assert after[..|before|] == before;
    forall i | |before| <= i < |after|
      ensures decode(bodies[i - |before|]).Ok? && after[i] == name(decode(bodies[i - |before|]).value)
    {
      assert after[i] == Names(b.items, name)[i - |before|];
    }
  }

  // ---------------------------------------------------------------------
  // The builders
  // ---------------------------------------------------------------------

  function VTabBlocks(data: string): seq<string> {
    GetFirstInstanceTextBetween(data, CMV_ST_START, CMV_ST_END)
  }

  function CompuMethodBlocks(data: string): seq<string> {
    GetFirstInstanceTextBetween(data, CM_ST_START, CM_ST_END)
  }

  function CalibrationBlocks(data: string): seq<string> {
    GetFirstInstanceTextBetween(data, C_ST_START, C_ST_END)
  }

  function MeasurementBlocks(data: string): seq<string> {
    GetFirstInstanceTextBetween(data, M_ST_START, M_ST_END)
  }

  /** GetCompuMethodVTabs (A2LEngine/Core.cs:169-191). */
  function CompuMethodVTabs(st: State, data: string): (o: Outcome<CompuTable>)
    ensures o.state.isCompuMethodVTabsLoaded == (st.isCompuMethodVTabsLoaded || o.result.Ok?)
    ensures o.state == st.(compuMethodVTabRef := o.state.compuMethodVTabRef,
                           isCompuMethodVTabsLoaded := o.state.isCompuMethodVTabsLoaded)
  {
    var b := DecodeEach(VTabBlocks(data), DecodeCompuTable);
    var s := st.(compuMethodVTabRef := st.compuMethodVTabRef + Names(b.items, TableName));
    if b.failure.None? then Outcome(s.(isCompuMethodVTabsLoaded := true), Ok(b.items))
    else Outcome(s, Err(b.failure.value))
  }

  /** GetCompuMethodVTabs returns one table per block and registers each table it reads, in order. */
  lemma CompuMethodVTabsRegisters(st: State, data: string)
    ensures var o := CompuMethodVTabs(st, data);
      Registered(st.compuMethodVTabRef, o.state.compuMethodVTabRef, VTabBlocks(data), DecodeCompuTable, TableName, o.result)
  {
    var o := CompuMethodVTabs(st, data);
    LoopRegisters(st.compuMethodVTabRef, o.state.compuMethodVTabRef, VTabBlocks(data), DecodeCompuTable, TableName, o.result);
  }

  /** `A2LCollection.CompuMethodVTab = GetCompuMethodVTabs(data)`. */
  function LoadCompuMethodVTabs(st: State, data: string): Run {
    var o := CompuMethodVTabs(st, data);
    match o.result
    case Ok(ts) => Run(o.state.(compuMethodVTab := Some(ts)), None)
    case Err(e) => Run(o.state, Some(e))
  }

  /** The prerequisite of GetCompuMethods: the tables, unless already loaded. */
  function VTabsReady(st: State, data: string): Run {
    if st.isCompuMethodVTabsLoaded then Run(st, None) else LoadCompuMethodVTabs(st, data)
  }

  /** The loop of GetCompuMethods (A2LEngine/Core.cs:146-165), once its prerequisite is met. */
  function CompuMethodsLoop(st: State, data: string): (o: Outcome<CompuMethod>)
    ensures o.state.isCompuMethodsLoaded == (st.isCompuMethodsLoaded || o.result.Ok?)
    ensures o.state == st.(compuMethodRef := o.state.compuMethodRef, isCompuMethodsLoaded := o.state.isCompuMethodsLoaded)
  {
    var decode := CompuMethodDecoder(st);
    var b := DecodeEach(CompuMethodBlocks(data), decode);
    var s := st.(compuMethodRef := st.compuMethodRef + Names(b.items, MethodName));
    if b.failure.None? then Outcome(s.(isCompuMethodsLoaded := true), Ok(b.items))
    else Outcome(s, Err(b.failure.value))
  }

  /** The loop of GetCompuMethods returns one method per block and registers each method it reads, in order. */
  lemma CompuMethodsLoopRegisters(st: State, data: string)
    ensures var o := CompuMethodsLoop(st, data);
      Registered(st.compuMethodRef, o.state.compuMethodRef, CompuMethodBlocks(data), CompuMethodDecoder(st), MethodName, o.result)
  {
    var o := CompuMethodsLoop(st, data);
    LoopRegisters(st.compuMethodRef, o.state.compuMethodRef, CompuMethodBlocks(data), CompuMethodDecoder(st), MethodName, o.result);
  }

  /**
   * GetCompuMethods (A2LEngine/Core.cs:142-167): it changes only the tables
   * and the compu-method names with their flags, leaves tables already loaded
   * alone, and on success returns one compu method per block with both flags set.
   */
  function CompuMethodsOf(st: State, data: string): (o: Outcome<CompuMethod>)
    ensures o.state == st.(compuMethodVTabRef := o.state.compuMethodVTabRef, compuMethodVTab := o.state.compuMethodVTab,
                           isCompuMethodVTabsLoaded := o.state.isCompuMethodVTabsLoaded,
                           compuMethodRef := o.state.compuMethodRef, isCompuMethodsLoaded := o.state.isCompuMethodsLoaded)
    ensures st.isCompuMethodVTabsLoaded ==>
      o.state.compuMethodVTab == st.compuMethodVTab && o.state.compuMethodVTabRef == st.compuMethodVTabRef
    ensures o.result.Ok? ==>
      o.state.isCompuMethodVTabsLoaded && o.state.isCompuMethodsLoaded && |o.result.value| == |CompuMethodBlocks(data)|
  {
    var pre := VTabsReady(st, data);
    if pre.failure.Some? then Outcome(pre.state, Err(pre.failure.value))
    else CompuMethodsLoop(pre.state, data)
  }

  /** `A2LCollection.CompuMethods = GetCompuMethods(data)`. */
  function LoadCompuMethods(st: State, data: string): Run {
    var o := CompuMethodsOf(st, data);
    match o.result
    case Ok(ms) => Run(o.state.(compuMethods := Some(ms)), None)
    case Err(e) => Run(o.state, Some(e))
  }

  /** GetRecordLayouts (A2LEngine/Core.cs:137-140): sets its flag and reads no record layout. */
  function RecordLayouts(st: State): (r: State)
    ensures r.isRecordLayoutsLoaded
    ensures r.recordLayouts == st.recordLayouts && r.recordLayoutRef == st.recordLayoutRef
  {
    st.(isRecordLayoutsLoaded := true)
  }

  /** The prerequisites of GetCalibrations: record layouts, then compu methods, unless loaded. */
  function CalibrationsReady(st: State, data: string): Run {
    var s0 := if st.isRecordLayoutsLoaded then st else RecordLayouts(st);
    if s0.isCompuMethodsLoaded then Run(s0, None) else LoadCompuMethods(s0, data)
  }

  /** What the prerequisites of GetCalibrations change. */
  lemma CalibrationsReadyFacts(st: State, data: string)
    ensures var t := CalibrationsReady(st, data).state;
      t.isRecordLayoutsLoaded && t.calibrations == st.calibrations && t.calibrationRef == st.calibrationRef
      && t.isCalibrationsLoaded == st.isCalibrationsLoaded
      && t.measurements == st.measurements && t.isMeasurementsLoaded == st.isMeasurementsLoaded
      && t.measurementRef == st.measurementRef && t.recordLayoutRef == st.recordLayoutRef
    ensures var t := CalibrationsReady(st, data).state;
      st.isCompuMethodsLoaded ==>
        t.compuMethods == st.compuMethods && t.compuMethodRef == st.compuMethodRef
        && t.compuMethodVTab == st.compuMethodVTab && t.compuMethodVTabRef == st.compuMethodVTabRef
    ensures var r := CalibrationsReady(st, data); r.failure.None? ==> r.state.isCompuMethodsLoaded
  {
    var s0 := if st.isRecordLayoutsLoaded then st else RecordLayouts(st);
    if !s0.isCompuMethodsLoaded {
      var o := CompuMethodsOf(s0, data);
      assert CalibrationsReady(st, data) == LoadCompuMethods(s0, data);
    }
  }

  /** The loop of GetCalibrations (A2LEngine/Core.cs:86-109), once its prerequisites are met. */
  function CalibrationsLoop(st: State, data: string): (o: Outcome<Calibration>)
    ensures o.state.isCalibrationsLoaded == (st.isCalibrationsLoaded || o.result.Ok?)
    ensures o.state == st.(calibrationRef := o.state.calibrationRef, isCalibrationsLoaded := o.state.isCalibrationsLoaded)
  {
    var decode := CalibrationDecoder(st);
    var b := DecodeEach(CalibrationBlocks(data), decode);
    var s := st.(calibrationRef := st.calibrationRef + Names(b.items, CalibrationName));
    if b.failure.None? then Outcome(s.(isCalibrationsLoaded := true), Ok(b.items))
    else Outcome(s, Err(b.failure.value))
  }

  /** The loop of GetCalibrations returns one calibration per block and registers each one it reads, in order. */
  lemma CalibrationsLoopRegisters(st: State, data: string)
    ensures var o := CalibrationsLoop(st, data);
      Registered(st.calibrationRef, o.state.calibrationRef, CalibrationBlocks(data), CalibrationDecoder(st), CalibrationName, o.result)
  {
    var o := CalibrationsLoop(st, data);
    LoopRegisters(st.calibrationRef, o.state.calibrationRef, CalibrationBlocks(data), CalibrationDecoder(st), CalibrationName, o.result);
  }

  /**
   * GetCalibrations (A2LEngine/Core.cs:80-111): it always sets the
   * record-layout flag, leaves compu methods already loaded alone, touches
   * neither its own list nor the measurements, and on success returns one
   * calibration per block with its prerequisites' flags and its own set.
   */
  function CalibrationsOf(st: State, data: string): (o: Outcome<Calibration>)
    ensures o.state.isRecordLayoutsLoaded
    ensures o.state.calibrations == st.calibrations && o.state.measurements == st.measurements
      && o.state.isMeasurementsLoaded == st.isMeasurementsLoaded
    ensures st.isCompuMethodsLoaded ==>
      o.state.compuMethods == st.compuMethods && o.state.compuMethodRef == st.compuMethodRef
      && o.state.compuMethodVTab == st.compuMethodVTab && o.state.compuMethodVTabRef == st.compuMethodVTabRef
    ensures o.result.Ok? ==>
      o.state.isCompuMethodsLoaded && o.state.isCalibrationsLoaded && |o.result.value| == |CalibrationBlocks(data)|
  {
    CalibrationsReadyFacts(st, data);
    var pre := CalibrationsReady(st, data);
    if pre.failure.Some? then Outcome(pre.state, Err(pre.failure.value))
    else CalibrationsLoop(pre.state, data)
  }

  /** `A2LCollection.Calibrations = GetCalibrations(data)`. */
  function LoadCalibrations(st: State, data: string): Run {
    var o := CalibrationsOf(st, data);
    match o.result
    case Ok(cs) => Run(o.state.(calibrations := Some(cs)), None)
    case Err(e) => Run(o.state, Some(e))
  }

  /** The prerequisite of GetMeasurements: compu methods, unless loaded. */
  function MeasurementsReady(st: State, data: string): Run {
    if st.isCompuMethodsLoaded then Run(st, None) else LoadCompuMethods(st, data)
  }

  /** The loop of GetMeasurements (A2LEngine/Core.cs:57-77): registers no names. */
  function MeasurementsLoop(st: State, data: string): (o: Outcome<Models.Measurement>)
    ensures o.state.isMeasurementsLoaded == (st.isMeasurementsLoaded || o.result.Ok?)
    ensures o.state == st.(isMeasurementsLoaded := o.state.isMeasurementsLoaded)
  {
    var decode := MeasurementDecoder(st);
    var b := DecodeEach(MeasurementBlocks(data), decode);
    if b.failure.None? then Outcome(st.(isMeasurementsLoaded := true), Ok(b.items))
    else Outcome(st, Err(b.failure.value))
  }

  /** The loop of GetMeasurements returns one measurement per block, or the first block's exception. */
  lemma MeasurementsLoopDecodes(st: State, data: string)
    ensures Decoded(MeasurementBlocks(data), MeasurementDecoder(st), MeasurementsLoop(st, data).result)
  {
    LoopDecodes(MeasurementBlocks(data), MeasurementDecoder(st), MeasurementsLoop(st, data).result);
  }

  /**
   * GetMeasurements (A2LEngine/Core.cs:53-78): it leaves compu methods
   * already loaded alone, touches neither its own list nor the calibrations,
   * and on success returns one measurement per block with both flags set.
   */
  function MeasurementsOf(st: State, data: string): (o: Outcome<Models.Measurement>)
    ensures o.state.measurements == st.measurements && o.state.calibrations == st.calibrations
      && o.state.calibrationRef == st.calibrationRef && o.state.isCalibrationsLoaded == st.isCalibrationsLoaded
      && o.state.isRecordLayoutsLoaded == st.isRecordLayoutsLoaded
    ensures st.isCompuMethodsLoaded ==>
      o.state.compuMethods == st.compuMethods && o.state.compuMethodRef == st.compuMethodRef
      && o.state.compuMethodVTab == st.compuMethodVTab && o.state.compuMethodVTabRef == st.compuMethodVTabRef
    ensures o.result.Ok? ==>
      o.state.isCompuMethodsLoaded && o.state.isMeasurementsLoaded && |o.result.value| == |MeasurementBlocks(data)|
  {
    var pre := MeasurementsReady(st, data);
    if pre.failure.Some? then Outcome(pre.state, Err(pre.failure.value))
    else MeasurementsLoop(pre.state, data)
  }

  /** `A2LCollection.Measurements = GetMeasurements(data)`. */
  function LoadMeasurements(st: State, data: string): Run {
    var o := MeasurementsOf(st, data);
    match o.result
    case Ok(ms) => Run(o.state.(measurements := Some(ms)), None)
    case Err(e) => Run(o.state, Some(e))
  }

  /**
   * The switch of LoadA2l (A2LEngine/Core.cs:31-49), on the text the file
   * holds: a load that throws nothing has built what its component type asks
   * for.
   */
  function Load(st: State, data: string, kind: ComponentType): (r: Run)
    ensures r.failure.None? ==> r.state.isCompuMethodsLoaded
    ensures r.failure.None? && kind.CompuMethods? ==> r.state.compuMethods.Some?
    ensures r.failure.None? && (kind.Calibrations? || kind.Map? || kind.Curve? || kind.All?) ==>
      r.state.isRecordLayoutsLoaded && r.state.isCalibrationsLoaded && r.state.calibrations.Some?
    ensures r.failure.None? && (kind.Measurement? || kind.All?) ==>
      r.state.isMeasurementsLoaded && r.state.measurements.Some?
  {
    match kind
    case CompuMethods => LoadCompuMethods(st, data)
    case Calibrations | Map | Curve => LoadCalibrations(st, data)
    case Measurement => LoadMeasurements(st, data)
    case All => LoadEverything(st, data)
  }

  /**
   * ComponentType.All: compu methods, then calibrations, then measurements,
   * stopping at the first exception; when none is thrown all three lists are
   * assigned and flagged.
   */
  function LoadEverything(st: State, data: string): (r: Run)
    ensures r.failure.None? ==>
      r.state.isCompuMethodsLoaded && r.state.compuMethods.Some? && r.state.isRecordLayoutsLoaded
      && r.state.isCalibrationsLoaded && r.state.calibrations.Some?
      && r.state.isMeasurementsLoaded && r.state.measurements.Some?
  {
    var r1 := LoadCompuMethods(st, data);
    if r1.failure.Some? then r1
    else
      var r2 := LoadCalibrations(r1.state, data);
      if r2.failure.Some? then r2
      else LoadMeasurements(r2.state, data)
  }
}
