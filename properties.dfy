/**
 * Properties of LoadA2l and the builders of A2LEngine/Core.cs, stated on the
 * functions of module Steps: which fields each component type may change,
 * which flags a load sets, memoised prerequisites, links that can never be
 * made, how names and lists line up after a load on a fresh engine, and what
 * a repeated load does.
 */
module Properties {
  import opened Wrappers
  import opened Helpers
  import opened Models
  import opened Decode
  import opened Steps

  // ---------------------------------------------------------------------
  // Frames
  // ---------------------------------------------------------------------

  /** t differs from st at most in the compu-method tables and compu methods, with their names and flags. */
  predicate CompuPartOnly(st: State, t: State) {
    t == st.(compuMethodVTabRef := t.compuMethodVTabRef, compuMethodVTab := t.compuMethodVTab,
             isCompuMethodVTabsLoaded := t.isCompuMethodVTabsLoaded,
             compuMethodRef := t.compuMethodRef, compuMethods := t.compuMethods,
             isCompuMethodsLoaded := t.isCompuMethodsLoaded)
  }

  /** No flag that was set is cleared. */
  predicate FlagsKept(st: State, t: State) {
    (st.isMeasurementsLoaded ==> t.isMeasurementsLoaded)
    && (st.isCalibrationsLoaded ==> t.isCalibrationsLoaded)
    && (st.isCompuMethodsLoaded ==> t.isCompuMethodsLoaded)
    && (st.isFunctionsLoaded ==> t.isFunctionsLoaded)
    && (st.isRecordLayoutsLoaded ==> t.isRecordLayoutsLoaded)
    && (st.isCompuMethodVTabsLoaded ==> t.isCompuMethodVTabsLoaded)
  }

  /**
   * A flag is set only together with its list, and a part is flagged only
   * once its prerequisites are.
   */
  predicate Consistent(st: State) {
    (st.isCompuMethodVTabsLoaded ==> st.compuMethodVTab.Some?)
    && (st.isCompuMethodsLoaded ==> st.compuMethods.Some? && st.isCompuMethodVTabsLoaded)
    && (st.isCalibrationsLoaded ==> st.calibrations.Some? && st.isCompuMethodsLoaded && st.isRecordLayoutsLoaded)
    && (st.isMeasurementsLoaded ==> st.measurements.Some? && st.isCompuMethodsLoaded)
  }

  /** The fields no builder writes. */
  predicate Untouched(st: State, t: State) {
    t.descriptor == st.descriptor && t.functions == st.functions && t.recordLayouts == st.recordLayouts
    && t.measurementRef == st.measurementRef && t.recordLayoutRef == st.recordLayoutRef
    && t.isFunctionsLoaded == st.isFunctionsLoaded
  }

  /**
   * Loading compu methods: with the tables already loaded they are left as
   * they are; on success the compu methods are assigned and flagged; on
   * failure the list keeps its old value.
   */
  lemma LoadCompuMethodsEffect(st: State, data: string)
    ensures var t := LoadCompuMethods(st, data).state;
      CompuPartOnly(st, t) && FlagsKept(st, t) && (Consistent(st) ==> Consistent(t))
    ensures var t := LoadCompuMethods(st, data).state;
      st.isCompuMethodVTabsLoaded ==> t.compuMethodVTab == st.compuMethodVTab && t.compuMethodVTabRef == st.compuMethodVTabRef
    ensures var r := LoadCompuMethods(st, data);
      r.failure.None? ==> r.state.isCompuMethodVTabsLoaded && r.state.isCompuMethodsLoaded && r.state.compuMethods.Some?
    ensures var r := LoadCompuMethods(st, data);
      r.failure.Some? ==> r.state.compuMethods == st.compuMethods && r.state.isCompuMethodsLoaded == st.isCompuMethodsLoaded
  {
    var pre := VTabsReady(st, data);
    if !st.isCompuMethodVTabsLoaded {
      var o := CompuMethodVTabs(st, data);
      assert pre.state == (if o.result.Ok? then o.state.(compuMethodVTab := Some(o.result.value)) else o.state);
      assert CompuPartOnly(st, pre.state) && FlagsKept(st, pre.state);
      assert pre.failure.None? ==> pre.state.isCompuMethodVTabsLoaded && pre.state.compuMethodVTab.Some?;
    }
    if pre.failure.Some? {
      assert LoadCompuMethods(st, data) == Run(pre.state, pre.failure);
    } else {
      var o := CompuMethodsLoop(pre.state, data);
      var t := LoadCompuMethods(st, data).state;
      assert t == if o.result.Ok? then o.state.(compuMethods := Some(o.result.value)) else o.state;
    }
  }

  /**
   * Loading calibrations: besides the compu part it may change only the
   * calibrations with their names and flag, and the record-layout flag.
   */
  lemma LoadCalibrationsEffect(st: State, data: string)
    ensures var t := LoadCalibrations(st, data).state;
      FlagsKept(st, t) && Untouched(st, t) && t.isRecordLayoutsLoaded && (Consistent(st) ==> Consistent(t))
      && t.measurements == st.measurements && t.isMeasurementsLoaded == st.isMeasurementsLoaded
    ensures var t := LoadCalibrations(st, data).state;
      st.isCompuMethodsLoaded ==> (t.compuMethods == st.compuMethods && t.compuMethodRef == st.compuMethodRef
        && t.compuMethodVTab == st.compuMethodVTab && t.compuMethodVTabRef == st.compuMethodVTabRef)
    ensures var r := LoadCalibrations(st, data);
      r.failure.None? ==> r.state.isCompuMethodsLoaded && r.state.isCalibrationsLoaded && r.state.calibrations.Some?
    ensures var r := LoadCalibrations(st, data);
      r.failure.Some? ==> r.state.calibrations == st.calibrations && r.state.isCalibrationsLoaded == st.isCalibrationsLoaded
  {
    var s0 := if st.isRecordLayoutsLoaded then st else RecordLayouts(st);
    var pre := CalibrationsReady(st, data);
    if !s0.isCompuMethodsLoaded {
      LoadCompuMethodsEffect(s0, data);
      assert pre == LoadCompuMethods(s0, data);
    } else {
      assert pre == Run(s0, None);
    }
    if pre.failure.Some? {
      assert LoadCalibrations(st, data) == Run(pre.state, pre.failure);
    } else {
      var o := CalibrationsLoop(pre.state, data);
      var t := LoadCalibrations(st, data).state;
      assert t == if o.result.Ok? then o.state.(calibrations := Some(o.result.value)) else o.state;
    }
  }

  /** Loading measurements: besides the compu part it may change only the measurements and their flag. */
  lemma LoadMeasurementsEffect(st: State, data: string)
    ensures var t := LoadMeasurements(st, data).state;
      FlagsKept(st, t) && Untouched(st, t) && (Consistent(st) ==> Consistent(t))
      && t.calibrations == st.calibrations && t.calibrationRef == st.calibrationRef
      && t.isCalibrationsLoaded == st.isCalibrationsLoaded && t.isRecordLayoutsLoaded == st.isRecordLayoutsLoaded
    ensures var t := LoadMeasurements(st, data).state;
      st.isCompuMethodsLoaded ==> (t.compuMethods == st.compuMethods && t.compuMethodRef == st.compuMethodRef
        && t.compuMethodVTab == st.compuMethodVTab && t.compuMethodVTabRef == st.compuMethodVTabRef)
    ensures var r := LoadMeasurements(st, data);
      r.failure.None? ==> r.state.isCompuMethodsLoaded && r.state.isMeasurementsLoaded && r.state.measurements.Some?
    ensures var r := LoadMeasurements(st, data);
      r.failure.Some? ==> r.state.measurements == st.measurements && r.state.isMeasurementsLoaded == st.isMeasurementsLoaded
  {
    var pre := MeasurementsReady(st, data);
    if !st.isCompuMethodsLoaded {
      LoadCompuMethodsEffect(st, data);
      assert pre == LoadCompuMethods(st, data);
    }
    if pre.failure.Some? {
      assert LoadMeasurements(st, data) == Run(pre.state, pre.failure);
    } else {
      var o := MeasurementsLoop(pre.state, data);
      var t := LoadMeasurements(st, data).state;
      assert t == if o.result.Ok? then o.state.(measurements := Some(o.result.value)) else o.state;
    }
  }

  lemma InitialConsistent()
    ensures Consistent(Initial)
  {
  }

  /** Loading everything: compu methods, then calibrations, then measurements. */
  lemma LoadAllEffect(st: State, data: string)
    ensures var t := Load(st, data, All).state; FlagsKept(st, t) && Untouched(st, t) && (Consistent(st) ==> Consistent(t))
    ensures var t := Load(st, data, All).state;
      Load(st, data, All).failure.None? ==>
        (t.isCompuMethodVTabsLoaded && t.isCompuMethodsLoaded && t.compuMethods.Some?
         && t.isRecordLayoutsLoaded && t.isCalibrationsLoaded && t.calibrations.Some?
         && t.isMeasurementsLoaded && t.measurements.Some?)
    ensures var t := Load(st, data, All).state;
      Load(st, data, All).failure.Some? ==> (t.measurements == st.measurements && t.isMeasurementsLoaded == st.isMeasurementsLoaded)
  {
    LoadAllIsEverything(st, data);
    var r1 := LoadCompuMethods(st, data);
    LoadCompuMethodsEffect(st, data);
    if r1.failure.None? {
      var r2 := LoadCalibrations(r1.state, data);
      LoadCalibrationsEffect(r1.state, data);
      if r2.failure.None? {
        LoadMeasurementsEffect(r2.state, data);
      }
    }
  }

  /**
   * What each component type may change: CompuMethods only the compu part,
   * Calibrations, Map and Curve never the measurements, Measurement never the
   * calibrations; and no load clears a flag or writes the fields no builder
   * writes.
   */
  lemma LoadScope(st: State, data: string, kind: ComponentType)
    ensures var t := Load(st, data, kind).state; FlagsKept(st, t) && Untouched(st, t)
    ensures Consistent(st) ==> Consistent(Load(st, data, kind).state)
    ensures kind.CompuMethods? ==> CompuPartOnly(st, Load(st, data, kind).state)
    ensures kind.Calibrations? || kind.Map? || kind.Curve? ==>
      var t := Load(st, data, kind).state;
      t.measurements == st.measurements && t.isMeasurementsLoaded == st.isMeasurementsLoaded
    ensures kind.Measurement? ==>
      var t := Load(st, data, kind).state;
      t.calibrations == st.calibrations && t.calibrationRef == st.calibrationRef
      && t.isCalibrationsLoaded == st.isCalibrationsLoaded && t.isRecordLayoutsLoaded == st.isRecordLayoutsLoaded
  {
    match kind
    case CompuMethods =>
      LoadCompuMethodsEffect(st, data);
    case Calibrations =>
      LoadCalibrationsEffect(st, data);
    case Map =>
      LoadCalibrationsEffect(st, data);
    case Curve =>
      LoadCalibrationsEffect(st, data);
    case Measurement =>
      LoadMeasurementsEffect(st, data);
    case All =>
      LoadAllEffect(st, data);
  }

  /**
   * A load that succeeds leaves the requested parts and their prerequisites
   * flagged as loaded, and their lists assigned.
   */
  lemma LoadSuccessFlags(st: State, data: string, kind: ComponentType)
    requires Consistent(st) && Load(st, data, kind).failure.None?
    ensures var t := Load(st, data, kind).state;
      t.isCompuMethodVTabsLoaded && t.compuMethodVTab.Some? && t.isCompuMethodsLoaded && t.compuMethods.Some?
    ensures var t := Load(st, data, kind).state;
      (kind.Calibrations? || kind.Map? || kind.Curve? || kind.All?) ==>
        (t.isRecordLayoutsLoaded && t.isCalibrationsLoaded && t.calibrations.Some?)
    ensures var t := Load(st, data, kind).state;
      (kind.Measurement? || kind.All?) ==> (t.isMeasurementsLoaded && t.measurements.Some?)
  {
    match kind
    case CompuMethods =>
      LoadCompuMethodsEffect(st, data);
    case Calibrations =>
      LoadCalibrationsEffect(st, data);
    case Map =>
      LoadCalibrationsEffect(st, data);
    case Curve =>
      LoadCalibrationsEffect(st, data);
    case Measurement =>
      LoadMeasurementsEffect(st, data);
    case All =>
      LoadAllEffect(st, data);
  }

  /**
   * A load that fails leaves the list of the part it was asked for as it
   * was (the assignment never happens) and does not set that part's flag.
   */
  lemma LoadFailureKeepsList(st: State, data: string, kind: ComponentType)
    requires Load(st, data, kind).failure.Some?
    ensures var t := Load(st, data, kind).state;
      kind.CompuMethods? ==> t.compuMethods == st.compuMethods && t.isCompuMethodsLoaded == st.isCompuMethodsLoaded
    ensures var t := Load(st, data, kind).state;
      (kind.Calibrations? || kind.Map? || kind.Curve?) ==>
        (t.calibrations == st.calibrations && t.isCalibrationsLoaded == st.isCalibrationsLoaded)
    ensures var t := Load(st, data, kind).state;
      (kind.Measurement? || kind.All?) ==> (t.measurements == st.measurements && t.isMeasurementsLoaded == st.isMeasurementsLoaded)
  {
    match kind
    case CompuMethods =>
      LoadCompuMethodsEffect(st, data);
    case Calibrations =>
      LoadCalibrationsEffect(st, data);
    case Map =>
      LoadCalibrationsEffect(st, data);
    case Curve =>
      LoadCalibrationsEffect(st, data);
    case Measurement =>
      LoadMeasurementsEffect(st, data);
    case All =>
      LoadAllEffect(st, data);
  }

  // ---------------------------------------------------------------------
  // Links that are never made
  // ---------------------------------------------------------------------

  /** A calibration with no record layout and no axis measurement linked. */
  predicate Unlinked(c: Calibration) {
    c.recordLayoutReference.None?
    && (c.axisDescriptors.Some? ==> forall a | a in c.axisDescriptors.value :: a.referenceMeasurement.None?)
  }

  /**
   * No builder registers measurement or record-layout names, so no calibration
   * ever links a record layout and no axis descriptor a measurement.
   */
  predicate NeverLinked(st: State) {
    st.measurementRef == [] && st.recordLayoutRef == []
    && (st.calibrations.Some? ==> forall c | c in st.calibrations.value :: Unlinked(c))
  }

  lemma AxesUnlinked(body: string, st: State)
    requires st.measurementRef == [] && AxisDescriptorsOf(body, st).Ok?
    ensures forall a | a in AxisDescriptorsOf(body, st).value :: a.referenceMeasurement.None?
  {
    var bodies := GetFirstInstanceTextBetween(body, AXD_ST_START, AXD_ST_END);
    var b := DecodeEach(bodies, AxisDescriptorDecoder(st));
    forall a | a in AxisDescriptorsOf(body, st).value
      ensures a.referenceMeasurement.None?
    {
      var i :| 0 <= i < |b.items| && b.items[i] == a;
      assert AxisDescriptorDecoder(st)(bodies[i]) == Ok(a);
      AxisUnlinked(bodies[i], st);
    }
  }

  lemma AxisUnlinked(body: string, st: State)
    requires st.measurementRef == [] && DecodeAxisDescriptor(body, st).Ok?
    ensures DecodeAxisDescriptor(body, st).value.referenceMeasurement.None?
  {
    assert Resolve(st.measurementRef, st.measurements, LineKey(body, 1)) == Ok(None);
  }

  lemma CalibrationUnlinked(body: string, st: State)
    requires st.measurementRef == [] && st.recordLayoutRef == [] && DecodeCalibration(body, st).Ok?
    ensures Unlinked(DecodeCalibration(body, st).value)
  {
    var c := DecodeCalibration(body, st).value;
    if c.axisDescriptors.Some? {
      AxesUnlinked(body, st);
    }
  }

  lemma LoadCalibrationsUnlinked(st: State, data: string)
    requires st.measurementRef == [] && st.recordLayoutRef == []
    ensures var r := LoadCalibrations(st, data);
      r.failure.None? ==> forall c | c in r.state.calibrations.value :: Unlinked(c)
  {
    var pre := CalibrationsReady(st, data);
    CalibrationsReadyFacts(st, data);
    if pre.failure.None? {
      CalibrationsLoopUnlinked(pre.state, data);
      assert CalibrationsOf(st, data) == CalibrationsLoop(pre.state, data);
    }
  }

  /** The loop of GetCalibrations builds only unlinked calibrations while those names are empty. */
  lemma CalibrationsLoopUnlinked(st: State, data: string)
    requires st.measurementRef == [] && st.recordLayoutRef == []
    ensures var o := CalibrationsLoop(st, data);
      o.result.Ok? ==> forall c | c in o.result.value :: Unlinked(c)
  {
    var o := CalibrationsLoop(st, data);
    if o.result.Ok? {
      var blocks := CalibrationBlocks(data);
      forall c | c in o.result.value
        ensures Unlinked(c)
      {
        var i :| 0 <= i < |o.result.value| && o.result.value[i] == c;
        assert CalibrationDecoder(st)(blocks[i]) == Ok(c);
        CalibrationUnlinked(blocks[i], st);
      }
    }
  }


  /** NeverLinked holds on a fresh engine and after every load. */
  lemma LoadKeepsNeverLinked(st: State, data: string, kind: ComponentType)
    ensures NeverLinked(Initial)
    ensures NeverLinked(st) ==> NeverLinked(Load(st, data, kind).state)
  {
    if NeverLinked(st) {
      LoadScope(st, data, kind);
      match kind
      case CompuMethods =>
      case Measurement =>
      case Calibrations =>
        LoadCalibrationsUnlinked(st, data);
        LoadCalibrationsEffect(st, data);
      case Map =>
        LoadCalibrationsUnlinked(st, data);
        LoadCalibrationsEffect(st, data);
      case Curve =>
        LoadCalibrationsUnlinked(st, data);
        LoadCalibrationsEffect(st, data);
      case All =>
        var r1 := LoadCompuMethods(st, data);
        LoadCompuMethodsEffect(st, data);
        if r1.failure.None? {
          var r2 := LoadCalibrations(r1.state, data);
          LoadCalibrationsUnlinked(r1.state, data);
          LoadCalibrationsEffect(r1.state, data);
          if r2.failure.None? {
            LoadMeasurementsEffect(r2.state, data);
          }
        }
    }
  }

  // ---------------------------------------------------------------------
  // Names and lists line up after a load on a fresh engine
  // ---------------------------------------------------------------------

  /**
   * With a name list that holds the names of the record list, a reference
   * resolves to the first record of that name and to nothing only when no
   * record has it; it never throws.
   */
  lemma ResolveByName<T>(xs: seq<T>, name: T -> string, key: string)
    ensures var r := Resolve(Names(xs, name), Some(xs), key);
      r.Ok? && (r.value.None? <==> forall i | 0 <= i < |xs| :: name(xs[i]) != key)
    ensures var r := Resolve(Names(xs, name), Some(xs), key);
      r.Ok? && r.value.Some? ==>
        exists i | 0 <= i < |xs| :: xs[i] == r.value.value && name(xs[i]) == key
          && forall j | 0 <= j < i :: name(xs[j]) != key
  {
    var names := Names(xs, name);
    var i := IndexOf(names, key);
    if i >= 0 {
      forall j | 0 <= j < i
        ensures name(xs[j]) != key
      {
        assert names[..i][j] == names[j];
      }
    } else {
      forall k | 0 <= k < |xs|
        ensures name(xs[k]) != key
      {
        assert names[k] == name(xs[k]);
      }
    }
  }

  predicate VTabAligned(st: State) {
    st.compuMethodVTab.Some? && st.compuMethodVTabRef == Names(st.compuMethodVTab.value, TableName)
  }

  predicate CompuAligned(st: State) {
    st.compuMethods.Some? && st.compuMethodRef == Names(st.compuMethods.value, MethodName)
  }

  predicate CalibrationsAligned(st: State) {
    st.calibrations.Some? && st.calibrationRef == Names(st.calibrations.value, CalibrationName)
  }

  /** The first table load on an engine with no table names aligns the tables. */
  lemma VTabsFromEmpty(st: State, data: string)
    requires st.compuMethodVTabRef == []
    ensures var r := LoadCompuMethodVTabs(st, data);
      r.failure.None? ==> VTabAligned(r.state)
  {
    var o := CompuMethodVTabs(st, data);
    if o.result.Ok? {
      assert o.state.compuMethodVTabRef == Names(o.result.value, TableName);
    }
  }

  /** The tables GetCompuMethods needs are aligned with their names once its prerequisite is met. */
  lemma VTabsReadyAligned(st: State, data: string)
    requires st.compuMethodRef == []
    requires st.isCompuMethodVTabsLoaded ==> VTabAligned(st)
    requires !st.isCompuMethodVTabsLoaded ==> st.compuMethodVTabRef == []
    ensures var pre := VTabsReady(st, data);
      pre.failure.None? ==> VTabAligned(pre.state) && pre.state.compuMethodRef == []
  {
    if !st.isCompuMethodVTabsLoaded {
      VTabsFromEmpty(st, data);
      var o := CompuMethodVTabs(st, data);
      assert VTabsReady(st, data).state.compuMethodRef == o.state.compuMethodRef;
    }
  }

  /** The loop of GetCompuMethods, started with no compu-method names, leaves them aligned. */
  lemma CompuLoopFromEmpty(st: State, data: string)
    requires st.compuMethodRef == [] && VTabAligned(st)
    ensures var o := CompuMethodsLoop(st, data);
      o.result.Ok? ==> VTabAligned(o.state) && o.state.compuMethodRef == Names(o.result.value, MethodName)
  {
    var o := CompuMethodsLoop(st, data);
    var b := DecodeEach(CompuMethodBlocks(data), CompuMethodDecoder(st));
    assert o.state.compuMethodRef == st.compuMethodRef + Names(b.items, MethodName);
    if o.result.Ok? {
      assert o.result.value == b.items;
      assert o.state.compuMethodRef == [] + Names(o.result.value, MethodName);
    }
  }

  /** A compu-method load on an engine with no compu-method names aligns both lists. */
  lemma CompuFromEmpty(st: State, data: string)
    requires st.compuMethodRef == []
    requires st.isCompuMethodVTabsLoaded ==> VTabAligned(st)
    requires !st.isCompuMethodVTabsLoaded ==> st.compuMethodVTabRef == []
    ensures var r := LoadCompuMethods(st, data);
      r.failure.None? ==> VTabAligned(r.state) && CompuAligned(r.state)
  {
    var pre := VTabsReady(st, data);
    VTabsReadyAligned(st, data);
    if pre.failure.None? {
      CompuLoopFromEmpty(pre.state, data);
      assert CompuMethodsOf(st, data) == CompuMethodsLoop(pre.state, data);
    }
  }

  /** A calibration load on an engine with no calibration names aligns the calibrations. */
  lemma CalibrationsFromEmpty(st: State, data: string)
    requires st.calibrationRef == []
    ensures var r := LoadCalibrations(st, data);
      r.failure.None? ==> CalibrationsAligned(r.state)
  {
    CalibrationsReadyKeepsNames(st, data);
    var pre := CalibrationsReady(st, data);
    if pre.failure.None? {
      CalibrationLoopFromEmpty(pre.state, data);
    }
  }

  /** The prerequisites of GetCalibrations register no calibration names. */
  lemma CalibrationsReadyKeepsNames(st: State, data: string)
    ensures CalibrationsReady(st, data).state.calibrationRef == st.calibrationRef
  {
    var s0 := if st.isRecordLayoutsLoaded then st else RecordLayouts(st);
    if !s0.isCompuMethodsLoaded {
      LoadCompuMethodsEffect(s0, data);
    }
  }

  /** The loop of GetCalibrations, started with no calibration names, leaves them aligned. */
  lemma CalibrationLoopFromEmpty(st: State, data: string)
    requires st.calibrationRef == []
    ensures var o := CalibrationsLoop(st, data);
      o.result.Ok? ==> o.state.calibrationRef == Names(o.result.value, CalibrationName)
  {
    var o := CalibrationsLoop(st, data);
    if o.result.Ok? {
      assert o.state.calibrationRef == [] + Names(o.result.value, CalibrationName);
    }
  }

  /**
   * After a successful load on a fresh engine, each name list holds exactly
   * the names of its record list, in order.
   */
  lemma FreshLoadAligned(data: string, kind: ComponentType)
    requires Load(Initial, data, kind).failure.None?
    ensures var t := Load(Initial, data, kind).state;
      VTabAligned(t) && CompuAligned(t)
    ensures var t := Load(Initial, data, kind).state;
      (kind.Calibrations? || kind.Map? || kind.Curve? || kind.All?) ==> CalibrationsAligned(t)
  {
    match kind
    case CompuMethods =>
      CompuFromEmpty(Initial, data);
    case Measurement =>
      FreshMeasurements(data);
    case Calibrations =>
      FreshCalibrations(data);
    case Map =>
      FreshCalibrations(data);
    case Curve =>
      FreshCalibrations(data);
    case All =>
      var r1 := LoadCompuMethods(Initial, data);
      CompuFromEmpty(Initial, data);
      LoadCompuMethodsEffect(Initial, data);
      var r2 := LoadCalibrations(r1.state, data);
      CalibrationsFromEmpty(r1.state, data);
      LoadCalibrationsEffect(r1.state, data);
      LoadMeasurementsEffect(r2.state, data);
  }

  lemma FreshMeasurements(data: string)
    requires LoadMeasurements(Initial, data).failure.None?
    ensures VTabAligned(LoadMeasurements(Initial, data).state) && CompuAligned(LoadMeasurements(Initial, data).state)
  {
    CompuFromEmpty(Initial, data);
    LoadCompuMethodsEffect(Initial, data);
    var pre := MeasurementsReady(Initial, data);
    assert pre == LoadCompuMethods(Initial, data);
  }

  lemma FreshCalibrations(data: string)
    requires LoadCalibrations(Initial, data).failure.None?
    ensures var t := LoadCalibrations(Initial, data).state; VTabAligned(t) && CompuAligned(t) && CalibrationsAligned(t)
  {
    var s0 := RecordLayouts(Initial);
    CompuFromEmpty(s0, data);
    LoadCompuMethodsEffect(s0, data);
    CalibrationsFromEmpty(Initial, data);
    LoadCalibrationsEffect(Initial, data);
    var pre := CalibrationsReady(Initial, data);
    assert pre == LoadCompuMethods(s0, data);
  }

  /** A link resolved through aligned lists names a record of the list, or no record has the name. */
  lemma LinkByName<T>(xs: seq<T>, name: T -> string, key: string, link: Option<T>)
    requires Resolve(Names(xs, name), Some(xs), key) == Ok(link)
    ensures link.None? <==> forall x | x in xs :: name(x) != key
    ensures link.Some? ==> link.value in xs && name(link.value) == key
  {
    ResolveByName(xs, name, key);
    if link.None? {
      forall x | x in xs
        ensures name(x) != key
      {
        var i :| 0 <= i < |xs| && xs[i] == x;
      }
    }
  }

  /**
   * With aligned compu methods, calibration i links the compu method named
   * on line 6 of its block, or none when no compu method has that name.
   */
  lemma CalibrationLinksByName(s: State, data: string, i: nat)
    requires CompuAligned(s)
    requires CalibrationsLoop(s, data).result.Ok? && i < |CalibrationsLoop(s, data).result.value|
    ensures var c := CalibrationsLoop(s, data).result.value[i];
      var key := Cleanup(Lines(CalibrationBlocks(data)[i])[6]);
      (c.compuMethod.None? <==> forall m | m in s.compuMethods.value :: m.name != key)
      && (c.compuMethod.Some? ==> c.compuMethod.value in s.compuMethods.value && c.compuMethod.value.name == key)
  {
    var blocks := CalibrationBlocks(data);
    var c := CalibrationsLoop(s, data).result.value[i];
    assert CalibrationDecoder(s)(blocks[i]) == Ok(c);
    var f := DecodeCalibrationFields(blocks[i], s).value;
    assert f.compuMethod == c.compuMethod;
    LinkByName(s.compuMethods.value, MethodName, Cleanup(Lines(blocks[i])[6]), c.compuMethod);
  }

  lemma MeasurementLink(body: string, s: State)
    requires CompuAligned(s) && DecodeMeasurement(body, s).Ok?
    ensures var m := DecodeMeasurement(body, s).value; var key := Cleanup(Lines(body)[3]);
      (m.compuMethod.None? <==> forall c | c in s.compuMethods.value :: c.name != key)
      && (m.compuMethod.Some? ==> m.compuMethod.value in s.compuMethods.value && m.compuMethod.value.name == key)
  {
    var m := DecodeMeasurement(body, s).value;
    LinkByName(s.compuMethods.value, MethodName, Cleanup(Lines(body)[3]), m.compuMethod);
  }

  /**
   * With aligned compu methods, measurement i links the compu method named
   * on line 3 of its block, or none when no compu method has that name.
   */
  lemma MeasurementLinksByName(s: State, data: string, i: nat)
    requires CompuAligned(s)
    requires MeasurementsLoop(s, data).result.Ok? && i < |MeasurementsLoop(s, data).result.value|
    ensures var m := MeasurementsLoop(s, data).result.value[i];
      var key := Cleanup(Lines(MeasurementBlocks(data)[i])[3]);
      (m.compuMethod.None? <==> forall c | c in s.compuMethods.value :: c.name != key)
      && (m.compuMethod.Some? ==> m.compuMethod.value in s.compuMethods.value && m.compuMethod.value.name == key)
  {
    var blocks := MeasurementBlocks(data);
    assert MeasurementDecoder(s)(blocks[i]) == Ok(MeasurementsLoop(s, data).result.value[i]);
    MeasurementLink(blocks[i], s);
  }

  /**
   * With aligned tables, compu method i links the table named after its
   * COMPU_TAB_REF keyword, or none when no table has that name.
   */
  lemma CompuMethodLinksByName(s: State, data: string, i: nat)
    requires VTabAligned(s)
    requires CompuMethodsLoop(s, data).result.Ok? && i < |CompuMethodsLoop(s, data).result.value|
    ensures var m := CompuMethodsLoop(s, data).result.value[i];
      var key := TableReferenceName(CompuMethodBlocks(data)[i]);
      (m.compuTableReference.None? <==> forall t | t in s.compuMethodVTab.value :: t.name != key)
      && (m.compuTableReference.Some? ==>
            m.compuTableReference.value in s.compuMethodVTab.value && m.compuTableReference.value.name == key)
  {
    var blocks := CompuMethodBlocks(data);
    var m := CompuMethodsLoop(s, data).result.value[i];
    assert CompuMethodDecoder(s)(blocks[i]) == Ok(m);
    LinkByName(s.compuMethodVTab.value, TableName, TableReferenceName(blocks[i]), m.compuTableReference);
  }

  // ---------------------------------------------------------------------
  // A repeated load
  // ---------------------------------------------------------------------

  /** Two states resolve every name to the same table. */
  ghost predicate SameTableLinks(s: State, t: State) {
    forall key :: Resolve(s.compuMethodVTabRef, s.compuMethodVTab, key) == Resolve(t.compuMethodVTabRef, t.compuMethodVTab, key)
  }

  /** Two states resolve every name to the same compu method. */
  ghost predicate SameMethodLinks(s: State, t: State) {
    forall key :: Resolve(s.compuMethodRef, s.compuMethods, key) == Resolve(t.compuMethodRef, t.compuMethods, key)
  }

  /** Two states resolve every name to the same measurement and the same record layout. */
  ghost predicate SameOtherLinks(s: State, t: State) {
    (forall key :: Resolve(s.measurementRef, s.measurements, key) == Resolve(t.measurementRef, t.measurements, key))
    && (forall key :: Resolve(s.recordLayoutRef, s.recordLayouts, key) == Resolve(t.recordLayoutRef, t.recordLayouts, key))
  }

  /** A name found at index r with no earlier occurrence is where IndexOf finds it. */
  lemma IndexOfFirst(xs: seq<string>, x: string, r: nat)
    requires r < |xs| && xs[r] == x && x !in xs[..r]
    ensures IndexOf(xs, x) == r
  {
  }

  /** A name list registered twice resolves as the list registered once. */
  lemma ResolveTwice<T>(names: seq<string>, records: Option<seq<T>>, key: string)
    ensures Resolve(names + names, records, key) == Resolve(names, records, key)
  {
    var i := IndexOf(names, key);
    if i >= 0 {
      assert (names + names)[..i] == names[..i];
      IndexOfFirst(names + names, key, i);
    } else {
      assert key !in names + names;
    }
  }

  lemma CompuMethodAgree(body: string, s: State, t: State)
    requires var key := TableReferenceName(body);
      Resolve(s.compuMethodVTabRef, s.compuMethodVTab, key) == Resolve(t.compuMethodVTabRef, t.compuMethodVTab, key)
    ensures DecodeCompuMethod(body, s) == DecodeCompuMethod(body, t)
  {
  }

  lemma CompuMethodsLoopAgree(s: State, t: State, data: string)
    requires SameTableLinks(s, t)
    ensures CompuMethodsLoop(s, data).result == CompuMethodsLoop(t, data).result
  {
    var blocks := CompuMethodBlocks(data);
    forall i | 0 <= i < |blocks|
      ensures DecodeCompuMethod(blocks[i], s) == DecodeCompuMethod(blocks[i], t)
    {
      CompuMethodAgree(blocks[i], s, t);
    }
    DecodeEachAgree(blocks, CompuMethodDecoder(s), CompuMethodDecoder(t));
  }

  lemma AxisDescriptorsAgree(body: string, s: State, t: State)
    requires SameMethodLinks(s, t) && SameOtherLinks(s, t)
    ensures AxisDescriptorsOf(body, s) == AxisDescriptorsOf(body, t)
  {
    var blocks := GetFirstInstanceTextBetween(body, AXD_ST_START, AXD_ST_END);
    DecodeEachAgree(blocks, AxisDescriptorDecoder(s), AxisDescriptorDecoder(t));
  }

  lemma CalibrationAgree(body: string, s: State, t: State)
    requires SameMethodLinks(s, t) && SameOtherLinks(s, t)
    ensures DecodeCalibration(body, s) == DecodeCalibration(body, t)
  {
    assert DecodeCalibrationFields(body, s) == DecodeCalibrationFields(body, t);
    AxisDescriptorsAgree(body, s, t);
  }

  lemma CalibrationsLoopAgree(s: State, t: State, data: string)
    requires SameMethodLinks(s, t) && SameOtherLinks(s, t)
    ensures CalibrationsLoop(s, data).result == CalibrationsLoop(t, data).result
  {
    var blocks := CalibrationBlocks(data);
    forall i | 0 <= i < |blocks|
      ensures DecodeCalibration(blocks[i], s) == DecodeCalibration(blocks[i], t)
    {
      CalibrationAgree(blocks[i], s, t);
    }
    DecodeEachAgree(blocks, CalibrationDecoder(s), CalibrationDecoder(t));
  }

  lemma MeasurementsLoopAgree(s: State, t: State, data: string)
    requires SameMethodLinks(s, t)
    ensures MeasurementsLoop(s, data).result == MeasurementsLoop(t, data).result
  {
    var blocks := MeasurementBlocks(data);
    DecodeEachAgree(blocks, MeasurementDecoder(s), MeasurementDecoder(t));
  }

  /**
   * Loading compu methods again, with the tables loaded as before: the same
   * list, and its names registered a second time.
   */
  lemma CompuMethodsAgain(s: State, u: State, data: string)
    requires CompuMethodsLoop(s, data).result.Ok? && u.isCompuMethodVTabsLoaded && u.isCompuMethodsLoaded
    requires u.compuMethodVTabRef == s.compuMethodVTabRef && u.compuMethodVTab == s.compuMethodVTab
    ensures var ms := CompuMethodsLoop(s, data).result.value;
      LoadCompuMethods(u, data) == Run(u.(compuMethodRef := u.compuMethodRef + Names(ms, MethodName), compuMethods := Some(ms)), None)
  {
    CompuMethodsLoopAgree(s, u, data);
    var o := CompuMethodsLoop(u, data);
  }

  /** Registering the compu-method names twice links calibrations and measurements as before. */
  lemma DoubledMethodLinks(s: State, u: State)
    requires u.compuMethodRef == s.compuMethodRef + s.compuMethodRef && u.compuMethods == s.compuMethods
    ensures SameMethodLinks(s, u)
  {
    forall key
      ensures Resolve(s.compuMethodRef, s.compuMethods, key) == Resolve(u.compuMethodRef, u.compuMethods, key)
    {
      ResolveTwice(s.compuMethodRef, s.compuMethods, key);
    }
  }

  /** With no measurement or record-layout names, those links are all absent. */
  lemma NoOtherLinks(s: State, u: State)
    requires s.measurementRef == [] && s.recordLayoutRef == [] && u.measurementRef == [] && u.recordLayoutRef == []
    ensures SameOtherLinks(s, u)
  {
  }

  /** Loading calibrations again, with compu names registered twice: the same list, its names registered again. */
  lemma CalibrationsAgain(s: State, u: State, data: string)
    requires CalibrationsLoop(s, data).result.Ok? && u.isRecordLayoutsLoaded && u.isCompuMethodsLoaded
    requires SameMethodLinks(s, u) && SameOtherLinks(s, u)
    ensures var cs := CalibrationsLoop(s, data).result.value;
      LoadCalibrations(u, data) == Run(u.(calibrationRef := u.calibrationRef + Names(cs, CalibrationName),
                                          calibrations := Some(cs), isCalibrationsLoaded := true), None)
  {
    CalibrationsLoopAgree(s, u, data);
    var o := CalibrationsLoop(u, data);
  }

  /** Loading measurements again, with compu names registered twice: the same list. */
  lemma MeasurementsAgain(s: State, u: State, data: string)
    requires MeasurementsLoop(s, data).result.Ok? && u.isCompuMethodsLoaded && SameMethodLinks(s, u)
    ensures LoadMeasurements(u, data) ==
      Run(u.(measurements := Some(MeasurementsLoop(s, data).result.value), isMeasurementsLoaded := true), None)
  {
    MeasurementsLoopAgree(s, u, data);
  }

  /** The compu methods of a second load: the same list, its names registered again. */
  lemma RepeatCompuMethods(s1: State, st: State, data: string)
    requires CompuMethodsLoop(s1, data).result.Ok?
    requires var ms := CompuMethodsLoop(s1, data).result.value;
      st.compuMethodRef == Names(ms, MethodName) && st.compuMethods == Some(ms)
    requires st.isCompuMethodVTabsLoaded && st.isCompuMethodsLoaded
    requires st.compuMethodVTabRef == s1.compuMethodVTabRef && st.compuMethodVTab == s1.compuMethodVTab
    ensures LoadCompuMethods(st, data) == Run(st.(compuMethodRef := st.compuMethodRef + st.compuMethodRef), None)
  {
    CompuMethodsAgain(s1, st, data);
  }

  /** The calibrations of a second load: the same list, its names registered again. */
  lemma RepeatCalibrations(s2: State, v1: State, data: string)
    requires CalibrationsLoop(s2, data).result.Ok?
    requires var cs := CalibrationsLoop(s2, data).result.value;
      v1.calibrationRef == Names(cs, CalibrationName) && v1.calibrations == Some(cs) && v1.isCalibrationsLoaded
    requires v1.isRecordLayoutsLoaded && v1.isCompuMethodsLoaded && SameMethodLinks(s2, v1) && SameOtherLinks(s2, v1)
    ensures LoadCalibrations(v1, data) == Run(v1.(calibrationRef := v1.calibrationRef + v1.calibrationRef), None)
  {
    CalibrationsAgain(s2, v1, data);
  }

  /** The measurements of a second load: the same list, so nothing changes. */
  lemma RepeatMeasurements(u2: State, v2: State, data: string)
    requires MeasurementsLoop(u2, data).result.Ok?
    requires v2.measurements == Some(MeasurementsLoop(u2, data).result.value) && v2.isMeasurementsLoaded
    requires v2.isCompuMethodsLoaded && SameMethodLinks(u2, v2)
    ensures LoadMeasurements(v2, data) == Run(v2, None)
  {
    MeasurementsAgain(u2, v2, data);
  }

  /**
   * The second load of everything, on the state a first successful load left
   * behind: s1 with the tables loaded, s2 after the compu methods and record
   * layouts, u2 after the calibrations, st after the measurements.
   */
  lemma RepeatFrom(s1: State, s2: State, u2: State, st: State, data: string)
    requires CompuMethodsLoop(s1, data).result.Ok? && CalibrationsLoop(s2, data).result.Ok?
    requires MeasurementsLoop(u2, data).result.Ok?
    requires s1.calibrationRef == [] && s1.measurementRef == [] && s1.recordLayoutRef == []
    requires s1.isCompuMethodVTabsLoaded
    requires var ms := CompuMethodsLoop(s1, data).result.value;
      s2 == s1.(compuMethodRef := Names(ms, MethodName), compuMethods := Some(ms),
                isCompuMethodsLoaded := true, isRecordLayoutsLoaded := true)
    requires var cs := CalibrationsLoop(s2, data).result.value;
      u2 == s2.(calibrationRef := Names(cs, CalibrationName), calibrations := Some(cs), isCalibrationsLoaded := true)
    requires st == u2.(measurements := Some(MeasurementsLoop(u2, data).result.value), isMeasurementsLoaded := true)
    ensures LoadEverything(st, data) ==
      Run(st.(compuMethodRef := st.compuMethodRef + st.compuMethodRef,
              calibrationRef := st.calibrationRef + st.calibrationRef), None)
  {
    RepeatCompuMethods(s1, st, data);
    var v1 := st.(compuMethodRef := st.compuMethodRef + st.compuMethodRef);
    DoubledMethodLinks(s2, v1);
    NoOtherLinks(s2, v1);
    RepeatCalibrations(s2, v1, data);
    var v2 := v1.(calibrationRef := st.calibrationRef + st.calibrationRef);
    DoubledMethodLinks(u2, v2);
    RepeatMeasurements(u2, v2, data);
    assert v1.(calibrationRef := v1.calibrationRef + v1.calibrationRef) == v2;
    EverythingAfter(st, v1, v2, data);
  }

  /** The load of everything, once its first two steps are known to succeed. */
  lemma EverythingAfter(st: State, v1: State, v2: State, data: string)
    requires LoadCompuMethods(st, data) == Run(v1, None) && LoadCalibrations(v1, data) == Run(v2, None)
    ensures LoadEverything(st, data) == LoadMeasurements(v2, data)
  {
    var r1 := LoadCompuMethods(st, data);
    assert LoadCalibrations(r1.state, data) == Run(v2, None);
  }

  /** ComponentType.All is the load of everything. */
  lemma LoadAllIsEverything(st: State, data: string)
    ensures Load(st, data, All) == LoadEverything(st, data)
  {
  }

  /** A first load of the compu methods on a fresh engine, step by step. */
  lemma FirstCompuMethods(data: string)
    requires LoadCompuMethods(Initial, data).failure.None?
    ensures var s1 := VTabsReady(Initial, data).state; var o1 := CompuMethodsLoop(s1, data);
      o1.result.Ok? && s1.isCompuMethodVTabsLoaded && s1.compuMethodRef == [] && s1.calibrationRef == []
      && s1.measurementRef == [] && s1.recordLayoutRef == [] && !s1.isRecordLayoutsLoaded
      && LoadCompuMethods(Initial, data).state ==
           s1.(compuMethodRef := Names(o1.result.value, MethodName), compuMethods := Some(o1.result.value),
               isCompuMethodsLoaded := true)
  {
    var s1 := VTabsReady(Initial, data).state;
    var o1 := CompuMethodsLoop(s1, data);
    assert [] + Names(o1.result.value, MethodName) == Names(o1.result.value, MethodName);
  }

  /** A first load of the calibrations after the compu methods, step by step. */
  lemma FirstCalibrations(u1: State, data: string)
    requires !u1.isRecordLayoutsLoaded && u1.isCompuMethodsLoaded && u1.calibrationRef == []
    requires LoadCalibrations(u1, data).failure.None?
    ensures var s2 := RecordLayouts(u1); var o2 := CalibrationsLoop(s2, data);
      o2.result.Ok?
      && LoadCalibrations(u1, data).state ==
           s2.(calibrationRef := Names(o2.result.value, CalibrationName), calibrations := Some(o2.result.value),
               isCalibrationsLoaded := true)
  {
    var o2 := CalibrationsLoop(RecordLayouts(u1), data);
    assert [] + Names(o2.result.value, CalibrationName) == Names(o2.result.value, CalibrationName);
  }

  /** RepeatAll, stated on the load of everything. */
  lemma RepeatEverything(data: string)
    requires LoadEverything(Initial, data).failure.None?
    ensures var st := LoadEverything(Initial, data).state;
      LoadEverything(st, data) ==
        Run(st.(compuMethodRef := st.compuMethodRef + st.compuMethodRef,
                calibrationRef := st.calibrationRef + st.calibrationRef), None)
  {
    FirstCompuMethods(data);
    var s1 := VTabsReady(Initial, data).state;
    var u1 := LoadCompuMethods(Initial, data).state;
    FirstCalibrations(u1, data);
    var s2 := RecordLayouts(u1);
    var u2 := LoadCalibrations(u1, data).state;
    var st := LoadEverything(Initial, data).state;
    assert st == MeasurementsLoop(u2, data).state.(measurements := Some(MeasurementsLoop(u2, data).result.value));
    RepeatFrom(s1, s2, u2, st, data);
  }

  /**
   * Loading everything a second time after a first successful load on a
   * fresh engine succeeds and rebuilds the same lists, but registers every
   * compu-method and calibration name a second time: the load is not
   * idempotent on the engine's name lists.
   */
  lemma RepeatAll(data: string)
    requires Load(Initial, data, All).failure.None?
    ensures var st := Load(Initial, data, All).state;
      Load(st, data, All) ==
        Run(st.(compuMethodRef := st.compuMethodRef + st.compuMethodRef,
                calibrationRef := st.calibrationRef + st.calibrationRef), None)
  {
    LoadAllIsEverything(Initial, data);
    RepeatEverything(data);
    LoadAllIsEverything(LoadEverything(Initial, data).state, data);
  }
}
