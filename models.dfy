/**
 * The records and enumerations of A2LEngine/Models.cs. C# references that
 * may be null are Option values; floating-point fields keep the cleaned
 * token text that double.Parse would read.
 */
module Models {
  import opened Wrappers
  import opened Helpers

  // ---------------------------------------------------------------------
  // Enumerations, with the names Enum.Parse matches
  // ---------------------------------------------------------------------

  datatype CalibrationType = VALUE | ASCII | VAL_BLK | CURVE | MAP | CUBOID | CUBE_4 | CUBE_5

  datatype AxisDescriptionType = STD_AXIS | FIX_AXIS | COM_AXIS | CURVE_AXIS | RES_AXIS

  datatype DataType =
    | UBYTE | SBYTE | UWORD | SWORD | ULONG | SLONG | A_UINT64 | A_INT64 | FLOAT32_IEEE | FLOAT64_IEEE

  datatype CompuMethodType = IDENTICAL | LINEAR | RAT_FUNC | TAB_INTP | TAB_NOINTP | TAB_VERB | FORM

  const CalibrationTypes: seq<CalibrationType> := [VALUE, ASCII, VAL_BLK, CURVE, MAP, CUBOID, CUBE_4, CUBE_5]

  const AxisDescriptionTypes: seq<AxisDescriptionType> := [STD_AXIS, FIX_AXIS, COM_AXIS, CURVE_AXIS, RES_AXIS]

  const DataTypes: seq<DataType> :=
    [UBYTE, SBYTE, UWORD, SWORD, ULONG, SLONG, A_UINT64, A_INT64, FLOAT32_IEEE, FLOAT64_IEEE]

  const CompuMethodTypes: seq<CompuMethodType> := [IDENTICAL, LINEAR, RAT_FUNC, TAB_INTP, TAB_NOINTP, TAB_VERB, FORM]

  function CalibrationTypeName(t: CalibrationType): string {
    match t
    case VALUE => "VALUE"
    case ASCII => "ASCII"
    case VAL_BLK => "VAL_BLK"
    case CURVE => "CURVE"
    case MAP => "MAP"
    case CUBOID => "CUBOID"
    case CUBE_4 => "CUBE_4"
    case CUBE_5 => "CUBE_5"
  }

  function AxisDescriptionTypeName(t: AxisDescriptionType): string {
    match t
    case STD_AXIS => "STD_AXIS"
    case FIX_AXIS => "FIX_AXIS"
    case COM_AXIS => "COM_AXIS"
    case CURVE_AXIS => "CURVE_AXIS"
    case RES_AXIS => "RES_AXIS"
  }

  function DataTypeName(t: DataType): string {
    match t
    case UBYTE => "UBYTE"
    case SBYTE => "SBYTE"
    case UWORD => "UWORD"
    case SWORD => "SWORD"
    case ULONG => "ULONG"
    case SLONG => "SLONG"
    case A_UINT64 => "A_UINT64"
    case A_INT64 => "A_INT64"
    case FLOAT32_IEEE => "FLOAT32_IEEE"
    case FLOAT64_IEEE => "FLOAT64_IEEE"
  }

  function CompuMethodTypeName(t: CompuMethodType): string {
    match t
    case IDENTICAL => "IDENTICAL"
    case LINEAR => "LINEAR"
    case RAT_FUNC => "RAT_FUNC"
    case TAB_INTP => "TAB_INTP"
    case TAB_NOINTP => "TAB_NOINTP"
    case TAB_VERB => "TAB_VERB"
    case FORM => "FORM"
  }

  /** The calibration kinds that own axis descriptors (A2LEngine/Core.cs:102). */
  predicate IsMultiDimensional(t: CalibrationType) {
    t == CUBE_4 || t == CUBE_5 || t == CUBOID || t == CURVE || t == MAP
  }

  // ---------------------------------------------------------------------
  // Records
  // ---------------------------------------------------------------------

  /** Placeholder: Function records are declared but never built. */
  datatype Function = Function(name: string, description: string)

  /** Placeholder attributes of a record layout; never built. */
  datatype RecordLayoutAttr =
    | NumAxisPoints(memPos: int, dataType: DataType, distinctIdentifier: string)
    | AxisPoints(memPos: int, dataType: DataType, addressingType: string)
    | FunctionValues(memPos: int, dataType: DataType, addressingType: string)
    | SourceAddress(memPos: int, dataType: DataType, distinctIdentifier: string)

  /** Placeholder: record layouts are declared but never built. */
  datatype RecordLayout = RecordLayout(name: string, layoutAttributes: Option<seq<RecordLayoutAttr>>)

  /** A COMPU_VTAB block: integer codes and their labels. */
  datatype CompuTable = CompuTable(
    name: string,
    description: string,
    kind: CompuMethodType,
    numberOfPairs: int,
    values: map<int, string>)

  datatype CompuMethod = CompuMethod(
    name: string,
    description: string,
    kind: CompuMethodType,
    displayFormat: string,
    unit: string,
    coefficients: Option<seq<string>>,
    compuTableReference: Option<CompuTable>)

  datatype Measurement = Measurement(
    name: string,
    customDisplayIdentifier: string,
    description: string,
    dataType: DataType,
    compuMethod: Option<CompuMethod>,
    definedResolution: string,
    definedAccuracyPrc: string,
    maximum: string,
    minimum: string,
    ecuAddress: string,
    functionReference: Option<seq<Function>>)

  /** maximumGradient is None where the source leaves the double at its default. */
  datatype AxisDescriptor = AxisDescriptor(
    kind: AxisDescriptionType,
    referenceMeasurement: Option<Measurement>,
    compuMethod: Option<CompuMethod>,
    numAxis: int,
    minimum: string,
    maximum: string,
    maximumGradient: Option<string>,
    displayFormat: Option<string>)

  datatype Calibration = Calibration(
    name: string,
    description: string,
    kind: CalibrationType,
    ecuAddress: string,
    customDisplayIdentifier: Option<string>,
    recordLayoutReference: Option<RecordLayout>,
    maxDifference: string,
    compuMethod: Option<CompuMethod>,
    minimum: string,
    maximum: string,
    bitMask: Option<string>,
    functionReference: Option<seq<Function>>,
    axisDescriptors: Option<seq<AxisDescriptor>>)

  /** The exceptions a build can throw. */
  datatype Error =
    | MissingLine(line: nat)          // IndexOutOfRangeException on the split lines
    | BadInteger(text: string)        // int.Parse: FormatException or OverflowException
    | BadEnumName(text: string)       // Enum.Parse: ArgumentException
    | DuplicateKey(key: int)          // Dictionary.Add: ArgumentException
    | StaleReference(index: nat)      // indexing a record list that is null or too short

  // ---------------------------------------------------------------------
  // Enum parsing and its round trip
  // ---------------------------------------------------------------------

  function ParseCalibrationType(s: string): Option<CalibrationType> {
    ToEnum(s, CalibrationTypes, CalibrationTypeName)
  }

  function ParseAxisDescriptionType(s: string): Option<AxisDescriptionType> {
    ToEnum(s, AxisDescriptionTypes, AxisDescriptionTypeName)
  }

  function ParseDataType(s: string): Option<DataType> {
    ToEnum(s, DataTypes, DataTypeName)
  }

  function ParseCompuMethodType(s: string): Option<CompuMethodType> {
    ToEnum(s, CompuMethodTypes, CompuMethodTypeName)
  }

  lemma CalibrationTypeRoundTrip(t: CalibrationType)
    ensures ParseCalibrationType(CalibrationTypeName(t)) == Some(t)
  {
    forall y | y in CalibrationTypes && EqualsIgnoreCase(CalibrationTypeName(y), CalibrationTypeName(t)) ensures y == t {
      CalibrationTypeNameUpper(y);
      CalibrationTypeNameUpper(t);
      EqualsIgnoreCaseUpper(CalibrationTypeName(y), CalibrationTypeName(t));
      CalibrationTypeNameInjective(y, t);
    }
    CalibrationTypeNameUpper(t);
    ToEnumName(t, CalibrationTypes, CalibrationTypeName);
  }

  lemma AxisDescriptionTypeRoundTrip(t: AxisDescriptionType)
    ensures ParseAxisDescriptionType(AxisDescriptionTypeName(t)) == Some(t)
  {
    forall y | y in AxisDescriptionTypes && EqualsIgnoreCase(AxisDescriptionTypeName(y), AxisDescriptionTypeName(t)) ensures y == t {
      AxisDescriptionTypeNameUpper(y);
      AxisDescriptionTypeNameUpper(t);
      EqualsIgnoreCaseUpper(AxisDescriptionTypeName(y), AxisDescriptionTypeName(t));
      AxisDescriptionTypeNameInjective(y, t);
    }
    AxisDescriptionTypeNameUpper(t);
    ToEnumName(t, AxisDescriptionTypes, AxisDescriptionTypeName);
  }

  lemma DataTypeRoundTrip(t: DataType)
    ensures ParseDataType(DataTypeName(t)) == Some(t)
  {
    forall y | y in DataTypes && EqualsIgnoreCase(DataTypeName(y), DataTypeName(t)) ensures y == t {
      DataTypeNameUpper(y);
      DataTypeNameUpper(t);
      EqualsIgnoreCaseUpper(DataTypeName(y), DataTypeName(t));
      DataTypeNameInjective(y, t);
    }
    DataTypeNameUpper(t);
    ToEnumName(t, DataTypes, DataTypeName);
  }

  lemma CompuMethodTypeRoundTrip(t: CompuMethodType)
    ensures ParseCompuMethodType(CompuMethodTypeName(t)) == Some(t)
  {
    forall y | y in CompuMethodTypes && EqualsIgnoreCase(CompuMethodTypeName(y), CompuMethodTypeName(t)) ensures y == t {
      CompuMethodTypeNameUpper(y);
      CompuMethodTypeNameUpper(t);
      EqualsIgnoreCaseUpper(CompuMethodTypeName(y), CompuMethodTypeName(t));
      CompuMethodTypeNameInjective(y, t);
    }
    CompuMethodTypeNameUpper(t);
    ToEnumName(t, CompuMethodTypes, CompuMethodTypeName);
  }

  /**
   * A type line that cleans to a name with a trailing blank, such as the
   * quoted `"MAP "`, still parses to the member.
   */
  lemma CalibrationTypePadded()
    ensures ParseCalibrationType("MAP ") == Some(MAP)
  {
    var padded, name := "MAP ", CalibrationTypeName(MAP);
    assert TrimStart(padded) == padded;
    assert padded[..|padded| - 1] == name;
    TrimTrimmed(name);
    assert Trim(padded) == name;
    ToEnumPadded(padded, CalibrationTypes, CalibrationTypeName);
    CalibrationTypeRoundTrip(MAP);
  }

  lemma DataTypeNameUpper(t: DataType)
    ensures NoLowercase(DataTypeName(t)) && IsTrimmed(DataTypeName(t))
  {
  }

  lemma DataTypeNameInjective(a: DataType, b: DataType)
    requires DataTypeName(a) == DataTypeName(b)
    ensures a == b
  {
  }

  lemma CalibrationTypeNameUpper(t: CalibrationType)
    ensures NoLowercase(CalibrationTypeName(t)) && IsTrimmed(CalibrationTypeName(t))
  {
  }

  lemma CalibrationTypeNameInjective(a: CalibrationType, b: CalibrationType)
    requires CalibrationTypeName(a) == CalibrationTypeName(b)
    ensures a == b
  {
  }

  lemma AxisDescriptionTypeNameUpper(t: AxisDescriptionType)
    ensures NoLowercase(AxisDescriptionTypeName(t)) && IsTrimmed(AxisDescriptionTypeName(t))
  {
  }

  lemma AxisDescriptionTypeNameInjective(a: AxisDescriptionType, b: AxisDescriptionType)
    requires AxisDescriptionTypeName(a) == AxisDescriptionTypeName(b)
    ensures a == b
  {
  }

  lemma CompuMethodTypeNameUpper(t: CompuMethodType)
    ensures NoLowercase(CompuMethodTypeName(t)) && IsTrimmed(CompuMethodTypeName(t))
  {
  }

  lemma CompuMethodTypeNameInjective(a: CompuMethodType, b: CompuMethodType)
    requires CompuMethodTypeName(a) == CompuMethodTypeName(b)
    ensures a == b
  {
  }
}
