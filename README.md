# A2L.Net engine core in Dafny

A2L.Net reads ASAM MCD-2 MC (A2L) description files. Its engine, `A2LEngine`, scans the
file text for `/begin KIND … /end KIND` blocks and builds a record from each one:

- compu-method value tables (`COMPU_VTAB`);
- compu methods (`COMPU_METHOD`);
- calibrations (`CHARACTERISTIC`), each with its axis descriptors (`AXIS_DESCR`);
- measurements (`MEASUREMENT`).

The builders fill the lists of an `A2LCollection`. The engine keeps a parallel list of names
per record kind, which the builders use to resolve references between records by name.
`LoadA2l` picks the builders to run from a component type. Each builder first runs the
builders it depends on, unless their loaded flags are already set.

The project has seven modules:

- `Wrappers`: `Option` and `Result`.
- `Helpers`: the text primitives of `A2LEngine/Helpers.cs`, plus the .NET string operations
  they rest on:
  - the block scanner `GetFirstInstanceTextBetween`;
  - the keyword lookup `GetStringAfter`;
  - `Cleanup`;
  - `ToEnum`;
  - `Trim`, `Split` and `int.Parse`.
- `Models`: the records and enumerations of `A2LEngine/Models.cs`. A C# reference that may
  be null is an `Option`. A C# exception is an `Error` value.
- `Decode`:
  - the engine's fields as one value, `State`;
  - name resolution (`IndexOf`, then indexing the record list);
  - the positional field layout each builder reads from one block body;
  - the generic foreach loop `DecodeEach`, which stops at the first exception.
- `Steps`: what each builder and `LoadA2l` does to the engine's fields, as total functions
  on `State`. An exception keeps the state changes made before it and ends the builder.
- `Properties`: lemmas about `Steps`:
  - which fields each component type may change;
  - which flags a successful load sets;
  - links that can never be made;
  - name lists aligned with record lists;
  - reference resolution by name;
  - what a second load does.
- `Engine`: the classes `A2LCollection` and `A2LEngine`. Their methods update the fields in
  place with `while` loops.
  - Each builder method is proved against its `Steps` function. The fields it leaves and
    the list it returns, or the exception it throws, are the ones the function gives for
    the fields it started from.
  - The COMPU_VTAB pair loop and the foreach loops are proved against `Decode` by loop
    invariants.

Where the code and the system's documented behaviour disagree, the model follows the code:

- **A repeated load is not idempotent.** A second `All` load does not leave the engine as it
  was: the compu-method step is not guarded by its flag, and neither is the calibration
  step. A second `All` load on an engine whose first load succeeded appends every
  compu-method name and every calibration name again. It rebuilds the same lists
  (`Properties.RepeatAll`).
- **A repeated table key throws.** A COMPU_VTAB key that appears twice makes
  `Dictionary.Add` throw, so the build fails (`Decode.CompuTableDuplicate`). The second
  value does not overwrite the first.
- **Some links are never made.** `MeasurementRef` and `RecordLayoutRef` are never appended,
  and `GetRecordLayouts` only sets its flag. So no axis descriptor ever links a measurement
  and no calibration ever links a record layout (`Properties.LoadKeepsNeverLinked`).
- **The axis end marker has a space.** It is `/end AXIS DESCR`, as written at
  A2LEngine/Core.cs:27, so `/end AXIS_DESCR` does not close an axis block.
- **A missing COMPU_TAB_REF looks up the empty name.** A compu method without the keyword
  resolves the empty string against the table names, so it links a table whose name is
  empty, if there is one.

## Model

| member | source | states |
|---|---|---|
| Helpers.TrimStartSpec | A2LEngine/Helpers.cs:37 | TrimStart drops exactly the maximal leading run of white space: the result is a suffix of the input, the dropped prefix is all white space, and the result is empty or starts with a non-space |
| Helpers.TrimEndSpec | A2LEngine/Helpers.cs:37 | TrimEnd drops exactly the maximal trailing run of white space: the result is a prefix, the dropped suffix is all white space, and the result is empty or ends with a non-space |
| Helpers.TrimSpec | A2LEngine/Helpers.cs:37 | Trim's result is the input's substring between a leading and a trailing run of white space, and has neither leading nor trailing white space |
| Helpers.TrimTrimmed | A2LEngine/Helpers.cs:30 | trimming text that has no leading or trailing white space gives it back unchanged |
| Helpers.TrimChars | A2LEngine/Helpers.cs:37 | every character of a trimmed string occurs in the input |
| Helpers.TrimKeepsOut | A2LEngine/Helpers.cs:37 | a character absent from the input is absent from its trimmed form |
| Helpers.RemoveQuotesQuoteFree | A2LEngine/Helpers.cs:37 | Replace("\"", "") leaves a quote-free string unchanged |
| Helpers.RemoveQuotesSpec | A2LEngine/Helpers.cs:37 | Replace("\"", "") leaves no quote, is no longer than the input, keeps every other character with its multiplicity, and keeps them in order: cutting the input anywhere, the result is the result for the part before the cut followed by the result for the part after it |
| Helpers.RemoveQuotesAppend | A2LEngine/Helpers.cs:37 | Replace on a concatenation is Replace on each part, concatenated |
| Helpers.CleanupSpec | A2LEngine/Helpers.cs:35-38 | Cleanup is trimming and then removing every quote: no quote in the result, length at most the input's, the characters those of the trimmed input minus the quotes |
| Helpers.Cleanup | A2LEngine/Helpers.cs:35-38 | Cleanup leaves no quote and is no longer than its input; text with no quote and no white space at either end comes back unchanged |
| Helpers.CleanupIdempotentQuoteFree | A2LEngine/Helpers.cs:35-38 | on quote-free input, Cleanup applied twice equals Cleanup applied once |
| Helpers.CleanupNotIdempotent | A2LEngine/Helpers.cs:37 | Cleanup is not idempotent in general: a quoted text starting with a space keeps the space on the first pass and loses it on the second |
| Helpers.Split | A2LEngine/Core.cs:61 | String.Split gives at least one piece, and no piece holds the separator |
| Helpers.JoinSplit | A2LEngine/Core.cs:61 | joining the pieces of Split with the separator gives the input back, so no character is lost |
| Helpers.FirstBegin | A2LEngine/Helpers.cs:12 | the least position at or after the start where an occurrence of the begin marker ends (the lookbehind), or none |
| Helpers.FirstEnd | A2LEngine/Helpers.cs:12 | the least position at or after the start where an occurrence of the end marker starts (the lookahead), or none |
| Helpers.Spans | A2LEngine/Helpers.cs:17-22 | every match lies within the source, at or after the scan's start |
| Helpers.SpansAreBlocks | A2LEngine/Helpers.cs:12-22 | each body yielded starts where a begin marker ends, stops where an end marker starts, and no end marker starts inside it: the lazy match reaches only the nearest end marker |
| Helpers.SpansInOrder | A2LEngine/Helpers.cs:17-22 | bodies are yielded left to right without overlap, and no begin marker is skipped before the first body or between two bodies |
| Helpers.SpansComplete | A2LEngine/Helpers.cs:17-22 | after the last body no begin marker is followed by an end marker, so a begin marker with no later end marker yields nothing and no block is missed |
| Helpers.ImmediatelyClosed | A2LEngine/Helpers.cs:17-22 | a begin marker directly followed by an end marker yields the empty body |
| Helpers.GetFirstInstanceTextBetween | A2LEngine/Helpers.cs:10-23 | one text per match of the scanner, each the source's text between a begin marker and the nearest end marker after it |
| Helpers.SpansIgnoreCase | A2LEngine/Helpers.cs:17-18 | the markers are matched ignoring case: a source that differs only in the case of its letters yields blocks at exactly the same places |
| Helpers.FirstKeyword | A2LEngine/Helpers.cs:27-29 | the end of the first occurrence of the keyword, ignoring case, with no earlier occurrence; or none when it does not occur |
| Helpers.FirstNewline | A2LEngine/Helpers.cs:27 | the first line feed at or after a position, or none |
| Helpers.GetStringAfter | A2LEngine/Helpers.cs:25-31 | the result holds no line feed and has neither leading nor trailing white space |
| Helpers.GetStringAfterAbsent | A2LEngine/Helpers.cs:25-31 | the result is "" when the keyword does not occur |
| Helpers.GetStringAfterNoLineBreak | A2LEngine/Helpers.cs:25-31 | the result is "" when no line feed follows the first occurrence of the keyword |
| Helpers.GetStringAfterLine | A2LEngine/Helpers.cs:25-31 | otherwise the result is the trimmed text from the end of the first occurrence up to the next line feed |
| Helpers.ParseInt32 | A2LEngine/Core.cs:179 | int.Parse yields only 32-bit values; decimal text, with or without a minus or plus sign, reads as its value when that fits in 32 bits and fails (OverflowException) when it does not; text that is not such decimal text once trimmed fails (FormatException) |
| Helpers.ParseInt32Padded | A2LEngine/Core.cs:179 | white space around the number does not change what int.Parse reads |
| Helpers.ParseFormatInt | A2LEngine/Core.cs:179 | int.Parse reads every 32-bit integer back from its decimal text, and fails on the decimal text of every integer outside that range |
| Helpers.ToEnum | A2LEngine/Helpers.cs:40-43 | Enum.Parse with ignoreCase, which allows blank space before and after the name, returns a member whose name equals the trimmed input ignoring case, and fails only when no member's name does |
| Helpers.ToEnumPadded | A2LEngine/Helpers.cs:40-43 | blank space around the input does not change what it parses to |
| Helpers.ToEnumName | A2LEngine/Helpers.cs:40-43 | when no other member's name equals a member's name ignoring case, parsing that name (an identifier, so without blank space at its ends) returns that member |
| Models.CalibrationTypeRoundTrip | A2LEngine/Models.cs:134-144 | parsing the name of any calibration type gives that type back |
| Models.CalibrationTypePadded | A2LEngine/Core.cs:93 | a CHARACTERISTIC type line that cleans to `MAP ` (from a quoted `"MAP "`, since Cleanup trims before it removes quotes) still parses to MAP |
| Models.AxisDescriptionTypeRoundTrip | A2LEngine/Models.cs:146-153 | parsing the name of any axis type gives that type back |
| Models.DataTypeRoundTrip | A2LEngine/Models.cs:155-167 | parsing the name of any data type gives that type back |
| Models.CompuMethodTypeRoundTrip | A2LEngine/Models.cs:169-178 | parsing the name of any conversion type gives that type back |
| Decode.IndexOf | A2LEngine/Core.cs:65 | List.IndexOf is -1 exactly when the name is absent, and otherwise the first position holding it |
| Decode.Resolve | A2LEngine/Core.cs:65-66 | a reference is unset exactly when its name is not registered; a link is the record at the first position whose name matches; the lookup throws exactly when the name is registered but the record list is null or too short |
| Decode.Wrap32 | A2LEngine/Core.cs:181 | unchecked 32-bit addition stays in the 32-bit range, differs from the true sum by a multiple of 2^32 (it wraps), and is exact when the true sum fits |
| Decode.PairCount | A2LEngine/Core.cs:181 | the pair loop runs N times for 0 <= N <= 2^31-5 and not at all otherwise, since NumberOfPairs + 4 wraps |
| Decode.PairsStep | A2LEngine/Core.cs:181-185 | one more pass of the pair loop is Dictionary.Add of the next pair: it throws on a bad line or a key already present and adds the pair otherwise |
| Decode.PairsStuck | A2LEngine/Core.cs:181-185 | once a pass throws, further passes change nothing: the exception ends the loop |
| Decode.Pairs | A2LEngine/Core.cs:181-185 | after k passes of the pair loop that throw nothing the dictionary has k entries, the pair lines are all there, and each pair line's key maps to its value |
| Decode.AddPairsMeaning | A2LEngine/Core.cs:184 | Dictionary.Add of every pair without an exception gives one entry per pair, each pair's key mapped to its value |
| Decode.AddPairsKeys | A2LEngine/Core.cs:184 | the dictionary's keys are exactly the keys of the pairs added |
| Decode.AddPairsEntry | A2LEngine/Core.cs:184 | every pair added is the dictionary's entry for its key |
| Decode.AddPairsSize | A2LEngine/Core.cs:184 | the dictionary has one entry per pair added |
| Decode.AddPairsDuplicate | A2LEngine/Core.cs:184 | two pairs with the same key make Dictionary.Add throw |
| Decode.AddPairsFailure | A2LEngine/Core.cs:183-184 | a pair line that does not parse makes the loop throw |
| Decode.AddPairsComplete | A2LEngine/Core.cs:184 | pair lines that all parse, with distinct keys, never throw |
| Decode.PairsShort | A2LEngine/Core.cs:181-183 | a block with fewer than 4 + N lines throws |
| Decode.CompuTableLayout | A2LEngine/Core.cs:175-185 | a decoded table's name, description, kind and pair count come from lines 0 to 3, and its values from the pair loop |
| Decode.DecodeCompuTable | A2LEngine/Core.cs:174-185 | a COMPU_VTAB block decodes exactly when its four header lines are there, its kind and N parse, and the pair loop throws nothing |
| Decode.CompuTableComplete | A2LEngine/Core.cs:179-185 | a block whose header parses and whose pair lines all parse, with distinct keys, decodes |
| Decode.CompuTableValues | A2LEngine/Core.cs:179-185 | a decoded table with 0 <= N <= 2^31-5 has exactly N values; each maps the integer of a pair line's first token to its second token, or to "" when the line has one token |
| Decode.CompuTableWrapped | A2LEngine/Core.cs:181 | a decoded table whose N is negative or above 2^31-5 has no values: the unchecked `N + 4` wraps, the loop bound is at most 4 and no pass runs |
| Decode.CompuTableShort | A2LEngine/Core.cs:179-185 | a table declaring 0 < N <= 2^31-5 pairs with fewer than N + 4 lines fails to decode (above that bound `N + 4` wraps and no pair line is read) |
| Decode.CompuTableDuplicate | A2LEngine/Core.cs:184 | a table whose pair lines repeat a key fails to decode |
| Decode.DecodeCompuMethod | A2LEngine/Core.cs:149-161 | a decoded compu method's five fields come from lines 0 to 4; it has coefficients exactly when the text after COEFFS splits into more than one token, and then those tokens; its table link resolves the COMPU_TAB_REF name against the table names only; it decodes exactly when lines 0 to 4 are there, the kind parses and the lookup does not throw |
| Decode.CompuMethodWith | A2LEngine/Core.cs:149-161 | the same layout and the same condition for decoding, given the outcome of the table lookup as a parameter |
| Decode.CompuMethodUnresolved | A2LEngine/Core.cs:159-161 | a COMPU_TAB_REF that names no table leaves the link unset and the block still decodes |
| Decode.NoCoeffsNoCoefficients | A2LEngine/Core.cs:156-158 | a compu method with no COEFFS keyword gets no coefficients |
| Decode.NoCoeffsTokens | A2LEngine/Core.cs:156 | with no COEFFS keyword the split gives exactly one empty token |
| Decode.DecodeAxisDescriptor | A2LEngine/Core.cs:118-130 | a decoded axis's kind, point count, minimum and maximum come from lines 0, 3, 4 and 5; its measurement and compu-method links resolve lines 1 and 2; it has a maximum gradient exactly when the text after MAX_GRAD is not empty; its display format is never set; it decodes exactly when lines 0 to 5 are there, the kind and point count parse and neither lookup throws |
| Decode.AxisDescriptorWith | A2LEngine/Core.cs:118-130 | the same layout and the same condition for decoding, given the outcomes of the two lookups as parameters |
| Decode.AxisDescriptorUnresolved | A2LEngine/Core.cs:121-124 | unregistered names on lines 1 and 2 leave both links unset and the block still decodes |
| Decode.AxisDescriptorsOf | A2LEngine/Core.cs:113-135 | a calibration's axes are one descriptor per AXIS_DESCR block of its body, in order, and reading them throws exactly when some block fails to decode |
| Decode.DecodeEach | A2LEngine/Core.cs:147-164 | a builder's foreach loop: the records decoded from the first blocks, in order, all of them unless a block fails, in which case the failing block is the next one and its exception is reported |
| Decode.DecodeEachUnique | A2LEngine/Core.cs:147-164 | any list and exception with the properties of DecodeEach's contract are DecodeEach's outcome, so that contract fixes the loop's outcome |
| Decode.DecodeEachAgree | A2LEngine/Core.cs:147-164 | two decoders that agree on every block give the same loop outcome |
| Decode.DecodeCalibrationFields | A2LEngine/Core.cs:89-101 | a calibration's fixed fields come from lines 0 to 8; its record-layout and compu-method links resolve lines 4 and 6; the axes, bit mask, function references and display identifier are not set; the fields decode exactly when lines 0 to 8 are there, the kind parses and neither lookup throws |
| Decode.CalibrationFieldsWith | A2LEngine/Core.cs:89-101 | the same layout and the same condition for decoding, given the outcomes of the two lookups as parameters |
| Decode.CalibrationUnresolved | A2LEngine/Core.cs:95-99 | unregistered record-layout and compu-method names leave both links unset and the fixed fields still decode |
| Decode.DecodeCalibration | A2LEngine/Core.cs:89-105 | a calibration has axis descriptors exactly when its kind is CURVE, MAP, CUBOID, CUBE_4 or CUBE_5, and they are those extracted from its own body; everything else is the fixed fields; it decodes exactly when the fixed fields do and, for those kinds, every axis block does |
| Decode.DecodeMeasurement | A2LEngine/Core.cs:60-73 | a measurement's fields come from lines 0 to 7, the name trimmed only; its compu-method link resolves line 3; its address and display identifier are the cleaned text after their keywords; function references are not set; it decodes exactly when lines 0 to 7 are there, the data type parses and the lookup does not throw |
| Decode.MeasurementWith | A2LEngine/Core.cs:60-73 | the same layout and the same condition for decoding, given the outcome of the lookup as a parameter |
| Decode.MeasurementUnresolved | A2LEngine/Core.cs:65-66 | an unregistered compu-method name leaves the link unset and the block still decodes |
| Steps.LoopDecodes | A2LEngine/Core.cs:58-75 | the loop's result is one record per block, in order, or the exception of a block all of whose predecessors decode |
| Steps.LoopRegisters | A2LEngine/Core.cs:147-164 | the name list after the loop is the old one followed by the name of each record decoded, in block order: all of them on success, those before the failing block otherwise |
| Steps.CompuMethodVTabs | A2LEngine/Core.cs:169-191 | GetCompuMethodVTabs changes only the table names and its flag, and sets the flag exactly when no block throws |
| Steps.CompuMethodVTabsRegisters | A2LEngine/Core.cs:172-188 | GetCompuMethodVTabs registers each table it reads, in order |
| Steps.CompuMethodsLoop | A2LEngine/Core.cs:146-166 | the loop of GetCompuMethods changes only the compu-method names and its flag, and sets the flag exactly when no block throws |
| Steps.CompuMethodsLoopRegisters | A2LEngine/Core.cs:147-164 | the loop of GetCompuMethods registers each compu method it reads, in order |
| Steps.CompuMethodsOf | A2LEngine/Core.cs:142-167 | GetCompuMethods changes only the tables and the compu-method names with their flags, leaves tables already loaded alone, and on success returns one compu method per block with both flags set |
| Steps.RecordLayouts | A2LEngine/Core.cs:137-140 | GetRecordLayouts sets its flag and reads no record layout: the layout list and names stay as they were |
| Steps.CalibrationsReadyFacts | A2LEngine/Core.cs:82-85 | the prerequisites of GetCalibrations set the record-layout flag, change neither the calibrations nor the measurements, leave compu methods already loaded alone, and on success leave compu methods loaded |
| Steps.CalibrationsLoop | A2LEngine/Core.cs:86-110 | the loop of GetCalibrations changes only the calibration names and its flag, and sets the flag exactly when no block throws |
| Steps.CalibrationsLoopRegisters | A2LEngine/Core.cs:87-108 | the loop of GetCalibrations registers each calibration it reads, in order |
| Steps.CalibrationsOf | A2LEngine/Core.cs:80-111 | GetCalibrations always sets the record-layout flag, leaves compu methods already loaded alone, assigns neither the calibrations nor the measurements, and on success returns one calibration per block with the compu-method and calibration flags set |
| Steps.MeasurementsLoop | A2LEngine/Core.cs:57-77 | the loop of GetMeasurements changes only its flag, and sets it exactly when no block throws |
| Steps.MeasurementsLoopDecodes | A2LEngine/Core.cs:58-75 | the loop of GetMeasurements returns one measurement per block, or the first failing block's exception |
| Steps.MeasurementsOf | A2LEngine/Core.cs:53-78 | GetMeasurements leaves compu methods already loaded alone, changes neither the calibrations nor its own list, and on success returns one measurement per block with the compu-method and measurement flags set |
| Steps.Load | A2LEngine/Core.cs:31-49 | a load that throws nothing has the compu methods loaded, the compu-method list for CompuMethods, the calibrations for Calibrations, Map, Curve and All, and the measurements for Measurement and All |
| Steps.LoadEverything | A2LEngine/Core.cs:33-46 | the All fall-through, when nothing throws, assigns and flags the compu methods, the calibrations and the measurements |
| Properties.LoadCompuMethodsEffect | A2LEngine/Core.cs:142-167 | loading compu methods changes only the tables, the compu methods, their names and flags; it keeps set flags and consistency; tables already loaded are not rebuilt; on success the list is assigned and both flags are set; on failure the list and its flag keep their old values |
| Properties.LoadCalibrationsEffect | A2LEngine/Core.cs:80-111 | loading calibrations leaves the measurements and the unbuilt kinds alone; it keeps set flags and consistency and always sets the record-layout flag; compu methods already loaded are not rebuilt; on success the list is assigned and flagged; on failure it keeps its old value |
| Properties.LoadMeasurementsEffect | A2LEngine/Core.cs:53-78 | loading measurements leaves the calibrations and the unbuilt kinds alone; it keeps set flags and consistency; compu methods already loaded are not rebuilt; on success the list is assigned and flagged; on failure it keeps its old value |
| Properties.InitialConsistent | A2LEngine/Core.cs:11-16 | a new engine has no flag set without its list |
| Properties.LoadAllEffect | A2LEngine/Core.cs:33-46 | loading everything keeps set flags, consistency and the unbuilt kinds; on success every list is assigned and flagged; on failure the measurements keep their old value |
| Properties.LoadScope | A2LEngine/Core.cs:31-49 | each component type changes only what it builds and its prerequisites: CompuMethods only the compu part; Calibrations, Map and Curve not the measurements; Measurement not the calibrations |
| Properties.LoadSuccessFlags | A2LEngine/Core.cs:31-49 | after a successful load from a consistent state the tables and compu methods are loaded, the calibrations for Calibrations, Map, Curve and All, the measurements for Measurement and All |
| Properties.LoadFailureKeepsList | A2LEngine/Core.cs:35-45 | a failed load leaves the list that its component type assigns last, and that list's flag, as they were |
| Properties.AxesUnlinked | A2LEngine/Core.cs:121-122 | with no measurement names registered, no axis descriptor links a measurement |
| Properties.AxisUnlinked | A2LEngine/Core.cs:121-122 | the same for one axis block |
| Properties.CalibrationUnlinked | A2LEngine/Core.cs:95-96 | with no measurement or record-layout names, a calibration links no record layout and none of its axes links a measurement |
| Properties.LoadCalibrationsUnlinked | A2LEngine/Core.cs:95-104 | the same for every calibration a load builds |
| Properties.CalibrationsLoopUnlinked | A2LEngine/Core.cs:87-108 | the loop of GetCalibrations builds no linked calibration while no measurement or record-layout name is registered |
| Properties.LoadKeepsNeverLinked | A2LEngine/Core.cs:137-140 | a new engine has no measurement or record-layout names and no linked calibration, and every load keeps it so |
| Properties.ResolveByName | A2LEngine/Core.cs:65-66 | against aligned names, a reference is unset exactly when no record has its name, and otherwise links the first record with that name |
| Properties.VTabsFromEmpty | A2LEngine/Core.cs:186-187 | a table load with no table names leaves the names aligned with the tables |
| Properties.CompuFromEmpty | A2LEngine/Core.cs:162-163 | a compu-method load with no compu-method names leaves both the tables and the compu methods aligned with their names |
| Properties.CalibrationsFromEmpty | A2LEngine/Core.cs:106-107 | a calibration load with no calibration names leaves the calibrations aligned with their names |
| Properties.FreshLoadAligned | A2LEngine/Core.cs:28-51 | after a successful first load of any component type, every name list that was built holds the names of its records, position by position |
| Properties.FreshMeasurements | A2LEngine/Core.cs:53-56 | the same for a first measurement load |
| Properties.FreshCalibrations | A2LEngine/Core.cs:80-85 | the same for a first calibration load |
| Properties.LinkByName | A2LEngine/Core.cs:98-99 | against aligned names, a link is unset exactly when no record has the name, and a link made is a record of the list with that name |
| Properties.CalibrationLinksByName | A2LEngine/Core.cs:98-99 | each calibration built links the compu method named on its line 6 when there is one, and no compu method otherwise |
| Properties.MeasurementLink | A2LEngine/Core.cs:65-66 | a measurement links the compu method named on its line 3 when there is one, and no compu method otherwise |
| Properties.MeasurementLinksByName | A2LEngine/Core.cs:65-66 | the same for each measurement the loop builds |
| Properties.CompuMethodLinksByName | A2LEngine/Core.cs:159-161 | each compu method built links the table named after COMPU_TAB_REF when there is one, and no table otherwise |
| Properties.ResolveTwice | A2LEngine/Core.cs:65-66 | a name list registered twice resolves every name as the list registered once |
| Properties.CompuMethodAgree | A2LEngine/Core.cs:159-161 | a compu method decodes the same on two engines whose table lookups agree |
| Properties.CompuMethodsLoopAgree | A2LEngine/Core.cs:146-164 | the loop of GetCompuMethods returns the same on two engines that resolve tables alike |
| Properties.AxisDescriptorsAgree | A2LEngine/Core.cs:113-135 | GetAxisDescriptors returns the same on two engines that resolve measurements and compu methods alike |
| Properties.CalibrationAgree | A2LEngine/Core.cs:89-105 | a calibration decodes the same on two engines that resolve all its references alike |
| Properties.CalibrationsLoopAgree | A2LEngine/Core.cs:86-108 | the loop of GetCalibrations returns the same on two such engines |
| Properties.MeasurementsLoopAgree | A2LEngine/Core.cs:57-75 | the loop of GetMeasurements returns the same on two engines that resolve compu methods alike |
| Properties.CompuMethodsAgain | A2LEngine/Core.cs:142-167 | reloading compu methods with the tables loaded rebuilds the same list and appends its names again |
| Properties.CalibrationsAgain | A2LEngine/Core.cs:80-111 | reloading calibrations with the prerequisites loaded rebuilds the same list and appends its names again |
| Properties.MeasurementsAgain | A2LEngine/Core.cs:53-78 | reloading measurements on an engine that resolves compu methods as the first one did rebuilds the same list |
| Properties.RepeatCompuMethods | A2LEngine/Core.cs:35 | the compu-method step of a second All load doubles the compu-method names and changes nothing else |
| Properties.RepeatCalibrations | A2LEngine/Core.cs:41 | the calibration step of a second All load doubles the calibration names and changes nothing else |
| Properties.RepeatMeasurements | A2LEngine/Core.cs:45 | the measurement step of a second All load changes nothing |
| Properties.RepeatFrom | A2LEngine/Core.cs:33-46 | a second All load, on the state a first successful one left, doubles exactly the compu-method and calibration names |
| Properties.RepeatEverything | A2LEngine/Core.cs:33-46 | the same, starting from a new engine |
| Properties.RepeatAll | A2LEngine/Core.cs:31-49 | LoadA2l(All) twice on a new engine: the second load succeeds, rebuilds the same lists and registers every compu-method and calibration name a second time, so it is not idempotent |
| Engine.A2LCollection.constructor | A2LEngine/Models.cs:7-23 | a new collection has every list null and no flag set |
| Engine.ReadCompuTable | A2LEngine/Core.cs:174-185 | reading one COMPU_VTAB block, header lines and then the pair loop, gives DecodeCompuTable's outcome |
| Engine.ReadPairs | A2LEngine/Core.cs:180-185 | the for loop filling the dictionary gives the outcome of its passes in 32-bit arithmetic, Pairs(lines, PairCount(N)) |
| Engine.ReadCompuTables | A2LEngine/Core.cs:172-188 | the foreach over the COMPU_VTAB blocks gives DecodeEach's tables and exception |
| Engine.ReadEach | A2LEngine/Core.cs:147-164 | a foreach over blocks gives DecodeEach's records and exception |
| Engine.ReadAxisDescriptors | A2LEngine/Core.cs:115-134 | the foreach over a body's AXIS_DESCR blocks gives AxisDescriptorsOf |
| Engine.ReadCalibration | A2LEngine/Core.cs:89-105 | reading one CHARACTERISTIC block gives DecodeCalibration's outcome |
| Engine.ReadCalibrations | A2LEngine/Core.cs:87-108 | the foreach over the CHARACTERISTIC blocks gives DecodeEach's calibrations and exception |
| Engine.ReadVTabBlocks | A2LEngine/Core.cs:171-190 | the loop's tables and exception, with their names appended, are CompuMethodVTabs' outcome |
| Engine.ReadCompuMethodBlocks | A2LEngine/Core.cs:146-166 | the loop's compu methods and exception, with their names appended, are CompuMethodsLoop's outcome |
| Engine.ReadCalibrationBlocks | A2LEngine/Core.cs:86-110 | the loop's calibrations and exception, with their names appended, are CalibrationsLoop's outcome |
| Engine.ReadMeasurementBlocks | A2LEngine/Core.cs:57-77 | the loop's measurements and exception are MeasurementsLoop's outcome |
| Engine.A2LEngine.constructor | A2LEngine/Core.cs:11-16 | a new engine has a new collection, empty name lists, null lists and no flag set |
| Engine.A2LEngine.GetCompuMethodVTabs | A2LEngine/Core.cs:169-191 | the fields GetCompuMethodVTabs leaves, and its tables or exception, are CompuMethodVTabs' |
| Engine.A2LEngine.AssignCompuMethodVTabs | A2LEngine/Core.cs:145 | assigning the tables GetCompuMethodVTabs returns leaves LoadCompuMethodVTabs' fields |
| Engine.A2LEngine.RunCompuMethodsLoop | A2LEngine/Core.cs:146-166 | the loop of GetCompuMethods leaves CompuMethodsLoop's fields and outcome |
| Engine.A2LEngine.GetCompuMethods | A2LEngine/Core.cs:142-167 | GetCompuMethods builds the tables only when their flag is clear, then its loop: CompuMethodsOf's fields and outcome |
| Engine.A2LEngine.AssignCompuMethods | A2LEngine/Core.cs:35 | assigning the compu methods GetCompuMethods returns leaves LoadCompuMethods' fields |
| Engine.A2LEngine.GetRecordLayouts | A2LEngine/Core.cs:137-140 | GetRecordLayouts only sets its flag |
| Engine.A2LEngine.GetAxisDescriptors | A2LEngine/Core.cs:113-135 | GetAxisDescriptors changes nothing and returns AxisDescriptorsOf for the engine's fields |
| Engine.A2LEngine.RunCalibrationsLoop | A2LEngine/Core.cs:86-110 | the loop of GetCalibrations leaves CalibrationsLoop's fields and outcome |
| Engine.A2LEngine.GetCalibrations | A2LEngine/Core.cs:80-111 | GetCalibrations runs the record-layout stub and the compu-method build only when their flags are clear, then its loop: CalibrationsOf's fields and outcome |
| Engine.A2LEngine.AssignCalibrations | A2LEngine/Core.cs:41 | assigning the calibrations GetCalibrations returns leaves LoadCalibrations' fields |
| Engine.A2LEngine.RunMeasurementsLoop | A2LEngine/Core.cs:57-77 | the loop of GetMeasurements leaves MeasurementsLoop's fields and outcome |
| Engine.A2LEngine.GetMeasurements | A2LEngine/Core.cs:53-78 | GetMeasurements builds compu methods only when their flag is clear, then its loop: MeasurementsOf's fields and outcome |
| Engine.A2LEngine.AssignMeasurements | A2LEngine/Core.cs:45 | assigning the measurements GetMeasurements returns leaves LoadMeasurements' fields |
| Engine.A2LEngine.AssignEverything | A2LEngine/Core.cs:33-46 | the fall-through of the All case, compu methods then calibrations then measurements, stopping at the first exception, leaves LoadEverything's fields |
| Engine.A2LEngine.LoadA2l | A2LEngine/Core.cs:28-51 | LoadA2l, whose component type is All unless given, leaves the fields Load gives for the component type; it returns the collection exactly when no builder throws, and otherwise the exception |

## Left out

- File reading: `LoadA2l` takes the file's text instead of a path. `File.ReadAllText` and its UTF-8 decoding are not modelled.
- async/await: every method is synchronous, since nothing awaits real I/O.
- Floating-point fields (resolution, accuracy, minimum, maximum, MaxDifference, MAX_GRAD, the coefficients) keep the cleaned token text that `double.Parse` would read. A token `double.Parse` rejects does not throw in the model.
- The regex engine: the scanner is modelled directly from the pattern it builds, with literal markers, a white-space gap and ASCII case folding. The unused `customRegex` parameter is not modelled.
- `Enum.Parse` also accepts numeric and comma-separated names; the model accepts member names only.
- White space and case are those of ASCII. .NET's Unicode white space and case folding are not modelled.
- `Function`, `RecordLayout` and the record-layout attributes are placeholders that no builder fills. The same goes for `Descriptor`, `Functions`, `BitMask`, the axis `DisplayFormat` and `FunctionReference`.
- The name lists are appended when a builder's loop ends, normally or by an exception, instead of once per pass. The list is the same, since no pass reads the list of its own kind.
- Engine.A2LEngine.GetCalibrations: its loop reads a calibration's axes with the module-level `ReadAxisDescriptors` on the engine's fields, not through the class method `GetAxisDescriptors`. Both give `AxisDescriptorsOf` on the same fields.
- `CalibrationRef` is appended but never read.
- The `default: break` of the switch in `LoadA2l` is not modelled. It is reached only by a `ComponentType` value outside the six named members, which C# allows through a cast. `ComponentType` here has exactly the six members.
