# MorphoLibJ detector for TrackMate: settings and connectivity model

This project models the part of the TrackMate-MorphoLibJ plugin that belongs
to the plugin itself: the `Connectivity` enum, and the settings-map logic of
`MorphoLibJDetectorFactory`. Segmentation itself (extended minima, watershed,
labelling) runs inside MorphoLibJ and the host's label-image detector, so it
is not part of this model.

- `connectivity.dfy` (module `Connectivity`) models the two-valued
  connectivity: its neighbourhood size (6 or 26), its display name, and the
  total map `valueFor` from integers back to constants.
- `values.dfy` (module `Values`) holds the values a settings map can contain
  (boxed `Integer`, `Double`, `Boolean`), Java's 32-bit `int`, and the problems
  a failing helper appends to an error holder. It also holds two small classes
  for the mutable objects the factory receives: the caller's settings map and
  the XML element.
- `host.dfy` (module `Host`) gives the host helpers the factory calls
  (`checkParameter`, `checkOptionalParameter`, `checkMapKeys`,
  `writeAttribute`, `writeTargetChannel`, `read*Attribute`) the meaning their
  names and the factory's use of them state. Their code is not part of this
  model. It also defines the short-circuit chain `TransferAll`, which reads or
  writes a list of attributes and stops at the first failure.
- `factory.dfy` (module `Factory`) holds the factory's constants, the check
  list of `checkSettings`, the attribute list of `marshall`/`unmarshall`, and
  the parameter extraction of `getDetector`. It also holds the class
  `MorphoLibJDetectorFactory`, whose fields `img`, `settings` and
  `errorMessage` are updated in place as in the source. `checkSettings`,
  `marshall` and `unmarshall` are straight-line methods with the same running
  `ok` flag as the source. Each is proved against a specification function:
  `SettingsValid`/`SettingsProblems` for the non-short-circuit `&`, and
  `Marshalled`/`Unmarshalled` for the short-circuit `&&`.
- `factory_properties.dfy` (module `FactoryProperties`) proves what these
  promise. It covers the default settings, what validation accepts, and the
  save-and-restore round trip. It also proves the gap between validation and
  `getDetector`.

Modelling choices:
- A Java `int` is `Values.int32`. `channel - 1` in `getDetector` wraps around
  as Java's subtraction does (`Values.Sub32`).
- Doubles are carried as Dafny `real`. No arithmetic is done on them. The
  only conversion is `Number.doubleValue()` of a boxed `Integer`, which is
  exact.
- The host keys and default are taken to be
  `KEY_TARGET_CHANNEL = "TARGET_CHANNEL"`, `DEFAULT_TARGET_CHANNEL = 1`,
  `KEY_SIMPLIFY_CONTOURS = "SIMPLIFY_CONTOURS"` and
  `KEY_SMOOTHING_SCALE = "SMOOTHING_SCALE"`. Most proofs use only that the
  six keys are distinct. The default value 1 is also used, by
  `FactoryProperties.DefaultDetectorParameters`,
  `FactoryProperties.DefaultsSurviveSaveAndRestore` and the defaults lemmas:
  it is what makes the default slice index 0. The tracking host's `DetectorKeys` and
  `ThresholdDetectorFactory` are not part of this model.
- The error text is modelled as the list of problems appended to the error
  holder, one per failing helper call. `checkMapKeys` is modelled as
  reporting one problem that names the unexpected and the missing keys. An
  empty list stands for the initial `null` of `errorMessage`.
- An XML attribute is modelled as holding the value that was written into it.
  A read succeeds when the attribute exists and holds a value of the class
  the reader parses.

## Model

| member | source | states |
|---|---|---|
| `Connectivity.GetConnectivity` | src/main/java/fiji/plugin/trackmate/morpholibj/Connectivity.java:39-42 | the neighbourhood size is 6 or 26, and `valueFor` maps it back to the same constant (`valueFor(c.getConnectivity()) == c`) |
| `Connectivity.ValueFor` | src/main/java/fiji/plugin/trackmate/morpholibj/Connectivity.java:50-56 | `valueFor(n)` is `STRAIGHT` exactly when `n == 6`. It is defined for every integer, and every other integer gives `DIAGONAL`, including invalid ones such as 0, 4 or 8 |
| `Connectivity.ToString` | src/main/java/fiji/plugin/trackmate/morpholibj/Connectivity.java:44-48 | `STRAIGHT` is named "straight" and `DIAGONAL` is named "diagonal" |
| `Connectivity.GetConnectivityValues` | src/main/java/fiji/plugin/trackmate/morpholibj/Connectivity.java:26-27 | `STRAIGHT` has size 6 and `DIAGONAL` has size 26 |
| `Connectivity.ReverseRoundTrip` | src/main/java/fiji/plugin/trackmate/morpholibj/Connectivity.java:50-56 | `valueFor(n).getConnectivity() == n` if and only if `n` is 6 or 26 |
| `Connectivity.ToStringInjective` | src/main/java/fiji/plugin/trackmate/morpholibj/Connectivity.java:26-27 | the names "straight" and "diagonal" differ, so a name identifies its constant |
| `Values.Sub32` | src/main/java/fiji/plugin/trackmate/morpholibj/MorphoLibJDetectorFactory.java:138 | Java `int` subtraction: the exact difference when it fits in 32 bits, and otherwise that difference wrapped modulo 2^32 |
| `Host.CheckParameter` | src/main/java/fiji/plugin/trackmate/morpholibj/MorphoLibJDetectorFactory.java:237 | under the stated host assumption, a mandatory check passes exactly when the key is present with a value of the expected class |
| `Host.CheckOptionalParameter` | src/main/java/fiji/plugin/trackmate/morpholibj/MorphoLibJDetectorFactory.java:240 | under the stated host assumption, an optional check passes exactly when the key is absent or holds a value of the expected class |
| `Host.CheckMapKeys` | src/main/java/fiji/plugin/trackmate/morpholibj/MorphoLibJDetectorFactory.java:243-249 | under the stated host assumption, the key-set check passes exactly when every mandatory key is present and every key present is mandatory or optional; a failure names exactly the missing and the unexpected keys |
| `Host.Probe` | src/main/java/fiji/plugin/trackmate/morpholibj/MorphoLibJDetectorFactory.java:179-184 | a lookup passes exactly when the key holds a value of the expected class; it fails with "not found" for a missing key and "wrong class" otherwise |
| `Host.FirstAbsent` | src/main/java/fiji/plugin/trackmate/morpholibj/MorphoLibJDetectorFactory.java:179-184 | the index of the first attribute in the chain that is missing or of the wrong class: every attribute before it is present |
| `Host.TransferAllMeaning` | src/main/java/fiji/plugin/trackmate/morpholibj/MorphoLibJDetectorFactory.java:179-184 | a `&&` chain of writes or reads succeeds exactly when every attribute is present. It copies only the attributes before the first failure, attempts none after it, and reports exactly that failure's one problem |
| `Host.TransferStep` | src/main/java/fiji/plugin/trackmate/morpholibj/MorphoLibJDetectorFactory.java:179-184 | one link of a `&&` chain: a present parameter is copied and the chain goes on, and an absent one stops it with its problem |
| `Host.TransferAllPresent` | src/main/java/fiji/plugin/trackmate/morpholibj/MorphoLibJDetectorFactory.java:179-184 | a chain over parameters that are all present succeeds, reports nothing and copies every one of them |
| `Host.WriteAnd` | src/main/java/fiji/plugin/trackmate/morpholibj/MorphoLibJDetectorFactory.java:179-184 | `ok && writeAttribute(...)`: the new `ok` is the old `ok` and-ed with the parameter being present with its class. The element gains that one attribute exactly when the new `ok` holds and is unchanged otherwise. The error holder gains the write's problem only when the write ran and failed. The chain's outcome is unchanged by taking the step |
| `Host.ReadAnd` | src/main/java/fiji/plugin/trackmate/morpholibj/MorphoLibJDetectorFactory.java:198-203 | `ok && read...Attribute(...)`: the new `ok` is the old `ok` and-ed with the attribute being present with its class. The settings map gains that one entry exactly when the new `ok` holds and is unchanged otherwise. The error holder gains the read's problem only when the read ran and failed. The chain's outcome is unchanged by taking the step |
| `Host.WriteAttribute` | src/main/java/fiji/plugin/trackmate/morpholibj/MorphoLibJDetectorFactory.java:180 | under the stated host assumption, a write stores the value in the element when the key holds a value of the expected class, and leaves the element unchanged otherwise |
| `Host.ReadAttribute` | src/main/java/fiji/plugin/trackmate/morpholibj/MorphoLibJDetectorFactory.java:198 | under the stated host assumption, a read puts the attribute's value into the settings map when it exists and has the expected class, and leaves the map unchanged otherwise |
| `Factory.AccumulateChecksMeaning` | src/main/java/fiji/plugin/trackmate/morpholibj/MorphoLibJDetectorFactory.java:237-242 | the `&` chain reports nothing exactly when every check passes. It reports the problem of every failing check, so a failure never hides a later one. Every problem it reports is that of a failing check, and it reports no more problems than there are checks; `Factory.AccumulatePrefix` gives the exact order |
| `Factory.AccumulatePrefix` | src/main/java/fiji/plugin/trackmate/morpholibj/MorphoLibJDetectorFactory.java:237-242 | running the checks up to `k` reports what the checks before `k` report, followed by check `k`'s problem if it fails |
| `Factory.CheckAnd` | src/main/java/fiji/plugin/trackmate/morpholibj/MorphoLibJDetectorFactory.java:237-242 | one `ok = ok & check` step: the check's problem joins the error holder, and `ok` stays true exactly while nothing has been reported |
| `Factory.ValidIffNothingReported` | src/main/java/fiji/plugin/trackmate/morpholibj/MorphoLibJDetectorFactory.java:249-253 | `checkSettings` returns true exactly when its error holder stays empty |
| `Factory.EveryFailureReported` | src/main/java/fiji/plugin/trackmate/morpholibj/MorphoLibJDetectorFactory.java:237-249 | every failing parameter check and a failing key-set check all appear in the error message |
| `Factory.ExtractParameters` | src/main/java/fiji/plugin/trackmate/morpholibj/MorphoLibJDetectorFactory.java:138-157 | `getDetector` succeeds exactly when channel, tolerance, connectivity, remove-largest-object and simplify are present with the classes it casts to, and the smoothing scale is absent or a number. On success it passes slice index channel - 1, tolerance, `valueFor(conn)`, both flags, and the smoothing scale (-1 when absent). Every failure is a null unboxing of an absent key or a bad cast of a present one |
| `Factory.ExtractParametersWithDefault` | src/main/java/fiji/plugin/trackmate/morpholibj/MorphoLibJDetectorFactory.java:143-148 | corrected extraction: it agrees with `getDetector` when the flag is present, and reads an absent flag as false |
| `Factory.UnboxInteger` | src/main/java/fiji/plugin/trackmate/morpholibj/MorphoLibJDetectorFactory.java:142 | `(Integer) get(key)` unboxes exactly when the key holds an `Integer`, and yields that value |
| `Factory.UnboxDouble` | src/main/java/fiji/plugin/trackmate/morpholibj/MorphoLibJDetectorFactory.java:141 | `(double) get(key)` unboxes exactly when the key holds a `Double`, and yields that value |
| `Factory.UnboxBoolean` | src/main/java/fiji/plugin/trackmate/morpholibj/MorphoLibJDetectorFactory.java:143-144 | `(boolean) get(key)` unboxes exactly when the key holds a `Boolean`, and yields that value |
| `Factory.SmoothingScale` | src/main/java/fiji/plugin/trackmate/morpholibj/MorphoLibJDetectorFactory.java:145-148 | the smoothing scale is -1 when absent and the number's value when present (an `Integer` converted exactly); it fails only on a non-number |
| `Factory.MorphoLibJDetectorFactory.constructor` | src/main/java/fiji/plugin/trackmate/morpholibj/MorphoLibJDetectorFactory.java:293-296 | a new factory (as `copy` makes one) has no image, no settings and no error message |
| `Factory.MorphoLibJDetectorFactory.GetDefaultSettings` | src/main/java/fiji/plugin/trackmate/morpholibj/MorphoLibJDetectorFactory.java:220-230 | returns a fresh map holding exactly the default settings |
| `Factory.MorphoLibJDetectorFactory.CheckSettings` | src/main/java/fiji/plugin/trackmate/morpholibj/MorphoLibJDetectorFactory.java:233-254 | returns the conjunction of the six parameter checks and the key-set check. The error message is written only on false, and then lists the problems of all failing checks |
| `Factory.MorphoLibJDetectorFactory.SetTarget` | src/main/java/fiji/plugin/trackmate/morpholibj/MorphoLibJDetectorFactory.java:162-167 | stores the image and the caller's map itself (not a copy), and returns exactly `checkSettings` of that map |
| `Factory.MorphoLibJDetectorFactory.Marshall` | src/main/java/fiji/plugin/trackmate/morpholibj/MorphoLibJDetectorFactory.java:176-190 | writes the six attributes in order and stops at the first failed write. It returns true iff all six succeed, and sets the error message (that one problem) only on failure |
| `Factory.MorphoLibJDetectorFactory.Unmarshall` | src/main/java/fiji/plugin/trackmate/morpholibj/MorphoLibJDetectorFactory.java:193-211 | clears the caller's map and refills it with the attributes read before the first failed read. A failed read returns false, and the message is that read's problem, not `checkSettings`. Otherwise it returns `checkSettings` of the refilled map |
| `Factory.MorphoLibJDetectorFactory.GetDetector` | src/main/java/fiji/plugin/trackmate/morpholibj/MorphoLibJDetectorFactory.java:136-159 | gives the parameters extracted from the stored settings map, or fails when no settings were set |
| `FactoryProperties.KnownKeysAre` | src/main/java/fiji/plugin/trackmate/morpholibj/MorphoLibJDetectorFactory.java:243-248 | the mandatory keys (channel, tolerance, connectivity, simplify) and the optional keys (smoothing, remove-largest-object) make up the six known keys |
| `FactoryProperties.AttributeKeysAreKnownKeys` | src/main/java/fiji/plugin/trackmate/morpholibj/MorphoLibJDetectorFactory.java:198-203 | `marshall` and `unmarshall` handle exactly the known keys |
| `FactoryProperties.DefaultSettingsKeys` | src/main/java/fiji/plugin/trackmate/morpholibj/MorphoLibJDetectorFactory.java:222-228 | the default settings hold exactly the mandatory keys and the optional keys |
| `FactoryProperties.DefaultSettingsClasses` | src/main/java/fiji/plugin/trackmate/morpholibj/MorphoLibJDetectorFactory.java:223-228 | each default value has the class that is demanded for its key |
| `FactoryProperties.DefaultSettingsValid` | src/main/java/fiji/plugin/trackmate/morpholibj/MorphoLibJDetectorFactory.java:220-254 | the default settings pass `checkSettings` |
| `FactoryProperties.DefaultDetectorParameters` | src/main/java/fiji/plugin/trackmate/morpholibj/MorphoLibJDetectorFactory.java:73 | the defaults give slice index 0, tolerance 30.0, `DIAGONAL`, no largest-object removal, no simplification and smoothing scale -1 |
| `FactoryProperties.ParameterChecksPassMeans` | src/main/java/fiji/plugin/trackmate/morpholibj/MorphoLibJDetectorFactory.java:237-242 | the six parameter checks pass exactly when channel, tolerance, connectivity and simplify are present with their classes, and remove-largest-object and smoothing are absent or of their classes |
| `FactoryProperties.MapKeysPassMeans` | src/main/java/fiji/plugin/trackmate/morpholibj/MorphoLibJDetectorFactory.java:243-249 | the key-set check passes exactly when the four mandatory keys are present and every key is one of the six known keys |
| `FactoryProperties.SettingsValidMeans` | src/main/java/fiji/plugin/trackmate/morpholibj/MorphoLibJDetectorFactory.java:237-249 | `checkSettings` accepts exactly the maps with channel, tolerance, connectivity and simplify of the right classes. Remove-largest-object and smoothing may be absent, and no other key may appear |
| `FactoryProperties.EmptySettingsReports` | src/main/java/fiji/plugin/trackmate/morpholibj/MorphoLibJDetectorFactory.java:237-242 | on an empty map `checkSettings` reports all four missing mandatory keys, while `marshall` and `unmarshall` report only the target channel |
| `FactoryProperties.ValidatedExtractionGap` | src/main/java/fiji/plugin/trackmate/morpholibj/MorphoLibJDetectorFactory.java:143 | on a map that passed `checkSettings`, `getDetector` succeeds iff the remove-largest-object key is present. Without it the extraction fails with a null unboxing of that key, which validation treats as optional (lines 240, 248) |
| `FactoryProperties.PanelSettingsPassValidationButFailExtraction` | src/main/java/fiji/plugin/trackmate/morpholibj/MorphoLibJDetectorConfigurationPanel.java:307-324 | every four-key map the configuration panel builds passes `checkSettings` yet makes `getDetector` fail on the remove-largest-object flag |
| `FactoryProperties.ValidSettingsAlwaysExtract` | src/main/java/fiji/plugin/trackmate/morpholibj/MorphoLibJDetectorFactory.java:143-148 | with an absent flag read as false, every validated map yields detector parameters, the same ones wherever the extraction as written succeeds |
| `FactoryProperties.ChannelIndex` | src/main/java/fiji/plugin/trackmate/morpholibj/MorphoLibJDetectorFactory.java:138 | the 1-based channel becomes the 0-based index channel - 1 (non-negative for channels from 1), and the lowest `int` wraps to the highest |
| `FactoryProperties.MarshallAcceptsValidated` | src/main/java/fiji/plugin/trackmate/morpholibj/MorphoLibJDetectorFactory.java:179-184 | a validated map can be saved exactly when both optional keys are present, because `marshall` writes all six unconditionally |
| `FactoryProperties.MarshallWritesAll` | src/main/java/fiji/plugin/trackmate/morpholibj/MorphoLibJDetectorFactory.java:176-190 | saving a validated map with both optional keys succeeds and lays every entry over the element's attributes |
| `FactoryProperties.UnmarshallReadsBack` | src/main/java/fiji/plugin/trackmate/morpholibj/MorphoLibJDetectorFactory.java:193-211 | restoring from such an element reads back exactly that map, with no problem reported |
| `FactoryProperties.RestoreComplete` | src/main/java/fiji/plugin/trackmate/morpholibj/MorphoLibJDetectorFactory.java:193-211 | restoring from attributes that hold every saved key, with a map's entries written last, reads exactly that map back |
| `FactoryProperties.MarshallRoundTrip` | src/main/java/fiji/plugin/trackmate/morpholibj/MorphoLibJDetectorFactory.java:176-211 | saving a validated map with both optional keys and restoring it gives back the same map |
| `FactoryProperties.PanelSettingsCannotBeSaved` | src/main/java/fiji/plugin/trackmate/morpholibj/MorphoLibJDetectorFactory.java:182 | `marshall` of a panel map writes channel, tolerance and connectivity, then fails on the remove-largest-object flag and writes nothing more |
| `FactoryProperties.DefaultsSaveAndRestore` | src/main/java/fiji/plugin/trackmate/morpholibj/MorphoLibJDetectorFactory.java:176-230 | the default settings validate, are saved in full onto an empty element and are restored unchanged |
| `FactoryProperties.DefaultsSurviveSaveAndRestore` | src/main/java/fiji/plugin/trackmate/morpholibj/MorphoLibJDetectorFactory.java:162-230 | through the factory object: defaults marshalled, unmarshalled into a fresh map, set as target and extracted give the default detector parameters |

## Findings

| source | as written | input that shows it | evidently intended | confidence | as-written member | corrected member |
|---|---|---|---|---|---|---|
| src/main/java/fiji/plugin/trackmate/morpholibj/MorphoLibJDetectorFactory.java:143 | `getDetector` unboxes `REMOVE_LARGEST_OBJECT` unconditionally. `checkSettings` accepts maps without it (lines 240, 248). | the map the configuration panel builds (its `getSettings`, lines 307-324 of the panel), e.g. channel 1, tolerance 30.0, connectivity 26, simplify false: it passes `checkSettings`, then line 143 unboxes null | an absent flag is read as its default `false`, as line 146 reads an absent smoothing scale as -1 | medium; not executed | `FactoryProperties.PanelSettingsPassValidationButFailExtraction` | `FactoryProperties.ValidSettingsAlwaysExtract` |

`Factory.ExtractParametersWithDefault` is the corrected extraction.
`Factory.MorphoLibJDetectorFactory.GetDetector` still models line 143 as
written, because it is the model of the source. The same panel maps also
cannot be saved: `marshall` writes the optional keys unconditionally
(`FactoryProperties.PanelSettingsCannotBeSaved`). That conclusion rests on
the assumed behaviour of the host's `writeAttribute`, so it is not listed as
a finding.

## Left out

- The configuration panel (`MorphoLibJDetectorConfigurationPanel.java`) is Swing layout and widget glue. Its `getSettings` map is used only as a witness (`FactoryProperties.PanelSettings`).
- The detector (`MorphoLibJDetector.java`): `process` is a sequence of foreign, image-valued calls into MorphoLibJ and the host, plus wall-clock timing. `checkInput` is a single null check.
- Construction of the detector object. `getDetector` passes seven arguments, but the detector's only constructor takes five. The model stops at the extracted parameter tuple (`Factory.DetectorParameters`).
- `TMUtils.hyperSlice` is foreign. The model records its arguments (`Factory.Slice`), not the slice.
- The internals of `checkParameter`, `checkOptionalParameter`, `checkMapKeys`, `writeAttribute`, `writeTargetChannel` and `read*Attribute` are not visible. Only the meaning stated in `host.dfy` is modelled.
- Error message text. Each failing helper contributes one problem entry, not its wording.
- Host.CheckMapKeys: reports one problem naming both key sets. The host's own per-key messages and their order are not modelled.
- The textual form of XML attributes. A read is modelled as giving back the value written. The host's actual parsing, for example an integer attribute read as a double or lenient boolean parsing, is not modelled.
- Null values stored under a key, and values of classes other than `Integer`, `Double` and `Boolean`.
- Null arguments. The model's `Image`, `SettingsMap` and `Element` types are never null, so the following source behaviour is not modelled:
  - `setTarget(null, settings)` stores a null image (line 164 of the factory).
  - A null settings map throws a `NullPointerException` in `setTarget` (line 166) and in `marshall` (line 179).
  - A null settings map also throws in `unmarshall`, where line 195 clears it.
  - A null element throws on the first write or read.
- Floating-point behaviour. Doubles are reals, and NaN and infinities are not represented. No arithmetic is done on them.
- `getInfoText` (the HTML information text), `getIcon` (null) and `getDetectorConfigurationPanel` (GUI). `getKey`, `getName`, `has2Dsegmentation` and `has3Dsegmentation` are the constants `Factory.DetectorKey`, `Factory.Name`, `Factory.Has2DSegmentation` and `Factory.Has3DSegmentation`. `getErrorMessage` is a read of the `errorMessage` field.
- Factory.ExtractParameters: its contract says that a failure is a null unboxing of an absent key or a bad cast of a present key. It does not say which key fails first; the body follows the source's order.
- Concurrency. The factory is used from one thread in the source.
