/**
 * The MorphoLibJ detector factory: its default settings, the validation of a
 * settings map, saving settings to and restoring them from an XML element,
 * and the parameters it extracts from the settings to build a detector.
 */
module Factory {
  import opened Wrappers
  import opened Values
  import opened Host
  import Connectivity

  const KeyTolerance := "TOLERANCE"
  const DefaultTolerance: real := 30.0
  const KeyConnectivity := "CONNECTIVITY"
  const DefaultConnectivity: int32 := Connectivity.GetConnectivity(Connectivity.Diagonal) as int32
  const KeyRemoveLargestObject := "REMOVE_LARGEST_OBJECT"
  const DefaultRemoveLargestObject := false
  const DefaultSimplifyContours := false
  const DefaultSmoothingScale: real := -1.0

  /* What `getKey`, `getName`, `has2Dsegmentation` and `has3Dsegmentation` return. */
  const DetectorKey := "MORPHOLIBJ_DETECTOR"
  const Name := "MorphoLibJ detector"
  const Has2DSegmentation := true
  const Has3DSegmentation := true

  /*
   * Settings validation
   */

  /** One parameter check of `checkSettings`: a mandatory or an optional key. */
  datatype ParameterCheck = Mandatory(param: Param) | Optional(param: Param)

  /** The parameter checks of `checkSettings`, in the order it runs them. */
  const ParameterChecks: seq<ParameterCheck> := [
    Mandatory(Param(KeyTargetChannel, IntegerClass)),
    Mandatory(Param(KeyTolerance, DoubleClass)),
    Mandatory(Param(KeyConnectivity, IntegerClass)),
    Optional(Param(KeyRemoveLargestObject, BooleanClass)),
    Mandatory(Param(KeySimplifyContours, BooleanClass)),
    Optional(Param(KeySmoothingScale, DoubleClass))
  ]

  /** The key lists handed to the key-set check. */
  const MandatoryKeys: seq<string> := [KeyTargetChannel, KeyTolerance, KeyConnectivity, KeySimplifyContours]
  const OptionalKeys: seq<string> := [KeySmoothingScale, KeyRemoveLargestObject]

  function RunCheck(c: ParameterCheck, m: map<string, Value>): Check {
    match c
    case Mandatory(p) => CheckParameter(m, p.key, p.kind)
    case Optional(p) => CheckOptionalParameter(m, p.key, p.kind)
  }

  /**
   * Run every check of `cs`, chained with a non-short-circuit `&`: each check
   * runs whatever the earlier ones gave, and each failing one reports.
   */
  function AccumulateChecks(cs: seq<ParameterCheck>, m: map<string, Value>): seq<Problem> {
    if cs == [] then [] else RunCheck(cs[0], m).Reported() + AccumulateChecks(cs[1..], m)
  }

  /**
   * Nothing is reported exactly when every check passes, the problem of
   * every failing check is reported (no failure hides a later one), and
   * every problem reported is that of a failing check.
   */
  lemma {:induction false} AccumulateChecksMeaning(cs: seq<ParameterCheck>, m: map<string, Value>)
    ensures AccumulateChecks(cs, m) == [] <==> forall i :: 0 <= i < |cs| ==> RunCheck(cs[i], m).Pass?
    ensures forall i :: 0 <= i < |cs| && RunCheck(cs[i], m).Fail? ==> RunCheck(cs[i], m).problem in AccumulateChecks(cs, m)
    ensures forall p :: p in AccumulateChecks(cs, m) ==> exists i :: 0 <= i < |cs| && RunCheck(cs[i], m) == Fail(p)
    ensures |AccumulateChecks(cs, m)| <= |cs|
  {
    if cs != [] {
      AccumulateChecksMeaning(cs[1..], m);
      assert forall i :: 1 <= i < |cs| ==> cs[i] == cs[1..][i - 1];
      forall p | p in AccumulateChecks(cs, m)
        ensures exists i :: 0 <= i < |cs| && RunCheck(cs[i], m) == Fail(p)
      {
        if p in RunCheck(cs[0], m).Reported() {
          assert RunCheck(cs[0], m) == Fail(p);
        } else {
          var j :| 0 <= j < |cs[1..]| && RunCheck(cs[1..][j], m) == Fail(p);
          assert RunCheck(cs[j + 1], m) == Fail(p);
        }
      }
    }
  }

  /** Running check `k` after the first `k` extends the accumulated report by that check's problem. */
  lemma {:induction false} AccumulatePrefix(cs: seq<ParameterCheck>, k: nat, m: map<string, Value>)
    requires k < |cs|
    ensures AccumulateChecks(cs[..k + 1], m) == AccumulateChecks(cs[..k], m) + RunCheck(cs[k], m).Reported()
    decreases k
  {
    if k == 0 {
      assert cs[..1][1..] == [];
    } else {
      AccumulatePrefix(cs[1..], k - 1, m);
      assert cs[..k + 1][1..] == cs[1..][..k];
      assert cs[..k][1..] == cs[1..][..k - 1];
    }
  }

  /**
   * `ok & check`: the check has already run, whatever `ok` was; its problem,
   * if any, joins the error holder. Tracks the checks of `cs` run so far.
   */
  method CheckAnd(ok: bool, c: Check, errorHolder: seq<Problem>,
                  ghost cs: seq<ParameterCheck>, ghost k: nat, ghost m: map<string, Value>)
    returns (ok': bool, errorHolder': seq<Problem>)
    requires k < |cs| && c == RunCheck(cs[k], m)
    requires errorHolder == AccumulateChecks(cs[..k], m) && ok == (errorHolder == [])
    ensures errorHolder' == AccumulateChecks(cs[..k + 1], m) && ok' == (errorHolder' == [])
  {
    AccumulatePrefix(cs, k, m);
    ok', errorHolder' := ok && c.Pass?, errorHolder + c.Reported();
  }

  /** The verdict of `checkSettings`: all six parameter checks and the key-set check pass. */
  predicate SettingsValid(m: map<string, Value>) {
    && (forall i :: 0 <= i < |ParameterChecks| ==> RunCheck(ParameterChecks[i], m).Pass?)
    && CheckMapKeys(m, MandatoryKeys, OptionalKeys).Pass?
  }

  /** What `checkSettings` leaves in its error holder: the problems of its checks, in order. */
  function SettingsProblems(m: map<string, Value>): seq<Problem> {
    AccumulateChecks(ParameterChecks, m) + CheckMapKeys(m, MandatoryKeys, OptionalKeys).Reported()
  }

  /** `checkSettings` reports nothing exactly when it accepts. */
  lemma ValidIffNothingReported(m: map<string, Value>)
    ensures SettingsProblems(m) == [] <==> SettingsValid(m)
  {
    AccumulateChecksMeaning(ParameterChecks, m);
  }

  /**
   * `checkSettings` reports the problem of every failing check, the key-set
   * check included: no failure hides a later one.
   */
  lemma EveryFailureReported(m: map<string, Value>)
    ensures forall i :: 0 <= i < |ParameterChecks| && RunCheck(ParameterChecks[i], m).Fail? ==>
              RunCheck(ParameterChecks[i], m).problem in SettingsProblems(m)
    ensures CheckMapKeys(m, MandatoryKeys, OptionalKeys).Fail? ==>
              CheckMapKeys(m, MandatoryKeys, OptionalKeys).problem in SettingsProblems(m)
  {
    AccumulateChecksMeaning(ParameterChecks, m);
  }

  /** The settings `getDefaultSettings` builds. */
  function DefaultSettings(): map<string, Value> {
    map[
      KeyTargetChannel := IntV(DefaultTargetChannel),
      KeyTolerance := DblV(DefaultTolerance),
      KeyConnectivity := IntV(DefaultConnectivity),
      KeyRemoveLargestObject := BoolV(DefaultRemoveLargestObject),
      KeySimplifyContours := BoolV(DefaultSimplifyContours),
      KeySmoothingScale := DblV(DefaultSmoothingScale)
    ]
  }

  /*
   * Saving and restoring
   */

  /** The attributes `marshall` writes and `unmarshall` reads, in the order they do. */
  const AttributeOrder: seq<Param> := [
    Param(KeyTargetChannel, IntegerClass),
    Param(KeyTolerance, DoubleClass),
    Param(KeyConnectivity, IntegerClass),
    Param(KeyRemoveLargestObject, BooleanClass),
    Param(KeySimplifyContours, BooleanClass),
    Param(KeySmoothingScale, DoubleClass)
  ]

  /** `marshall` of `settings` onto an element whose attributes were `attributes`. */
  function Marshalled(settings: map<string, Value>, attributes: map<string, Value>): Transfer {
    TransferAll(AttributeOrder, settings, attributes, InSettings)
  }

  /** The reads of `unmarshall` into a cleared settings map. */
  function Unmarshalled(attributes: map<string, Value>): Transfer {
    TransferAll(AttributeOrder, attributes, map[], InElement)
  }

  /*
   * Detector parameters
   */

  /** An image handed to `setTarget`; its pixels are not modelled. */
  datatype Image = Image(id: nat)

  /** The interval handed to `getDetector`; not modelled beyond its identity. */
  datatype Interval = Interval(id: nat)

  /** The host's hyper-slice of an image at a 0-based channel index and a frame. */
  datatype Slice = HyperSlice(img: Option<Image>, channel: int32, frame: int32)

  /** The arguments `getDetector` passes to the detector it builds. */
  datatype DetectorParameters = DetectorParameters(
    input: Slice,
    interval: Interval,
    tolerance: real,
    connectivity: Connectivity.Connectivity,
    removeLargestObject: bool,
    simplify: bool,
    smoothingScale: real)

  /** The exceptions the casts and unboxings of `getDetector` can raise. */
  datatype Exception =
    | NullPointer(key: string)   // unboxing a missing value
    | ClassCast(key: string)     // casting a value of another class
    | SettingsNotSet             // `settings` is still null: no `setTarget` yet

  /** `(Integer) settings.get(key)` followed by unboxing to `int`. */
  function UnboxInteger(m: map<string, Value>, key: string): (r: Result<int32, Exception>)
    ensures r.Success? <==> key in m && m[key].IntV?
    ensures r.Success? ==> r.value == m[key].i
  {
    if key !in m then Failure(NullPointer(key))
    else if !m[key].IntV? then Failure(ClassCast(key))
    else Success(m[key].i)
  }

  /** `(double) settings.get(key)`: a checked cast to `Double` and an unboxing. */
  function UnboxDouble(m: map<string, Value>, key: string): (r: Result<real, Exception>)
    ensures r.Success? <==> key in m && m[key].DblV?
    ensures r.Success? ==> r.value == m[key].d
  {
    if key !in m then Failure(NullPointer(key))
    else if !m[key].DblV? then Failure(ClassCast(key))
    else Success(m[key].d)
  }

  /** `(boolean) settings.get(key)`: a checked cast to `Boolean` and an unboxing. */
  function UnboxBoolean(m: map<string, Value>, key: string): (r: Result<bool, Exception>)
    ensures r.Success? <==> key in m && m[key].BoolV?
    ensures r.Success? ==> r.value == m[key].b
  {
    if key !in m then Failure(NullPointer(key))
    else if !m[key].BoolV? then Failure(ClassCast(key))
    else Success(m[key].b)
  }

  /** The smoothing scale: -1 when absent, otherwise `((Number) value).doubleValue()`. */
  function SmoothingScale(m: map<string, Value>): (r: Result<real, Exception>)
    ensures r.Success? <==> KeySmoothingScale !in m || !m[KeySmoothingScale].BoolV?
    ensures KeySmoothingScale !in m ==> r == Success(-1.0)
    ensures KeySmoothingScale in m && m[KeySmoothingScale].DblV? ==> r == Success(m[KeySmoothingScale].d)
    ensures KeySmoothingScale in m && m[KeySmoothingScale].IntV? ==> r == Success(m[KeySmoothingScale].i as real)
  {
    if KeySmoothingScale !in m then Success(-1.0)
    else match m[KeySmoothingScale]
      case IntV(i) => Success(i as real)
      case DblV(d) => Success(d)
      case BoolV(_) => Failure(ClassCast(KeySmoothingScale))
  }

  /** The settings `getDetector` can read without raising an exception. */
  predicate Extractable(m: map<string, Value>) {
    && KeyTargetChannel in m && m[KeyTargetChannel].IntV?
    && KeyTolerance in m && m[KeyTolerance].DblV?
    && KeyConnectivity in m && m[KeyConnectivity].IntV?
    && KeyRemoveLargestObject in m && m[KeyRemoveLargestObject].BoolV?
    && KeySimplifyContours in m && m[KeySimplifyContours].BoolV?
    && (KeySmoothingScale in m ==> !m[KeySmoothingScale].BoolV?)
  }

  /**
   * The parameter extraction of `getDetector`, reading the keys in the
   * source's order; the first failing cast or unboxing is the exception raised.
   */
  function ExtractParameters(m: map<string, Value>, img: Option<Image>, interval: Interval, frame: int32)
    : (r: Result<DetectorParameters, Exception>)
    ensures r.Success? <==> Extractable(m)
    ensures r.Success? ==>
              && r.value.input == HyperSlice(img, Sub32(m[KeyTargetChannel].i, 1), frame)
              && r.value.interval == interval
              && r.value.tolerance == m[KeyTolerance].d
              && r.value.connectivity == Connectivity.ValueFor(m[KeyConnectivity].i as int)
              && r.value.removeLargestObject == m[KeyRemoveLargestObject].b
              && r.value.simplify == m[KeySimplifyContours].b
              && r.value.smoothingScale ==
                   (if KeySmoothingScale !in m then -1.0
                    else if m[KeySmoothingScale].IntV? then m[KeySmoothingScale].i as real
                    else m[KeySmoothingScale].d)
    ensures r.Failure? && r.error.NullPointer? ==> r.error.key !in m
    ensures r.Failure? && r.error.ClassCast? ==> r.error.key in m
  {
    var channel :- UnboxInteger(m, KeyTargetChannel);
    var tolerance :- UnboxDouble(m, KeyTolerance);
    var conn :- UnboxInteger(m, KeyConnectivity);
    var removeLargestObject :- UnboxBoolean(m, KeyRemoveLargestObject);
    var simplify :- UnboxBoolean(m, KeySimplifyContours);
    var smoothingScale :- SmoothingScale(m);
    Success(DetectorParameters(
      HyperSlice(img, Sub32(channel, 1), frame),
      interval,
      tolerance,
      Connectivity.ValueFor(conn as int),
      removeLargestObject,
      simplify,
      smoothingScale))
  }

  /**
   * The extraction with the remove-largest-object flag read the way the
   * smoothing scale is: an absent key stands for its default, false.
   */
  function ExtractParametersWithDefault(m: map<string, Value>, img: Option<Image>, interval: Interval, frame: int32)
    : (r: Result<DetectorParameters, Exception>)
    ensures KeyRemoveLargestObject in m ==> r == ExtractParameters(m, img, interval, frame)
    ensures KeyRemoveLargestObject !in m && r.Success? ==> r.value.removeLargestObject == DefaultRemoveLargestObject
  {
    if KeyRemoveLargestObject in m then ExtractParameters(m, img, interval, frame)
    else ExtractParameters(m[KeyRemoveLargestObject := BoolV(DefaultRemoveLargestObject)], img, interval, frame)
  }

  /*
   * The factory object
   */

  class MorphoLibJDetectorFactory {
    /** The image to operate on; None until `setTarget`. */
    var img: Option<Image>
    /** The settings map `setTarget` was given, shared with the caller; null until then. */
    var settings: SettingsMap?
    /** The last error text, as the problems it lists; empty stands for the initial null. */
    var errorMessage: seq<Problem>

    /** A new factory, as the constructor and `copy` make it. */
    constructor ()
      ensures img == None && settings == null && errorMessage == []
    {
      img := None;
      settings := null;
      errorMessage := [];
    }

    method GetDefaultSettings() returns (s: SettingsMap)
      ensures fresh(s)
      ensures s.entries == DefaultSettings()
    {
      s := new SettingsMap();
      s.Put(KeyTargetChannel, IntV(DefaultTargetChannel));
      s.Put(KeyTolerance, DblV(DefaultTolerance));
      s.Put(KeyConnectivity, IntV(DefaultConnectivity));
      s.Put(KeyRemoveLargestObject, BoolV(DefaultRemoveLargestObject));
      s.Put(KeySimplifyContours, BoolV(DefaultSimplifyContours));
      s.Put(KeySmoothingScale, DblV(DefaultSmoothingScale));
    }

    /**
     * Every check runs (`ok = ok & check(...)`), so all failing keys are
     * reported; the error message is written only when a check failed.
     */
    method CheckSettings(m: map<string, Value>) returns (ok: bool)
      modifies this`errorMessage
      ensures ok == SettingsValid(m)
      ensures errorMessage == if ok then old(errorMessage) else SettingsProblems(m)
    {
      ok := true;
      var errorHolder: seq<Problem> := [];
      assert ParameterChecks[..0] == [];
      ok, errorHolder := CheckAnd(ok, CheckParameter(m, KeyTargetChannel, IntegerClass), errorHolder, ParameterChecks, 0, m);
      ok, errorHolder := CheckAnd(ok, CheckParameter(m, KeyTolerance, DoubleClass), errorHolder, ParameterChecks, 1, m);
      ok, errorHolder := CheckAnd(ok, CheckParameter(m, KeyConnectivity, IntegerClass), errorHolder, ParameterChecks, 2, m);
      ok, errorHolder := CheckAnd(ok, CheckOptionalParameter(m, KeyRemoveLargestObject, BooleanClass), errorHolder, ParameterChecks, 3, m);
      ok, errorHolder := CheckAnd(ok, CheckParameter(m, KeySimplifyContours, BooleanClass), errorHolder, ParameterChecks, 4, m);
      ok, errorHolder := CheckAnd(ok, CheckOptionalParameter(m, KeySmoothingScale, DoubleClass), errorHolder, ParameterChecks, 5, m);
      assert ParameterChecks[..6] == ParameterChecks;
      var c := CheckMapKeys(m, MandatoryKeys, OptionalKeys);
      ok, errorHolder := ok && c.Pass?, errorHolder + c.Reported();
      ValidIffNothingReported(m);
      if !ok {
        errorMessage := errorHolder;
      }
    }

    method SetTarget(img: Image, settings: SettingsMap) returns (ok: bool)
      modifies this
      ensures this.img == Some(img) && this.settings == settings
      ensures ok == SettingsValid(settings.entries)
      ensures errorMessage == if ok then old(errorMessage) else SettingsProblems(settings.entries)
    {
      this.img := Some(img);
      this.settings := settings;
      ok := CheckSettings(settings.entries);
    }

    /**
     * Writes are chained with a short-circuit `&&`: the first failing write
     * stops the rest, and the error message is written only on failure.
     */
    method Marshall(settings: SettingsMap, element: Element) returns (ok: bool)
      modifies this`errorMessage, element
      ensures var r := Marshalled(settings.entries, old(element.attributes));
              && ok == r.ok
              && element.attributes == r.out
              && errorMessage == if ok then old(errorMessage) else r.reported
    {
      ghost var r := Marshalled(settings.entries, element.attributes);
      assert AttributeOrder[0..] == AttributeOrder;
      var errorHolder: seq<Problem> := [];
      ok := true;
      ok, errorHolder := WriteAnd(ok, settings.entries, element, AttributeOrder, 0, errorHolder);
      assert r == Pending(AttributeOrder, 1, settings.entries, element.attributes, InSettings, ok, errorHolder);
      ok, errorHolder := WriteAnd(ok, settings.entries, element, AttributeOrder, 1, errorHolder);
      assert r == Pending(AttributeOrder, 2, settings.entries, element.attributes, InSettings, ok, errorHolder);
      ok, errorHolder := WriteAnd(ok, settings.entries, element, AttributeOrder, 2, errorHolder);
      assert r == Pending(AttributeOrder, 3, settings.entries, element.attributes, InSettings, ok, errorHolder);
      ok, errorHolder := WriteAnd(ok, settings.entries, element, AttributeOrder, 3, errorHolder);
      assert r == Pending(AttributeOrder, 4, settings.entries, element.attributes, InSettings, ok, errorHolder);
      ok, errorHolder := WriteAnd(ok, settings.entries, element, AttributeOrder, 4, errorHolder);
      assert r == Pending(AttributeOrder, 5, settings.entries, element.attributes, InSettings, ok, errorHolder);
      ok, errorHolder := WriteAnd(ok, settings.entries, element, AttributeOrder, 5, errorHolder);
      assert r == Pending(AttributeOrder, 6, settings.entries, element.attributes, InSettings, ok, errorHolder);
      assert AttributeOrder[6..] == [];
      if !ok {
        errorMessage := errorHolder;
      }
    }

    /**
     * Clears `settings`, then reads the attributes with a short-circuit `&&`.
     * A failed read returns false without validating; otherwise the result
     * is `checkSettings` of the refilled map.
     */
    method Unmarshall(element: Element, settings: SettingsMap) returns (ok: bool)
      modifies this`errorMessage, settings
      ensures var r := Unmarshalled(element.attributes);
              && settings.entries == r.out
              && ok == (r.ok && SettingsValid(r.out))
              && errorMessage ==
                   if !r.ok then r.reported
                   else if ok then old(errorMessage)
                   else SettingsProblems(r.out)
    {
      settings.Clear();
      ghost var r := Unmarshalled(element.attributes);
      assert AttributeOrder[0..] == AttributeOrder;
      var errorHolder: seq<Problem> := [];
      ok := true;
      ok, errorHolder := ReadAnd(ok, element, settings, AttributeOrder, 0, errorHolder);
      assert r == Pending(AttributeOrder, 1, element.attributes, settings.entries, InElement, ok, errorHolder);
      ok, errorHolder := ReadAnd(ok, element, settings, AttributeOrder, 1, errorHolder);
      assert r == Pending(AttributeOrder, 2, element.attributes, settings.entries, InElement, ok, errorHolder);
      ok, errorHolder := ReadAnd(ok, element, settings, AttributeOrder, 2, errorHolder);
      assert r == Pending(AttributeOrder, 3, element.attributes, settings.entries, InElement, ok, errorHolder);
      ok, errorHolder := ReadAnd(ok, element, settings, AttributeOrder, 3, errorHolder);
      assert r == Pending(AttributeOrder, 4, element.attributes, settings.entries, InElement, ok, errorHolder);
      ok, errorHolder := ReadAnd(ok, element, settings, AttributeOrder, 4, errorHolder);
      assert r == Pending(AttributeOrder, 5, element.attributes, settings.entries, InElement, ok, errorHolder);
      ok, errorHolder := ReadAnd(ok, element, settings, AttributeOrder, 5, errorHolder);
      assert r == Pending(AttributeOrder, 6, element.attributes, settings.entries, InElement, ok, errorHolder);
      assert AttributeOrder[6..] == [];
      if !ok {
        errorMessage := errorHolder;
        return false;
      }
      ok := CheckSettings(settings.entries);
    }

    /** The parameters `getDetector` hands to the detector for one frame. */
    method GetDetector(interval: Interval, frame: int32) returns (r: Result<DetectorParameters, Exception>)
      ensures settings == null ==> r == Failure(SettingsNotSet)
      ensures settings != null ==> r == ExtractParameters(settings.entries, img, interval, frame)
    {
      if settings == null {
        return Failure(SettingsNotSet);
      }
      r := ExtractParameters(settings.entries, img, interval, frame);
    }
  }

}
