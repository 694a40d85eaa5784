/**
 * What the factory's settings logic guarantees, and where its validation and
 * its uses of the settings disagree.
 */
module FactoryProperties {
  import opened Wrappers
  import opened Values
  import opened Host
  import opened Factory
  import Connectivity

  /** The six keys the factory knows. */
  function KnownKeys(): set<string> {
    (set k | k in MandatoryKeys) + (set k | k in OptionalKeys)
  }

  /*
   * Default settings
   */

  lemma KnownKeysAre()
    ensures KnownKeys() ==
              {KeyTargetChannel, KeyTolerance, KeyConnectivity, KeySimplifyContours, KeySmoothingScale, KeyRemoveLargestObject}
  {
  }

  /** The attributes saved and restored are the known keys. */
  lemma AttributeKeysAreKnownKeys()
    ensures KeysOf(AttributeOrder) == KnownKeys()
  {
    KnownKeysAre();
    var ks := KeysOf(AttributeOrder);
    assert AttributeOrder[0].key in ks && AttributeOrder[1].key in ks && AttributeOrder[2].key in ks;
    assert AttributeOrder[3].key in ks && AttributeOrder[4].key in ks && AttributeOrder[5].key in ks;
  }

  /** The defaults hold exactly the mandatory and the optional keys. */
  lemma DefaultSettingsKeys()
    ensures DefaultSettings().Keys == KnownKeys()
  {
    KnownKeysAre();
  }

  /** Each default value has the class the attribute list names for its key. */
  lemma DefaultSettingsClasses()
    ensures forall i :: 0 <= i < |AttributeOrder| ==> Present(DefaultSettings(), AttributeOrder[i])
  {
  }

  /** The defaults pass `checkSettings`. */
  lemma DefaultSettingsValid()
    ensures SettingsValid(DefaultSettings())
  {
    var d := DefaultSettings();
    assert forall i :: 0 <= i < |ParameterChecks| ==> RunCheck(ParameterChecks[i], d).Pass?;
  }

  /**
   * The defaults give a detector on channel index 0 with tolerance 30,
   * 26-connectivity, no largest-object removal, no simplification and
   * smoothing scale -1.
   */
  lemma DefaultDetectorParameters(img: Option<Image>, interval: Interval, frame: int32)
    ensures ExtractParameters(DefaultSettings(), img, interval, frame) ==
              Success(DetectorParameters(HyperSlice(img, 0, frame), interval, 30.0, Connectivity.Diagonal, false, false, -1.0))
  {
    assert Connectivity.ValueFor(Connectivity.GetConnectivity(Connectivity.Diagonal)) == Connectivity.Diagonal;
  }

  /*
   * Validation
   */

  /** The six parameter checks pass exactly when each key is absent or well-typed as its check demands. */
  lemma ParameterChecksPassMeans(m: map<string, Value>)
    ensures (forall i :: 0 <= i < |ParameterChecks| ==> RunCheck(ParameterChecks[i], m).Pass?) <==>
              && KeyTargetChannel in m && m[KeyTargetChannel].IntV?
              && KeyTolerance in m && m[KeyTolerance].DblV?
              && KeyConnectivity in m && m[KeyConnectivity].IntV?
              && (KeyRemoveLargestObject in m ==> m[KeyRemoveLargestObject].BoolV?)
              && KeySimplifyContours in m && m[KeySimplifyContours].BoolV?
              && (KeySmoothingScale in m ==> m[KeySmoothingScale].DblV?)
  {
    var cs := ParameterChecks;
    assert (forall i :: 0 <= i < |cs| ==> RunCheck(cs[i], m).Pass?) <==>
             RunCheck(cs[0], m).Pass? && RunCheck(cs[1], m).Pass? && RunCheck(cs[2], m).Pass? &&
             RunCheck(cs[3], m).Pass? && RunCheck(cs[4], m).Pass? && RunCheck(cs[5], m).Pass?;
  }

  /** The key-set check passes exactly when the mandatory keys are present and no unknown key is. */
  lemma MapKeysPassMeans(m: map<string, Value>)
    ensures CheckMapKeys(m, MandatoryKeys, OptionalKeys).Pass? <==>
              && KeyTargetChannel in m && KeyTolerance in m && KeyConnectivity in m && KeySimplifyContours in m
              && m.Keys <= KnownKeys()
  {
  }

  /** `checkSettings` accepts exactly the maps described here, key by key. */
  lemma SettingsValidMeans(m: map<string, Value>)
    ensures SettingsValid(m) <==>
              && KeyTargetChannel in m && m[KeyTargetChannel].IntV?
              && KeyTolerance in m && m[KeyTolerance].DblV?
              && KeyConnectivity in m && m[KeyConnectivity].IntV?
              && (KeyRemoveLargestObject in m ==> m[KeyRemoveLargestObject].BoolV?)
              && KeySimplifyContours in m && m[KeySimplifyContours].BoolV?
              && (KeySmoothingScale in m ==> m[KeySmoothingScale].DblV?)
              && m.Keys <= KnownKeys()
  {
    ParameterChecksPassMeans(m);
    MapKeysPassMeans(m);
  }

  /**
   * `checkSettings` runs every check: on an empty map it reports each of the
   * four missing mandatory keys, whereas `marshall` and `unmarshall` stop at
   * their first failure and report only the target channel.
   */
  lemma EmptySettingsReports(attributes: map<string, Value>)
    ensures NotFound(KeyTargetChannel, InSettings) in SettingsProblems(map[])
    ensures NotFound(KeyTolerance, InSettings) in SettingsProblems(map[])
    ensures NotFound(KeyConnectivity, InSettings) in SettingsProblems(map[])
    ensures NotFound(KeySimplifyContours, InSettings) in SettingsProblems(map[])
    ensures Marshalled(map[], attributes) == Transfer(false, attributes, [NotFound(KeyTargetChannel, InSettings)])
    ensures Unmarshalled(map[]) == Transfer(false, map[], [NotFound(KeyTargetChannel, InElement)])
  {
    var cs := ParameterChecks;
    EveryFailureReported(map[]);
    assert RunCheck(cs[0], map[]).Fail? && RunCheck(cs[1], map[]).Fail?;
    assert RunCheck(cs[2], map[]).Fail? && RunCheck(cs[4], map[]).Fail?;
  }

  /*
   * The gap between validation and extraction
   */

  /**
   * On a validated map, `getDetector` succeeds exactly when the
   * remove-largest-object key is present: validation treats it as optional,
   * extraction unboxes it unconditionally.
   */
  lemma ValidatedExtractionGap(m: map<string, Value>, img: Option<Image>, interval: Interval, frame: int32)
    requires SettingsValid(m)
    ensures ExtractParameters(m, img, interval, frame).Success? <==> KeyRemoveLargestObject in m
    ensures KeyRemoveLargestObject !in m ==>
              ExtractParameters(m, img, interval, frame) == Failure(NullPointer(KeyRemoveLargestObject))
  {
    SettingsValidMeans(m);
  }

  /**
   * The map the configuration panel hands over: target channel, tolerance,
   * connectivity and simplify flag, and nothing else.
   */
  function PanelSettings(channel: int32, tolerance: real, conn: Connectivity.Connectivity, simplify: bool)
    : map<string, Value>
  {
    map[
      KeyTargetChannel := IntV(channel),
      KeyTolerance := DblV(tolerance),
      KeyConnectivity := IntV(Connectivity.GetConnectivity(conn) as int32),
      KeySimplifyContours := BoolV(simplify)
    ]
  }

  /** Every map the panel produces passes `checkSettings`, yet `getDetector` fails on it. */
  lemma PanelSettingsPassValidationButFailExtraction(
    channel: int32, tolerance: real, conn: Connectivity.Connectivity, simplify: bool,
    img: Option<Image>, interval: Interval, frame: int32)
    ensures SettingsValid(PanelSettings(channel, tolerance, conn, simplify))
    ensures ExtractParameters(PanelSettings(channel, tolerance, conn, simplify), img, interval, frame)
              == Failure(NullPointer(KeyRemoveLargestObject))
  {
    var m := PanelSettings(channel, tolerance, conn, simplify);
    SettingsValidMeans(m);
    assert m.Keys <= KnownKeys();
  }

  /**
   * With the flag defaulting to false when absent, as the smoothing scale
   * defaults to -1, every validated map yields detector parameters, and the
   * result agrees with the extraction as written wherever that succeeds.
   */
  lemma ValidSettingsAlwaysExtract(m: map<string, Value>, img: Option<Image>, interval: Interval, frame: int32)
    requires SettingsValid(m)
    ensures ExtractParametersWithDefault(m, img, interval, frame).Success?
    ensures ExtractParameters(m, img, interval, frame).Success? ==>
              ExtractParametersWithDefault(m, img, interval, frame) == ExtractParameters(m, img, interval, frame)
  {
    SettingsValidMeans(m);
    ValidatedExtractionGap(m, img, interval, frame);
  }

  /** `getDetector` turns the 1-based channel into a 0-based index; Java's `int` wraps at the bottom. */
  lemma ChannelIndex(channel: int32)
    ensures channel > -0x8000_0000 ==> Sub32(channel, 1) as int == channel as int - 1
    ensures channel >= 1 ==> Sub32(channel, 1) >= 0
    ensures channel == -0x8000_0000 ==> Sub32(channel, 1) == 0x7fff_ffff
  {
  }

  /*
   * Saving and restoring
   */

  /**
   * A validated map can be saved exactly when both optional keys are
   * present: `marshall` writes every attribute unconditionally.
   */
  lemma MarshallAcceptsValidated(m: map<string, Value>, attributes: map<string, Value>)
    requires SettingsValid(m)
    ensures Marshalled(m, attributes).ok <==> KeyRemoveLargestObject in m && KeySmoothingScale in m
  {
    SettingsValidMeans(m);
    TransferAllMeaning(AttributeOrder, m, attributes, InSettings);
    var i := FirstAbsent(AttributeOrder, m);
    if KeyRemoveLargestObject !in m {
      assert !Present(m, AttributeOrder[3]);
    }
    if KeySmoothingScale !in m {
      assert !Present(m, AttributeOrder[5]);
    }
    if KeyRemoveLargestObject in m && KeySmoothingScale in m {
      AllPresent(m);
    }
  }

  /** Every attribute is present in a validated map that holds both optional keys. */
  lemma AllPresent(m: map<string, Value>)
    requires SettingsValid(m) && KeyRemoveLargestObject in m && KeySmoothingScale in m
    ensures FirstAbsent(AttributeOrder, m) == |AttributeOrder|
  {
    SettingsValidMeans(m);
    assert forall i :: 0 <= i < |AttributeOrder| ==> Present(m, AttributeOrder[i]);
  }

  /** A validated map that holds both optional keys holds exactly the saved attributes' keys. */
  lemma CompleteKeys(m: map<string, Value>)
    requires SettingsValid(m) && KeyRemoveLargestObject in m && KeySmoothingScale in m
    ensures m.Keys == KeysOf(AttributeOrder)
  {
    SettingsValidMeans(m);
    AttributeKeysAreKnownKeys();
    KnownKeysAre();
  }

  /** Saving a validated map that holds both optional keys writes every entry onto the element. */
  lemma MarshallWritesAll(m: map<string, Value>, attributes: map<string, Value>)
    requires SettingsValid(m) && KeyRemoveLargestObject in m && KeySmoothingScale in m
    ensures Marshalled(m, attributes) == Transfer(true, attributes + m, [])
  {
    CompleteKeys(m);
    AllPresent(m);
    TransferAllPresent(AttributeOrder, m, attributes, InSettings);
    CopiedEverything(AttributeOrder, m);
  }

  /** Laid over any attributes, such a map still provides every attribute. */
  lemma AllPresentOver(m: map<string, Value>, attributes: map<string, Value>)
    requires SettingsValid(m) && KeyRemoveLargestObject in m && KeySmoothingScale in m
    ensures FirstAbsent(AttributeOrder, attributes + m) == |AttributeOrder|
  {
    AllPresent(m);
    assert forall i :: 0 <= i < |AttributeOrder| ==> Present(attributes + m, AttributeOrder[i]) by {
      assert forall i :: 0 <= i < |AttributeOrder| ==> Present(m, AttributeOrder[i]);
    }
  }

  /** Restoring from an element holding every entry of such a map reads exactly that map back. */
  lemma UnmarshallReadsBack(m: map<string, Value>, attributes: map<string, Value>)
    requires SettingsValid(m) && KeyRemoveLargestObject in m && KeySmoothingScale in m
    ensures Unmarshalled(attributes + m) == Transfer(true, m, [])
  {
    CompleteKeys(m);
    AllPresentOver(m, attributes);
    RestoreComplete(m, attributes);
  }

  /** Restoring from attributes that hold all saved keys, the last ones written being `m`'s, reads `m` back. */
  lemma RestoreComplete(m: map<string, Value>, attributes: map<string, Value>)
    requires m.Keys == KeysOf(AttributeOrder)
    requires FirstAbsent(AttributeOrder, attributes + m) == |AttributeOrder|
    ensures Unmarshalled(attributes + m) == Transfer(true, m, [])
  {
    TransferAllPresent(AttributeOrder, attributes + m, map[], InElement);
    CopiedOverride(AttributeOrder, attributes, m);
    NoAttributesBefore(m);
  }

  /**
   * Saving a validated map that holds both optional keys and restoring it
   * into a cleared map gives back that same map, which validates again.
   */
  lemma MarshallRoundTrip(m: map<string, Value>, attributes: map<string, Value>)
    requires SettingsValid(m) && KeyRemoveLargestObject in m && KeySmoothingScale in m
    ensures Marshalled(m, attributes).ok
    ensures Unmarshalled(Marshalled(m, attributes).out) == Transfer(true, m, [])
  {
    MarshallWritesAll(m, attributes);
    UnmarshallReadsBack(m, attributes);
  }

  /**
   * The panel's maps cannot be saved: the write of the remove-largest-object
   * flag fails, after the first three attributes were written.
   */
  lemma PanelSettingsCannotBeSaved(
    channel: int32, tolerance: real, conn: Connectivity.Connectivity, simplify: bool,
    attributes: map<string, Value>)
    ensures var m := PanelSettings(channel, tolerance, conn, simplify);
            Marshalled(m, attributes) ==
              Transfer(false,
                       attributes[KeyTargetChannel := m[KeyTargetChannel]]
                                 [KeyTolerance := m[KeyTolerance]]
                                 [KeyConnectivity := m[KeyConnectivity]],
                       [NotFound(KeyRemoveLargestObject, InSettings)])
  {
    var m := PanelSettings(channel, tolerance, conn, simplify);
    var ao := AttributeOrder;
    var a1 := attributes[KeyTargetChannel := m[KeyTargetChannel]];
    var a2 := a1[KeyTolerance := m[KeyTolerance]];
    var a3 := a2[KeyConnectivity := m[KeyConnectivity]];
    assert ao[0..] == ao;
    assert TransferAll(ao[0..], m, attributes, InSettings) == TransferAll(ao[1..], m, a1, InSettings) by {
      assert ao[0..][1..] == ao[1..];
    }
    assert TransferAll(ao[1..], m, a1, InSettings) == TransferAll(ao[2..], m, a2, InSettings) by {
      assert ao[1..][1..] == ao[2..];
    }
    assert TransferAll(ao[2..], m, a2, InSettings) == TransferAll(ao[3..], m, a3, InSettings) by {
      assert ao[2..][1..] == ao[3..];
    }
    assert !Present(m, ao[3..][0]);
  }

  /*
   * The factory object end to end
   */

  /** Entries laid over an element without attributes are exactly those entries. */
  lemma NoAttributesBefore(m: map<string, Value>)
    ensures map[] + m == m
  {
  }

  /** The defaults are saved in full and restored unchanged, and they validate. */
  lemma DefaultsSaveAndRestore()
    ensures Marshalled(DefaultSettings(), map[]) == Transfer(true, DefaultSettings(), [])
    ensures Unmarshalled(DefaultSettings()) == Transfer(true, DefaultSettings(), [])
    ensures SettingsValid(DefaultSettings())
  {
    DefaultSettingsValid();
    DefaultSettingsKeys();
    KnownKeysAre();
    var d := DefaultSettings();
    MarshallWritesAll(d, map[]);
    assert map[] + d == d by {
      NoAttributesBefore(d);
    }
    UnmarshallReadsBack(d, map[]);
  }

  /**
   * Default settings saved to a fresh element, restored into a fresh map
   * and set as the target give the default detector parameters.
   */
  method DefaultsSurviveSaveAndRestore(img: Image, interval: Interval, frame: int32)
    returns (r: Result<DetectorParameters, Exception>)
    ensures r == Success(DetectorParameters(
                   HyperSlice(Some(img), 0, frame), interval, 30.0, Connectivity.Diagonal, false, false, -1.0))
  {
    var factory := new MorphoLibJDetectorFactory();
    var defaults := factory.GetDefaultSettings();
    DefaultsSaveAndRestore();
    var element := new Element();
    var saved := factory.Marshall(defaults, element);
    var restored := new SettingsMap();
    var loaded := factory.Unmarshall(element, restored);
    var valid := factory.SetTarget(img, restored);
    assert saved && loaded && valid;
    r := factory.GetDetector(interval, frame);
    DefaultDetectorParameters(Some(img), interval, frame);
  }

}
