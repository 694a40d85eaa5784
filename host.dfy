/**
 * The tracking host's helpers that the detector factory calls: the parameter
 * checks of its utility class and the attribute readers and writers of its
 * XML support. Their code is not part of this model; each is given the
 * meaning its name and the factory's use of it state, and nothing more:
 * a check passes exactly when the key is present with a value of the
 * expected class (or, for an optional key, is absent), a failing call
 * appends one problem to the error holder, a write stores the value in the
 * element, and a read puts back the value the attribute holds.
 */
module Host {
  import opened Values

  /* Keys and defaults the host defines and the factory imports. */
  const KeyTargetChannel := "TARGET_CHANNEL"
  const DefaultTargetChannel: int32 := 1
  const KeySimplifyContours := "SIMPLIFY_CONTOURS"
  const KeySmoothingScale := "SMOOTHING_SCALE"

  /** A key together with the class its value must have. */
  datatype Param = Param(key: string, kind: Kind)

  /** `p.key` is present in `m` with a value of class `p.kind`. */
  predicate Present(m: map<string, Value>, p: Param) {
    p.key in m && IsInstance(m[p.key], p.kind)
  }

  /** Look `p.key` up in `m` and check the class of its value. */
  function Probe(m: map<string, Value>, p: Param, place: Place): (c: Check)
    ensures c.Pass? <==> Present(m, p)
    ensures c.Fail? && p.key !in m ==> c.problem == NotFound(p.key, place)
    ensures c.Fail? && p.key in m ==> c.problem == WrongClass(p.key, p.kind, place)
  {
    if p.key !in m then Fail(NotFound(p.key, place))
    else if !IsInstance(m[p.key], p.kind) then Fail(WrongClass(p.key, p.kind, place))
    else Pass
  }

  /** `TMUtils.checkParameter`: a mandatory key with a value of the given class. */
  function CheckParameter(m: map<string, Value>, key: string, kind: Kind): (c: Check)
    ensures c.Pass? <==> key in m && IsInstance(m[key], kind)
  {
    Probe(m, Param(key, kind), InSettings)
  }

  /** `TMUtils.checkOptionalParameter`: an absent key passes; a present one needs the given class. */
  function CheckOptionalParameter(m: map<string, Value>, key: string, kind: Kind): (c: Check)
    ensures c.Pass? <==> key !in m || IsInstance(m[key], kind)
  {
    if key !in m then Pass else Probe(m, Param(key, kind), InSettings)
  }

  /**
   * `TMUtils.checkMapKeys`: every mandatory key is present and every key
   * present is mandatory or optional. A failure reports both offending sets.
   */
  function CheckMapKeys(m: map<string, Value>, mandatory: seq<string>, optional: seq<string>): (c: Check)
    ensures c.Pass? <==>
              (forall k :: k in mandatory ==> k in m) &&
              (forall k :: k in m ==> k in mandatory || k in optional)
    ensures c.Fail? ==> c.problem.KeySetMismatch?
    ensures c.Fail? ==> forall k :: k in c.problem.missing <==> k in mandatory && k !in m
    ensures c.Fail? ==> forall k :: k in c.problem.unexpected <==> k in m && k !in mandatory && k !in optional
  {
    if (forall k :: k in mandatory ==> k in m) && (forall k :: k in m ==> k in mandatory || k in optional) then
      Pass
    else
      var unexpected := set k | k in m && k !in mandatory && k !in optional;
      var missing := set k | k in mandatory && k !in m;
      Fail(KeySetMismatch(unexpected, missing))
  }

  /** The keys named by a list of parameters. */
  function KeysOf(ps: seq<Param>): (ks: set<string>)
    ensures forall j :: 0 <= j < |ps| ==> ps[j].key in ks
  {
    set p | p in ps :: p.key
  }

  /** The entries of `src` under the keys `ps` names. */
  function Copied(ps: seq<Param>, src: map<string, Value>): (m: map<string, Value>)
    ensures m.Keys == src.Keys * KeysOf(ps)
    ensures forall k :: k in m ==> m[k] == src[k]
  {
    map k | k in src && k in KeysOf(ps) :: src[k]
  }

  /** Copying every key a map holds gives back the map. */
  lemma CopiedEverything(ps: seq<Param>, src: map<string, Value>)
    requires src.Keys <= KeysOf(ps)
    ensures Copied(ps, src) == src
  {
    assert Copied(ps, src).Keys == src.Keys;
  }

  /** Copying the keys a map holds exactly, from that map laid over another, gives back the map. */
  lemma CopiedOverride(ps: seq<Param>, under: map<string, Value>, m: map<string, Value>)
    requires m.Keys == KeysOf(ps)
    ensures Copied(ps, under + m) == m
  {
    assert Copied(ps, under + m).Keys == m.Keys;
  }

  /** The index of the first parameter not present in `src`, or `|ps|` when all are. */
  function FirstAbsent(ps: seq<Param>, src: map<string, Value>): (i: nat)
    ensures i <= |ps|
    ensures forall j :: 0 <= j < i ==> Present(src, ps[j])
    ensures i < |ps| ==> !Present(src, ps[i])
  {
    if ps == [] then 0
    else if !Present(src, ps[0]) then 0
    else 1 + FirstAbsent(ps[1..], src)
  }

  /** The result of copying a run of parameters: success, the target afterwards, what was reported. */
  datatype Transfer = Transfer(ok: bool, out: map<string, Value>, reported: seq<Problem>)

  /**
   * Copy the parameters `ps` one after the other from `src` into `dst`,
   * chained with a short-circuit `&&`: the first parameter that is missing or
   * of the wrong class stops the run.
   */
  function TransferAll(ps: seq<Param>, src: map<string, Value>, dst: map<string, Value>, place: Place): Transfer
    decreases |ps|
  {
    if ps == [] then Transfer(true, dst, [])
    else if !Present(src, ps[0]) then Transfer(false, dst, [Probe(src, ps[0], place).problem])
    else TransferAll(ps[1..], src, dst[ps[0].key := src[ps[0].key]], place)
  }

  /**
   * A short-circuit run stops at the first absent parameter: it succeeds
   * exactly when every parameter is present, copies only the parameters
   * before the first absent one, and reports exactly that one's problem.
   */
  lemma {:induction false} TransferAllMeaning(ps: seq<Param>, src: map<string, Value>, dst: map<string, Value>, place: Place)
    ensures var r := TransferAll(ps, src, dst, place);
            var i := FirstAbsent(ps, src);
            && (r.ok <==> i == |ps|)
            && r.out == dst + Copied(ps[..i], src)
            && (r.ok ==> r.reported == [])
            && (!r.ok ==> r.reported == [Probe(src, ps[i], place).problem])
    decreases |ps|
  {
    if ps == [] {
      assert Copied(ps[..0], src) == map[];
    } else if !Present(src, ps[0]) {
      assert Copied(ps[..0], src) == map[];
    } else {
      var k := ps[0].key;
      TransferAllMeaning(ps[1..], src, dst[k := src[k]], place);
      CopiedStep(ps, src, dst, FirstAbsent(ps[1..], src));
    }
  }

  /** A run over parameters that are all present succeeds and copies every one of them. */
  lemma TransferAllPresent(ps: seq<Param>, src: map<string, Value>, dst: map<string, Value>, place: Place)
    requires FirstAbsent(ps, src) == |ps|
    ensures TransferAll(ps, src, dst, place) == Transfer(true, dst + Copied(ps, src), [])
  {
    TransferAllMeaning(ps, src, dst, place);
    assert ps[..|ps|] == ps;
  }

  /** One step of a short-circuit run: copy parameter `k` and go on, or stop on it. */
  lemma TransferStep(ps: seq<Param>, k: nat, src: map<string, Value>, dst: map<string, Value>, place: Place)
    requires k < |ps|
    ensures TransferAll(ps[k..], src, dst, place) ==
              if Present(src, ps[k]) then TransferAll(ps[k + 1..], src, dst[ps[k].key := src[ps[k].key]], place)
              else Transfer(false, dst, [Probe(src, ps[k], place).problem])
  {
    assert ps[k..][1..] == ps[k + 1..];
  }

  /** Copying the first parameter and then `i` more is copying the first `1 + i`. */
  lemma CopiedStep(ps: seq<Param>, src: map<string, Value>, dst: map<string, Value>, i: nat)
    requires 0 < |ps| && ps[0].key in src && i < |ps|
    ensures dst[ps[0].key := src[ps[0].key]] + Copied(ps[1..][..i], src) == dst + Copied(ps[..1 + i], src)
  {
    assert ps[..1 + i] == [ps[0]] + ps[1..][..i];
    assert KeysOf(ps[..1 + i]) == {ps[0].key} + KeysOf(ps[1..][..i]);
  }

  /**
   * What a short-circuit run yields from parameter `k` on, given the running
   * `ok` flag and what was reported so far: the rest of the run while `ok`
   * holds, and the failure already met otherwise.
   */
  function Pending(ps: seq<Param>, k: nat, src: map<string, Value>, dst: map<string, Value>, place: Place,
                   ok: bool, reported: seq<Problem>): Transfer
    requires k <= |ps|
  {
    if ok then TransferAll(ps[k..], src, dst, place) else Transfer(false, dst, reported)
  }

  /** `IOUtils.writeAttribute`: store `settings[p.key]` in the element when present with class `p.kind`. */
  method WriteAttribute(settings: map<string, Value>, element: Element, p: Param) returns (c: Check)
    modifies element
    ensures c == Probe(settings, p, InSettings)
    ensures element.attributes ==
              if c.Pass? then old(element.attributes)[p.key := settings[p.key]] else old(element.attributes)
  {
    c := Probe(settings, p, InSettings);
    if c.Pass? {
      element.SetAttribute(p.key, settings[p.key]);
    }
  }

  /**
   * `IOUtils.readIntegerAttribute`, `readDoubleAttribute`, `readBooleanAttribute`:
   * put the attribute's value into the settings when it exists and reads as class `p.kind`.
   */
  method ReadAttribute(element: Element, settings: SettingsMap, p: Param) returns (c: Check)
    modifies settings
    ensures c == Probe(element.attributes, p, InElement)
    ensures settings.entries ==
              if c.Pass? then old(settings.entries)[p.key := element.attributes[p.key]] else old(settings.entries)
  {
    c := Probe(element.attributes, p, InElement);
    if c.Pass? {
      settings.Put(p.key, element.attributes[p.key]);
    }
  }

  /**
   * `ok && IOUtils.writeAttribute(...)`: the write of `ps[k]`, the `k`-th
   * parameter of the run `ps`, happens only while `ok` holds.
   */
  method WriteAnd(ok: bool, settings: map<string, Value>, element: Element, ps: seq<Param>, k: nat,
                  errorHolder: seq<Problem>)
    returns (ok': bool, errorHolder': seq<Problem>)
    requires k < |ps|
    requires ok ==> errorHolder == []
    modifies element
    ensures ok' == (ok && Present(settings, ps[k]))
    ensures element.attributes ==
              if ok' then old(element.attributes)[ps[k].key := settings[ps[k].key]] else old(element.attributes)
    ensures errorHolder' ==
              if ok && !ok' then errorHolder + [Probe(settings, ps[k], InSettings).problem] else errorHolder
    ensures ok' ==> errorHolder' == []
    ensures Pending(ps, k + 1, settings, element.attributes, InSettings, ok', errorHolder') ==
            Pending(ps, k, settings, old(element.attributes), InSettings, ok, errorHolder)
  {
    if ok {
      TransferStep(ps, k, settings, element.attributes, InSettings);
      var c := WriteAttribute(settings, element, ps[k]);
      ok', errorHolder' := c.Pass?, errorHolder + c.Reported();
    } else {
      ok', errorHolder' := ok, errorHolder;
    }
  }

  /**
   * `ok && IOUtils.read...Attribute(...)`: the read of `ps[k]`, the `k`-th
   * parameter of the run `ps`, happens only while `ok` holds.
   */
  method ReadAnd(ok: bool, element: Element, settings: SettingsMap, ps: seq<Param>, k: nat,
                 errorHolder: seq<Problem>)
    returns (ok': bool, errorHolder': seq<Problem>)
    requires k < |ps|
    requires ok ==> errorHolder == []
    modifies settings
    ensures ok' == (ok && Present(element.attributes, ps[k]))
    ensures settings.entries ==
              if ok' then old(settings.entries)[ps[k].key := element.attributes[ps[k].key]] else old(settings.entries)
    ensures errorHolder' ==
              if ok && !ok' then errorHolder + [Probe(element.attributes, ps[k], InElement).problem] else errorHolder
    ensures ok' ==> errorHolder' == []
    ensures Pending(ps, k + 1, element.attributes, settings.entries, InElement, ok', errorHolder') ==
            Pending(ps, k, element.attributes, old(settings.entries), InElement, ok, errorHolder)
  {
    if ok {
      TransferStep(ps, k, element.attributes, settings.entries, InElement);
      var c := ReadAttribute(element, settings, ps[k]);
      ok', errorHolder' := c.Pass?, errorHolder + c.Reported();
    } else {
      ok', errorHolder' := ok, errorHolder;
    }
  }
}
