/**
 * The values held in a detector settings map and in an XML element, and the
 * problems the validating and (de)serialising helpers report about them.
 */
module Values {

  /** Java's 32-bit `int`. */
  newtype int32 = x: int | -0x8000_0000 <= x < 0x8000_0000

  /** Java's `int` subtraction, which wraps around on overflow. */
  function Sub32(a: int32, b: int32): (r: int32)
    ensures -0x8000_0000 <= a as int - b as int < 0x8000_0000 ==> r as int == a as int - b as int
    ensures (r as int - (a as int - b as int)) % 0x1_0000_0000 == 0
  {
    var d := a as int - b as int;
    if d < -0x8000_0000 then (d + 0x1_0000_0000) as int32
    else if d >= 0x8000_0000 then (d - 0x1_0000_0000) as int32
    else d as int32
  }

  /**
   * A boxed value stored under a settings key: an `Integer`, a `Double` or a
   * `Boolean`. Doubles are carried as reals; nothing computes with them.
   */
  datatype Value = IntV(i: int32) | DblV(d: real) | BoolV(b: bool)

  /** The Java class a helper is asked to check a value against. */
  datatype Kind = IntegerClass | DoubleClass | BooleanClass

  /** `expected.isInstance(v)` */
  predicate IsInstance(v: Value, expected: Kind) {
    match expected
    case IntegerClass => v.IntV?
    case DoubleClass => v.DblV?
    case BooleanClass => v.BoolV?
  }

  /** Where a helper looked for a key. */
  datatype Place = InSettings | InElement

  /** One entry appended to an error holder by a failing helper. */
  datatype Problem =
    | NotFound(key: string, place: Place)
    | WrongClass(key: string, expected: Kind, place: Place)
    | KeySetMismatch(unexpected: set<string>, missing: set<string>)

  /** The verdict of one helper call: passed, or failed with the problem it appended. */
  datatype Check = Pass | Fail(problem: Problem) {
    /** What the call appended to the error holder. */
    function Reported(): seq<Problem> {
      if Pass? then [] else [problem]
    }
  }

  /** A mutable `Map<String, Object>` of detector settings, shared by reference. */
  class SettingsMap {
    var entries: map<string, Value>

    constructor ()
      ensures entries == map[]
    {
      entries := map[];
    }

    method Put(key: string, v: Value)
      modifies this
      ensures entries == old(entries)[key := v]
    {
      entries := entries[key := v];
    }

    method Clear()
      modifies this
      ensures entries == map[]
    {
      entries := map[];
    }
  }

  /**
   * An XML element whose attributes hold the values written into it; the
   * text form of an attribute is abstracted to the value it renders.
   */
  class Element {
    var attributes: map<string, Value>

    constructor ()
      ensures attributes == map[]
    {
      attributes := map[];
    }

    method SetAttribute(key: string, v: Value)
      modifies this
      ensures attributes == old(attributes)[key := v]
    {
      attributes := attributes[key := v];
    }
  }
}
