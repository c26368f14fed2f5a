/**
 * H265TimecodeInsertionBehaviorMapper: translation between the names of the
 * H265TimecodeInsertionBehavior enumerators and their values, with the
 * process-wide overflow table that keeps names the client does not know.
 *
 * The name-to-value direction compares hash codes, never strings. A name whose
 * hash is not that of a known enumerator is, when an overflow container exists,
 * stored in the container under its hash, and the hash itself is returned as
 * the enum value; the value-to-name direction reads it back from there.
 */
module MediaLive {
  import opened AwsCore

  /** The enumerators of H265TimecodeInsertionBehavior, in declaration order. */
  const NOT_SET: int32 := 0
  const DISABLED: int32 := 1
  const PIC_TIMING_SEI: int32 := 2

  /**
   * HashingUtils::HashString. Its code is not part of this model, so it is a
   * parameter: every result below holds whatever the hash function is.
   */
  type HashFunction = string -> int32

  /** True when the name's hash equals the hash of one of the two known names. */
  predicate IsKnownHash(hash: HashFunction, name: string) {
    hash(name) == hash("DISABLED") || hash(name) == hash("PIC_TIMING_SEI")
  }

  /** The values the switch of the value-to-name direction handles itself. */
  predicate IsKnownValue(v: int32) {
    v == DISABLED || v == PIC_TIMING_SEI
  }

  /**
   * What Aws::GetEnumOverflowContainer() yields, by value: no container at all,
   * or a container holding this table from hash codes to names.
   */
  datatype OverflowState = NoContainer | Container(overflowMap: map<int32, string>)

  /** EnumParseOverflowContainer: the process-wide table of names not known to the client. */
  class EnumParseOverflowContainer {
    var overflowMap: map<int32, string>

    constructor ()
      ensures overflowMap == map[]
    {
      overflowMap := map[];
    }

    /** Records `value` under `hashCode`; a name stored earlier under the same code is replaced. */
    method StoreOverflow(hashCode: int32, value: string)
      modifies this
      ensures overflowMap == old(overflowMap)[hashCode := value]
    {
      overflowMap := overflowMap[hashCode := value];
    }

    /** The name stored under `hashCode`, or the empty string when none was stored. */
    function RetrieveOverflow(hashCode: int32): (name: string)
      reads this
      ensures hashCode in overflowMap ==> name == overflowMap[hashCode]
      ensures hashCode !in overflowMap ==> name == ""
    {
      if hashCode in overflowMap then overflowMap[hashCode] else ""
    }
  }

  /** The overflow state a possibly-null container reference stands for. */
  function StateOf(container: EnumParseOverflowContainer?): OverflowState
    reads container
  {
    if container == null then NoContainer else Container(container.overflowMap)
  }

  /** The enum value GetH265TimecodeInsertionBehaviorForName returns for `name`. */
  function ValueForName(hash: HashFunction, name: string, st: OverflowState): (v: int32)
    ensures v == DISABLED || v == PIC_TIMING_SEI || v == NOT_SET || v == hash(name)
  {
    var hashCode := hash(name);
    if hashCode == hash("DISABLED") then DISABLED
    else if hashCode == hash("PIC_TIMING_SEI") then PIC_TIMING_SEI
    else if st.Container? then hashCode
    else NOT_SET
  }

  /** The overflow state after GetH265TimecodeInsertionBehaviorForName has looked up `name`. */
  function StateAfterLookup(hash: HashFunction, name: string, st: OverflowState): (r: OverflowState)
    // the container is neither created nor dropped
    ensures r.Container? <==> st.Container?
    // the table only grows, and no code other than the name's own changes
    ensures st.Container? ==> st.overflowMap.Keys <= r.overflowMap.Keys
    ensures st.Container? ==> r.overflowMap.Keys <= st.overflowMap.Keys + {hash(name)}
    ensures st.Container? ==> forall h :: h in st.overflowMap && h != hash(name) ==> r.overflowMap[h] == st.overflowMap[h]
  {
    var hashCode := hash(name);
    if hashCode == hash("DISABLED") || hashCode == hash("PIC_TIMING_SEI") then st
    else if st.Container? then Container(st.overflowMap[hashCode := name])
    else NoContainer
  }

  /**
   * GetForName: the imperative lookup, on the process-wide container, given by reference
   * (null when the SDK has no overflow container).
   */
  method GetH265TimecodeInsertionBehaviorForName(hash: HashFunction, name: string, container: EnumParseOverflowContainer?)
    returns (v: int32)
    modifies container
    ensures v == ValueForName(hash, name, old(StateOf(container)))
    ensures StateOf(container) == StateAfterLookup(hash, name, old(StateOf(container)))
  {
    var hashCode := hash(name);
    if hashCode == hash("DISABLED") {
      return DISABLED;
    } else if hashCode == hash("PIC_TIMING_SEI") {
      return PIC_TIMING_SEI;
    }
    if container != null {
      container.StoreOverflow(hashCode, name);
      return hashCode;
    }
    return NOT_SET;
  }

  /**
   * GetNameForH265TimecodeInsertionBehavior. It only reads the container, so it
   * is given the container's state by value.
   */
  function GetNameForH265TimecodeInsertionBehavior(enumValue: int32, st: OverflowState): (name: string)
    ensures enumValue == DISABLED ==> name == "DISABLED"
    ensures enumValue == PIC_TIMING_SEI ==> name == "PIC_TIMING_SEI"
    ensures !IsKnownValue(enumValue) && st.NoContainer? ==> name == ""
    ensures !IsKnownValue(enumValue) && st.Container? && enumValue !in st.overflowMap ==> name == ""
    ensures !IsKnownValue(enumValue) && st.Container? && enumValue in st.overflowMap ==> name == st.overflowMap[enumValue]
  {
    if enumValue == DISABLED then "DISABLED"
    else if enumValue == PIC_TIMING_SEI then "PIC_TIMING_SEI"
    else if st.Container? then (if enumValue in st.overflowMap then st.overflowMap[enumValue] else "")
    else ""
  }

  /** The overflow state after looking up each of `names` in turn. */
  function StateAfterLookups(hash: HashFunction, names: seq<string>, st: OverflowState): OverflowState
    decreases |names|
  {
    if names == [] then st else StateAfterLookups(hash, names[1..], StateAfterLookup(hash, names[0], st))
  }

  // ---------------------------------------------------------------------------
  // Properties of the mapper

  /**
   * The name-to-value direction compares hash codes: any name that collides with
   * "DISABLED" maps to DISABLED, any other that collides with "PIC_TIMING_SEI"
   * maps to PIC_TIMING_SEI, and in both cases nothing is written to the table.
   */
  lemma KnownHashesNeverStore(hash: HashFunction, name: string, st: OverflowState)
    ensures hash(name) == hash("DISABLED") ==> ValueForName(hash, name, st) == DISABLED
    ensures hash(name) == hash("PIC_TIMING_SEI") && hash(name) != hash("DISABLED") ==>
              ValueForName(hash, name, st) == PIC_TIMING_SEI
    ensures IsKnownHash(hash, name) ==> StateAfterLookup(hash, name, st) == st
  {
  }

  /** An unknown name with a container present is stored under its hash, which is returned. */
  lemma UnknownNameIsStored(hash: HashFunction, name: string, m: map<int32, string>)
    requires !IsKnownHash(hash, name)
    ensures ValueForName(hash, name, Container(m)) == hash(name)
    ensures StateAfterLookup(hash, name, Container(m)) == Container(m[hash(name) := name])
  {
  }

  /** An unknown name without a container yields NOT_SET and stores nothing. */
  lemma UnknownNameWithoutContainer(hash: HashFunction, name: string)
    requires !IsKnownHash(hash, name)
    ensures ValueForName(hash, name, NoContainer) == NOT_SET
    ensures StateAfterLookup(hash, name, NoContainer) == NoContainer
  {
  }

  /**
   * Round trip for the two known names. "DISABLED" always comes back; "PIC_TIMING_SEI"
   * comes back unless its hash collides with that of "DISABLED", which is tested first.
   */
  lemma RoundTripKnownNames(hash: HashFunction, st: OverflowState)
    ensures GetNameForH265TimecodeInsertionBehavior(ValueForName(hash, "DISABLED", st),
                                                    StateAfterLookup(hash, "DISABLED", st)) == "DISABLED"
    ensures hash("PIC_TIMING_SEI") != hash("DISABLED") ==>
              GetNameForH265TimecodeInsertionBehavior(ValueForName(hash, "PIC_TIMING_SEI", st),
                                                      StateAfterLookup(hash, "PIC_TIMING_SEI", st)) == "PIC_TIMING_SEI"
  {
  }

  /** A name that collides with "DISABLED" comes back as "DISABLED", not as itself. */
  lemma CollidingNameComesBackCanonical(hash: HashFunction, name: string, st: OverflowState)
    requires hash(name) == hash("DISABLED")
    ensures GetNameForH265TimecodeInsertionBehavior(ValueForName(hash, name, st),
                                                    StateAfterLookup(hash, name, st)) == "DISABLED"
  {
  }

  /**
   * Round trip for an unknown name: with a container present, and a hash that is
   * neither a known name's hash nor a known enumerator's value, the name is read
   * back from the overflow table.
   */
  lemma RoundTripUnknownName(hash: HashFunction, name: string, m: map<int32, string>)
    requires !IsKnownHash(hash, name) && !IsKnownValue(hash(name))
    ensures GetNameForH265TimecodeInsertionBehavior(ValueForName(hash, name, Container(m)),
                                                    StateAfterLookup(hash, name, Container(m))) == name
  {
  }

  /** Without a container, an unknown name does not survive the round trip: it comes back empty. */
  lemma NoContainerLosesUnknownName(hash: HashFunction, name: string)
    requires !IsKnownHash(hash, name)
    ensures GetNameForH265TimecodeInsertionBehavior(ValueForName(hash, name, NoContainer),
                                                    StateAfterLookup(hash, name, NoContainer)) == ""
  {
  }

  /**
   * A name stored under `code` stays there through any later lookups, as long as
   * no other name whose hash is `code` is stored in between.
   */
  lemma {:induction false} StoredNameSurvives(hash: HashFunction, later: seq<string>, m: map<int32, string>,
                                              code: int32, name: string)
    requires code in m && m[code] == name
    requires forall n :: n in later && hash(n) == code && !IsKnownHash(hash, n) ==> n == name
    ensures StateAfterLookups(hash, later, Container(m)).Container?
    ensures code in StateAfterLookups(hash, later, Container(m)).overflowMap
    ensures StateAfterLookups(hash, later, Container(m)).overflowMap[code] == name
    decreases |later|
  {
    if later != [] {
      var next := StateAfterLookup(hash, later[0], Container(m));
      assert later[0] in later;
      assert next.Container? && code in next.overflowMap && next.overflowMap[code] == name;
      forall n | n in later[1..] && hash(n) == code && !IsKnownHash(hash, n)
        ensures n == name
      {
        assert n in later;
      }
      StoredNameSurvives(hash, later[1..], next.overflowMap, code, name);
    }
  }

  /**
   * Round trip for an unknown name across later lookups: the name read back is the
   * original one whenever no other name with the same hash was stored since.
   */
  lemma RoundTripAfterLaterLookups(hash: HashFunction, name: string, later: seq<string>, m: map<int32, string>)
    requires !IsKnownHash(hash, name) && !IsKnownValue(hash(name))
    requires forall n :: n in later && hash(n) == hash(name) ==> n == name
    ensures var v := ValueForName(hash, name, Container(m));
            var st := StateAfterLookups(hash, later, StateAfterLookup(hash, name, Container(m)));
            GetNameForH265TimecodeInsertionBehavior(v, st) == name
  {
    StoredNameSurvives(hash, later, m[hash(name) := name], hash(name), name);
  }

  /** Lookups never create or drop the container: with one it stays, without one none appears. */
  lemma {:induction false} ContainerPresenceIsKept(hash: HashFunction, names: seq<string>, st: OverflowState)
    ensures StateAfterLookups(hash, names, st).Container? <==> st.Container?
    decreases |names|
  {
    if names != [] {
      ContainerPresenceIsKept(hash, names[1..], StateAfterLookup(hash, names[0], st));
    }
  }
}
