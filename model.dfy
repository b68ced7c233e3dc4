/** The backward-compatibility model entities `Transmitter` and `Call`:
    name resolution against the process-wide core state, the transmitter's
    call counter and its identification message. The static `state` field
    of the source is passed in as `Option<State>` (`None` = not set). */
module Model {
  import opened Common

  /** The parts of the core state the entities read: users and callsigns
      by (lower-case) name. */
  datatype State<U, C> = State(users: map<string, U>, callSigns: map<string, C>)

  const StateNotSet := "StateNotSetException"

  // ---------------------------------------------------------------------
  // All-or-nothing name resolution

  /** The entries a loop over `names` collects: found names only, in order. */
  function Found<V>(names: seq<string>, table: map<string, V>): seq<V>
  {
    if names == [] then []
    else
      var last := names[|names| - 1];
      Found(names[..|names| - 1], table) + (if last in table then [table[last]] else [])
  }

  /** The reference meaning of resolving a list of names: every name must
      resolve, and then the result lists the entries in name order. */
  function ResolveAll<V>(names: seq<string>, table: map<string, V>): Option<seq<V>>
  {
    if forall n :: n in names ==> n in table
    then Some(seq(|names|, i requires 0 <= i < |names| => table[names[i]]))
    else None
  }

  /** Collecting found entries loses exactly the names that do not
      resolve, so the collected list is as long as the names iff all
      resolve, and is then their lookup in order. */
  lemma {:induction false} FoundAllOrNothing<V>(names: seq<string>, table: map<string, V>)
    ensures |Found(names, table)| <= |names|
    ensures |Found(names, table)| == |names| <==> forall n :: n in names ==> n in table
    ensures |Found(names, table)| == |names| ==> Found(names, table) == ResolveAll(names, table).value
  {
    if names != [] {
      var init := names[..|names| - 1];
      var last := names[|names| - 1];
      FoundAllOrNothing(init, table);
      assert names == init + [last];
      assert forall n :: n in names <==> n in init || n == last;
    }
  }

  /** The lookup loop shared by `getOwners` and `getCallSigns`: append each
      entry that is found, skip the others. */
  method CollectFound<V>(names: seq<string>, table: map<string, V>) returns (result: seq<V>)
    ensures result == Found(names, table)
  {
    result := [];
    for i := 0 to |names|
      invariant result == Found(names[..i], table)
    {
      assert names[..i + 1][..i] == names[..i];
      if names[i] in table {
        result := result + [table[names[i]]];
      }
    }
    assert names[..|names|] == names;
  }

  // ---------------------------------------------------------------------
  // Java `long` arithmetic of the call counter

  const LongModulus: int := 0x1_0000_0000_0000_0000
  const LongMin: int := -0x8000_0000_0000_0000
  const LongMax: int := 0x7FFF_FFFF_FFFF_FFFF

  predicate IsLong(x: int) { LongMin <= x <= LongMax }

  /** Two's-complement wrap-around of a 64-bit `long`. */
  function WrapLong(x: int): (r: int)
    ensures IsLong(r)
    ensures (r - x) % LongModulus == 0
    ensures IsLong(x) ==> r == x
  {
    (x - LongMin) % LongModulus + LongMin
  }

  // ---------------------------------------------------------------------
  // The identification message

  datatype MessagePriority = EMERGENCY | TIME | CALL

  datatype FunctionalBits = NUMERIC | TONE | ACTIVATION | ALPHANUM

  /** `org.dapnet.backwardcompatibilityservice.transmission.PagerMessage`
      as built by its (text, address, priority, functional bits) constructor. */
  datatype CompatPagerMessage = CompatPagerMessage(text: Option<string>, address: int,
                                                   priority: MessagePriority, functionalBits: FunctionalBits)

  const DefaultIdentificationAddress := 1

  class Transmitter {
    var name: Option<string>
    var ownerNames: Option<seq<string>>
    var identificationAddress: int
    var callCount: int

    /** The call counter always holds a Java `long`. */
    ghost predicate Valid()
      reads this`callCount
    {
      IsLong(callCount)
    }

    /** The default state of a new transmitter record: no name and no
      owner names yet (Java null), identification address 1, no calls. */
    constructor ()
      ensures Valid()
      ensures name.None? && ownerNames.None?
      ensures identificationAddress == DefaultIdentificationAddress
      ensures callCount == 0
    {
      name := None;
      ownerNames := None;
      identificationAddress := DefaultIdentificationAddress;
      callCount := 0;
    }

    method SetName(n: Option<string>)
      modifies this`name
      ensures name == n
    {
      name := n;
    }

    method SetOwnerNames(names: Option<seq<string>>)
      modifies this`ownerNames
      ensures ownerNames == names
    {
      ownerNames := names;
    }

    method SetIdentificationAddress(address: int)
      modifies this`identificationAddress
      ensures identificationAddress == address
    {
      identificationAddress := address;
    }

    function GetCallCount(): (r: int)
      reads this
      ensures Valid() ==> IsLong(r)
    {
      callCount
    }

    method SetCallCount(count: int)
      requires IsLong(count)
      modifies this`callCount
      ensures Valid()
      ensures GetCallCount() == count
    {
      callCount := count;
    }

    /** `addAndGet(delta)` on the `AtomicLong`: the counter moves by
      `delta` modulo 2^64. */
    method UpdateCallCount(delta: int)
      requires Valid() && IsLong(delta)
      modifies this`callCount
      ensures Valid()
      ensures GetCallCount() == WrapLong(old(GetCallCount()) + delta)
      ensures IsLong(old(GetCallCount()) + delta) ==> GetCallCount() == old(GetCallCount()) + delta
    {
      callCount := WrapLong(callCount + delta);
    }

    /** `getOwners`: the unset state is reported first, then a missing owner
      list gives `None` (Java null); otherwise every owner name, taken as
      is, must name a user, else the result is `None` too. */
    method GetOwners<U, C>(state: Option<State<U, C>>) returns (r: Result<Option<seq<U>>>)
      ensures state.None? ==> r == Failure(StateNotSet)
      ensures state.Some? ==> r.Ok?
      ensures state.Some? && ownerNames.None? ==> r.value.None?
      ensures state.Some? && ownerNames.Some? ==> r.value == ResolveAll(ownerNames.value, state.value.users)
    {
      if state.None? {
        return Failure(StateNotSet);
      }
      if ownerNames.None? {
        return Ok(None);
      }
      var names := ownerNames.value;
      var result := CollectFound(names, state.value.users);
      FoundAllOrNothing(names, state.value.users);
      if |names| == |result| {
        return Ok(Some(result));
      } else {
        return Ok(None);
      }
    }

    /** `createCallSignMessage`: the transmitter's name (null while unset)
      as alphanumeric CALL-priority text to its identification address. */
    function CreateCallSignMessage(): (m: CompatPagerMessage)
      reads this
      ensures m.text == name && m.address == identificationAddress
      ensures m.priority == CALL && m.functionalBits == ALPHANUM
    {
      CompatPagerMessage(name, identificationAddress, CALL, ALPHANUM)
    }
  }

  class Call {
    var text: string
    var callSignNames: Option<seq<string>>
    var emergency: bool
    var ownerName: Option<string>

    constructor (text: string, callSignNames: Option<seq<string>>, emergency: bool, ownerName: Option<string>)
      ensures this.text == text && this.callSignNames == callSignNames
      ensures this.emergency == emergency && this.ownerName == ownerName
    {
      this.text := text;
      this.callSignNames := callSignNames;
      this.emergency := emergency;
      this.ownerName := ownerName;
    }

    method SetCallSignNames(names: Option<seq<string>>)
      modifies this`callSignNames
      ensures callSignNames == names
    {
      callSignNames := names;
    }

    method SetOwnerName(name: Option<string>)
      modifies this`ownerName
      ensures ownerName == name
    {
      ownerName := name;
    }

    /** `getCallSigns`: a missing name list gives `None` before the state is
      looked at; then an unset state fails; otherwise every name, lower-cased,
      must name a callsign, else the result is `None`. */
    method GetCallSigns<U, C>(state: Option<State<U, C>>) returns (r: Result<Option<seq<C>>>)
      ensures callSignNames.None? ==> r == Ok(None)
      ensures callSignNames.Some? && state.None? ==> r == Failure(StateNotSet)
      ensures callSignNames.Some? && state.Some? ==>
        r == Ok(ResolveAll(LowerAll(callSignNames.value), state.value.callSigns))
    {
      if callSignNames.None? {
        return Ok(None);
      }
      if state.None? {
        return Failure(StateNotSet);
      }
      var names := LowerAll(callSignNames.value);
      var result := CollectFound(names, state.value.callSigns);
      FoundAllOrNothing(names, state.value.callSigns);
      if |result| == |callSignNames.value| {
        return Ok(Some(result));
      } else {
        return Ok(None);
      }
    }

    /** `getOwner`: fails on an unset state, gives `None` for a missing owner
      name, and otherwise looks the lower-cased name up (`None` when absent). */
    function GetOwner<U, C>(state: Option<State<U, C>>): (r: Result<Option<U>>)
      reads this
      ensures state.None? <==> r.Failure?
      ensures state.Some? && ownerName.None? ==> r == Ok(None)
      ensures state.Some? && ownerName.Some? ==>
        (r.value.Some? <==> Lower(ownerName.value) in state.value.users) &&
        (r.value.Some? ==> r.value.value == state.value.users[Lower(ownerName.value)])
    {
      if state.None? then Failure(StateNotSet)
      else if ownerName.None? then Ok(None)
      else
        var key := Lower(ownerName.value);
        Ok(if key in state.value.users then Some(state.value.users[key]) else None)
    }
  }

  /** Each name lower-cased, as `getCallSigns` looks it up. */
  function LowerAll(names: seq<string>): (r: seq<string>)
    ensures |r| == |names| && forall i :: 0 <= i < |names| ==> r[i] == Lower(names[i])
  {
    seq(|names|, i requires 0 <= i < |names| => Lower(names[i]))
  }

  /** Owner names are matched exactly, callsign names after lower-casing: a
      mixed-case owner name that only matches in lower case does not resolve,
      while the same spelling resolves as a callsign name. */
  lemma CaseSensitivity<U, C>(u: U, c: C)
    ensures var s := State(map["dl1abc" := u], map["dl1abc" := c]);
      ResolveAll(["DL1ABC"], s.users).None? &&
      ResolveAll(LowerAll(["DL1ABC"]), s.callSigns) == Some([c])
  {
    assert "DL1ABC" in ["DL1ABC"];
    var low := Lower("DL1ABC");
    assert low[0] == 'd' && low[1] == 'l' && low[2] == '1' && low[3] == 'a' && low[4] == 'b' && low[5] == 'c';
    assert low == "dl1abc";
    assert LowerAll(["DL1ABC"]) == ["dl1abc"];
    var r := ResolveAll(["dl1abc"], map["dl1abc" := c]);
    assert forall n :: n in ["dl1abc"] ==> n == "dl1abc";
    assert r.Some? && |r.value| == 1 && r.value[0] == c;
    assert r.value == [c];
  }
}
