/** The Skyper call message factory: turns a call into one page per Skyper
    pager of every addressed callsign, choosing alphanumeric or numeric
    paging from the callsign's capability. The callsign repository is an
    immutable snapshot (what the source reads under its read lock), the
    clock value and the text encoder are parameters. */
module SkyperCallMessageFactory {
  import opened Common
  import opened CoreMessages

  /** Pager protocol families; only SKYPER matters to this factory. */
  datatype PagerType = SKYPER | OtherType(family: string)

  datatype Pager = Pager(number: int, pagerType: PagerType)

  datatype CallSign = CallSign(name: string, numeric: bool, pagers: seq<Pager>)

  datatype Call = Call(text: string, emergency: bool, callSignNames: seq<string>)

  /** One character of `NUMERIC_PATTERN`'s class `[-Uu\d\(\) ]`. */
  predicate IsNumericChar(c: char)
    ensures IsNumericChar(c) <==> c in "-Uu0123456789() "
  {
    c == '-' || c == 'U' || c == 'u' || ('0' <= c <= '9') || c == '(' || c == ')' || c == ' '
  }

  /** `NUMERIC_PATTERN.matcher(text).matches()`: the `+` demands at least
      one character. */
  predicate IsNumericText(s: string)
    ensures IsNumericText(s) <==> s != [] && forall c :: c in s ==> c in "-Uu0123456789() "
  {
    |s| > 0 && forall i :: 0 <= i < |s| ==> IsNumericChar(s[i])
  }

  /** Emergency calls page at `EMERGENCY`, all others at `CALL`; never `TIME`. */
  function CallPriority(call: Call): (p: Priority)
    ensures p == EMERGENCY <==> call.emergency
    ensures p == CALL <==> !call.emergency
    ensures p != TIME
  {
    if call.emergency then EMERGENCY else CALL
  }

  /** How a callsign is paged: sub-address, content type and text. */
  datatype Encoding = Encoding(subAddress: SubAddress, contentType: ContentType, text: string)

  /** The capability branch of `createMessage` for one callsign; `None` is
      the skip of a numeric-only callsign given non-numeric text. */
  function ChooseEncoding(cs: CallSign, numeric: bool, text: string, encoder: string -> string): (r: Option<Encoding>)
    ensures r.None? <==> cs.numeric && !numeric
    ensures r.Some? ==> (r.value.contentType == NUMERIC <==> cs.numeric)
    ensures r.Some? ==> r.value.subAddress == (if cs.numeric then ADDR_A else ADDR_D)
    ensures r.Some? && cs.numeric ==> r.value.text == Upper(text)
    ensures r.Some? && !cs.numeric ==> r.value.text == encoder(text)
  {
    if !cs.numeric then Some(Encoding(ADDR_D, ALPHANUMERIC, encoder(text)))
    else if numeric then Some(Encoding(ADDR_A, NUMERIC, Upper(text)))
    else None
  }

  /** The Skyper pagers of a list, in list order. */
  function SkyperPagers(pagers: seq<Pager>): (r: seq<Pager>)
  {
    if pagers == [] then []
    else
      var last := pagers[|pagers| - 1];
      SkyperPagers(pagers[..|pagers| - 1]) + (if last.pagerType == SKYPER then [last] else [])
  }

  /** The inner loop: one message per Skyper pager. */
  function PagerMessages(pagers: seq<Pager>, now: int, priority: Priority, enc: Encoding): seq<PagerMessage>
  {
    if pagers == [] then []
    else
      var last := pagers[|pagers| - 1];
      PagerMessages(pagers[..|pagers| - 1], now, priority, enc) +
        (if last.pagerType == SKYPER
         then [PagerMessage(Some(now), priority, last.number, enc.subAddress, enc.contentType, enc.text)]
         else [])
  }

  /** The messages one callsign name contributes. */
  function NameMessages(name: string, call: Call, repo: map<string, CallSign>, numeric: bool,
                        now: int, encoder: string -> string): seq<PagerMessage>
  {
    if name !in repo then []
    else match ChooseEncoding(repo[name], numeric, call.text, encoder)
      case None => []
      case Some(enc) => PagerMessages(repo[name].pagers, now, CallPriority(call), enc)
  }

  /** The outer loop over the first names of a call. */
  function NamesMessages(names: seq<string>, call: Call, repo: map<string, CallSign>, numeric: bool,
                         now: int, encoder: string -> string): seq<PagerMessage>
  {
    if names == [] then []
    else
      NamesMessages(names[..|names| - 1], call, repo, numeric, now, encoder) +
        NameMessages(names[|names| - 1], call, repo, numeric, now, encoder)
  }

  /** The whole result of `createMessage`; the numeric test is made once. */
  function Messages(call: Call, repo: map<string, CallSign>, now: int, encoder: string -> string): seq<PagerMessage>
  {
    NamesMessages(call.callSignNames, call, repo, IsNumericText(call.text), now, encoder)
  }

  /** The inner loop of `createMessage`: one message per Skyper pager of
      the callsign, appended in pager order. */
  method AddPagerMessages(messages: seq<PagerMessage>, pagers: seq<Pager>, now: int, priority: Priority,
                          enc: Encoding)
    returns (r: seq<PagerMessage>)
    ensures r == messages + PagerMessages(pagers, now, priority, enc)
  {
    r := messages;
    for j := 0 to |pagers|
      invariant r == messages + PagerMessages(pagers[..j], now, priority, enc)
    {
      assert pagers[..j + 1][..j] == pagers[..j];
      if pagers[j].pagerType == SKYPER {
        r := r + [PagerMessage(Some(now), priority, pagers[j].number, enc.subAddress, enc.contentType, enc.text)];
      }
    }
    assert pagers[..|pagers|] == pagers;
  }

  /** `createMessage`: for each callsign name in order, skip unknown names,
      choose the encoding, and add a message per Skyper pager. */
  method CreateMessage(call: Call, repo: map<string, CallSign>, now: int, encoder: string -> string)
    returns (messages: seq<PagerMessage>)
    ensures messages == Messages(call, repo, now, encoder)
  {
    var priority := if call.emergency then EMERGENCY else CALL;
    messages := [];
    var numeric := IsNumericText(call.text);
    var names := call.callSignNames;
    for i := 0 to |names|
      invariant messages == NamesMessages(names[..i], call, repo, numeric, now, encoder)
    {
      assert names[..i + 1][..i] == names[..i];
      var name := names[i];
      if name !in repo {
        continue;
      }
      var callsign := repo[name];
      var enc;
      if !callsign.numeric {
        enc := Encoding(ADDR_D, ALPHANUMERIC, encoder(call.text));
      } else if numeric {
        enc := Encoding(ADDR_A, NUMERIC, Upper(call.text));
      } else {
        continue;
      }
      assert ChooseEncoding(callsign, numeric, call.text, encoder) == Some(enc);
      messages := AddPagerMessages(messages, callsign.pagers, now, priority, enc);
    }
    assert names[..|names|] == names;
  }

  // ---------------------------------------------------------------------
  // Properties of the result

  /** SkyperPagers keeps exactly the Skyper pagers, in order. */
  lemma {:induction false} SkyperPagersFilter(pagers: seq<Pager>)
    ensures forall p :: p in SkyperPagers(pagers) <==> p in pagers && p.pagerType == SKYPER
    ensures |SkyperPagers(pagers)| <= |pagers|
  {
    if pagers != [] {
      SkyperPagersFilter(pagers[..|pagers| - 1]);
      assert pagers == pagers[..|pagers| - 1] + [pagers[|pagers| - 1]];
    }
  }

  /** Exactly one message per Skyper pager, addressed to that pager's
      number, in pager order, each with the call's timestamp, priority and
      the chosen encoding. */
  lemma {:induction false} PagerMessagesPerSkyperPager(pagers: seq<Pager>, now: int, priority: Priority, enc: Encoding)
    ensures var r := PagerMessages(pagers, now, priority, enc);
      |r| == |SkyperPagers(pagers)| &&
      forall k :: 0 <= k < |r| ==>
        r[k] == PagerMessage(Some(now), priority, SkyperPagers(pagers)[k].number, enc.subAddress, enc.contentType, enc.text)
  {
    if pagers != [] {
      PagerMessagesPerSkyperPager(pagers[..|pagers| - 1], now, priority, enc);
    }
  }

  /** Names are handled in order: the messages for `a + b` are those for
      `a` followed by those for `b`. */
  lemma {:induction false} NamesMessagesAppend(a: seq<string>, b: seq<string>, call: Call, repo: map<string, CallSign>,
                                              numeric: bool, now: int, encoder: string -> string)
    ensures NamesMessages(a + b, call, repo, numeric, now, encoder) ==
      NamesMessages(a, call, repo, numeric, now, encoder) + NamesMessages(b, call, repo, numeric, now, encoder)
  {
    if b != [] {
      var b' := b[..|b| - 1];
      assert (a + b)[..|a + b| - 1] == a + b';
      assert (a + b)[|a + b| - 1] == b[|b| - 1];
      NamesMessagesAppend(a, b', call, repo, numeric, now, encoder);
    } else {
      assert a + b == a;
    }
  }

  /** A name the repository does not know contributes nothing and does not
      stop the names after it. */
  lemma UnknownNameSkipped(a: seq<string>, name: string, b: seq<string>, call: Call, repo: map<string, CallSign>,
                           now: int, encoder: string -> string)
    requires name !in repo
    ensures Messages(call.(callSignNames := a + [name] + b), repo, now, encoder) ==
      Messages(call.(callSignNames := a + b), repo, now, encoder)
  {
    var numeric := IsNumericText(call.text);
    var c1, c2 := call.(callSignNames := a + [name] + b), call.(callSignNames := a + b);
    NamesMessagesAppend(a + [name], b, c1, repo, numeric, now, encoder);
    NamesMessagesAppend(a, [name], c1, repo, numeric, now, encoder);
    NamesMessagesAppend(a, b, c2, repo, numeric, now, encoder);
    assert NamesMessages([name], c1, repo, numeric, now, encoder) == [] by {
      assert [name][..0] == [];
    }
    NamesMessagesSameText(a, c1, c2, repo, numeric, now, encoder);
    NamesMessagesSameText(b, c1, c2, repo, numeric, now, encoder);
  }

  /** Only the text and the emergency flag of a call reach the messages. */
  lemma {:induction false} NamesMessagesSameText(names: seq<string>, c1: Call, c2: Call, repo: map<string, CallSign>,
                                                numeric: bool, now: int, encoder: string -> string)
    requires c1.text == c2.text && c1.emergency == c2.emergency
    ensures NamesMessages(names, c1, repo, numeric, now, encoder) == NamesMessages(names, c2, repo, numeric, now, encoder)
  {
    if names != [] {
      NamesMessagesSameText(names[..|names| - 1], c1, c2, repo, numeric, now, encoder);
    }
  }

  /** Every message of a call carries the call's timestamp and priority
      (EMERGENCY exactly when the call is an emergency), and is one of the
      two encodings the source emits. */
  lemma {:induction false} MessagesUniform(names: seq<string>, call: Call, repo: map<string, CallSign>,
                                          now: int, encoder: string -> string)
    ensures forall m :: m in NamesMessages(names, call, repo, IsNumericText(call.text), now, encoder) ==>
      m.timestamp == Some(now) &&
      (m.priority == EMERGENCY <==> call.emergency) && (m.priority == CALL <==> !call.emergency) &&
      ((m.subAddress == ADDR_D && m.contentType == ALPHANUMERIC && m.text == encoder(call.text)) ||
       (m.subAddress == ADDR_A && m.contentType == NUMERIC && m.text == Upper(call.text) && IsNumericText(call.text)))
  {
    if names != [] {
      var numeric := IsNumericText(call.text);
      MessagesUniform(names[..|names| - 1], call, repo, now, encoder);
      var name := names[|names| - 1];
      if name in repo {
        var enc := ChooseEncoding(repo[name], numeric, call.text, encoder);
        if enc.Some? {
          PagerMessagesPerSkyperPager(repo[name].pagers, now, CallPriority(call), enc.value);
        }
      }
    }
  }

  /** The messages of one known callsign: alphanumeric callsigns always get
      the encoded text on sub-address D, whatever the text; numeric-only
      callsigns get the upper-cased text on sub-address A when the text is
      numeric, and nothing otherwise. */
  lemma CallSignBranches(name: string, call: Call, repo: map<string, CallSign>, now: int, encoder: string -> string)
    requires name in repo
    ensures var cs := repo[name];
      var r := Messages(call.(callSignNames := [name]), repo, now, encoder);
      var skypers := SkyperPagers(cs.pagers);
      (!cs.numeric ==> |r| == |skypers| && forall k :: 0 <= k < |r| ==>
         r[k] == PagerMessage(Some(now), CallPriority(call), skypers[k].number, ADDR_D, ALPHANUMERIC, encoder(call.text))) &&
      (cs.numeric && IsNumericText(call.text) ==> |r| == |skypers| && forall k :: 0 <= k < |r| ==>
         r[k] == PagerMessage(Some(now), CallPriority(call), skypers[k].number, ADDR_A, NUMERIC, Upper(call.text))) &&
      (cs.numeric && !IsNumericText(call.text) ==> r == [])
  {
    var c := call.(callSignNames := [name]);
    var numeric := IsNumericText(call.text);
    assert [name][..0] == [];
    assert NamesMessages([name][..0], c, repo, numeric, now, encoder) == [];
    assert NamesMessages([name], c, repo, numeric, now, encoder) == NameMessages(name, c, repo, numeric, now, encoder);
    var enc := ChooseEncoding(repo[name], IsNumericText(call.text), call.text, encoder);
    if enc.Some? {
      PagerMessagesPerSkyperPager(repo[name].pagers, now, CallPriority(call), enc.value);
    }
  }

  /** On numeric text, upper-casing only turns `u` into `U`. */
  lemma NumericUpper(s: string)
    requires IsNumericText(s)
    ensures |Upper(s)| == |s|
    ensures forall i :: 0 <= i < |s| ==> Upper(s)[i] == (if s[i] == 'u' then 'U' else s[i])
    ensures IsNumericText(Upper(s))
  {
  }

  /** The three capability cases of `createMessage`: numeric text to an alphanumeric
      callsign is encoded, to a numeric-only callsign it is sent as is, and
      alphabetic text to a numeric-only callsign sends nothing. */
  lemma CapabilityCases(encoder: string -> string, now: int)
    ensures var pager := Pager(1234, SKYPER);
      var alpha := map["dl1abc" := CallSign("dl1abc", false, [pager])];
      var num := map["dl1abc" := CallSign("dl1abc", true, [pager])];
      Messages(Call("12345", false, ["dl1abc"]), alpha, now, encoder) ==
        [PagerMessage(Some(now), CALL, 1234, ADDR_D, ALPHANUMERIC, encoder("12345"))] &&
      Messages(Call("12345", false, ["dl1abc"]), num, now, encoder) ==
        [PagerMessage(Some(now), CALL, 1234, ADDR_A, NUMERIC, "12345")] &&
      Messages(Call("abc", false, ["dl1abc"]), num, now, encoder) == []
  {
    var pager := Pager(1234, SKYPER);
    var alpha := map["dl1abc" := CallSign("dl1abc", false, [pager])];
    var num := map["dl1abc" := CallSign("dl1abc", true, [pager])];
    assert IsNumericText("12345");
    assert !IsNumericChar("abc"[0]);
    assert Upper("12345") == "12345";
    CallSignBranches("dl1abc", Call("12345", false, ["dl1abc"]), alpha, now, encoder);
    CallSignBranches("dl1abc", Call("12345", false, ["dl1abc"]), num, now, encoder);
    CallSignBranches("dl1abc", Call("abc", false, ["dl1abc"]), num, now, encoder);
    assert [pager][..0] == [];
    assert SkyperPagers([pager]) == [pager];
  }
}
