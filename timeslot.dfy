/** The `@TimeSlot` constraint of the legacy transmitter model: a time-slot
    string lists the slots a transmitter may use, one hexadecimal digit per
    slot, each slot at most once and in increasing order. */
module TimeSlotValidator {
  import opened Common

  /** `Integer.parseInt(c, 16)` on a one-character string: the digit's value,
      or `None` where Java throws `NumberFormatException`. */
  function HexValue(c: char): (r: Option<int>)
    ensures r.Some? <==> ('0' <= c <= '9' || 'a' <= c <= 'f' || 'A' <= c <= 'F')
    ensures r.Some? ==> 0 <= r.value < 16
    ensures '0' <= c <= '9' ==> r == Some(c as int - '0' as int)
    ensures 'a' <= c <= 'f' ==> r == Some(10 + c as int - 'a' as int)
    ensures 'A' <= c <= 'F' ==> r == Some(10 + c as int - 'A' as int)
  {
    if '0' <= c <= '9' then Some(c as int - '0' as int)
    else if 'a' <= c <= 'f' then Some(c as int - 'a' as int + 10)
    else if 'A' <= c <= 'F' then Some(c as int - 'A' as int + 10)
    else None
  }

  predicate AllHex(s: string)
  {
    forall i :: 0 <= i < |s| ==> HexValue(s[i]).Some?
  }

  /** What a valid time slot is: hex digits only, and the digit values
      strictly increase over the whole string (every pair, not only
      neighbours). */
  predicate ValidTimeSlot(s: string)
  {
    AllHex(s) &&
    forall i, j :: 0 <= i < j < |s| ==> HexValue(s[i]).value < HexValue(s[j]).value
  }

  /** `TimeSlotValidator.isValid`: walks the string once, remembering the
      last slot (`minSlot`), and fails as soon as a character does not parse
      or a slot does not exceed its predecessor. */
  method IsValid(value: string) returns (ok: bool)
    ensures ok <==> ValidTimeSlot(value)
  {
    var minSlot := -1;
    for i := 0 to |value|
      invariant ValidTimeSlot(value[..i])
      invariant minSlot == if i == 0 then -1 else HexValue(value[i - 1]).value
    {
      var parsed := HexValue(value[i]);
      if parsed.None? {
        assert !AllHex(value);
        return false;
      }
      var slot := parsed.value;
      if slot <= minSlot || slot >= 16 {
        assert i > 0 && HexValue(value[i - 1]).value >= HexValue(value[i]).value;
        return false;
      }
      minSlot := slot;
      assert value[..i + 1] == value[..i] + [value[i]];
    }
    assert value[..|value|] == value;
    return true;
  }

  /** Every slot value is below 16, so the guard `slot >= 16` in the source
      never decides anything. */
  lemma SlotBoundNeverFires(c: char)
    requires HexValue(c).Some?
    ensures !(HexValue(c).value >= 16)
  {
  }

  /** Strictly increasing values from [lo, 16) leave room for at most 16 - lo of them. */
  lemma {:induction false} IncreasingLength(s: string, lo: int)
    requires ValidTimeSlot(s)
    requires 0 <= lo
    requires forall i :: 0 <= i < |s| ==> lo <= HexValue(s[i]).value
    ensures |s| <= 16 - lo || s == []
  {
    if |s| > 0 {
      var v := HexValue(s[0]).value;
      var rest := s[1..];
      assert ValidTimeSlot(rest) by {
        forall i, j | 0 <= i < j < |rest|
          ensures HexValue(rest[i]).value < HexValue(rest[j]).value
        {
          assert rest[i] == s[i + 1] && rest[j] == s[j + 1];
        }
      }
      forall i | 0 <= i < |rest| ensures v + 1 <= HexValue(rest[i]).value {
        assert rest[i] == s[i + 1];
      }
      if rest != [] {
        IncreasingLength(rest, v + 1);
      }
    }
  }

  /** A valid time slot names each of the 16 slots at most once. */
  lemma ValidIsShort(s: string)
    requires ValidTimeSlot(s)
    ensures |s| <= 16
  {
    IncreasingLength(s, 0);
  }

  /** Case does not matter: upper-casing a string keeps it valid or invalid. */
  lemma {:induction false} CaseInsensitive(s: string)
    ensures ValidTimeSlot(Upper(s)) <==> ValidTimeSlot(s)
  {
    var u := Upper(s);
    forall i | 0 <= i < |s| ensures HexValue(u[i]) == HexValue(s[i]) {
      assert u[i] == UpperChar(s[i]);
    }
    assert AllHex(u) <==> AllHex(s);
  }

  /** The examples of the source's comment, checked against the code: the
      listed `0123768EF` is rejected because 7 is followed by 6. */
  lemma CommentExamples()
    ensures ValidTimeSlot("47E") && ValidTimeSlot("0F") && ValidTimeSlot("0f") && ValidTimeSlot("4")
    ensures ValidTimeSlot("")
    ensures !ValidTimeSlot("0123768EF")
    ensures !ValidTimeSlot("98754") && !ValidTimeSlot("47H") && !ValidTimeSlot("33")
  {
    var bad := "0123768EF";
    assert HexValue(bad[4]).value >= HexValue(bad[5]).value;
    assert HexValue("98754"[0]).value >= HexValue("98754"[1]).value;
    assert HexValue("47H"[2]).None?;
    assert HexValue("33"[0]).value >= HexValue("33"[1]).value;
  }
}
