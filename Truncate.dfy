/** The demo console's column helper: a value too wide for its column is cut
    and marked with "...". A .NET `string` is a sequence of UTF-16 code units,
    and `Length` and `Substring` count code units, so the value is modelled as
    one. */
module DemoConsole {
  import opened Wrappers
  import opened Faults
  import opened Paging

  /** One UTF-16 code unit, the element of a .NET `string`. */
  type CodeUnit = x: int | 0 <= x < 0x1_0000

  /** A .NET `string`: any sequence of code units, lone surrogates included. */
  type NetString = seq<CodeUnit>

  /** The UTF-16 encoding of one Unicode scalar value: itself below U+10000,
      otherwise a high surrogate followed by a low surrogate. */
  function EncodeChar(c: char): (r: NetString)
    ensures 1 <= |r| <= 2
    ensures (c as int) < 0x1_0000 ==> r == [c as int]
    ensures (c as int) >= 0x1_0000 ==>
              |r| == 2 && 0xD800 <= r[0] < 0xDC00 && 0xDC00 <= r[1] < 0xE000
              && (r[0] as int - 0xD800) * 0x400 + (r[1] as int - 0xDC00) + 0x1_0000 == c as int
  {
    var v := c as int;
    if v < 0x1_0000 then [v]
    else
      var u := v - 0x1_0000;
      [0xD800 + u / 0x400, 0xDC00 + u % 0x400]
  }

  /** A Dafny string as the .NET string holding the same text. */
  function Encode(s: string): (r: NetString)
    ensures |r| >= |s|
  {
    if s == [] then [] else EncodeChar(s[0]) + Encode(s[1..])
  }

  /** Text inside the Basic Multilingual Plane takes one code unit per
      character, so its .NET length is its length in characters. */
  lemma {:induction false} EncodeBmp(s: string)
    requires forall i | 0 <= i < |s| :: (s[i] as int) < 0x1_0000
    ensures |Encode(s)| == |s|
    ensures forall i | 0 <= i < |s| :: Encode(s)[i] == s[i] as int
  {
    if s != [] {
      EncodeBmp(s[1..]);
      assert Encode(s) == [s[0] as int] + Encode(s[1..]);
    }
  }

  /** `"..."`, three code units U+002E. */
  const Ellipsis: NetString := [0x2E, 0x2E, 0x2E]

  /** `Truncate(value, maxLength)`. `null` and "" print as "". A value whose
      code-unit `Length` fits is kept. A longer one keeps its first
      `maxLength - 3` code units, computed in unchecked 32-bit arithmetic, and
      gains "..."; `Substring` refuses a length that is negative or past the
      end. */
  function Truncate(value: Option<NetString>, maxLength: int32): (r: Result<NetString, Fault>)
    ensures (value.None? || value.value == []) ==> r == Success([])
    ensures value.Some? && 0 < |value.value| <= maxLength ==> r == Success(value.value)
    ensures r.Failure? ==> r.error == ArgumentOutOfRange("length")
    ensures value.Some? && value.value != [] && |value.value| > maxLength && maxLength - 3 >= -0x8000_0000 ==>
              (r.Failure? <==> maxLength < 3)
    ensures value.Some? && |value.value| > maxLength >= 3 ==>
              r.Success? && |r.value| == maxLength as int
              && r.value == value.value[..maxLength - 3] + Ellipsis
  {
    if value.None? || value.value == [] then Success([])
    else if |value.value| <= maxLength then Success(value.value)
    else
      var length := Wrap32(maxLength - 3);
      if length < 0 || length > |value.value| then Failure(ArgumentOutOfRange("length"))
      else Success(value.value[..length] + Ellipsis)
  }

  /** Whatever fits the column is printed: a successful result is never wider
      than the column, once the column is at least three wide. */
  lemma TruncateFits(value: Option<NetString>, maxLength: int32)
    requires maxLength >= 3
    ensures Truncate(value, maxLength).Success?
    ensures |Truncate(value, maxLength).value| <= maxLength as int
  {
  }

  /** Truncating an already truncated value changes nothing. */
  lemma TruncateIdempotent(value: Option<NetString>, maxLength: int32)
    requires maxLength >= 3
    ensures Truncate(Some(Truncate(value, maxLength).value), maxLength) == Truncate(value, maxLength)
  {
    TruncateFits(value, maxLength);
  }

  /** A value is changed only when it is wider than its column, and then what is
      kept is a prefix of it. */
  lemma TruncateKeepsPrefix(v: NetString, maxLength: int32)
    requires maxLength >= 3 && |v| > maxLength
    ensures var r := Truncate(Some(v), maxLength).value;
            r[..|r| - 3] <= v && r[|r| - 3..] == Ellipsis
  {
  }

  /** Two characters outside the Basic Multilingual Plane are four code units,
      too wide for a column of 3: only "..." is printed. */
  lemma WideTextIsCutByCodeUnits()
    ensures Truncate(Some(Encode("\U{1F600}\U{1F600}")), 3) == Success(Ellipsis)
  {
    var e := EncodeChar('\U{1F600}');
    assert e == [0xD83D, 0xDE00];
    var s := "\U{1F600}\U{1F600}";
    assert s[1..] == "\U{1F600}" && s[1..][1..] == "";
    assert Encode(s) == e + (e + []);
    assert |Encode(s)| == 4;
    assert Wrap32(3 - 3) == 0;
    assert Encode(s)[..0] + Ellipsis == Ellipsis;
  }

  /** The cut can fall between the two halves of a surrogate pair: the result
      then holds a lone high surrogate, as `Substring` returns it. */
  lemma CutCanSplitSurrogatePair()
    ensures Truncate(Some(Encode("\U{1F600}abcd")), 4) == Success([0xD83D] + Ellipsis)
  {
    var s := "\U{1F600}abcd";
    assert s[1..] == "abcd";
    EncodeBmp("abcd");
    assert EncodeChar('\U{1F600}') == [0xD83D, 0xDE00];
    assert Encode(s) == [0xD83D, 0xDE00] + Encode("abcd");
    assert |Encode(s)| == 6;
    assert Wrap32(4 - 3) == 1;
    assert Encode(s)[..1] == [0xD83D];
  }
}
