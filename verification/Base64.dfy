/** Standard base64 (section 4 of RFC 4648), decoded as Go's `base64.StdEncoding` does it: line breaks are
    skipped, padding is required, and the unused bits of the last digit are not checked. */
module Base64 {
  import opened Text

  type Byte = b: int | 0 <= b < 256

  function Digit(n: int): char
    requires 0 <= n < 64
  {
    if n < 26 then (65 + n) as char
    else if n < 52 then (71 + n) as char
    else if n < 62 then (n - 4) as char
    else if n == 62 then '+' else '/'
  }

  function Value(c: char): (v: Option<int>)
    ensures v.Some? ==> 0 <= v.value < 64
  {
    if 'A' <= c <= 'Z' then Some(c as int - 65)
    else if 'a' <= c <= 'z' then Some(c as int - 71)
    else if '0' <= c <= '9' then Some(c as int + 4)
    else if c == '+' then Some(62)
    else if c == '/' then Some(63) else None
  }

  lemma DigitValue(n: int)
    requires 0 <= n < 64
    ensures Value(Digit(n)) == Some(n) && Digit(n) != '=' && Digit(n) != '\n' && Digit(n) != '\r'
  {
  }

  function Encode(b: seq<Byte>): string {
    if |b| == 0 then ""
    else if |b| == 1 then [Digit(b[0] / 4), Digit(b[0] % 4 * 16), '=', '=']
    else if |b| == 2 then [Digit(b[0] / 4), Digit(b[0] % 4 * 16 + b[1] / 16), Digit(b[1] % 16 * 4), '=']
    else [Digit(b[0] / 4), Digit(b[0] % 4 * 16 + b[1] / 16), Digit(b[1] % 16 * 4 + b[2] / 64), Digit(b[2] % 64)] + Encode(b[3..])
  }

  function Strip(s: string): string {
    if s == "" then "" else (if s[0] == '\n' || s[0] == '\r' then "" else [s[0]]) + Strip(s[1..])
  }

  /** The bytes of a text without line breaks; None when it is corrupt. */
  function DecodeSolid(s: string): Option<seq<Byte>> {
    if s == "" then Some([])
    else if |s| < 4 || Value(s[0]).None? || Value(s[1]).None? then None
    else
      var v0, v1 := Value(s[0]).value, Value(s[1]).value;
      if s[2] == '=' then
        if s == [s[0], s[1], '=', '='] then Some([v0 * 4 + v1 / 16]) else None
      else if Value(s[2]).None? then None
      else
        var v2 := Value(s[2]).value;
        if s[3] == '=' then
          if |s| == 4 then Some([v0 * 4 + v1 / 16, v1 % 16 * 16 + v2 / 4]) else None
        else if Value(s[3]).None? then None
        else
          var rest := DecodeSolid(s[4..]);
          if rest.None? then None
          else Some([v0 * 4 + v1 / 16, v1 % 16 * 16 + v2 / 4, v2 % 4 * 64 + Value(s[3]).value] + rest.value)
  }

  /** `base64.StdEncoding.DecodeString`. */
  function Decode(s: string): Option<seq<Byte>> {
    DecodeSolid(Strip(s))
  }

  lemma {:induction false} EncodeIsSolid(b: seq<Byte>)
    ensures Strip(Encode(b)) == Encode(b)
  {
    StripSolid(Encode(b));
    if |b| >= 3 { EncodeIsSolid(b[3..]); StripSolid(Encode(b[3..])); }
    EncodeBreakFree(b);
  }

  lemma {:induction false} EncodeBreakFree(b: seq<Byte>)
    ensures '\n' !in Encode(b) && '\r' !in Encode(b)
  {
    forall n | 0 <= n < 64 { DigitValue(n); }
    if |b| >= 3 { EncodeBreakFree(b[3..]); }
  }

  lemma {:induction false} StripSolid(s: string)
    ensures '\n' !in s && '\r' !in s ==> Strip(s) == s
    ensures '\n' !in Strip(s) && '\r' !in Strip(s)
  {
    if s != "" { StripSolid(s[1..]); assert s == [s[0]] + s[1..]; }
  }

  /** Decoding undoes encoding. */
  lemma DecodeEncode(b: seq<Byte>)
    ensures Decode(Encode(b)) == Some(b)
  {
    EncodeIsSolid(b);
    DecodeSolidEncode(b);
  }

  /** Three bytes cut into four 6-bit values come back together. */
  lemma SixBits(x: Byte, y: Byte, z: Byte)
    ensures var v0, v1, v2, v3 := x / 4, x % 4 * 16 + y / 16, y % 16 * 4 + z / 64, z % 64;
            && 0 <= v0 < 64 && 0 <= v1 < 64 && 0 <= v2 < 64 && 0 <= v3 < 64
            && v0 * 4 + v1 / 16 == x && v1 % 16 * 16 + v2 / 4 == y && v2 % 4 * 64 + v3 == z
  {
    assert (x % 4 * 16 + y / 16) / 16 == x % 4 && (x % 4 * 16 + y / 16) % 16 == y / 16;
    assert (y % 16 * 4 + z / 64) / 4 == y % 16 && (y % 16 * 4 + z / 64) % 4 == z / 64;
  }

  lemma {:induction false} DecodeSolidEncode(b: seq<Byte>)
    ensures DecodeSolid(Encode(b)) == Some(b)
  {
    hide Digit, DecodeSolid;
    if |b| == 0 {
      Nothing();
    } else if |b| == 1 {
      SixBits(b[0], 0, 0);
      TwoDigits(b[0] / 4, b[0] % 4 * 16);
      assert b == [b[0]];
    } else if |b| == 2 {
      SixBits(b[0], b[1], 0);
      ThreeDigits(b[0] / 4, b[0] % 4 * 16 + b[1] / 16, b[1] % 16 * 4);
      assert b == [b[0], b[1]];
    } else {
      DecodeSolidEncode(b[3..]);
      FullGroup(b[0], b[1], b[2], Encode(b[3..]));
      assert b == [b[0], b[1], b[2]] + b[3..];
    }
  }

  lemma Nothing()
    ensures DecodeSolid("") == Some([])
  {
  }

  lemma TwoDigits(v0: int, v1: int)
    requires 0 <= v0 < 64 && 0 <= v1 < 64
    ensures DecodeSolid([Digit(v0), Digit(v1), '=', '=']) == Some([v0 * 4 + v1 / 16])
  {
    DigitValue(v0); DigitValue(v1);
    hide Digit, Value;
  }

  lemma FourDigits(v0: int, v1: int, v2: int, v3: int, rest: string)
    requires 0 <= v0 < 64 && 0 <= v1 < 64 && 0 <= v2 < 64 && 0 <= v3 < 64
    ensures var s := [Digit(v0), Digit(v1), Digit(v2), Digit(v3)] + rest;
            DecodeSolid(s) == if DecodeSolid(rest).None? then None
              else Some([v0 * 4 + v1 / 16, v1 % 16 * 16 + v2 / 4, v2 % 4 * 64 + v3] + DecodeSolid(rest).value)
  {
    DigitValue(v0); DigitValue(v1); DigitValue(v2); DigitValue(v3);
    var s := [Digit(v0), Digit(v1), Digit(v2), Digit(v3)] + rest;
    assert s[4..] == rest && s[0] == Digit(v0) && s[1] == Digit(v1) && s[2] == Digit(v2) && s[3] == Digit(v3);
    hide Digit, Value;
  }

  lemma ThreeDigits(v0: int, v1: int, v2: int)
    requires 0 <= v0 < 64 && 0 <= v1 < 64 && 0 <= v2 < 64
    ensures DecodeSolid([Digit(v0), Digit(v1), Digit(v2), '=']) == Some([v0 * 4 + v1 / 16, v1 % 16 * 16 + v2 / 4])
  {
    DigitValue(v0); DigitValue(v1); DigitValue(v2);
    hide Digit, Value;
  }

  lemma FullGroup(x: Byte, y: Byte, z: Byte, rest: string)
    ensures var s := [Digit(x / 4), Digit(x % 4 * 16 + y / 16), Digit(y % 16 * 4 + z / 64), Digit(z % 64)] + rest;
            DecodeSolid(s) == if DecodeSolid(rest).None? then None else Some([x, y, z] + DecodeSolid(rest).value)
  {
    hide Digit, DecodeSolid;
    SixBits(x, y, z);
    FourDigits(x / 4, x % 4 * 16 + y / 16, y % 16 * 4 + z / 64, z % 64, rest);
  }

  predicate Digits(s: string) {
    forall i :: 0 <= i < |s| ==> Value(s[i]).Some?
  }

  /** A text that ends in one added padding sign decodes to 3m + 2 bytes exactly when what precedes the
      sign is 4m + 3 digits. */
  lemma {:induction false} PaddedOnce(s: string, m: nat)
    ensures (DecodeSolid(s + "=").Some? && |DecodeSolid(s + "=").value| == 3 * m + 2) <==> |s| == 4 * m + 3 && Digits(s)
    decreases m
  {
    var t := s + "=";
    assert |s| > 2 ==> t[0] == s[0] && t[1] == s[1] && t[2] == s[2];
    if m > 0 && |s| >= 4 {
      assert t[4..] == s[4..] + "=" && t[3] == s[3];
      PaddedOnce(s[4..], m - 1);
      assert Digits(s) ==> Value(s[0]).Some? && Value(s[1]).Some? && Value(s[2]).Some? && Value(s[3]).Some? && Digits(s[4..]);
      assert Value(s[0]).Some? && Value(s[1]).Some? && Value(s[2]).Some? && Value(s[3]).Some? && Digits(s[4..]) ==> Digits(s) by {
        assert forall i :: 4 <= i < |s| ==> s[i] == s[4..][i - 4];
      }
    } else if |s| == 3 {
      assert t[3] == '=';
    }
  }
}
