/**
 * Foreign strings (`System.String`): a length and inline UTF-16 code units, decoded to text
 * by `get_string` (which reports invalid input) and `to_string` (which turns it into "").
 * UTF-16 follows section 2.2 of RFC 2781; a Dafny `char` is a Unicode scalar value.
 */
module Strings {
  import opened Primitives

  predicate IsHighSurrogate(w: u16) {
    0xD800 <= w <= 0xDBFF
  }

  predicate IsLowSurrogate(w: u16) {
    0xDC00 <= w <= 0xDFFF
  }

  predicate IsSurrogate(w: u16) {
    0xD800 <= w <= 0xDFFF
  }

  /** The character a high surrogate `hi` followed by a low surrogate `lo` stands for. */
  function Combine(hi: u16, lo: u16): (c: char)
    requires IsHighSurrogate(hi) && IsLowSurrogate(lo)
    ensures 0x10000 <= c as int < 0x110000
  {
    (0x10000 + (hi as int - 0xD800) * 0x400 + (lo as int - 0xDC00)) as char
  }

  /** The one or two code units that encode `c`. */
  function EncodeChar(c: char): (w: seq<u16>)
    ensures c as int < 0x10000 ==> |w| == 1 && !IsSurrogate(w[0]) && w[0] as int == c as int
    ensures c as int >= 0x10000 ==> |w| == 2 && IsHighSurrogate(w[0]) && IsLowSurrogate(w[1]) && Combine(w[0], w[1]) == c
  {
    if c as int < 0x10000 then [c as int as u16]
    else
      var v := c as int - 0x10000;
      [(0xD800 + v / 0x400) as u16, (0xDC00 + v % 0x400) as u16]
  }

  /** UTF-16 encoding of a whole text. */
  function Encode(s: string): (w: seq<u16>)
    ensures |s| <= |w| <= 2 * |s|
  {
    if |s| == 0 then [] else EncodeChar(s[0]) + Encode(s[1..])
  }

  function Prepend(c: char, rest: Option<string>): Option<string> {
    match rest
    case None => None
    case Some(s) => Some([c] + s)
  }

  /**
   * `String::from_utf16` (section 2.2 of RFC 2781): a unit outside the surrogate range is a
   * character; a high surrogate followed by a low surrogate is one character; any other
   * surrogate makes the whole input invalid (`None`).
   */
  function Decode(w: seq<u16>): (r: Option<string>)
    ensures r.Some? ==> |r.value| <= |w|
    decreases |w|
  {
    if |w| == 0 then Some("")
    else if !IsSurrogate(w[0]) then Prepend(w[0] as int as char, Decode(w[1..]))
    else if IsHighSurrogate(w[0]) && |w| >= 2 && IsLowSurrogate(w[1]) then Prepend(Combine(w[0], w[1]), Decode(w[2..]))
    else None
  }

  /** Decoding undoes encoding: every text survives the round trip. */
  lemma {:induction false} DecodeEncode(s: string)
    ensures Decode(Encode(s)) == Some(s)
  {
    if |s| > 0 {
      var head, tail := EncodeChar(s[0]), Encode(s[1..]);
      DecodeEncode(s[1..]);
      var w := head + tail;
      if |head| == 1 {
        assert w[1..] == tail;
      } else {
        assert w[2..] == tail;
      }
      assert [s[0]] + s[1..] == s;
    }
  }

  /** Encoding undoes decoding: valid code units are exactly the encoding of their text. */
  lemma {:induction false} EncodeDecode(w: seq<u16>)
    requires Decode(w).Some?
    ensures Encode(Decode(w).value) == w
  {
    if |w| > 0 {
      var s := Decode(w).value;
      if !IsSurrogate(w[0]) {
        EncodeDecode(w[1..]);
        assert s[1..] == Decode(w[1..]).value;
        assert [w[0]] + w[1..] == w;
      } else {
        EncodeDecode(w[2..]);
        assert s[1..] == Decode(w[2..]).value;
        assert EncodeChar(s[0]) == [w[0], w[1]];
        assert [w[0], w[1]] + w[2..] == w;
      }
    }
  }

  /** The valid code-unit sequences are exactly the encodings of texts. */
  lemma ValidIffEncoding(w: seq<u16>)
    ensures Decode(w).Some? <==> exists s :: Encode(s) == w
  {
    if Decode(w).Some? {
      EncodeDecode(w);
    }
    if exists s :: Encode(s) == w {
      var s :| Encode(s) == w;
      DecodeEncode(s);
    }
  }

  /** A low surrogate that does not follow a high surrogate makes the input invalid. */
  lemma {:induction false} LoneLowSurrogateInvalid(w: seq<u16>, i: nat)
    requires i < |w| && IsLowSurrogate(w[i])
    requires i == 0 || !IsHighSurrogate(w[i - 1])
    ensures Decode(w).None?
    decreases |w|
  {
    if i > 0 {
      if !IsSurrogate(w[0]) {
        LoneLowSurrogateInvalid(w[1..], i - 1);
      } else if IsHighSurrogate(w[0]) && |w| >= 2 && IsLowSurrogate(w[1]) {
        assert i != 1;
        LoneLowSurrogateInvalid(w[2..], i - 2);
      }
    }
  }

  /** A high surrogate not followed by a low surrogate makes the input invalid. */
  lemma {:induction false} LoneHighSurrogateInvalid(w: seq<u16>, i: nat)
    requires i < |w| && IsHighSurrogate(w[i])
    requires i + 1 == |w| || !IsLowSurrogate(w[i + 1])
    ensures Decode(w).None?
    decreases |w|
  {
    if i > 0 {
      if !IsSurrogate(w[0]) {
        LoneHighSurrogateInvalid(w[1..], i - 1);
      } else if IsHighSurrogate(w[0]) && |w| >= 2 && IsLowSurrogate(w[1]) {
        assert i != 1;
        LoneHighSurrogateInvalid(w[2..], i - 2);
      }
    }
  }

  /** The payload of a `System.String` object: `len` and the code units that follow it. */
  datatype SystemString = SystemString(len: i32, units: seq<u16>)

  /** The object really holds `len` code units. */
  predicate WellFormed(s: SystemString) {
    0 <= s.len as int <= |s.units|
  }

  /** The `len` code units the string consists of. */
  function Units(s: SystemString): (w: seq<u16>)
    requires WellFormed(s)
    ensures |w| == s.len as int
    ensures forall i :: 0 <= i < |w| ==> w[i] == s.units[i]
  {
    s.units[..s.len]
  }

  /** `Result<String, FromUtf16Error>`. */
  datatype Utf16Decoded = Decoded(text: string) | FromUtf16Error

  /**
   * `get_string`: "" for an empty string, otherwise the decoded `len` code units, or
   * `FromUtf16Error` when they are not valid UTF-16.
   */
  function GetString(s: SystemString): (r: Utf16Decoded)
    requires WellFormed(s)
    ensures r.Decoded? <==> exists t :: Encode(t) == Units(s)
    ensures r.Decoded? ==> Encode(r.text) == Units(s)
    ensures s.len == 0 ==> r == Decoded("")
  {
    ValidIffEncoding(Units(s));
    if s.len == 0 then Decoded("")
    else
      match Decode(Units(s))
      case None => FromUtf16Error
      case Some(t) =>
        EncodeDecode(Units(s));
        Decoded(t)
  }

  /** `to_string`: the decoded text, with invalid input read as "" (`unwrap_or_default`). */
  function ToString(s: SystemString): (r: string)
    requires WellFormed(s)
    ensures GetString(s).Decoded? ==> r == GetString(s).text
    ensures GetString(s).FromUtf16Error? ==> r == ""
    ensures s.len == 0 ==> r == ""
  {
    if s.len == 0 then ""
    else
      match Decode(Units(s))
      case None => ""
      case Some(t) => t
  }

  /** An unpaired surrogate among the `len` units: `get_string` fails and `to_string` gives "". */
  lemma UnpairedSurrogate(s: SystemString, i: nat)
    requires WellFormed(s) && i < s.len as int
    requires var w := Units(s);
      || (IsLowSurrogate(w[i]) && (i == 0 || !IsHighSurrogate(w[i - 1])))
      || (IsHighSurrogate(w[i]) && (i + 1 == |w| || !IsLowSurrogate(w[i + 1])))
    ensures GetString(s) == FromUtf16Error
    ensures ToString(s) == ""
  {
    var w := Units(s);
    if IsLowSurrogate(w[i]) && (i == 0 || !IsHighSurrogate(w[i - 1])) {
      LoneLowSurrogateInvalid(w, i);
    } else {
      LoneHighSurrogateInvalid(w, i);
    }
  }

  /** A string holding the encoding of a text gives back that text. */
  lemma EncodedTextReadsBack(t: string, rest: seq<u16>)
    requires |Encode(t) + rest| < 0x8000_0000
    ensures var s := SystemString(|Encode(t)| as i32, Encode(t) + rest);
      && WellFormed(s) && GetString(s) == Decoded(t) && ToString(s) == t
  {
    var s := SystemString(|Encode(t)| as i32, Encode(t) + rest);
    assert Units(s) == Encode(t);
    DecodeEncode(t);
  }

  /** `Display`: `write!(f, "{}", self.to_string())` appends the text to the formatter output. */
  function Fmt(out: string, s: SystemString): (r: string)
    requires WellFormed(s)
    ensures |out| <= |r| && r[..|out|] == out
    ensures GetString(s).Decoded? ==> Encode(r[|out|..]) == Units(s)
    ensures GetString(s).FromUtf16Error? ==> r == out
  {
    var r := out + ToString(s);
    assert r[|out|..] == ToString(s);
    r
  }
}
