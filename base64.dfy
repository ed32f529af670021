// The standard Base64 alphabet with padding (section 4 of RFC 4648), as Go's
// base64.StdEncoding encodes and decodes it. The decoder skips carriage
// returns and line feeds anywhere in the input and, not being strict, does
// not insist that the unused bits of the last group are zero.
module Base64 {
  import opened Wrappers
  import opened Values

  /** The character for a 6-bit value. */
  function CharOf(v: nat): (c: char)
    requires v < 64
    ensures ValueOf(c) == Some(v)
    ensures c != '=' && c != '\r' && c != '\n'
  {
    if v < 26 then ('A' as int + v) as char
    else if v < 52 then ('a' as int + v - 26) as char
    else if v < 62 then ('0' as int + v - 52) as char
    else if v == 62 then '+'
    else '/'
  }

  /** The 6-bit value of an alphabet character; `None` for any other character. */
  function ValueOf(c: char): (r: Option<nat>)
    ensures r.Some? ==> r.value < 64
  {
    if 'A' <= c <= 'Z' then Some(c as int - 'A' as int)
    else if 'a' <= c <= 'z' then Some(c as int - 'a' as int + 26)
    else if '0' <= c <= '9' then Some(c as int - '0' as int + 52)
    else if c == '+' then Some(62)
    else if c == '/' then Some(63)
    else None
  }

  /** Three bytes as four characters. */
  function Quad(x: byte, y: byte, z: byte): (q: string)
    ensures |q| == 4
  {
    [CharOf(x / 4), CharOf(x % 4 * 16 + y / 16), CharOf(y % 16 * 4 + z / 64), CharOf(z % 64)]
  }

  /** A last group of one byte: two characters and two pads. */
  function Tail1(x: byte): (q: string)
    ensures |q| == 4
  {
    [CharOf(x / 4), CharOf(x % 4 * 16), '=', '=']
  }

  /** A last group of two bytes: three characters and one pad. */
  function Tail2(x: byte, y: byte): (q: string)
    ensures |q| == 4
  {
    [CharOf(x / 4), CharOf(x % 4 * 16 + y / 16), CharOf(y % 16 * 4), '=']
  }

  /** Encodes bytes, three at a time, padding the last group with '='. */
  function Encode(b: seq<byte>): (s: string)
    ensures |s| == 4 * ((|b| + 2) / 3)
    decreases |b|
  {
    if |b| == 0 then ""
    else if |b| == 1 then Tail1(b[0])
    else if |b| == 2 then Tail2(b[0], b[1])
    else Quad(b[0], b[1], b[2]) + Encode(b[3..])
  }

  /** The input without its carriage returns and line feeds. */
  function StripNewlines(s: string): (t: string)
    ensures |t| <= |s|
  {
    if |s| == 0 then ""
    else (if s[0] == '\r' || s[0] == '\n' then "" else [s[0]]) + StripNewlines(s[1..])
  }

  /** Why a Base64 text was refused (Go's CorruptInputError). */
  datatype Corrupt = Corrupt

  /**
   * Decodes one group of four characters; only the `last` group may end in
   * padding.
   */
  function DecodeQuad(q: string, last: bool): (r: Result<seq<byte>, Corrupt>)
    requires |q| == 4
    ensures r.Ok? ==> 1 <= |r.value| <= 3
  {
    var a, b, c, d := ValueOf(q[0]), ValueOf(q[1]), ValueOf(q[2]), ValueOf(q[3]);
    if a.None? || b.None? then Err(Corrupt)
    else if last && q[2] == '=' && q[3] == '=' then Ok([a.value * 4 + b.value / 16])
    else if c.None? then Err(Corrupt)
    else if last && q[3] == '=' then Ok([a.value * 4 + b.value / 16, b.value % 16 * 16 + c.value / 4])
    else if d.None? then Err(Corrupt)
    else Ok([a.value * 4 + b.value / 16, b.value % 16 * 16 + c.value / 4, c.value % 4 * 64 + d.value])
  }

  /** Decodes a text without newlines, four characters at a time. */
  function DecodeGroups(t: string): (r: Result<seq<byte>, Corrupt>)
    decreases |t|
  {
    if |t| == 0 then Ok([])
    else if |t| < 4 then Err(Corrupt)
    else
      match DecodeQuad(t[..4], |t| == 4)
      case Err(e) => Err(e)
      case Ok(head) =>
        if |t| == 4 then Ok(head)
        else
          match DecodeGroups(t[4..])
          case Ok(rest) => Ok(head + rest)
          case Err(e) => Err(e)
  }

  /** Go base64.StdEncoding.DecodeString. */
  function Decode(s: string): Result<seq<byte>, Corrupt>
  {
    DecodeGroups(StripNewlines(s))
  }

  /** A text with no carriage return or line feed is left as it is. */
  lemma {:induction false} StripAll(s: string)
    requires forall i :: 0 <= i < |s| ==> s[i] != '\r' && s[i] != '\n'
    ensures StripNewlines(s) == s
  {
    if |s| > 0 {
      StripAll(s[1..]);
      assert s == [s[0]] + s[1..];
    }
  }

  lemma EncodedChars(b: seq<byte>, i: nat)
    requires i < |Encode(b)|
    ensures Encode(b)[i] != '\r' && Encode(b)[i] != '\n'
    decreases |b|
  {
    if |b| > 3 && i >= 4 {
      EncodedChars(b[3..], i - 4);
    }
  }

  /** Decoding the encoding of any byte string gives it back. */
  lemma DecodeEncode(b: seq<byte>)
    ensures Decode(Encode(b)) == Ok(b)
  {
    forall i | 0 <= i < |Encode(b)| ensures Encode(b)[i] != '\r' && Encode(b)[i] != '\n' {
      EncodedChars(b, i);
    }
    StripAll(Encode(b));
    DecodeGroupsEncode(b);
  }

  lemma DecodeQuadOf(x: byte, y: byte, z: byte, last: bool)
    ensures DecodeQuad(Quad(x, y, z), last) == Ok([x, y, z])
  {
    var v0, v1, v2, v3 := x / 4, x % 4 * 16 + y / 16, y % 16 * 4 + z / 64, z % 64;
    assert v1 / 16 == x % 4 && v1 % 16 == y / 16;
    assert v2 / 4 == y % 16 && v2 % 4 == z / 64;
  }

  lemma DecodeTail1(x: byte)
    ensures DecodeQuad(Tail1(x), true) == Ok([x])
  {
  }

  lemma DecodeTail2(x: byte, y: byte)
    ensures DecodeQuad(Tail2(x, y), true) == Ok([x, y])
  {
    var q := Tail2(x, y);
    var v0, v1, v2 := x / 4, x % 4 * 16 + y / 16, y % 16 * 4;
    assert ValueOf(q[0]) == Some(v0 as nat) && ValueOf(q[1]) == Some(v1 as nat) && ValueOf(q[2]) == Some(v2 as nat);
    assert q[2] != '=' && q[3] == '=';
    assert v1 / 16 == x % 4 && v1 % 16 == y / 16;
    assert v2 / 4 == y % 16;
    assert v0 * 4 + v1 / 16 == x;
    assert v1 % 16 * 16 + v2 / 4 == y;
  }

  lemma {:induction false} DecodeGroupsEncode(b: seq<byte>)
    ensures DecodeGroups(Encode(b)) == Ok(b)
    decreases |b|
  {
    var t := Encode(b);
    if |b| == 1 {
      DecodeTail1(b[0]);
      assert t[..4] == t && b == [b[0]];
    } else if |b| == 2 {
      DecodeTail2(b[0], b[1]);
      assert t[..4] == t && b == [b[0], b[1]];
    } else if |b| >= 3 {
      DecodeQuadOf(b[0], b[1], b[2], |t| == 4);
      assert t[..4] == Quad(b[0], b[1], b[2]) && t[4..] == Encode(b[3..]);
      if |b| == 3 {
        assert b == [b[0], b[1], b[2]];
      } else {
        DecodeGroupsEncode(b[3..]);
        assert b == [b[0], b[1], b[2]] + b[3..];
      }
    }
  }

  /** Two texts decode to the same bytes when only unused bits differ. */
  lemma NotInjective()
    ensures Decode("QQ==") == Decode("QR==") == Ok([65])
  {
    assert StripNewlines("QQ==") == "QQ==";
    assert StripNewlines("QR==") == "QR==";
  }

  lemma StripExample()
    ensures StripNewlines("QU\r\nJD") == "QUJD"
  {
    var s := "QU\r\nJD";
    assert s[5..] == "D" && s[5..][1..] == "";
    assert s[4..][1..] == s[5..];
    assert s[3..][1..] == s[4..];
    assert s[2..][1..] == s[3..];
    assert s[1..][1..] == s[2..];
    assert StripNewlines(s[5..]) == "D";
    assert StripNewlines(s[4..]) == "JD";
    assert StripNewlines(s[3..]) == "JD";
    assert StripNewlines(s[2..]) == "JD";
    assert StripNewlines(s[1..]) == "UJD";
  }

  lemma DecodeExample()
    ensures DecodeGroups("QUJD") == Ok([65, 66, 67])
  {
    assert ValueOf('Q') == Some(16) && ValueOf('U') == Some(20);
    assert ValueOf('J') == Some(9) && ValueOf('D') == Some(3);
    assert "QUJD"[..4] == "QUJD";
  }

  /** Line breaks are ignored. */
  lemma NewlinesSkipped()
    ensures Decode("QU\r\nJD") == Ok([65, 66, 67])
  {
    StripExample();
    DecodeExample();
  }

  /** Padding may only end the text, as "xx==" or "xxx=". */
  lemma PaddingMisplaced()
    ensures DecodeGroups("Q===").Err? && DecodeGroups("QQ=").Err? && DecodeGroups("QQ==QQ==").Err?
  {
    assert ValueOf('=') == None;
    assert "Q==="[..4] == "Q===";
    assert "QQ==QQ=="[..4] == "QQ==";
  }
}
