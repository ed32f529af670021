// Decimal text for integers: Go's strconv.FormatInt(i, 10) and
// strconv.Atoi on a 64-bit platform.
module Strconv {
  import opened Wrappers
  import opened Values

  predicate IsDigit(c: char) { '0' <= c <= '9' }

  predicate AllDigits(s: string) { forall i :: 0 <= i < |s| ==> IsDigit(s[i]) }

  function DigitChar(d: nat): (c: char)
    requires d < 10
    ensures IsDigit(c) && c as int - '0' as int == d
  {
    ('0' as int + d) as char
  }

  /** The decimal digits of `n`, without leading zeros. */
  function NatText(n: nat): (s: string)
    ensures |s| > 0 && AllDigits(s)
    ensures |s| > 1 ==> s[0] != '0'
    decreases n
  {
    if n < 10 then [DigitChar(n)] else NatText(n / 10) + [DigitChar(n % 10)]
  }

  /** Go strconv.FormatInt(i, 10): a minus sign for negatives, then the digits. */
  function FormatInt(i: int): (s: string)
    ensures |s| > 0
    ensures i >= 0 ==> AllDigits(s)
    ensures i < 0 ==> s[0] == '-' && AllDigits(s[1..])
  {
    if i < 0 then "-" + NatText(-i) else NatText(i)
  }

  /** The number written by a string of decimal digits. */
  function DigitsValue(s: string): nat
    requires AllDigits(s)
  {
    if |s| == 0 then 0 else DigitsValue(s[..|s| - 1]) * 10 + (s[|s| - 1] as int - '0' as int)
  }

  /**
   * Go strconv.Atoi: an optional sign followed by at least one decimal digit,
   * whose value must fit Go's 64-bit `int`; anything else is an error.
   */
  function Atoi(s: string): (r: Result<int, string>)
    ensures r.Ok? ==> InInt64(r.value)
    ensures r.Err? ==> r.error == s
    ensures |s| == 0 ==> r.Err?
  {
    var signed := |s| > 0 && (s[0] == '-' || s[0] == '+');
    var body := if signed then s[1..] else s;
    if |body| == 0 || !AllDigits(body) then Err(s)
    else
      var v: int := if |s| > 0 && s[0] == '-' then 0 - DigitsValue(body) as int else DigitsValue(body);
      if InInt64(v) then Ok(v) else Err(s)
  }

  lemma {:induction false} DigitsValueNatText(n: nat)
    ensures DigitsValue(NatText(n)) == n
  {
    if n >= 10 {
      var s := NatText(n);
      DigitsValueNatText(n / 10);
      assert s[..|s| - 1] == NatText(n / 10);
    }
  }

  /** Reading back the text of any 64-bit integer gives the integer. */
  lemma AtoiFormatInt(i: int)
    requires InInt64(i)
    ensures Atoi(FormatInt(i)) == Ok(i)
  {
    var s := FormatInt(i);
    if i < 0 {
      var body := NatText(-i);
      DigitsValueNatText(-i);
      assert s == "-" + body && s[1..] == body;
      assert DigitsValue(body) == -i;
    } else {
      var body := NatText(i);
      DigitsValueNatText(i);
      assert s == body && s[0] != '-' && s[0] != '+';
    }
  }

  /** Atoi accepts a leading '+' and leading zeros, and rejects a lone sign. */
  lemma AtoiSigns()
    ensures Atoi("+007") == Ok(7)
    ensures Atoi("-12") == Ok(-12)
    ensures Atoi("-").Err? && Atoi("1_000").Err? && Atoi("12a").Err?
  {
    assert "+007"[1..] == "007";
    assert "007"[..2] == "00" && "00"[..1] == "0" && "0"[..0] == "";
    assert DigitsValue("0") == 0;
    assert DigitsValue("00") == 0;
    assert DigitsValue("007") == 7;
    assert "-12"[1..] == "12";
    assert "12"[..1] == "1" && "1"[..0] == "";
    assert DigitsValue("12") == 12;
    assert !IsDigit("1_000"[1]);
    assert !IsDigit("12a"[2]);
  }

  /** Atoi rejects values beyond the 64-bit range. */
  lemma AtoiRange(n: nat)
    requires n >= 0x8000_0000_0000_0000
    ensures Atoi(NatText(n)).Err?
  {
    DigitsValueNatText(n);
  }
}
