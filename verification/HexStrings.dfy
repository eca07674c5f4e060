/** Hexadecimal text: strict parsing in either letter case, and lower-case printing. */
module HexStrings {
  import opened Results
  import opened PlutusData

  function DigitValue(c: char): (v: Option<int>)
    ensures v.Some? ==> 0 <= v.value < 16
  {
    if '0' <= c <= '9' then Some((c as int) - ('0' as int))
    else if 'a' <= c <= 'f' then Some((c as int) - ('a' as int) + 10)
    else if 'A' <= c <= 'F' then Some((c as int) - ('A' as int) + 10)
    else None
  }

  function HexDigit(v: int): char
    requires 0 <= v < 16
  {
    if v < 10 then (v + ('0' as int)) as char else (v - 10 + ('a' as int)) as char
  }

  function LowerChar(c: char): char {
    if 'A' <= c <= 'Z' then ((c as int) - ('A' as int) + ('a' as int)) as char else c
  }

  function Lower(s: string): (r: string)
    ensures |r| == |s| && forall i :: 0 <= i < |s| ==> r[i] == LowerChar(s[i])
  {
    if s == "" then "" else [LowerChar(s[0])] + Lower(s[1..])
  }

  lemma LowerIsIdempotent(s: string)
    ensures Lower(Lower(s)) == Lower(s)
  {
    forall i | 0 <= i < |s| ensures Lower(Lower(s))[i] == Lower(s)[i] {
      assert Lower(s)[i] == LowerChar(s[i]);
    }
  }

  /** Decode an even number of hexadecimal digits. */
  function ParseHex(s: string): (r: Result<seq<Byte>>)
    ensures r.Ok? ==> |s| == 2 * |r.value|
  {
    if s == "" then Ok([])
    else if |s| == 1 then Err(InvalidBytes)
    else
      var high, low := DigitValue(s[0]), DigitValue(s[1]);
      if high.None? || low.None? then Err(InvalidBytes)
      else
        var rest :- ParseHex(s[2..]);
        Ok([16 * high.value + low.value] + rest)
  }

  /** Decode exactly `length` bytes. */
  function ParseHexOf(s: string, length: nat): (r: Result<seq<Byte>>)
    ensures r.Ok? ==> |r.value| == length && ParseHex(s) == r
  {
    var b :- ParseHex(s);
    if |b| == length then Ok(b) else Err(InvalidBytes)
  }

  function PrintHex(b: seq<Byte>): (s: string)
    ensures |s| == 2 * |b|
  {
    if b == [] then "" else [HexDigit(b[0] / 16), HexDigit(b[0] % 16)] + PrintHex(b[1..])
  }

  /** Printed bytes parse back to themselves. */
  lemma {:induction false} PrintThenParse(b: seq<Byte>)
    ensures ParseHex(PrintHex(b)) == Ok(b)
  {
    if b != [] {
      PrintThenParse(b[1..]);
      assert PrintHex(b)[2..] == PrintHex(b[1..]);
      assert b == [b[0]] + b[1..];
    }
  }

  lemma DigitPrints(c: char)
    requires DigitValue(c).Some?
    ensures HexDigit(DigitValue(c).value) == LowerChar(c)
  {
  }

  /** Parsed text prints as its lower-case form: letter case is the only freedom of the notation. */
  lemma {:induction false} ParseThenPrint(s: string)
    requires ParseHex(s).Ok?
    ensures PrintHex(ParseHex(s).value) == Lower(s)
  {
    hide DigitValue, HexDigit, LowerChar;
    if s != "" {
      var b, rest := ParseHex(s).value, ParseHex(s[2..]).value;
      assert b[1..] == rest;
      DigitPrints(s[0]);
      DigitPrints(s[1]);
      ParseThenPrint(s[2..]);
      assert Lower(s) == [LowerChar(s[0]), LowerChar(s[1])] + Lower(s[2..]);
    }
  }

  /** Two spellings name the same bytes exactly when they agree up to letter case. */
  lemma SameBytesIffSameLower(s: string, t: string)
    requires ParseHex(s).Ok? && ParseHex(t).Ok?
    ensures ParseHex(s) == ParseHex(t) <==> Lower(s) == Lower(t)
  {
    ParseThenPrint(s);
    ParseThenPrint(t);
    PrintThenParse(ParseHex(s).value);
    PrintThenParse(ParseHex(t).value);
  }

  /** Sixteen digits, ten numerals and six letters in either case, valued in order. */
  lemma DigitIsExact(c: char)
    ensures DigitValue(c).Some? <==> '0' <= c <= '9' || 'a' <= c <= 'f' || 'A' <= c <= 'F'
    ensures '0' <= c <= '9' ==> DigitValue(c) == Some(c as int - 48) && LowerChar(c) == c
    ensures 'a' <= c <= 'f' ==> DigitValue(c) == Some(c as int - 87) && LowerChar(c) == c
    ensures 'A' <= c <= 'F' ==> DigitValue(c) == Some(c as int - 55) && LowerChar(c) as int == c as int + 32
  {
  }

  lemma Nibbles(high: int, low: int)
    requires 0 <= high < 16 && 0 <= low < 16
    ensures (16 * high + low) / 16 == high && (16 * high + low) % 16 == low
  {
  }

  /** Hexadecimal text is an even number of digits, and the first of each pair is the more significant. */
  lemma {:induction false} HexIsExact(s: string)
    ensures ParseHex(s).Ok? <==> |s| % 2 == 0 && forall c <- s :: DigitValue(c).Some?
    ensures ParseHex(s).Ok? ==> forall i :: 0 <= i < |ParseHex(s).value| ==>
      && Some(ParseHex(s).value[i] as int / 16) == DigitValue(s[2 * i])
      && Some(ParseHex(s).value[i] as int % 16) == DigitValue(s[2 * i + 1])
  {
    hide DigitValue;
    if |s| > 1 {
      var rest := s[2..];
      HexIsExact(rest);
      assert s == [s[0], s[1]] + rest;
      if ParseHex(s).Ok? {
        Nibbles(DigitValue(s[0]).value, DigitValue(s[1]).value);
        var bytes := ParseHex(s).value;
        assert bytes[1..] == ParseHex(rest).value;
        forall i | 0 <= i < |bytes|
          ensures Some(bytes[i] as int / 16) == DigitValue(s[2 * i]) && Some(bytes[i] as int % 16) == DigitValue(s[2 * i + 1])
        {
          if i > 0 {
            assert rest[2 * (i - 1)] == s[2 * i] && rest[2 * (i - 1) + 1] == s[2 * i + 1];
          }
        }
      }
    }
  }
}
