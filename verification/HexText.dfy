/** Hexadecimal text: two digits a byte, as `hex::decode` reads it and `toString(16).padStart(2, '0')` prints it. */
module HexText {
  import opened Wrappers
  import opened MachineInts

  /** The value of a hexadecimal digit of either case. */
  function DigitValue(c: char): (v: Option<int>)
    ensures v.Some? ==> 0 <= v.value < 16
  {
    if '0' <= c <= '9' then Some(c as int - '0' as int)
    else if 'a' <= c <= 'f' then Some(c as int - 'a' as int + 10)
    else if 'A' <= c <= 'F' then Some(c as int - 'A' as int + 10)
    else None
  }

  /** `hex::decode`: pairs of digits; an odd length or any other character is refused. */
  function Decode(text: string): (bytes: Option<seq<Byte>>)
    ensures bytes.Some? ==> |text| == 2 * |bytes.value|
  {
    if text == "" then Some([])
    else if |text| == 1 then None
    else
      var hi, lo, rest := DigitValue(text[0]), DigitValue(text[1]), Decode(text[2..]);
      if hi.None? || lo.None? || rest.None? then None
      else Some([16 * hi.value + lo.value] + rest.value)
  }

  /** One digit of `Number.toString(16)`. */
  function LowerDigit(v: int): char
    requires 0 <= v < 16
  {
    if v < 10 then '0' + v as char else 'a' + (v - 10) as char
  }

  /** `toUpperCase` on one hexadecimal digit; other characters are left alone. */
  function UpperChar(c: char): char {
    if 'a' <= c <= 'f' then c - 'a' + 'A' else c
  }

  function Upper(text: string): (u: string)
    ensures |u| == |text|
    ensures forall i :: 0 <= i < |text| ==> u[i] == UpperChar(text[i])
  {
    if text == "" then "" else [UpperChar(text[0])] + Upper(text[1..])
  }

  /** Every byte as two lower-case digits. */
  function LowerHex(bytes: seq<Byte>): (text: string)
    ensures |text| == 2 * |bytes|
  {
    if bytes == [] then ""
    else [LowerDigit(bytes[0] / 16), LowerDigit(bytes[0] % 16)] + LowerHex(bytes[1..])
  }

  /** What the client prints. */
  function Print(bytes: seq<Byte>): string {
    Upper(LowerHex(bytes))
  }

  lemma DigitRoundTrip(v: int, c: char)
    requires 0 <= v < 16
    ensures DigitValue(c) == Some(v) <==> UpperChar(c) == UpperChar(LowerDigit(v))
  {
  }

  lemma UpperTail(text: string, n: nat)
    requires n <= |text|
    ensures Upper(text)[n..] == Upper(text[n..])
  {
  }

  lemma PrintedPair(text: string, bytes: seq<Byte>)
    requires |text| >= 2 && bytes != []
    ensures Upper(text) == Print(bytes)
       <==> && UpperChar(text[0]) == UpperChar(LowerDigit(bytes[0] / 16))
            && UpperChar(text[1]) == UpperChar(LowerDigit(bytes[0] % 16))
            && Upper(text[2..]) == Print(bytes[1..])
  {
    var printed := LowerHex(bytes);
    assert printed[2..] == LowerHex(bytes[1..]);
    UpperTail(text, 2);
    UpperTail(printed, 2);
    assert Upper(text) == Upper(text)[..2] + Upper(text)[2..];
    assert Print(bytes) == Print(bytes)[..2] + Print(bytes)[2..];
  }

  lemma DecodedPair(text: string, bytes: seq<Byte>)
    requires |text| >= 2 && bytes != []
    ensures Decode(text) == Some(bytes)
       <==> && DigitValue(text[0]) == Some(bytes[0] / 16) && DigitValue(text[1]) == Some(bytes[0] % 16)
            && Decode(text[2..]) == Some(bytes[1..])
  {
    var hi, lo, rest := DigitValue(text[0]), DigitValue(text[1]), Decode(text[2..]);
    if hi.Some? && lo.Some? && rest.Some? {
      var b: Byte := 16 * hi.value + lo.value;
      assert b / 16 == hi.value && b % 16 == lo.value;
      assert ([b] + rest.value)[1..] == rest.value;
      assert [bytes[0]] + bytes[1..] == bytes;
    }
  }

  /** Text reads as some bytes exactly when, letter case aside, it is what those bytes print as. */
  lemma {:induction false} DecodesIffPrinted(text: string, bytes: seq<Byte>)
    ensures Decode(text) == Some(bytes) <==> Upper(text) == Print(bytes)
    decreases |text|
  {
    if |text| >= 2 && bytes != [] {
      hide Decode, Print, DigitValue, UpperChar, LowerDigit;
      DigitRoundTrip(bytes[0] / 16, text[0]);
      DigitRoundTrip(bytes[0] % 16, text[1]);
      DecodesIffPrinted(text[2..], bytes[1..]);
      PrintedPair(text, bytes);
      DecodedPair(text, bytes);
    }
  }

  lemma UpperTwice(text: string)
    ensures Upper(Upper(text)) == Upper(text)
  {
  }

  /** Reading back what was printed gives the bytes. */
  lemma DecodePrint(bytes: seq<Byte>)
    ensures Decode(Print(bytes)) == Some(bytes)
  {
    UpperTwice(LowerHex(bytes));
    DecodesIffPrinted(Print(bytes), bytes);
  }
}
