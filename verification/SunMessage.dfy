/** The tag message: printed by the client from 18 bytes, parsed by the server from three hexadecimal parameters. */
module SunMessage {
  import opened Wrappers
  import opened MachineInts
  import opened HexText

  datatype ScanResult = ScanResult(uid: string, ctr: string, cmac: string)

  /** The client's `parseSunMessage`: 7 bytes of UID, 3 of counter, 8 of authentication code. */
  function ParseSunMessage(data: seq<Byte>): Option<ScanResult> {
    if |data| != 18 then None
    else Some(ScanResult(Print(data[0..7]), Print(data[7..10]), Print(data[10..18])))
  }

  datatype VerifyParams = VerifyParams(uid: Option<string>, ctr: Option<string>, cmac: Option<string>)

  datatype ParsedSunParams = ParsedSunParams(uid: seq<Byte>, ctr: seq<Byte>, cmac: seq<Byte>, ctrValue: U32)

  /** `hex::decode` followed by the conversion to an array of `n` bytes. */
  function DecodeExactly(text: string, n: nat): Option<seq<Byte>> {
    var bytes := Decode(text);
    if bytes.Some? && |bytes.value| == n then bytes else None
  }

  /** The server's `parse_sun_params`; any missing parameter, bad digit or wrong length is refused. */
  function ParseSunParams(p: VerifyParams): Option<ParsedSunParams> {
    if p.uid.None? || p.ctr.None? || p.cmac.None? then None
    else
      var uid, ctr, cmac := DecodeExactly(p.uid.value, 7), DecodeExactly(p.ctr.value, 3), DecodeExactly(p.cmac.value, 8);
      if uid.None? || ctr.None? || cmac.None? then None
      else Some(ParsedSunParams(uid.value, ctr.value, cmac.value, LittleEndian24(ctr.value)))
  }

  /** The authority path's own counter parser. */
  function ParseCtr(ctrHex: string): Option<U32> {
    if |ctrHex| != 6 then None
    else
      var bytes := Decode(ctrHex);
      if bytes.None? || |bytes.value| != 3 then None
      else Some(LittleEndian24(bytes.value))
  }

  function AsParams(s: ScanResult): VerifyParams {
    VerifyParams(Some(s.uid), Some(s.ctr), Some(s.cmac))
  }

  function Raw(parsed: ParsedSunParams): seq<Byte> {
    parsed.uid + parsed.ctr + parsed.cmac
  }

  /** What the client prints for 18 bytes is read back by the server as those bytes. */
  lemma ServerReadsWhatClientPrints(data: seq<Byte>)
    requires |data| == 18
    ensures ParseSunMessage(data).Some?
    ensures ParseSunParams(AsParams(ParseSunMessage(data).value))
         == Some(ParsedSunParams(data[0..7], data[7..10], data[10..18], LittleEndian24(data[7..10])))
  {
    DecodePrint(data[0..7]);
    DecodePrint(data[7..10]);
    DecodePrint(data[10..18]);
  }

  /** Both parsers take the counter's bytes as the tag sends them, the least significant first. */
  lemma CounterByteOrder(data: seq<Byte>, parsed: ParsedSunParams)
    requires |data| == 18 && ParseSunMessage(data).Some?
    requires ParseSunParams(AsParams(ParseSunMessage(data).value)) == Some(parsed)
    ensures parsed.ctrValue as int == (data[7] as int) + 256 * (data[8] as int) + 65536 * (data[9] as int)
    ensures ParseCtr(ParseSunMessage(data).value.ctr) == Some(parsed.ctrValue)
  {
    ServerReadsWhatClientPrints(data);
    CounterParsersAgree(ParseSunMessage(data).value);
  }

  lemma SlicesOfParts(a: seq<Byte>, b: seq<Byte>, c: seq<Byte>)
    requires |a| == 7 && |b| == 3 && |c| == 8
    ensures var whole := a + b + c;
            |whole| == 18 && whole[0..7] == a && whole[7..10] == b && whole[10..18] == c
  {
  }

  /** Parameters are accepted as some bytes exactly when, letter case aside, they are what the client prints for them. */
  lemma AcceptedIffPrinted(p: ScanResult, data: seq<Byte>)
    ensures (ParseSunParams(AsParams(p)).Some? && Raw(ParseSunParams(AsParams(p)).value) == data)
       <==> ParseSunMessage(data) == Some(ScanResult(Upper(p.uid), Upper(p.ctr), Upper(p.cmac)))
  {
    var parsed := ParseSunParams(AsParams(p));
    if parsed.Some? && Raw(parsed.value) == data {
      SlicesOfParts(parsed.value.uid, parsed.value.ctr, parsed.value.cmac);
    }
    if |data| == 18 {
      assert data == data[0..7] + data[7..10] + data[10..18];
      DecodesIffPrinted(p.uid, data[0..7]);
      DecodesIffPrinted(p.ctr, data[7..10]);
      DecodesIffPrinted(p.cmac, data[10..18]);
    }
  }

  /** The two counter parsers agree on every text, the value fits 24 bits, and the cast to `i32` does not change it. */
  lemma CounterParsersAgree(p: ScanResult)
    ensures ParseCtr(p.ctr).Some? <==> DecodeExactly(p.ctr, 3).Some?
    ensures ParseCtr(p.ctr).Some? ==>
              ParseCtr(p.ctr).value < TWO_TO_24 && AsI32(ParseCtr(p.ctr).value) == ParseCtr(p.ctr).value
    ensures ParseSunParams(AsParams(p)).Some? ==> ParseCtr(p.ctr) == Some(ParseSunParams(AsParams(p)).value.ctrValue)
  {
    if DecodeExactly(p.ctr, 3).Some? {
      assert |p.ctr| == 6;
    }
  }

  /** Casting two parsed counters to `i32` keeps their order. */
  lemma CastKeepsCounterOrder(a: string, b: string)
    requires ParseCtr(a).Some? && ParseCtr(b).Some?
    ensures AsI32(ParseCtr(a).value) <= AsI32(ParseCtr(b).value) <==> ParseCtr(a).value <= ParseCtr(b).value
  {
    CounterParsersAgree(ScanResult("", a, ""));
    CounterParsersAgree(ScanResult("", b, ""));
  }

  /** Two texts stand for the same counter exactly when they differ at most in letter case. */
  lemma SameCounterIffSameText(a: string, b: string)
    requires ParseCtr(a).Some? && ParseCtr(b).Some?
    ensures ParseCtr(a) == ParseCtr(b) <==> Upper(a) == Upper(b)
  {
    var x, y := Decode(a).value, Decode(b).value;
    DecodesIffPrinted(a, x);
    DecodesIffPrinted(b, y);
    DecodesIffPrinted(b, x);
    if ParseCtr(a) == ParseCtr(b) {
      LittleEndian24Injective(x, y);
    }
  }
}
