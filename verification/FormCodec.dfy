/**
  The application/x-www-form-urlencoded format as URLSearchParams prints and reads it
  (sections 5.1 and 5.2 of the WHATWG URL Standard), over UTF-8 bytes.
 */
module FormCodec {
  import opened Wrappers

  type Byte = n: int | 0 <= n < 256

  const AMPERSAND: Byte := 0x26
  const EQUALS: Byte := 0x3D
  const PLUS: Byte := 0x2B
  const SPACE: Byte := 0x20
  const PERCENT: Byte := 0x25
  const REPLACEMENT: char := '\U{FFFD}'

  // ----------------------------------------------------------------------------- UTF-8

  function EncodeChar(c: char): (bytes: seq<Byte>)
    ensures 1 <= |bytes| <= 4
  {
    var n := c as int;
    if n < 0x80 then [n]
    else if n < 0x800 then [0xC0 + n / 64, 0x80 + n % 64]
    else if n < 0x10000 then [0xE0 + n / 4096, 0x80 + n / 64 % 64, 0x80 + n % 64]
    else [0xF0 + n / 262144, 0x80 + n / 4096 % 64, 0x80 + n / 64 % 64, 0x80 + n % 64]
  }

  function Encode(s: string): seq<Byte> {
    if s == "" then [] else EncodeChar(s[0]) + Encode(s[1..])
  }

  /** How many more bytes a lead byte needs; none for a byte that leads nothing. */
  function Needed(lead: Byte): nat {
    if 0xC2 <= lead <= 0xDF then 1 else if 0xE0 <= lead <= 0xEF then 2 else if 0xF0 <= lead <= 0xF4 then 3 else 0
  }

  /** The second byte rules out overlong forms, surrogates and what lies beyond the last character. */
  predicate SecondFits(lead: Byte, b: Byte) {
    (if lead == 0xE0 then 0xA0 else if lead == 0xF0 then 0x90 else 0x80) <= b
    <= (if lead == 0xED then 0x9F else if lead == 0xF4 then 0x8F else 0xBF)
  }

  predicate Continues(b: Byte) {
    0x80 <= b <= 0xBF
  }

  /** One character and the bytes it took; a broken sequence is replaced as far as it went. */
  function DecodeOne(bs: seq<Byte>): (r: (char, nat))
    requires bs != []
    ensures 1 <= r.1 <= |bs|
  {
    var lead: int := bs[0];
    if lead < 0x80 then (lead as char, 1)
    else if Needed(lead) == 0 || |bs| < 2 || !SecondFits(lead, bs[1]) then (REPLACEMENT, 1)
    else
      var second: int := bs[1];
      if Needed(lead) == 1 then (((lead - 0xC0) * 64 + (second - 0x80)) as char, 2)
      else if |bs| < 3 || !Continues(bs[2]) then (REPLACEMENT, 2)
      else
        var third: int := bs[2];
        if Needed(lead) == 2 then (((lead - 0xE0) * 4096 + (second - 0x80) * 64 + (third - 0x80)) as char, 3)
        else if |bs| < 4 || !Continues(bs[3]) then (REPLACEMENT, 3)
        else
          var fourth: int := bs[3];
          (((lead - 0xF0) * 262144 + (second - 0x80) * 4096 + (third - 0x80) * 64 + (fourth - 0x80)) as char, 4)
  }

  function Decode(bs: seq<Byte>): string {
    if bs == [] then "" else var (c, k) := DecodeOne(bs); [c] + Decode(bs[k..])
  }

  lemma DecodeEncodedChar(c: char, rest: seq<Byte>)
    ensures DecodeOne(EncodeChar(c) + rest) == (c, |EncodeChar(c)|)
  {
    var n, bs := c as int, EncodeChar(c) + rest;
    if n < 0x80 {
    } else if n < 0x800 {
      assert n == n / 64 * 64 + n % 64;
    } else if n < 0x10000 {
      assert n / 64 == n / 4096 * 64 + n / 64 % 64;
    } else {
      assert n / 64 == n / 4096 * 64 + n / 64 % 64 && n / 4096 == n / 262144 * 64 + n / 4096 % 64;
    }
  }

  lemma {:induction false} DecodeEncoded(s: string)
    ensures Decode(Encode(s)) == s
  {
    if s != "" {
      DecodeEncodedChar(s[0], Encode(s[1..]));
      assert Encode(s)[|EncodeChar(s[0])|..] == Encode(s[1..]);
      DecodeEncoded(s[1..]);
    }
  }

  // ------------------------------------------------------------------- percent-encoding

  predicate Kept(b: Byte) {
    || 0x30 <= b <= 0x39 || 0x41 <= b <= 0x5A || 0x61 <= b <= 0x7A
    || b == 0x2A || b == 0x2D || b == 0x2E || b == 0x5F
  }

  function HexDigit(d: nat): Byte
    requires d < 16
  {
    if d < 10 then 0x30 + d else 0x41 + d - 10
  }

  function HexValue(b: Byte): Option<nat> {
    if 0x30 <= b <= 0x39 then Some(b - 0x30)
    else if 0x41 <= b <= 0x46 then Some(b - 0x41 + 10)
    else if 0x61 <= b <= 0x66 then Some(b - 0x61 + 10)
    else None
  }

  function Escape(b: Byte): seq<Byte> {
    if b == SPACE then [PLUS] else if Kept(b) then [b] else [PERCENT, HexDigit(b / 16), HexDigit(b % 16)]
  }

  function EscapeAll(bs: seq<Byte>): (out: seq<Byte>)
    ensures forall i | 0 <= i < |out| :: Plain(out[i])
  {
    if bs == [] then [] else Escape(bs[0]) + EscapeAll(bs[1..])
  }

  /** What an escaped text is made of: no separator, no question mark, nothing beyond ASCII. */
  predicate Plain(b: Byte) {
    Kept(b) || b == PLUS || b == PERCENT
  }

  function Spaces(bs: seq<Byte>): seq<Byte> {
    seq(|bs|, i requires 0 <= i < |bs| => if bs[i] == PLUS then SPACE else bs[i])
  }

  function PercentDecode(bs: seq<Byte>): seq<Byte> {
    if bs == [] then []
    else if bs[0] == PERCENT && |bs| >= 3 && HexValue(bs[1]).Some? && HexValue(bs[2]).Some?
    then [HexValue(bs[1]).value * 16 + HexValue(bs[2]).value] + PercentDecode(bs[3..])
    else [bs[0]] + PercentDecode(bs[1..])
  }

  function Unescape(bs: seq<Byte>): seq<Byte> {
    PercentDecode(Spaces(bs))
  }

  lemma UnescapeOne(b: Byte, rest: seq<Byte>)
    ensures Unescape(Escape(b) + rest) == [b] + Unescape(rest)
  {
    var all := Spaces(Escape(b) + rest);
    if b == SPACE || Kept(b) {
      assert all[1..] == Spaces(rest);
    } else {
      assert all[3..] == Spaces(rest);
      assert all[0] == PERCENT && all[1] == HexDigit(b / 16) && all[2] == HexDigit(b % 16);
    }
  }

  lemma {:induction false} UnescapeEscaped(bs: seq<Byte>)
    ensures Unescape(EscapeAll(bs)) == bs
  {
    if bs == [] {
      assert Spaces([]) == [];
    } else {
      UnescapeOne(bs[0], EscapeAll(bs[1..]));
      UnescapeEscaped(bs[1..]);
    }
  }

  // ------------------------------------------------------------------------ the pairs

  type Params = seq<(string, string)>

  /** Where `x` is first found, or the length. */
  function Find<T(==)>(s: seq<T>, x: T): (k: nat)
    ensures k <= |s| && x !in s[..k] && (k < |s| ==> s[k] == x)
  {
    if s == [] || s[0] == x then 0
    else
      var k := Find(s[1..], x) + 1;
      assert s[..k] == [s[0]] + s[1..][..k - 1];
      k
  }

  lemma {:induction false} FindAfter<T>(before: seq<T>, x: T, rest: seq<T>)
    requires x !in before
    ensures Find(before + [x] + rest, x) == |before|
  {
    var all := before + [x] + rest;
    assert all[|before|] == x;
    assert forall i | 0 <= i < |before| :: all[i] == before[i];
    assert x in all[..|before| + 1];
  }

  lemma FindNone<T>(s: seq<T>, x: T)
    requires x !in s
    ensures Find(s, x) == |s|
  {
  }

  function PrintPair(p: (string, string)): seq<Byte> {
    EscapeAll(Encode(p.0)) + [EQUALS] + EscapeAll(Encode(p.1))
  }

  function ParsePair(bs: seq<Byte>): (string, string) {
    var k := Find(bs, EQUALS);
    (Decode(Unescape(bs[..k])), Decode(Unescape(if k < |bs| then bs[k + 1..] else [])))
  }

  function PrintPairs(ps: Params): seq<Byte> {
    if ps == [] then [] else if |ps| == 1 then PrintPair(ps[0]) else PrintPair(ps[0]) + [AMPERSAND] + PrintPairs(ps[1..])
  }

  /** Empty pieces are passed over. */
  function ParsePairs(bs: seq<Byte>): Params
    decreases |bs|
  {
    if bs == [] then []
    else
      var k := Find(bs, AMPERSAND);
      (if k == 0 then [] else [ParsePair(bs[..k])]) + (if k < |bs| then ParsePairs(bs[k + 1..]) else [])
  }

  lemma PairIsRead(p: (string, string))
    ensures ParsePair(PrintPair(p)) == p
  {
    var name, value := EscapeAll(Encode(p.0)), EscapeAll(Encode(p.1));
    FindAfter(name, EQUALS, value);
    assert PrintPair(p)[..|name|] == name && PrintPair(p)[|name| + 1..] == value;
    UnescapeEscaped(Encode(p.0));
    UnescapeEscaped(Encode(p.1));
    DecodeEncoded(p.0);
    DecodeEncoded(p.1);
  }

  lemma {:induction false} PairsAreRead(ps: Params)
    ensures ParsePairs(PrintPairs(ps)) == ps
  {
    if ps != [] {
      var first := PrintPair(ps[0]);
      assert AMPERSAND !in first;
      PairIsRead(ps[0]);
      if |ps| == 1 {
        FindNone(first, AMPERSAND);
        assert first[..|first|] == first;
      } else {
        var rest := PrintPairs(ps[1..]);
        FindAfter(first, AMPERSAND, rest);
        assert (first + [AMPERSAND] + rest)[..|first|] == first;
        assert (first + [AMPERSAND] + rest)[|first| + 1..] == rest;
        PairsAreRead(ps[1..]);
      }
    }
  }

  // --------------------------------------------------------------------- URLSearchParams

  predicate Ascii(bs: seq<Byte>) {
    forall i | 0 <= i < |bs| :: bs[i] < 0x80
  }

  function AsString(bs: seq<Byte>): string
    requires Ascii(bs)
  {
    seq(|bs|, i requires 0 <= i < |bs| => bs[i] as char)
  }

  lemma {:induction false} AsciiIsItself(bs: seq<Byte>)
    requires Ascii(bs)
    ensures Encode(AsString(bs)) == bs
  {
    if bs != [] {
      assert AsString(bs)[1..] == AsString(bs[1..]);
      AsciiIsItself(bs[1..]);
    }
  }

  lemma {:induction false} PairsArePlain(ps: Params)
    ensures forall i | 0 <= i < |PrintPairs(ps)| ::
      Plain(PrintPairs(ps)[i]) || PrintPairs(ps)[i] == EQUALS || PrintPairs(ps)[i] == AMPERSAND
  {
    if |ps| > 1 {
      PairsArePlain(ps[1..]);
    }
  }

  function Serialize(ps: Params): string {
    PairsArePlain(ps);
    AsString(PrintPairs(ps))
  }

  /** The constructor passes over one leading question mark. */
  function Parse(query: string): Params {
    ParsePairs(Encode(if query != "" && query[0] == '?' then query[1..] else query))
  }

  /** Every list of pairs, of any names and values, is read back as it was. */
  lemma ParseSerialized(ps: Params)
    ensures Parse(Serialize(ps)) == ps
    ensures '?' !in Serialize(ps)
    ensures Serialize(ps) == "" <==> ps == []
  {
    SerializedIsPlain(ps);
    PairsAreRead(ps);
    hide ParsePairs, PrintPairs, Encode, Serialize;
  }

  lemma SerializedIsPlain(ps: Params)
    ensures '?' !in Serialize(ps)
    ensures Encode(Serialize(ps)) == PrintPairs(ps)
    ensures Serialize(ps) == "" <==> ps == []
  {
    PairsArePlain(ps);
    AsciiIsItself(PrintPairs(ps));
    hide Encode;
  }

  /** The value of the first pair of that name. */
  function Get(ps: Params, name: string): Option<string> {
    if ps == [] then None else if ps[0].0 == name then Some(ps[0].1) else Get(ps[1..], name)
  }

  /** `set`: the first pair of that name takes the value, later ones go; without one, it is added. */
  function Set(ps: Params, name: string, value: string): Params {
    if ps == [] then [(name, value)]
    else if ps[0].0 == name then [(name, value)] + Without(ps[1..], name)
    else [ps[0]] + Set(ps[1..], name, value)
  }

  function Without(ps: Params, name: string): Params {
    if ps == [] then [] else (if ps[0].0 == name then [] else [ps[0]]) + Without(ps[1..], name)
  }

  lemma {:induction false} SetNew(ps: Params, name: string, value: string)
    requires Get(ps, name).None?
    ensures Set(ps, name, value) == ps + [(name, value)]
  {
    if ps != [] {
      SetNew(ps[1..], name, value);
    }
  }
}
