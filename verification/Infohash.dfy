/**
  The key under which a magnet link is known: forty lower-case hexadecimal digits, whether the
  link spells its infohash in hexadecimal or in base32 (sections 8 and 6 of RFC 4648).
 */
module Infohash {
  import opened Wrappers

  // --------------------------------------------------------------------- the digits

  function HexValue(c: char): Option<nat> {
    if '0' <= c <= '9' then Some(c as int - '0' as int)
    else if 'a' <= c <= 'f' then Some(c as int - 'a' as int + 10)
    else if 'A' <= c <= 'F' then Some(c as int - 'A' as int + 10)
    else None
  }

  function Base32Value(c: char): Option<nat> {
    if 'A' <= c <= 'Z' then Some(c as int - 'A' as int)
    else if 'a' <= c <= 'z' then Some(c as int - 'a' as int)
    else if '2' <= c <= '7' then Some(c as int - '2' as int + 26)
    else None
  }

  predicate IsHex(s: string) {
    forall i | 0 <= i < |s| :: HexValue(s[i]).Some?
  }

  predicate IsBase32(s: string) {
    forall i | 0 <= i < |s| :: Base32Value(s[i]).Some?
  }

  function HexNumber(s: string): nat
    requires IsHex(s)
  {
    if s == "" then 0 else HexNumber(s[..|s| - 1]) * 16 + HexValue(s[|s| - 1]).value
  }

  function Base32Number(s: string): nat
    requires IsBase32(s)
  {
    if s == "" then 0 else Base32Number(s[..|s| - 1]) * 32 + Base32Value(s[|s| - 1]).value
  }

  function HexChar(d: nat): (c: char)
    requires d < 16
    ensures HexValue(c) == Some(d) && !('A' <= c <= 'F')
  {
    if d < 10 then (d + '0' as int) as char else (d - 10 + 'a' as int) as char
  }

  // -------------------------------------------------------------- the two spellings

  function Folded(s: string): (r: string)
    requires IsHex(s)
    ensures |r| == |s| && IsHex(r)
  {
    seq(|s|, i requires 0 <= i < |s| => if 'A' <= s[i] <= 'F' then (s[i] as int + 32) as char else s[i])
  }

  /** The last k bytes of a number, each as two digits. */
  function HexOfBytes(n: nat, k: nat): (r: string)
    ensures |r| == 2 * k && IsHex(r)
  {
    if k == 0 then "" else HexOfBytes(n / 256, k - 1) + [HexChar(n % 256 / 16), HexChar(n % 16)]
  }

  /** Base32 is decoded eight digits, five bytes, at a time. */
  function DecodedHex(s: string): (r: string)
    requires IsBase32(s) && |s| % 8 == 0
    ensures |r| == |s| / 8 * 10 && IsHex(r)
  {
    if s == "" then "" else DecodedHex(s[..|s| - 8]) + HexOfBytes(Base32Number(s[|s| - 8..]), 5)
  }

  function Key(raw: string): Option<string> {
    if |raw| == 40 && IsHex(raw) then Some(Folded(raw))
    else if |raw| == 32 && IsBase32(raw) then Some(DecodedHex(raw))
    else None
  }

  /** The 160-bit number a spelling stands for. */
  function Value(raw: string): nat
    requires Key(raw).Some?
  {
    if |raw| == 40 then HexNumber(raw) else Base32Number(raw)
  }

  // --------------------------------------------------------------------- faithfulness

  function Pow(b: nat, n: nat): nat {
    if n == 0 then 1 else Pow(b, n - 1) * b
  }

  const GROUP: nat := 1099511627776

  /** Eight base32 digits are ten hexadecimal ones. */
  lemma GroupSizes()
    ensures Pow(32, 8) == GROUP == Pow(16, 10) == Pow(256, 5)
  {
    assert Pow(32, 2) == 1024;
    assert Pow(32, 4) == 1048576;
    assert Pow(32, 6) == 1073741824;
    assert Pow(16, 2) == 256;
    assert Pow(16, 4) == 65536;
    assert Pow(16, 6) == 16777216;
    assert Pow(16, 8) == 4294967296;
    assert Pow(256, 2) == 65536;
    assert Pow(256, 4) == 4294967296;
  }

  lemma Shifted(high: nat, power: nat, low: nat, b: nat)
    ensures (high * power + low) * b == high * (power * b) + low * b
  {
    assert high * power * b == high * (power * b);
  }

  lemma {:induction false} HexOfConcat(a: string, b: string)
    requires IsHex(a) && IsHex(b)
    ensures IsHex(a + b) && HexNumber(a + b) == HexNumber(a) * Pow(16, |b|) + HexNumber(b)
  {
    if b == "" {
      assert a + b == a;
    } else {
      var init, last := b[..|b| - 1], HexValue(b[|b| - 1]).value;
      HexOfConcat(a, init);
      assert (a + b)[..|a + b| - 1] == a + init && (a + b)[|a + b| - 1] == b[|b| - 1];
      Shifted(HexNumber(a), Pow(16, |init|), HexNumber(init), 16);
    }
  }

  lemma {:induction false} Base32OfConcat(a: string, b: string)
    requires IsBase32(a) && IsBase32(b)
    ensures IsBase32(a + b) && Base32Number(a + b) == Base32Number(a) * Pow(32, |b|) + Base32Number(b)
  {
    if b == "" {
      assert a + b == a;
    } else {
      var init, last := b[..|b| - 1], Base32Value(b[|b| - 1]).value;
      Base32OfConcat(a, init);
      assert (a + b)[..|a + b| - 1] == a + init && (a + b)[|a + b| - 1] == b[|b| - 1];
      Shifted(Base32Number(a), Pow(32, |init|), Base32Number(init), 32);
    }
  }

  lemma {:induction false} Base32Bound(s: string)
    requires IsBase32(s)
    ensures Base32Number(s) < Pow(32, |s|)
  {
    if s != "" {
      Base32Bound(s[..|s| - 1]);
    }
  }

  lemma ByteDigits(n: nat)
    ensures n == (n / 256 * 16 + n % 256 / 16) * 16 + n % 16
  {
    assert n % 256 % 16 == n % 16;
  }

  lemma HighBytes(n: nat, power: nat)
    requires n < power * 256
    ensures n / 256 < power
  {
  }

  lemma TwoMoreDigits(s: string, a: char, b: char)
    requires IsHex(s) && HexValue(a).Some? && HexValue(b).Some?
    ensures IsHex(s + [a, b])
    ensures HexNumber(s + [a, b]) == (HexNumber(s) * 16 + HexValue(a).value) * 16 + HexValue(b).value
  {
    var all := s + [a, b];
    assert all[..|s| + 1] == s + [a] && (s + [a])[..|s|] == s;
  }

  lemma {:induction false} BytesAreRead(n: nat, k: nat)
    requires n < Pow(256, k)
    ensures HexNumber(HexOfBytes(n, k)) == n
  {
    if k > 0 {
      HighBytes(n, Pow(256, k - 1));
      BytesAreRead(n / 256, k - 1);
      TwoMoreDigits(HexOfBytes(n / 256, k - 1), HexChar(n % 256 / 16), HexChar(n % 16));
      ByteDigits(n);
      hide HexNumber, HexChar, HexValue;
    }
  }

  /** Decoding keeps the number. */
  lemma {:induction false} DecodedIsSame(s: string)
    requires IsBase32(s) && |s| % 8 == 0
    ensures HexNumber(DecodedHex(s)) == Base32Number(s)
  {
    if s != "" {
      var init, group := s[..|s| - 8], s[|s| - 8..];
      DecodedIsSame(init);
      GroupSizes();
      Base32Bound(group);
      BytesAreRead(Base32Number(group), 5);
      assert s == init + group;
      Base32OfConcat(init, group);
      HexOfConcat(DecodedHex(init), HexOfBytes(Base32Number(group), 5));
    }
  }

  predicate IsFolded(s: string) {
    IsHex(s) && forall i | 0 <= i < |s| :: !('A' <= s[i] <= 'F')
  }

  lemma {:induction false} FoldedIsSame(s: string)
    requires IsHex(s)
    ensures IsFolded(Folded(s)) && HexNumber(Folded(s)) == HexNumber(s)
  {
    if s != "" {
      FoldedIsSame(s[..|s| - 1]);
      assert Folded(s)[..|s| - 1] == Folded(s[..|s| - 1]);
    }
  }

  lemma {:induction false} BytesAreFolded(n: nat, k: nat)
    ensures IsFolded(HexOfBytes(n, k))
  {
    if k > 0 {
      BytesAreFolded(n / 256, k - 1);
    }
  }

  lemma {:induction false} DecodedIsFolded(s: string)
    requires IsBase32(s) && |s| % 8 == 0
    ensures IsFolded(DecodedHex(s))
  {
    if s != "" {
      DecodedIsFolded(s[..|s| - 8]);
      BytesAreFolded(Base32Number(s[|s| - 8..]), 5);
    }
  }

  lemma LastDigit(m: nat, d: nat, n: nat, e: nat)
    requires d < 16 && e < 16 && m * 16 + d == n * 16 + e
    ensures m == n && d == e
  {
  }

  lemma SameDigit(c: char, d: char)
    requires HexValue(c).Some? && HexValue(c) == HexValue(d) && !('A' <= c <= 'F') && !('A' <= d <= 'F')
    ensures c == d
  {
  }

  /** Digits of one length and case are one text for one number. */
  lemma {:induction false} OneText(a: string, b: string)
    requires IsFolded(a) && IsFolded(b) && |a| == |b| && HexNumber(a) == HexNumber(b)
    ensures a == b
  {
    if a != "" {
      var i := |a| - 1;
      LastDigit(HexNumber(a[..i]), HexValue(a[i]).value, HexNumber(b[..i]), HexValue(b[i]).value);
      SameDigit(a[i], b[i]);
      OneText(a[..i], b[..i]);
      assert a == a[..i] + [a[i]] && b == b[..i] + [b[i]];
    }
  }

  lemma KeyIsValue(raw: string)
    requires Key(raw).Some?
    ensures IsFolded(Key(raw).value) && |Key(raw).value| == 40 && HexNumber(Key(raw).value) == Value(raw)
  {
    if |raw| == 40 {
      FoldedIsSame(raw);
    } else {
      DecodedIsSame(raw);
      DecodedIsFolded(raw);
    }
  }

  /** Two spellings, of either kind and in any letter case, have one key exactly when they stand
      for one number. */
  lemma KeysAreFaithful(a: string, b: string)
    requires Key(a).Some? && Key(b).Some?
    ensures Key(a) == Key(b) <==> Value(a) == Value(b)
  {
    KeyIsValue(a);
    KeyIsValue(b);
    if Value(a) == Value(b) {
      OneText(Key(a).value, Key(b).value);
    }
  }

  // ------------------------------------------------------------------ the extractors

  /** A link as urlsplit and the query parser take it apart; a link they refuse has no parts. */
  datatype Link = Unparsable | Link(scheme: string, netloc: string, fragment: string, query: seq<(string, string)>)

  /** No character outside ASCII folds to one of the letters compared here. */
  function Lower(s: string): string {
    seq(|s|, i requires 0 <= i < |s| => if 'A' <= s[i] <= 'Z' then (s[i] as int + 32) as char else s[i])
  }

  function TopicKey(topic: string): Option<string> {
    if |topic| >= 9 && Lower(topic[..9]) == "urn:btih:" then Key(topic[9..]) else None
  }

  /** The torrent server's and the search service's reading: any spelling of "xt". */
  function LooseKey(pair: (string, string)): Option<string> {
    if Lower(pair.0) == "xt" then TopicKey(pair.1) else None
  }

  /** The drive's reading: "xt" as it stands. */
  function StrictKey(pair: (string, string)): Option<string> {
    if pair.0 == "xt" then TopicKey(pair.1) else None
  }

  function First(query: seq<(string, string)>, reading: ((string, string)) -> Option<string>): Option<string> {
    if query == [] then None
    else if reading(query[0]).Some? then reading(query[0])
    else First(query[1..], reading)
  }

  function LooseInfohash(link: Link): Option<string> {
    if link.Unparsable? || Lower(link.scheme) != "magnet" then None else First(link.query, LooseKey)
  }

  /** A pattern that ignores case lets four characters beyond ASCII pass for letters: the dotted
      capital I, the dotless small i, the long s and the Kelvin sign. */
  predicate PassesForLetter(c: char) {
    c == '\U{0130}' || c == '\U{0131}' || c == '\U{017F}' || c == '\U{212A}'
  }

  /** They cannot be decoded, which ends the drive's search. */
  predicate Undecodable(topic: string) {
    && |topic| == 41 && Lower(topic[..9]) == "urn:btih:" && !IsBase32(topic[9..])
    && forall i | 9 <= i < 41 :: Base32Value(topic[i]).Some? || PassesForLetter(topic[i])
  }

  function FirstStrict(query: seq<(string, string)>): Option<string> {
    if query == [] || (query[0].0 == "xt" && Undecodable(query[0].1)) then None
    else if StrictKey(query[0]).Some? then StrictKey(query[0])
    else FirstStrict(query[1..])
  }

  function StrictInfohash(link: Link): Option<string> {
    if link.Unparsable? || Lower(link.scheme) != "magnet" || link.netloc != "" || link.fragment != "" then None
    else FirstStrict(link.query)
  }

  /** The loop over the pairs finds the first that has a key. */
  method ExtractInfohash(link: Link) returns (key: Option<string>)
    ensures key == LooseInfohash(link)
    ensures link.Link? && Lower(link.scheme) == "magnet" ==>
      (key.None? <==> forall i | 0 <= i < |link.query| :: LooseKey(link.query[i]).None?)
  {
    if link.Unparsable? || Lower(link.scheme) != "magnet" {
      return None;
    }
    for k := 0 to |link.query|
      invariant forall i | 0 <= i < k :: LooseKey(link.query[i]).None?
      invariant First(link.query, LooseKey) == First(link.query[k..], LooseKey)
    {
      key := LooseKey(link.query[k]);
      if key.Some? {
        return;
      }
    }
    return None;
  }

  /** The drive's reader goes past a pair: it is no "xt", or its value is neither a key nor
      undecodable. */
  predicate Passed(pair: (string, string)) {
    pair.0 == "xt" ==> TopicKey(pair.1).None? && !Undecodable(pair.1)
  }

  /** Among the pairs spelled "xt", the first with a key has this one, and nothing undecodable
      stands before it. */
  ghost predicate FirstOfXt(query: seq<(string, string)>, key: string) {
    exists j | 0 <= j < |query| :: StrictKey(query[j]) == Some(key) && forall k | 0 <= k < j :: Passed(query[k])
  }

  lemma UndecodableHasNoKey(topic: string)
    requires Undecodable(topic)
    ensures TopicKey(topic).None?
  {
    assert |topic[9..]| == 32;
  }

  lemma FirstOfRest(query: seq<(string, string)>, key: string)
    requires query != []
    ensures FirstOfXt(query, key) <==> StrictKey(query[0]) == Some(key) || (Passed(query[0]) && FirstOfXt(query[1..], key))
  {
    hide StrictKey, Passed;
    var rest := query[1..];
    if FirstOfXt(query, key) {
      var j :| 0 <= j < |query| && StrictKey(query[j]) == Some(key) && forall k | 0 <= k < j :: Passed(query[k]);
      if j > 0 {
        assert rest[j - 1] == query[j] && forall k | 0 <= k < j - 1 :: rest[k] == query[k + 1];
      }
    }
    if Passed(query[0]) && FirstOfXt(rest, key) {
      var j :| 0 <= j < |rest| && StrictKey(rest[j]) == Some(key) && forall k | 0 <= k < j :: Passed(rest[k]);
      assert query[j + 1] == rest[j] && forall k | 0 < k <= j :: query[k] == rest[k - 1];
    }
  }

  lemma {:induction false} FirstStrictIsFirst(query: seq<(string, string)>, key: string)
    ensures FirstStrict(query) == Some(key) <==> FirstOfXt(query, key)
  {
    if query != [] {
      FirstStrictIsFirst(query[1..], key);
      FirstOfRest(query, key);
      if Undecodable(query[0].1) {
        UndecodableHasNoKey(query[0].1);
      }
      hide Undecodable, TopicKey, FirstOfXt;
    }
  }

  lemma {:induction false} StrictFindsLess(query: seq<(string, string)>)
    requires First(query, LooseKey).None?
    ensures FirstStrict(query).None?
  {
    if query != [] {
      hide TopicKey, Undecodable;
      assert Lower("xt") == "xt";
      StrictFindsLess(query[1..]);
    }
  }

  /** The three adapters find the same in a link if and only if the torrent server's reading finds
      nothing, or the link has neither host nor fragment and among its pairs spelled "xt" that
      key comes first, before anything undecodable. */
  lemma AdaptersAgree(link: Link)
    ensures LooseInfohash(link) == StrictInfohash(link) <==>
      || LooseInfohash(link).None?
      || (link.netloc == "" && link.fragment == "" && FirstOfXt(link.query, LooseInfohash(link).value))
  {
    hide Lower, First, FirstStrict, FirstOfXt;
    if LooseInfohash(link).None? {
      if link.Link? && Lower(link.scheme) == "magnet" {
        StrictFindsLess(link.query);
      }
    } else {
      FirstStrictIsFirst(link.query, LooseInfohash(link).value);
    }
  }

  /** So they differ on every link with a host or a fragment in which the torrent server's reading
      finds a key. */
  lemma AdaptersMayDiffer(link: Link)
    requires LooseInfohash(link).Some? && (link.netloc != "" || link.fragment != "")
    ensures LooseInfohash(link) != StrictInfohash(link)
  {
    hide First, FirstStrict;
    AdaptersAgree(link);
  }

  /** Also without either: a character that passes for a letter in an earlier value hides the key
      from the drive alone. */
  lemma LookalikeHidesKey(raw: string, c: char)
    requires Key(raw).Some? && PassesForLetter(c)
    ensures
      var link := Link("magnet", "", "", [("xt", "urn:btih:" + seq(31, i => 'A') + [c]), ("xt", "urn:btih:" + raw)]);
      LooseInfohash(link) == Key(raw) && StrictInfohash(link).None?
  {
    var odd, good := "urn:btih:" + seq(31, i => 'A') + [c], "urn:btih:" + raw;
    assert good[..9] == "urn:btih:" && good[9..] == raw;
    assert odd[..9] == "urn:btih:" && odd[9..] == seq(31, i => 'A') + [c] && odd[9..][31] == c;
    assert Lower("urn:btih:") == "urn:btih:" && Lower("xt") == "xt" && Lower("magnet") == "magnet";
    assert Undecodable(odd);
    UndecodableHasNoKey(odd);
    var query := [("xt", odd), ("xt", good)];
    assert TopicKey(good) == Key(raw);
    hide Undecodable, Key, TopicKey;
    assert query[1..] == [("xt", good)];
    assert LooseKey(query[0]).None? && LooseKey(query[1]) == Key(raw);
    assert First(query[1..], LooseKey) == Key(raw);
  }
}
