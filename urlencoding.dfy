/**
  The application/x-www-form-urlencoded format of section 5 of the WHATWG
  URL Standard: the serializer (section 5.2) that `url.toString()` writes a
  URL's query with, and the parser (section 5.1) that `new URL(href)` reads
  the query of `href` into `searchParams` with. Code points are encoded
  as UTF-8, so the parser's UTF-8 decoding (the "UTF-8 decode without BOM"
  of the WHATWG Encoding Standard) is modelled too.
 */
module UrlEncoding {
  import opened Common

  /** A query parameter: name and value. */
  type Param = (string, string)

  // ---------------------------------------------------------------------
  // UTF-8
  // ---------------------------------------------------------------------

  /** The UTF-8 encoding of one code point. */
  function Utf8(c: char): (r: seq<nat>)
    ensures 1 <= |r| <= 4
    ensures forall i :: 0 <= i < |r| ==> r[i] < 256
    ensures |r| == 1 <==> c as int < 0x80
    ensures |r| == 1 ==> r[0] == c as int
    ensures |r| > 1 ==> forall i :: 0 <= i < |r| ==> r[i] >= 0x80
  {
    var n := c as int;
    if n < 0x80 then [n]
    else if n < 0x800 then [0xC0 + n / 64, 0x80 + n % 64]
    else if n < 0x10000 then [0xE0 + n / 4096, 0x80 + (n / 64) % 64, 0x80 + n % 64]
    else [0xF0 + n / 262144, 0x80 + (n / 4096) % 64, 0x80 + (n / 64) % 64, 0x80 + n % 64]
  }

  /** The UTF-8 encoding of a string. */
  function Utf8String(s: string): (r: seq<nat>)
    ensures forall i :: 0 <= i < |r| ==> r[i] < 256
    ensures |r| >= |s|
    decreases |s|
  {
    if s == [] then [] else Utf8(s[0]) + Utf8String(s[1..])
  }

  /** A continuation byte `10xxxxxx`. */
  predicate Continuation(b: nat) { 0x80 <= b < 0xC0 }

  /**
    The code point a well-formed UTF-8 sequence at the head of `bs` encodes,
    with the sequence's length; `None` when the head is not such a sequence
    (a stray continuation byte, a truncated sequence, an overlong form, a
    surrogate, or a value past U+10FFFF).
   */
  function Leading(bs: seq<nat>): (r: Option<(char, nat)>)
    requires bs != []
    ensures r.Some? ==> 1 <= r.value.1 <= |bs| && r.value.1 <= 4
  {
    var b := bs[0];
    if b < 0x80 then Some((b as char, 1))
    else if 0xC0 <= b < 0xE0 && |bs| >= 2 && Continuation(bs[1]) then
      var v := (b - 0xC0) * 64 + (bs[1] - 0x80);
      if 0x80 <= v then Some((v as char, 2)) else None
    else if 0xE0 <= b < 0xF0 && |bs| >= 3 && Continuation(bs[1]) && Continuation(bs[2]) then
      var v := (b - 0xE0) * 4096 + (bs[1] - 0x80) * 64 + (bs[2] - 0x80);
      if 0x800 <= v && !(0xD800 <= v < 0xE000) then Some((v as char, 3)) else None
    else if 0xF0 <= b < 0xF8 && |bs| >= 4 && Continuation(bs[1]) && Continuation(bs[2]) && Continuation(bs[3]) then
      var v := (b - 0xF0) * 262144 + (bs[1] - 0x80) * 4096 + (bs[2] - 0x80) * 64 + (bs[3] - 0x80);
      if 0x10000 <= v < 0x110000 then Some((v as char, 4)) else None
    else None
  }

  const Replacement: char := '\U{FFFD}'

  /** UTF-8 decoding; a byte that starts no well-formed sequence becomes U+FFFD. */
  function Utf8Decode(bs: seq<nat>): string
    decreases |bs|
  {
    if bs == [] then []
    else match Leading(bs)
      case Some((c, k)) => [c] + Utf8Decode(bs[k..])
      case None => [Replacement] + Utf8Decode(bs[1..])
  }

  lemma SixBits(n: int, q: int)
    requires 0 <= n && q == n / 64
    ensures n == q * 64 + n % 64 && 0 <= n % 64 < 64
  {
  }

  /** Splitting a number into a high part and 6 low bits, twice. */
  lemma TwelveBits(n: int)
    requires 0 <= n
    ensures n / 4096 == (n / 64) / 64
    ensures n == (n / 4096) * 4096 + ((n / 64) % 64) * 64 + n % 64
  {
    var q := n / 64;
    SixBits(n, q);
    SixBits(q, q / 64);
    assert n == (q / 64) * 4096 + (q % 64) * 64 + n % 64;
    assert n / 4096 == q / 64 by {
      assert 0 <= (q % 64) * 64 + n % 64 < 4096;
    }
  }

  /** The same, three times. */
  lemma EighteenBits(n: int)
    requires 0 <= n
    ensures n / 262144 == (n / 4096) / 64
    ensures n == (n / 262144) * 262144 + ((n / 4096) % 64) * 4096 + ((n / 64) % 64) * 64 + n % 64
  {
    var q := n / 4096;
    TwelveBits(n);
    SixBits(q, q / 64);
    assert n == (q / 64) * 262144 + (q % 64) * 4096 + ((n / 64) % 64) * 64 + n % 64;
    assert n / 262144 == q / 64 by {
      assert 0 <= (q % 64) * 4096 + ((n / 64) % 64) * 64 + n % 64 < 262144;
    }
  }

  /** The decoder reads one encoded code point back, whatever follows it. */
  lemma LeadingUtf8(c: char, rest: seq<nat>)
    ensures Leading(Utf8(c) + rest) == Some((c, |Utf8(c)|))
  {
    var n := c as int;
    var bs := Utf8(c) + rest;
    if n < 0x80 {
    } else if n < 0x800 {
      SixBits(n, n / 64);
      assert bs[0] == 0xC0 + n / 64 && bs[1] == 0x80 + n % 64;
      assert (bs[0] - 0xC0) * 64 + (bs[1] - 0x80) == n;
    } else if n < 0x10000 {
      TwelveBits(n);
      assert bs[0] == 0xE0 + n / 4096 && bs[1] == 0x80 + (n / 64) % 64 && bs[2] == 0x80 + n % 64;
      assert (bs[0] - 0xE0) * 4096 + (bs[1] - 0x80) * 64 + (bs[2] - 0x80) == n;
    } else {
      EighteenBits(n);
      TwelveBits(n);
      assert bs[0] == 0xF0 + n / 262144 && bs[1] == 0x80 + (n / 4096) % 64
          && bs[2] == 0x80 + (n / 64) % 64 && bs[3] == 0x80 + n % 64;
      assert (bs[0] - 0xF0) * 262144 + (bs[1] - 0x80) * 4096 + (bs[2] - 0x80) * 64 + (bs[3] - 0x80) == n;
    }
  }

  /** Decoding undoes encoding: `Utf8Decode(Utf8String(s)) == s`. */
  lemma {:induction false} Utf8RoundTrip(s: string)
    ensures Utf8Decode(Utf8String(s)) == s
    decreases |s|
  {
    if s != [] {
      var bs := Utf8String(s);
      LeadingUtf8(s[0], Utf8String(s[1..]));
      assert bs[|Utf8(s[0])|..] == Utf8String(s[1..]);
      Utf8RoundTrip(s[1..]);
    }
  }

  lemma {:induction false} Utf8StringConcat(a: string, b: string)
    ensures Utf8String(a + b) == Utf8String(a) + Utf8String(b)
    decreases |a|
  {
    if a == [] {
      assert a + b == b;
    } else {
      assert (a + b)[1..] == a[1..] + b;
      Utf8StringConcat(a[1..], b);
    }
  }

  // ---------------------------------------------------------------------
  // The serializer (section 5.2)
  // ---------------------------------------------------------------------

  /** Bytes the serializer writes as they are: `*`, `-`, `.`, `_` and ASCII letters and digits. */
  predicate Kept(b: nat) {
    b == 0x2A || b == 0x2D || b == 0x2E || b == 0x5F
    || 0x30 <= b <= 0x39 || 0x41 <= b <= 0x5A || 0x61 <= b <= 0x7A
  }

  /** The characters a serialized name or value can hold. */
  predicate FormChar(c: char) { c == '+' || c == '%' || Kept(c as int) }

  predicate IsHexDigit(c: char) { '0' <= c <= '9' || 'A' <= c <= 'F' || 'a' <= c <= 'f' }

  function HexValue(c: char): (r: nat)
    requires IsHexDigit(c)
    ensures r < 16
  {
    if c <= '9' then c as int - '0' as int
    else if c <= 'F' then c as int - 'A' as int + 10
    else c as int - 'a' as int + 10
  }

  /** The upper-case hexadecimal digit of `d`, which reads back as `d`. */
  function HexDigit(d: nat): (r: char)
    requires d < 16
    ensures Kept(r as int) && IsHexDigit(r) && HexValue(r) == d
  {
    if d < 10 then ('0' as int + d) as char else ('A' as int + d - 10) as char
  }

  /** One byte: a space as `+`, a kept byte as itself, any other as `%XX`. */
  function EncodeByte(b: nat): (r: string)
    requires b < 256
    ensures forall i :: 0 <= i < |r| ==> FormChar(r[i])
  {
    if b == 0x20 then "+"
    else if Kept(b) then [b as char]
    else ['%', HexDigit(b / 16), HexDigit(b % 16)]
  }

  function EncodeBytes(bs: seq<nat>): (r: string)
    requires forall i :: 0 <= i < |bs| ==> bs[i] < 256
    ensures forall i :: 0 <= i < |r| ==> FormChar(r[i])
    decreases |bs|
  {
    if bs == [] then [] else EncodeByte(bs[0]) + EncodeBytes(bs[1..])
  }

  /** A name or a value, UTF-8 encoded and then percent-encoded. */
  function EncodeComponent(s: string): (r: string)
    ensures forall i :: 0 <= i < |r| ==> FormChar(r[i])
  {
    EncodeBytes(Utf8String(s))
  }

  /** How many times `c` occurs in `s`. */
  function Occurrences(s: string, c: char): nat
    decreases |s|
  {
    if s == [] then 0 else (if s[0] == c then 1 else 0) + Occurrences(s[1..], c)
  }

  lemma {:induction false} OccurrencesConcat(a: string, b: string, c: char)
    ensures Occurrences(a + b, c) == Occurrences(a, c) + Occurrences(b, c)
    decreases |a|
  {
    if a != [] {
      assert (a + b)[1..] == a[1..] + b;
      OccurrencesConcat(a[1..], b, c);
    } else {
      assert a + b == b;
    }
  }

  lemma {:induction false} NoOccurrences(s: string, c: char)
    requires forall i :: 0 <= i < |s| ==> FormChar(s[i])
    requires !FormChar(c)
    ensures Occurrences(s, c) == 0
    decreases |s|
  {
    if s != [] {
      NoOccurrences(s[1..], c);
    }
  }

  /** `name=value`, both encoded. */
  function Pair(p: Param): (r: string)
    ensures Occurrences(r, '=') == 1 && Occurrences(r, '&') == 0
  {
    var name := EncodeComponent(p.0);
    var value := EncodeComponent(p.1);
    NoOccurrences(name, '='); NoOccurrences(name, '&');
    NoOccurrences(value, '='); NoOccurrences(value, '&');
    OccurrencesConcat(name, "=", '='); OccurrencesConcat(name + "=", value, '=');
    OccurrencesConcat(name, "=", '&'); OccurrencesConcat(name + "=", value, '&');
    name + "=" + value
  }

  /**
    The serialized query: the encoded pairs joined by `&`. An encoded name or
    value holds neither `=` nor `&`, so the string shows every pair
    boundary: one `=` per pair and one `&` between neighbours.
   */
  function Query(ps: seq<Param>): (r: string)
    ensures Occurrences(r, '=') == |ps|
    ensures Occurrences(r, '&') == if ps == [] then 0 else |ps| - 1
    decreases |ps|
  {
    if ps == [] then ""
    else if |ps| == 1 then Pair(ps[0])
    else
      var rest := Query(ps[1..]);
      OccurrencesConcat(Pair(ps[0]), "&", '='); OccurrencesConcat(Pair(ps[0]) + "&", rest, '=');
      OccurrencesConcat(Pair(ps[0]), "&", '&'); OccurrencesConcat(Pair(ps[0]) + "&", rest, '&');
      Pair(ps[0]) + "&" + rest
  }

  /** Queries with different numbers of pairs never serialize to the same string. */
  lemma QueryKeepsPairCount(ps: seq<Param>, qs: seq<Param>)
    requires |ps| != |qs|
    ensures Query(ps) != Query(qs)
  {
  }

  // ---------------------------------------------------------------------
  // The parser (section 5.1)
  // ---------------------------------------------------------------------

  /**
    The bytes a serialized name or value stands for: `+` is a space, `%`
    followed by two hexadecimal digits is the byte they spell, and any
    other character stands for its own UTF-8 encoding (a `%` not followed
    by two hexadecimal digits included).
   */
  function DecodeBytes(s: string): seq<nat>
    decreases |s|
  {
    if s == [] then []
    else if s[0] == '+' then [0x20] + DecodeBytes(s[1..])
    else if s[0] == '%' && |s| >= 3 && IsHexDigit(s[1]) && IsHexDigit(s[2]) then
      [HexValue(s[1]) * 16 + HexValue(s[2])] + DecodeBytes(s[3..])
    else Utf8(s[0]) + DecodeBytes(s[1..])
  }

  /** A name or a value: percent-decoded, then UTF-8 decoded. */
  function DecodeComponent(s: string): string {
    Utf8Decode(DecodeBytes(s))
  }

  /** The index of the first `c` in `s`, or `|s|` when there is none. */
  function IndexOf(s: string, c: char): (r: nat)
    ensures r <= |s|
    ensures r < |s| ==> s[r] == c
    ensures forall i :: 0 <= i < r ==> s[i] != c
    decreases |s|
  {
    if s == [] then 0 else if s[0] == c then 0 else 1 + IndexOf(s[1..], c)
  }

  /** The pieces of `s` between the occurrences of `c`, empty pieces included. */
  function Split(s: string, c: char): (r: seq<string>)
    ensures |r| == Occurrences(s, c) + 1
    decreases |s|
  {
    var i := IndexOf(s, c);
    if i == |s| then
      NoneBefore(s, c, i);
      assert s[..i] == s;
      [s]
    else
      NoneBefore(s, c, i);
      OccurrencesConcat(s[..i], s[i..], c);
      assert s == s[..i] + s[i..];
      assert s[i..][1..] == s[i + 1..];
      [s[..i]] + Split(s[i + 1..], c)
  }

  lemma {:induction false} NoneBefore(s: string, c: char, i: nat)
    requires i <= |s|
    requires forall j :: 0 <= j < i ==> s[j] != c
    ensures Occurrences(s[..i], c) == 0
    decreases i
  {
    if i > 0 {
      assert s[..i][1..] == s[1..][..i - 1];
      NoneBefore(s[1..], c, i - 1);
    }
  }

  /** A non-empty piece: the name before the first `=`, the value after it (empty without one). */
  function ParsePair(s: string): Param {
    var i := IndexOf(s, '=');
    if i == |s| then (DecodeComponent(s), "")
    else (DecodeComponent(s[..i]), DecodeComponent(s[i + 1..]))
  }

  function ParsePieces(pieces: seq<string>): (r: seq<Param>)
    ensures |r| <= |pieces|
    decreases |pieces|
  {
    if pieces == [] then []
    else if pieces[0] == "" then ParsePieces(pieces[1..])
    else [ParsePair(pieces[0])] + ParsePieces(pieces[1..])
  }

  /** The parser: the pieces between `&`s, the empty ones skipped, each read as a pair. */
  function ParseQuery(q: string): (r: seq<Param>)
    ensures |r| <= Occurrences(q, '&') + 1
  {
    ParsePieces(Split(q, '&'))
  }

  // ---------------------------------------------------------------------
  // The parser reads back what the serializer wrote
  // ---------------------------------------------------------------------

  /** One encoded byte decodes to itself, whatever follows it. */
  lemma DecodeByte(b: nat, rest: string)
    requires b < 256
    ensures DecodeBytes(EncodeByte(b) + rest) == [b] + DecodeBytes(rest)
  {
    var s := EncodeByte(b) + rest;
    if b == 0x20 {
      assert s[1..] == rest;
    } else if Kept(b) {
      assert s[0] == b as char && s[1..] == rest;
      assert Utf8(b as char) == [b];
    } else {
      assert s[3..] == rest;
    }
  }

  lemma {:induction false} DecodeEncodedBytes(bs: seq<nat>)
    requires forall i :: 0 <= i < |bs| ==> bs[i] < 256
    ensures DecodeBytes(EncodeBytes(bs)) == bs
    decreases |bs|
  {
    if bs != [] {
      DecodeByte(bs[0], EncodeBytes(bs[1..]));
      DecodeEncodedBytes(bs[1..]);
    }
  }

  /** Decoding a serialized name or value gives the string back. */
  lemma ComponentRoundTrip(s: string)
    ensures DecodeComponent(EncodeComponent(s)) == s
  {
    DecodeEncodedBytes(Utf8String(s));
    Utf8RoundTrip(s);
  }

  /** The first `c` of `a + b`, when `a` holds none, is the first `c` of `b`, shifted. */
  lemma {:induction false} IndexOfAfter(a: string, b: string, c: char)
    requires Occurrences(a, c) == 0
    ensures IndexOf(a + b, c) == |a| + IndexOf(b, c)
    decreases |a|
  {
    if a == [] {
      assert a + b == b;
    } else {
      assert (a + b)[1..] == a[1..] + b;
      IndexOfAfter(a[1..], b, c);
    }
  }

  lemma ParsePairRoundTrip(p: Param)
    ensures Pair(p) != "" && ParsePair(Pair(p)) == p
  {
    var name := EncodeComponent(p.0);
    var value := EncodeComponent(p.1);
    var s := name + "=" + value;
    NoOccurrences(name, '=');
    IndexOfAfter(name, "=" + value, '=');
    assert s == name + ("=" + value);
    assert s[..|name|] == name && s[|name| + 1..] == value;
    ComponentRoundTrip(p.0);
    ComponentRoundTrip(p.1);
  }

  /**
    The parser reads back exactly the pairs the serializer wrote, in order,
    duplicates and empty names and values included.
   */
  lemma {:induction false} ParseQueryRoundTrip(ps: seq<Param>)
    ensures ParseQuery(Query(ps)) == ps
    decreases |ps|
  {
    if ps == [] {
      assert Split("", '&') == [""];
    } else {
      var head := Pair(ps[0]);
      ParsePairRoundTrip(ps[0]);
      if |ps| == 1 {
        IndexOfAfter(head, "", '&');
        assert head + "" == head;
        assert Split(head, '&') == [head];
      } else {
        var rest := Query(ps[1..]);
        var s := head + "&" + rest;
        IndexOfAfter(head, "&" + rest, '&');
        assert s == head + ("&" + rest);
        assert s[..|head|] == head && s[|head| + 1..] == rest;
        assert Split(s, '&') == [head] + Split(rest, '&');
        ParseQueryRoundTrip(ps[1..]);
      }
    }
  }
}
