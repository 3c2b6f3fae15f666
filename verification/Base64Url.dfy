/** The URL-safe base64 encoder and decoder of the API's tokens (section 5 of RFC 4648 without padding),
    on top of the platform's `btoa` and `atob`. */
module Base64Url {
  import opened Messages

  type Octet = x: int | 0 <= x < 256
  type Sextet = x: int | 0 <= x < 64

  // ---- Bits ----

  /** Three bytes are four groups of six bits. */
  function Quad(a: Octet, b: Octet, c: Octet): seq<Sextet> {
    [a / 4, a % 4 * 16 + b / 16, b % 16 * 4 + c / 64, c % 64]
  }

  /** Three bytes at a time become four groups of six bits; a last shorter group is filled with zeros. */
  function Sextets(s: seq<Octet>): (v: seq<Sextet>)
    ensures |v| == Unpadded(|s|)
  {
    if s == [] then []
    else
      var quad := Quad(s[0], if |s| > 1 then s[1] else 0, if |s| > 2 then s[2] else 0);
      if |s| >= 3 then quad + Sextets(s[3..]) else quad[..|s| + 1]
  }

  function OctetAt(s: seq<Octet>, i: nat): Octet {
    if i < |s| then s[i] else 0
  }

  /** Group `r` of the four that the 24 bits from byte `j` on are cut into. */
  function SixBits(s: seq<Octet>, j: nat, r: nat): Sextet
    requires r < 4
  {
    match r
    case 0 => OctetAt(s, j) / 4
    case 1 => OctetAt(s, j) % 4 * 16 + OctetAt(s, j + 1) / 16
    case 2 => OctetAt(s, j + 1) % 16 * 4 + OctetAt(s, j + 2) / 64
    case _ => OctetAt(s, j + 2) % 64
  }

  /** The first group of four, and how the later ones are those of the rest. */
  lemma FirstQuad(s: seq<Octet>, r: nat)
    requires r < 4 && r < |Sextets(s)|
    ensures Sextets(s)[r] == SixBits(s, 0, r)
  {
  }

  lemma LaterQuads(s: seq<Octet>, i: nat)
    requires 4 <= i < |Sextets(s)|
    ensures |s| > 3 && i - 4 < |Sextets(s[3..])| && Sextets(s)[i] == Sextets(s[3..])[i - 4]
  {
  }

  lemma LaterBits(s: seq<Octet>, j: nat, r: nat)
    requires r < 4 && |s| >= 3
    ensures SixBits(s[3..], j, r) == SixBits(s, j + 3, r)
  {
    assert OctetAt(s[3..], j) == OctetAt(s, j + 3);
    assert OctetAt(s[3..], j + 1) == OctetAt(s, j + 4);
    assert OctetAt(s[3..], j + 2) == OctetAt(s, j + 5);
  }

  /** Every group of six bits is where section 4 of RFC 4648 puts it. */
  lemma {:induction false} SextetAt(s: seq<Octet>, k: nat, r: nat)
    requires r < 4 && 4 * k + r < |Sextets(s)|
    ensures Sextets(s)[4 * k + r] == SixBits(s, 3 * k, r)
  {
    hide Sextets, Unpadded, SixBits;
    if k == 0 {
      FirstQuad(s, r);
    } else {
      LaterQuads(s, 4 * k + r);
      SextetAt(s[3..], k - 1, r);
      LaterBits(s, 3 * (k - 1), r);
    }
  }

  /** Four groups of six bits are three bytes. */
  function Triple(a: Sextet, b: Sextet, c: Sextet, d: Sextet): seq<Octet> {
    [a * 4 + b / 16, b % 16 * 16 + c / 4, c % 4 * 64 + d]
  }

  /** Four groups of six bits become three bytes; the unused bits of a last shorter group are dropped. */
  function Octets(v: seq<Sextet>): seq<Octet> {
    if |v| < 2 then []
    else
      var three := Triple(v[0], v[1], if |v| > 2 then v[2] else 0, if |v| > 3 then v[3] else 0);
      if |v| >= 4 then three + Octets(v[4..]) else three[..|v| - 1]
  }

  lemma Cut(q: nat, r: nat)
    ensures r < 4 ==> (q * 4 + r) / 4 == q && (q * 4 + r) % 4 == r
    ensures r < 16 ==> (q * 16 + r) / 16 == q && (q * 16 + r) % 16 == r
  {
  }

  lemma TripleOfQuad(a: Octet, b: Octet, c: Octet)
    ensures var q := Quad(a, b, c);
      && Triple(q[0], q[1], q[2], q[3]) == [a, b, c]
      && Triple(q[0], q[1], q[2], 0)[..2] == [a, b]
      && Triple(q[0], q[1], 0, 0)[..1] == [a]
  {
    Cut(a % 4, b / 16);
    Cut(b % 16, c / 64);
    assert a / 4 * 4 + a % 4 == a && b / 16 * 16 + b % 16 == b && c / 64 * 64 + c % 64 == c;
  }

  lemma {:induction false} OctetsOfSextets(s: seq<Octet>)
    ensures Octets(Sextets(s)) == s
  {
    if s != [] {
      var a, b, c := s[0], if |s| > 1 then s[1] else 0, if |s| > 2 then s[2] else 0;
      var q := Quad(a, b, c);
      assert |q| == 4;
      TripleOfQuad(a, b, c);
      hide Quad, Triple;
      if |s| >= 3 {
        OctetsOfSextets(s[3..]);
        assert (q + Sextets(s[3..]))[4..] == Sextets(s[3..]);
        assert s == [a, b, c] + s[3..];
      } else {
        assert s == [a, b, c][..|s|];
      }
    }
  }

  // ---- The standard alphabet ----

  function CharOf(v: Sextet): char {
    if v < 26 then 'A' + v as char
    else if v < 52 then 'a' + (v - 26) as char
    else if v < 62 then '0' + (v - 52) as char
    else if v == 62 then '+' else '/'
  }

  function ValueOf(c: char): (v: Option<Sextet>)
    ensures v.Some? ==> CharOf(v.value) == c
    ensures forall w: Sextet :: CharOf(w) == c ==> v == Some(w)
  {
    if 'A' <= c <= 'Z' then Some((c - 'A') as int)
    else if 'a' <= c <= 'z' then Some((c - 'a') as int + 26)
    else if '0' <= c <= '9' then Some((c - '0') as int + 52)
    else if c == '+' then Some(62) else if c == '/' then Some(63) else None
  }

  predicate InAlphabet(t: string) {
    forall i :: 0 <= i < |t| ==> ValueOf(t[i]).Some?
  }

  function Chars(v: seq<Sextet>): (t: string)
    ensures |t| == |v| && InAlphabet(t)
  {
    seq(|v|, i requires 0 <= i < |v| => CharOf(v[i]))
  }

  function Values(t: string): (v: seq<Sextet>)
    requires InAlphabet(t)
    ensures |v| == |t| && Chars(v) == t
  {
    seq(|t|, i requires 0 <= i < |t| => ValueOf(t[i]).value)
  }

  // ---- btoa and atob ----

  predicate IsBinary(s: string) {
    forall i :: 0 <= i < |s| ==> s[i] as int < 256
  }

  /** `charCodeAt` of every character. */
  function CharCodes(s: string): (b: seq<Octet>)
    requires IsBinary(s)
    ensures |b| == |s|
  {
    seq(|s|, i requires 0 <= i < |s| => s[i] as int)
  }

  /** `String.fromCharCode` of every byte. */
  function FromCharCodes(b: seq<Octet>): (s: string)
    ensures IsBinary(s) && |s| == |b| && CharCodes(s) == b
  {
    seq(|b|, i requires 0 <= i < |b| => b[i] as char)
  }

  function Padding(length: nat): string {
    if length % 3 == 1 then "==" else if length % 3 == 2 then "=" else ""
  }

  /** The platform's encoder, for strings of characters below 256. */
  function Btoa(s: string): string
    requires IsBinary(s)
  {
    Chars(Sextets(CharCodes(s))) + Padding(|s|)
  }

  predicate IsAsciiSpace(c: char) {
    c == '\t' || c == '\n' || c == '\U{C}' || c == '\r' || c == ' '
  }

  function WithoutSpaces(t: string): string {
    if t == "" then ""
    else if IsAsciiSpace(t[0]) then WithoutSpaces(t[1..])
    else [t[0]] + WithoutSpaces(t[1..])
  }

  /** Up to two padding characters go if the length allows them. */
  function WithoutPadding(t: string): string {
    if |t| % 4 != 0 || t == "" || t[|t| - 1] != '=' then t
    else if t[|t| - 2] == '=' then t[..|t| - 2]
    else t[..|t| - 1]
  }

  /** The platform's forgiving decoder; None where it throws. */
  function Atob(t: string): (s: Option<string>)
    ensures s.Some? ==> IsBinary(s.value)
  {
    var core := WithoutPadding(WithoutSpaces(t));
    if |core| % 4 == 1 || !InAlphabet(core) then None else Some(FromCharCodes(Octets(Values(core))))
  }

  lemma {:induction false} SpacesStay(t: string)
    requires forall i :: 0 <= i < |t| ==> !IsAsciiSpace(t[i])
    ensures WithoutSpaces(t) == t
  {
    if t != "" {
      SpacesStay(t[1..]);
      assert t == [t[0]] + t[1..];
    }
  }

  /** The characters of `n` bytes, `Unpadded(n)` of them, are never one more than a multiple of four, and the
      padding completes them to one. */
  function Unpadded(n: nat): (k: nat)
    ensures k % 4 != 1 && (k + |Padding(n)|) % 4 == 0
    ensures n % 3 == 0 <==> k % 4 == 0
    ensures n % 3 == 1 <==> k % 4 == 2
    ensures n % 3 == 2 <==> k % 4 == 3
  {
    n / 3 * 4 + if n % 3 == 0 then 0 else n % 3 + 1
  }

  lemma PlainText(core: string, padding: string)
    requires InAlphabet(core) && forall i :: 0 <= i < |padding| ==> padding[i] == '='
    ensures WithoutSpaces(core + padding) == core + padding
    ensures '=' !in core
  {
    var t := core + padding;
    forall i | 0 <= i < |t| ensures !IsAsciiSpace(t[i]) {
      if i < |core| { assert ValueOf(core[i]).Some?; }
    }
    SpacesStay(t);
    forall i | 0 <= i < |core| ensures core[i] != '=' { assert ValueOf(core[i]).Some?; }
  }

  /** `atob` removes what completes a text to a multiple of four. */
  lemma PaddingComesOff(core: string, padding: string)
    requires InAlphabet(core)
    requires padding == "" || ((padding == "=" || padding == "==") && core != "" && (|core| + |padding|) % 4 == 0)
    ensures WithoutPadding(WithoutSpaces(core + padding)) == core
  {
    PlainText(core, padding);
    hide WithoutSpaces, InAlphabet;
    var t := core + padding;
    if padding == "" {
      assert t == core;
      assert core != "" ==> core[|core| - 1] != '=';
    } else {
      assert t[..|core|] == core;
      assert t[|core| - 1] == core[|core| - 1] != '=';
    }
  }

  lemma ValuesOfChars(v: seq<Sextet>)
    ensures Values(Chars(v)) == v
  {
    forall i | 0 <= i < |v| ensures Values(Chars(v))[i] == v[i] {
      assert Chars(v)[i] == CharOf(v[i]);
    }
  }

  /** `atob` undoes `btoa`, padding included. */
  lemma AtobOfBtoa(s: string)
    requires IsBinary(s)
    ensures Atob(Btoa(s)) == Some(s)
  {
    var bytes := CharCodes(s);
    var v := Sextets(bytes);
    assert FromCharCodes(bytes) == s;
    assert |s| % 3 != 0 ==> v != [] && Padding(|s|) in ["=", "=="];
    assert |s| % 3 == 0 ==> Padding(|s|) == "";
    hide Sextets, Octets, WithoutSpaces, WithoutPadding, Chars, Values, Padding, CharCodes, FromCharCodes, InAlphabet;
    PaddingComesOff(Chars(v), Padding(|s|));
    OctetsOfSextets(bytes);
    ValuesOfChars(v);
  }

  // ---- The URL-safe form ----

  /** The alphabet of section 5. */
  function UrlCharOf(v: Sextet): (c: char)
    ensures c != '.' && c != '='
  {
    if v == 62 then '-' else if v == 63 then '_' else CharOf(v)
  }

  /** The alphabet: the capital letters, the small letters and the digits in their order, a minus sign and an
      underscore. */
  lemma UrlAlphabet(v: Sextet)
    ensures UrlCharOf(0) == 'A' && UrlCharOf(25) == 'Z' && UrlCharOf(26) == 'a' && UrlCharOf(51) == 'z'
    ensures UrlCharOf(52) == '0' && UrlCharOf(61) == '9' && UrlCharOf(62) == '-' && UrlCharOf(63) == '_'
    ensures v < 61 && v != 25 && v != 51 ==> UrlCharOf(v + 1) as int == UrlCharOf(v) as int + 1
  {
  }

  /** The unpadded URL-safe text of some bytes. */
  function Encoded(b: seq<Octet>): (t: string)
    ensures |t| == Unpadded(|b|) && |t| % 4 != 1
    ensures '.' !in t
  {
    var v := Sextets(b);
    seq(|v|, i requires 0 <= i < |v| => UrlCharOf(v[i]))
  }

  /** Every character of an encoding stands for the six bits of its position. */
  lemma EncodedAt(b: seq<Octet>, k: nat, r: nat)
    requires r < 4 && 4 * k + r < |Encoded(b)|
    ensures Encoded(b)[4 * k + r] == UrlCharOf(SixBits(b, 3 * k, r))
  {
    hide Sextets, UrlCharOf, SixBits;
    SextetAt(b, k, r);
  }

  /** `replace` of every occurrence of a character. */
  function Replace(s: string, from: char, to: char): (r: string)
    ensures |r| == |s|
    ensures forall i :: 0 <= i < |s| ==> r[i] == if s[i] == from then to else s[i]
  {
    seq(|s|, i requires 0 <= i < |s| => if s[i] == from then to else s[i])
  }

  /** `replace` of the trailing padding characters by nothing. */
  function StripPadding(s: string): string {
    if s != "" && s[|s| - 1] == '=' then StripPadding(s[..|s| - 1]) else s
  }

  function ToUrl(s: string): string {
    Replace(Replace(s, '+', '-'), '/', '_')
  }

  function FromUrl(s: string): string {
    Replace(Replace(s, '-', '+'), '_', '/')
  }

  /** The text handed to `atob`. */
  function Restored(t: string): string {
    FromUrl(t) + if |t| % 4 == 3 then "=" else if |t| % 4 == 2 then "==" else ""
  }

  function Decoded(t: string): Option<seq<Octet>> {
    match Atob(Restored(t))
    case None => None
    case Some(binary) => Some(CharCodes(binary))
  }

  lemma UrlCharsOf(v: seq<Sextet>)
    ensures |ToUrl(Chars(v))| == |v|
    ensures forall i :: 0 <= i < |v| ==> ToUrl(Chars(v))[i] == UrlCharOf(v[i])
    ensures FromUrl(ToUrl(Chars(v))) == Chars(v)
  {
    forall i | 0 <= i < |v|
      ensures ToUrl(Chars(v))[i] == UrlCharOf(v[i]) && FromUrl(ToUrl(Chars(v)))[i] == Chars(v)[i]
    {
      assert Chars(v)[i] == CharOf(v[i]);
    }
  }

  /** Padding comes off one character at a time. */
  lemma StripsOne(s: string)
    ensures StripPadding(s + ['=']) == StripPadding(s)
  {
    var t := s + ['='];
    assert t[|t| - 1] == '=' && t[..|t| - 1] == s;
  }

  lemma StripsOff(core: string, padding: string)
    requires core != "" ==> core[|core| - 1] != '='
    requires padding == "" || padding == "=" || padding == "=="
    ensures StripPadding(core + padding) == core
  {
    assert StripPadding(core) == core;
    hide StripPadding;
    if padding == "" {
      assert core + padding == core;
    } else if padding == "=" {
      StripsOne(core);
    } else {
      StripsOne(core);
      StripsOne(core + ['=']);
      assert core + padding == core + ['='] + ['='];
    }
  }

  /** What stripping and replacing make of `btoa`'s output is the section 5 text. */
  lemma BtoaIsEncoded(s: string)
    requires IsBinary(s)
    ensures StripPadding(ToUrl(Btoa(s))) == Encoded(CharCodes(s))
  {
    var v := Sextets(CharCodes(s));
    var core, padding := Chars(v), Padding(|s|);
    UrlCharsOf(v);
    assert ToUrl(core + padding) == ToUrl(core) + padding;
    assert ToUrl(core) == Encoded(CharCodes(s));
    StripsOff(Encoded(CharCodes(s)), padding);
  }

  /** The computed padding is exactly the one that was stripped. */
  lemma RestoredIsBtoa(b: seq<Octet>)
    ensures Restored(Encoded(b)) == Btoa(FromCharCodes(b))
  {
    var v := Sextets(b);
    UrlCharsOf(v);
    assert Encoded(b) == ToUrl(Chars(v));
  }

  /** Decoding the unpadded encoding of any bytes returns them. */
  lemma RoundTrip(b: seq<Octet>)
    ensures Decoded(Encoded(b)) == Some(b)
  {
    RestoredIsBtoa(b);
    AtobOfBtoa(FromCharCodes(b));
  }

  /** Any text of the URL-safe or the standard alphabet decodes, unless its length is impossible. */
  lemma AlphabetTextDecodes(t: string)
    requires InAlphabet(FromUrl(t))
    ensures Decoded(t).Some? <==> |t| % 4 != 1
  {
    var padding := if |t| % 4 == 3 then "=" else if |t| % 4 == 2 then "==" else "";
    hide InAlphabet, WithoutSpaces, WithoutPadding, Values, Octets, FromCharCodes, CharCodes;
    PaddingComesOff(FromUrl(t), padding);
  }

  /** The bytes to encode: a buffer, or a view of a part of one. */
  datatype Source = Buffer(buffer: array<Octet>) | View(buffer: array<Octet>, offset: nat, length: nat)

  /** Of a view the whole underlying buffer is encoded. */
  method Base64UrlEncode(data: Source) returns (r: string)
    ensures r == Encoded(data.buffer[..])
  {
    var bytes := data.buffer;
    var binary := "";
    for i := 0 to bytes.Length
      invariant |binary| == i && IsBinary(binary)
      invariant forall k :: 0 <= k < i ==> binary[k] as int == bytes[k]
    {
      binary := binary + [bytes[i] as char];
    }
    assert CharCodes(binary) == bytes[..];
    BtoaIsEncoded(binary);
    r := Btoa(binary);
    r := StripPadding(Replace(Replace(r, '+', '-'), '/', '_'));
  }

  /** The encoding is that of the view if and only if the view spans its buffer. */
  lemma ViewsMustSpanTheirBuffer(buffer: seq<Octet>, offset: nat, length: nat)
    requires offset + length <= |buffer|
    ensures Encoded(buffer) == Encoded(buffer[offset..offset + length]) <==> length == |buffer|
  {
    RoundTrip(buffer);
    RoundTrip(buffer[offset..offset + length]);
    if length == |buffer| { assert buffer[offset..offset + length] == buffer; }
  }

  /** None where `atob` throws. */
  method Base64UrlDecode(str: string) returns (r: Option<array<Octet>>)
    ensures r.Some? <==> Decoded(str).Some?
    ensures r.Some? ==> fresh(r.value) && r.value[..] == Decoded(str).value
  {
    var s := Replace(Replace(str, '-', '+'), '_', '/');
    var padding := if |s| % 4 == 3 then "=" else if |s| % 4 == 2 then "==" else "";
    s := s + padding;
    var binary := Atob(s);
    if binary.None? { return None; }
    var bytes := new Octet[|binary.value|];
    for i := 0 to |binary.value|
      invariant forall k :: 0 <= k < i ==> bytes[k] == binary.value[k] as int
    {
      bytes[i] := binary.value[i] as int;
    }
    assert bytes[..] == CharCodes(binary.value);
    return Some(bytes);
  }
}
