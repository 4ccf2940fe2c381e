/**
 * middleware.ts, `base64url` and `verifySession`, with the cookie minted by app/api/session/route.ts. The
 * HMAC and JavaScript's `Number` are parameters; base64 is that of RFC 4648, sections 4 and 5.
 */
module Session {
  import opened Octets
  import opened Options

  newtype Sextet = x: int | 0 <= x < 64

  // ---- The standard alphabets ----

  /** RFC 4648, table 1. */
  function Symbol(v: Sextet): char {
    var i := v as int;
    if i < 26 then 'A' + i as char
    else if i < 52 then 'a' + (i - 26) as char
    else if i < 62 then '0' + (i - 52) as char
    else if i == 62 then '+' else '/'
  }

  /** RFC 4648, table 2, read backwards. */
  function UrlValue(c: char): Option<Sextet> {
    if 'A' <= c <= 'Z' then Some((c as int - 'A' as int) as Sextet)
    else if 'a' <= c <= 'z' then Some((c as int - 'a' as int + 26) as Sextet)
    else if '0' <= c <= '9' then Some((c as int - '0' as int + 52) as Sextet)
    else if c == '-' then Some(62)
    else if c == '_' then Some(63)
    else None
  }

  function Urlify(c: char): char {
    if c == '+' then '-' else if c == '/' then '_' else c
  }

  function UrlSymbol(v: Sextet): char {
    Urlify(Symbol(v))
  }

  lemma SymbolsRoundTrip(v: Sextet)
    ensures UrlValue(UrlSymbol(v)) == Some(v)
    ensures UrlSymbol(v) != '.' && UrlSymbol(v) != '+' && UrlSymbol(v) != '/' && UrlSymbol(v) != '='
    ensures Symbol(v) != '=' && Symbol(v) != '-' && Symbol(v) != '_'
  {
  }

  lemma ValuesRoundTrip(c: char)
    requires UrlValue(c).Some?
    ensures UrlSymbol(UrlValue(c).value) == c
  {
  }

  /** RFC 4648, table 2: the capitals, the small letters, the digits, '-' and '_'. */
  lemma AlphabetIs(v: Sextet)
    ensures var (i, c) := (v as int, UrlSymbol(v) as int);
      && (i < 26 ==> c == 'A' as int + i) && (26 <= i < 52 ==> c == 'a' as int + i - 26)
      && (52 <= i < 62 ==> c == '0' as int + i - 52)
      && (i == 62 ==> UrlSymbol(v) == '-') && (i == 63 ==> UrlSymbol(v) == '_')
  {
  }

  // ---- btoa, and the strict unpadded decoder ----

  function Sextets(a: Byte, b: Byte, c: Byte): (Sextet, Sextet, Sextet, Sextet) {
    var (x, y, z) := (a as int, b as int, c as int);
    ((x / 4) as Sextet, (x % 4 * 16 + y / 16) as Sextet, (y % 16 * 4 + z / 64) as Sextet, (z % 64) as Sextet)
  }

  function Bytes(p: Sextet, q: Sextet, r: Sextet, s: Sextet): (Byte, Byte, Byte) {
    var (w, x, y, z) := (p as int, q as int, r as int, s as int);
    ((w * 4 + x / 16) as Byte, (x % 16 * 16 + y / 4) as Byte, (y % 4 * 64 + z) as Byte)
  }

  /** Three bytes and their four sextets are the same 24-bit number. */
  lemma GroupIsNumber(a: Byte, b: Byte, c: Byte)
    ensures var (p, q, r, s) := Sextets(a, b, c);
      ((p as int * 64 + q as int) * 64 + r as int) * 64 + s as int == (a as int * 256 + b as int) * 256 + c as int
  {
    var (x, y, z) := (a as int, b as int, c as int);
    assert x / 4 * 4 + x % 4 == x && y / 16 * 16 + y % 16 == y && z / 64 * 64 + z % 64 == z;
  }

  lemma GroupRoundTrip(a: Byte, b: Byte, c: Byte)
    ensures var (p, q, r, s) := Sextets(a, b, c); Bytes(p, q, r, s) == (a, b, c)
  {
    var (x, y, z) := (a as int, b as int, c as int);
    Regroup(x, x / 4, x % 4, 4);
    assert (x % 4 * 16 + y / 16) / 16 == x % 4 && (x % 4 * 16 + y / 16) % 16 == y / 16;
    assert (y % 16 * 4 + z / 64) / 4 == y % 16 && (y % 16 * 4 + z / 64) % 4 == z / 64;
  }

  lemma Regroup(x: int, q: int, r: int, d: int)
    requires d > 0 && q == x / d && r == x % d
    ensures q * d + r == x
  {
  }

  lemma SextetsRoundTrip(p: Sextet, q: Sextet, r: Sextet, s: Sextet)
    ensures var (a, b, c) := Bytes(p, q, r, s); Sextets(a, b, c) == (p, q, r, s)
  {
    var (w, x, y, z) := (p as int, q as int, r as int, s as int);
    assert (w * 4 + x / 16) / 4 == w && (w * 4 + x / 16) % 4 == x / 16;
    assert (x % 16 * 16 + y / 4) / 16 == x % 16 && (x % 16 * 16 + y / 4) % 16 == y / 4;
    assert (y % 4 * 64 + z) / 64 == y % 4 && (y % 4 * 64 + z) % 64 == z;
  }

  /** RFC 4648, section 4: groups of three bytes, the last padded with '='. */
  function Btoa(data: seq<Byte>): string {
    if data == [] then ""
    else if |data| == 1 then
      var (p, q, _, _) := Sextets(data[0], 0, 0);
      [Symbol(p), Symbol(q), '=', '=']
    else if |data| == 2 then
      var (p, q, r, _) := Sextets(data[0], data[1], 0);
      [Symbol(p), Symbol(q), Symbol(r), '=']
    else
      var (p, q, r, s) := Sextets(data[0], data[1], data[2]);
      [Symbol(p), Symbol(q), Symbol(r), Symbol(s)] + Btoa(data[3..])
  }

  /** RFC 4648, section 5 without padding; leftover bits must be zero. */
  function Decode(text: string): Option<seq<Byte>> {
    if text == "" then Some([])
    else if |text| == 1 || UrlValue(text[0]).None? || UrlValue(text[1]).None? then None
    else
      var p, q := UrlValue(text[0]).value, UrlValue(text[1]).value;
      if |text| == 2 then
        if q as int % 16 != 0 then None else Some([Bytes(p, q, 0, 0).0])
      else if UrlValue(text[2]).None? then None
      else
        var r := UrlValue(text[2]).value;
        if |text| == 3 then
          if r as int % 4 != 0 then None else Some([Bytes(p, q, r, 0).0, Bytes(p, q, r, 0).1])
        else if UrlValue(text[3]).None? then None
        else
          var (a, b, c) := Bytes(p, q, r, UrlValue(text[3]).value);
          match Decode(text[4..])
          case None => None
          case Some(rest) => Some([a, b, c] + rest)
  }

  // ---- base64url as the program computes it ----

  function Replace(text: string, what: char, with: char): string {
    seq(|text|, i requires 0 <= i < |text| => if text[i] == what then with else text[i])
  }

  /** replace(/=+$/, '') */
  function StripEquals(text: string): string {
    if text != "" && text[|text| - 1] == '=' then StripEquals(text[..|text| - 1]) else text
  }

  function Base64Url(data: seq<Byte>): string {
    StripEquals(Replace(Replace(Btoa(data), '+', '-'), '/', '_'))
  }

  /** The URL-safe text, group by group. */
  ghost function UrlGroups(data: seq<Byte>): string {
    if data == [] then ""
    else if |data| == 1 then
      var (p, q, _, _) := Sextets(data[0], 0, 0);
      [UrlSymbol(p), UrlSymbol(q)]
    else if |data| == 2 then
      var (p, q, r, _) := Sextets(data[0], data[1], 0);
      [UrlSymbol(p), UrlSymbol(q), UrlSymbol(r)]
    else
      var (p, q, r, s) := Sextets(data[0], data[1], data[2]);
      [UrlSymbol(p), UrlSymbol(q), UrlSymbol(r), UrlSymbol(s)] + UrlGroups(data[3..])
  }

  function Urlified(text: string): string {
    Replace(Replace(text, '+', '-'), '/', '_')
  }

  function Padding(data: seq<Byte>): string {
    if |data| % 3 == 1 then "==" else if |data| % 3 == 2 then "=" else ""
  }

  lemma UrlifiedPointwise(text: string)
    ensures |Urlified(text)| == |text|
    ensures forall i :: 0 <= i < |text| ==> Urlified(text)[i] == Urlify(text[i])
  {
  }

  lemma UrlifiedConcat(a: string, b: string)
    ensures Urlified(a + b) == Urlified(a) + Urlified(b)
  {
    UrlifiedPointwise(a);
    UrlifiedPointwise(b);
    UrlifiedPointwise(a + b);
  }

  lemma UrlifiedSymbols(p: Sextet, q: Sextet, r: Sextet, s: Sextet)
    ensures Urlified([Symbol(p), Symbol(q), Symbol(r), Symbol(s)])
        == [UrlSymbol(p), UrlSymbol(q), UrlSymbol(r), UrlSymbol(s)]
    ensures Urlified([Symbol(p), Symbol(q), Symbol(r), '=']) == [UrlSymbol(p), UrlSymbol(q), UrlSymbol(r)] + "="
    ensures Urlified([Symbol(p), Symbol(q), '=', '=']) == [UrlSymbol(p), UrlSymbol(q)] + "=="
  {
    UrlifiedPointwise([Symbol(p), Symbol(q), Symbol(r), Symbol(s)]);
    UrlifiedPointwise([Symbol(p), Symbol(q), Symbol(r), '=']);
    UrlifiedPointwise([Symbol(p), Symbol(q), '=', '=']);
  }

  lemma {:induction false} UrlifiedBtoa(data: seq<Byte>)
    ensures Urlified(Btoa(data)) == UrlGroups(data) + Padding(data)
  {
    UrlifiedPointwise("");
    hide Symbol, Sextets, UrlSymbol, Urlified;
    if data == [] {
      assert Urlified("") == "";
    } else if |data| == 1 {
      var (p, q, _, _) := Sextets(data[0], 0, 0);
      UrlifiedSymbols(p, q, 0, 0);
    } else if |data| == 2 {
      var (p, q, r, _) := Sextets(data[0], data[1], 0);
      UrlifiedSymbols(p, q, r, 0);
    } else {
      var (p, q, r, s) := Sextets(data[0], data[1], data[2]);
      UrlifiedBtoa(data[3..]);
      UrlifiedSymbols(p, q, r, s);
      UrlifiedConcat([Symbol(p), Symbol(q), Symbol(r), Symbol(s)], Btoa(data[3..]));
    }
  }

  ghost predicate UrlSafe(text: string) {
    forall i :: 0 <= i < |text| ==> text[i] != '.' && text[i] != '+' && text[i] != '/' && text[i] != '='
  }

  lemma {:induction false} UrlGroupsSafe(data: seq<Byte>)
    ensures UrlSafe(UrlGroups(data))
    ensures data != [] ==> UrlGroups(data) != ""
  {
    if |data| == 1 {
      var (p, q, _, _) := Sextets(data[0], 0, 0);
      SymbolsRoundTrip(p);
      SymbolsRoundTrip(q);
    } else if |data| == 2 {
      var (p, q, r, _) := Sextets(data[0], data[1], 0);
      SymbolsRoundTrip(p);
      SymbolsRoundTrip(q);
      SymbolsRoundTrip(r);
    } else if |data| >= 3 {
      var (p, q, r, s) := Sextets(data[0], data[1], data[2]);
      SymbolsRoundTrip(p);
      SymbolsRoundTrip(q);
      SymbolsRoundTrip(r);
      SymbolsRoundTrip(s);
      UrlGroupsSafe(data[3..]);
    }
  }

  lemma StripPadding(text: string, data: seq<Byte>)
    requires UrlSafe(text)
    ensures StripEquals(text + Padding(data)) == text
  {
    assert StripEquals(text) == text;
    assert (text + "=")[..|text|] == text;
    assert (text + "==")[..|text| + 1] == text + "=";
    assert text + "" == text;
  }

  lemma Base64UrlIsGroups(data: seq<Byte>)
    ensures Base64Url(data) == UrlGroups(data)
  {
    UrlifiedBtoa(data);
    UrlGroupsSafe(data);
    StripPadding(UrlGroups(data), data);
  }

  lemma LeftoverBitsAreZero(a: Byte, b: Byte)
    ensures Sextets(a, 0, 0).1 as int % 16 == 0 && Sextets(a, 0, 0).2 == 0
    ensures Sextets(a, b, 0).2 as int % 4 == 0 && Sextets(a, b, 0).3 == 0
    ensures Sextets(a, 0, 0).3 == 0
  {
  }

  lemma {:induction false} DecodeGroups(data: seq<Byte>)
    ensures Decode(UrlGroups(data)) == Some(data)
  {
    hide Symbol, Sextets, Bytes, UrlValue, Urlify;
    if |data| == 1 {
      var (p, q, _, _) := Sextets(data[0], 0, 0);
      SymbolsRoundTrip(p);
      SymbolsRoundTrip(q);
      GroupRoundTrip(data[0], 0, 0);
      LeftoverBitsAreZero(data[0], 0);
      assert data == [data[0]];
    } else if |data| == 2 {
      var (p, q, r, _) := Sextets(data[0], data[1], 0);
      SymbolsRoundTrip(p);
      SymbolsRoundTrip(q);
      SymbolsRoundTrip(r);
      GroupRoundTrip(data[0], data[1], 0);
      LeftoverBitsAreZero(data[0], data[1]);
      assert data == [data[0], data[1]];
    } else if |data| >= 3 {
      var (p, q, r, s) := Sextets(data[0], data[1], data[2]);
      SymbolsRoundTrip(p);
      SymbolsRoundTrip(q);
      SymbolsRoundTrip(r);
      SymbolsRoundTrip(s);
      GroupRoundTrip(data[0], data[1], data[2]);
      DecodeGroups(data[3..]);
      assert UrlGroups(data)[4..] == UrlGroups(data[3..]);
      assert data == [data[0], data[1], data[2]] + data[3..];
    }
  }

  /** The standard decoder undoes base64url on every byte sequence, and the text is cookie- and URL-safe. */
  lemma Base64UrlRoundTrip(data: seq<Byte>)
    ensures Decode(Base64Url(data)) == Some(data)
    ensures UrlSafe(Base64Url(data))
    ensures Base64Url(data) == "" <==> data == []
  {
    Base64UrlIsGroups(data);
    UrlGroupsSafe(data);
    DecodeGroups(data);
  }

  predicate IsBinary(text: string) {
    forall i :: 0 <= i < |text| ==> text[i] as int < 256
  }

  /** btoa reads each character of a binary string as a byte; it raises on any other. */
  function CharBytes(binary: string): seq<Byte>
    requires IsBinary(binary)
  {
    seq(|binary|, i requires 0 <= i < |binary| => binary[i] as int as Byte)
  }

  /** The view as a binary string, one String.fromCharCode a byte, then base64url of that. */
  method EncodeSignature(view: seq<Byte>) returns (text: string)
    ensures Decode(text) == Some(view) && UrlSafe(text)
    ensures text == Base64Url(view)
  {
    var binary := "";
    for i := 0 to |view|
      invariant IsBinary(binary) && CharBytes(binary) == view[..i]
    {
      binary := binary + [view[i] as int as char];
    }
    assert CharBytes(binary) == view;
    Base64UrlRoundTrip(view);
    text := StripEquals(Replace(Replace(Btoa(CharBytes(binary)), '+', '-'), '/', '_'));
  }

  /** And the other way: whatever decodes is the encoding of what it decodes to. */
  lemma {:induction false} DecodeThenEncode(text: string)
    requires Decode(text).Some?
    ensures Base64Url(Decode(text).value) == text
  {
    GroupsOfDecoded(text);
    Base64UrlIsGroups(Decode(text).value);
  }

  lemma ZeroBitsDecode(p: Sextet, q: Sextet, r: Sextet)
    ensures q as int % 16 == 0 ==> Bytes(p, q, 0, 0).1 == 0 && Bytes(p, q, 0, 0).2 == 0
    ensures r as int % 4 == 0 ==> Bytes(p, q, r, 0).2 == 0
  {
  }

  lemma {:induction false} GroupsOfDecoded(text: string)
    requires Decode(text).Some?
    ensures UrlGroups(Decode(text).value) == text
  {
    hide Symbol, Sextets, Bytes, UrlValue;
    if text != "" {
      var p, q := UrlValue(text[0]).value, UrlValue(text[1]).value;
      ValuesRoundTrip(text[0]);
      ValuesRoundTrip(text[1]);
      if |text| == 2 {
        SextetsRoundTrip(p, q, 0, 0);
        ZeroBitsDecode(p, q, 0);
      } else {
        var r := UrlValue(text[2]).value;
        ValuesRoundTrip(text[2]);
        if |text| == 3 {
          SextetsRoundTrip(p, q, r, 0);
          ZeroBitsDecode(p, q, r);
        } else {
          var s := UrlValue(text[3]).value;
          ValuesRoundTrip(text[3]);
          SextetsRoundTrip(p, q, r, s);
          GroupsOfDecoded(text[4..]);
          var (a, b, c) := Bytes(p, q, r, s);
          var rest := Decode(text[4..]).value;
          assert ([a, b, c] + rest)[3..] == rest;
          assert text == [text[0], text[1], text[2], text[3]] + text[4..];
        }
      }
    }
  }

  // ---- The constant-time comparison ----

  /** Bitwise exclusive or and or. */
  function Xor(a: nat, b: nat): nat {
    if a == 0 && b == 0 then 0 else (if a % 2 != b % 2 then 1 else 0) + 2 * Xor(a / 2, b / 2)
  }

  function Or(a: nat, b: nat): nat {
    if a == 0 && b == 0 then 0 else (if a % 2 != 0 || b % 2 != 0 then 1 else 0) + 2 * Or(a / 2, b / 2)
  }

  lemma {:induction false} XorZero(a: nat, b: nat)
    ensures Xor(a, b) == 0 <==> a == b
  {
    if a != 0 || b != 0 {
      XorZero(a / 2, b / 2);
    }
  }

  lemma {:induction false} OrZero(a: nat, b: nat)
    ensures Or(a, b) == 0 <==> a == 0 && b == 0
  {
    if a != 0 || b != 0 {
      OrZero(a / 2, b / 2);
    }
  }

  /** The loop reads every character whatever it has seen, and its accumulator is zero exactly on equal strings. */
  method Mismatch(expected: string, presented: string) returns (mismatch: nat)
    requires |expected| == |presented|
    ensures mismatch == 0 <==> expected == presented
  {
    mismatch := 0;
    for i := 0 to |expected|
      invariant mismatch == 0 <==> expected[..i] == presented[..i]
    {
      var diff := Xor(expected[i] as int, presented[i] as int);
      XorZero(expected[i] as int, presented[i] as int);
      OrZero(mismatch, diff);
      mismatch := Or(mismatch, diff);
      assert expected[..i + 1] == expected[..i] + [expected[i]];
      assert presented[..i + 1] == presented[..i] + [presented[i]];
    }
    assert expected[..|expected|] == expected && presented[..|expected|] == presented;
  }

  // ---- The cookie ----

  /** value.split('.') */
  function Split(text: string): (parts: seq<string>)
    ensures parts != []
  {
    if text == "" then [""]
    else
      var rest := Split(text[1..]);
      if text[0] == '.' then [""] + rest else [[text[0]] + rest[0]] + rest[1..]
  }

  function Joined(parts: seq<string>): string
    requires parts != []
  {
    if |parts| == 1 then parts[0] else parts[0] + "." + Joined(parts[1..])
  }

  ghost predicate DotFree(text: string) {
    forall i :: 0 <= i < |text| ==> text[i] != '.'
  }

  /** Splitting finds the parts, and they are the only dot-free ones that join to the text. */
  lemma {:induction false} SplitJoins(text: string)
    ensures Joined(Split(text)) == text
    ensures forall i :: 0 <= i < |Split(text)| ==> DotFree(Split(text)[i])
  {
    if text != "" {
      SplitJoins(text[1..]);
      var rest := Split(text[1..]);
      if text[0] == '.' {
        assert ([""] + rest)[1..] == rest;
        assert text == "" + "." + text[1..];
      } else {
        var head := [text[0]] + rest[0];
        assert ([head] + rest[1..])[1..] == rest[1..];
        assert text == [text[0]] + text[1..];
        if |rest| > 1 {
          assert [text[0]] + (rest[0] + "." + Joined(rest[1..])) == head + "." + Joined(rest[1..]);
        }
      }
    }
  }

  lemma {:induction false} SplitOfJoined(head: string, text: string)
    requires DotFree(head)
    ensures Split(head + "." + text) == [head] + Split(text)
    ensures Split(head) == [head]
  {
    if head == "" {
      assert ("" + "." + text)[1..] == text;
    } else {
      SplitOfJoined(head[1..], text);
      assert (head + "." + text)[1..] == head[1..] + "." + text;
      assert [head[0]] + head[1..] == head;
      assert ([head[1..]] + Split(text))[1..] == Split(text);
    }
  }

  /** `role.exp.sig`, as minted: the signature covers `role.exp`. */
  function Signed(hmac: string -> seq<Byte>, role: string, exp: string): string {
    role + "." + exp + "." + Base64Url(hmac(role + "." + exp))
  }

  /**
   * The independent reading: three non-empty parts, not expired, and signature bytes equal to the HMAC of
   * `role.exp`.
   */
  ghost predicate Acceptable(
    value: string, role: string, exp: string, sig: string,
    hmac: string -> seq<Byte>, number: string -> Option<real>, nowMs: int)
  {
    && Split(value) == [role, exp, sig] && role != "" && exp != "" && sig != ""
    && number(exp).Some? && (nowMs / 1000) as real < number(exp).value
    && Decode(sig) == Some(hmac(role + "." + exp))
  }

  /** `number` is None for NaN and the infinities. */
  method VerifySession(value: Option<string>, hmac: string -> seq<Byte>, number: string -> Option<real>, nowMs: int)
    returns (session: Option<string>)
    ensures session.Some?
        ==> value.Some? && exists exp, sig :: Acceptable(value.value, session.value, exp, sig, hmac, number, nowMs)
    ensures session.None?
        ==> value.None? || forall role, exp, sig :: !Acceptable(value.value, role, exp, sig, hmac, number, nowMs)
  {
    if value.None? || value.value == "" {
      return None;
    }
    var parts := Split(value.value);
    if |parts| != 3 {
      return None;
    }
    var role, expRaw, presentedSig := parts[0], parts[1], parts[2];
    if role == "" || expRaw == "" || presentedSig == "" {
      return None;
    }
    var expSeconds := number(expRaw);
    if expSeconds.None? {
      return None;
    }
    if (nowMs / 1000) as real >= expSeconds.value {
      return None;
    }
    var expectedSig := EncodeSignature(hmac(role + "." + expRaw));
    Base64UrlRoundTrip(hmac(role + "." + expRaw));
    if Decode(presentedSig).Some? {
      DecodeThenEncode(presentedSig);
    }
    assert expectedSig == presentedSig <==> Decode(presentedSig) == Some(hmac(role + "." + expRaw));
    assert parts == [role, expRaw, presentedSig];
    if |expectedSig| != |presentedSig| {
      return None;
    }
    var mismatch := Mismatch(expectedSig, presentedSig);
    if mismatch == 0 {
      assert Acceptable(value.value, role, expRaw, presentedSig, hmac, number, nowMs);
      return Some(role);
    }
    return None;
  }

  /** Three dot-free parts are what splitting their join gives, and only that text splits into them. */
  lemma SplitThree(value: string, a: string, b: string, c: string)
    requires DotFree(a) && DotFree(b) && DotFree(c)
    ensures Split(value) == [a, b, c] <==> value == a + "." + b + "." + c
  {
    SplitOfJoined(a, b + "." + c);
    SplitOfJoined(b, c);
    SplitOfJoined(c, "");
    assert a + "." + (b + "." + c) == a + "." + b + "." + c;
    assert [a] + ([b] + [c]) == [a, b, c];
    if Split(value) == [a, b, c] {
      SplitJoins(value);
      assert [a, b, c][1..] == [b, c] && [b, c][1..] == [c];
      assert Joined([c]) == c && Joined([b, c]) == b + "." + c;
      assert Joined([a, b, c]) == a + "." + Joined([b, c]);
    }
  }

  /** The acceptable cookies are exactly the signed ones that have not expired. */
  lemma AcceptableIffSigned(
    value: string, role: string, exp: string, sig: string,
    hmac: string -> seq<Byte>, number: string -> Option<real>, nowMs: int)
    requires DotFree(role) && DotFree(exp) && role != "" && exp != "" && hmac(role + "." + exp) != []
    ensures Acceptable(value, role, exp, sig, hmac, number, nowMs) <==>
      && sig == Base64Url(hmac(role + "." + exp)) && value == Signed(hmac, role, exp)
      && number(exp).Some? && (nowMs / 1000) as real < number(exp).value
  {
    hide Base64Url, Split, Decode;
    var mac := hmac(role + "." + exp);
    Base64UrlRoundTrip(mac);
    if Decode(sig) == Some(mac) {
      DecodeThenEncode(sig);
    }
    SplitThree(value, role, exp, Base64Url(mac));
  }

  const VALID_ROLES := ["provider", "renter", "admin"]
  const COOKIE_MAX_AGE := 60 * 60 * 24 * 7

  /** The number a digit string stands for. */
  function ValueOf(digits: string): int {
    if digits == "" then 0
    else 10 * ValueOf(digits[..|digits| - 1]) + digits[|digits| - 1] as int - '0' as int
  }

  lemma {:induction false} DecimalReadsBack(n: nat)
    ensures ValueOf(Decimal(n)) == n && forall c <- Decimal(n) :: '0' <= c <= '9'
  {
    if n >= 10 {
      DecimalReadsBack(n / 10);
    }
    assert Decimal(n)[..|Decimal(n)| - 1] == if n < 10 then "" else Decimal(n / 10);
  }

  /** A number's decimal digits, as a template literal prints an integer. */
  function Decimal(n: nat): string {
    if n < 10 then ['0' + n as char] else Decimal(n / 10) + ['0' + (n % 10) as char]
  }

  lemma {:induction false} DecimalIsDotFree(n: nat)
    ensures DotFree(Decimal(n)) && Decimal(n) != ""
  {
    if n >= 10 {
      DecimalIsDotFree(n / 10);
    }
  }

  lemma RolesAreDotFree(role: string)
    requires role in VALID_ROLES
    ensures DotFree(role) && role != ""
  {
  }

  /** `POST` at this time: the cookie, or a refusal. */
  function Minted(hmac: string -> seq<Byte>, role: string, mintMs: nat): Option<string> {
    if role !in VALID_ROLES then None else Some(Signed(hmac, role, Decimal(mintMs / 1000 + COOKIE_MAX_AGE)))
  }

  /** Nobody else is given a cookie. */
  lemma MintedForRolesOnly(hmac: string -> seq<Byte>, role: string, mintMs: nat)
    ensures Minted(hmac, role, mintMs).Some? <==> role == "provider" || role == "renter" || role == "admin"
  {
  }

  /** A cookie minted at `mintMs` is accepted for its own role for seven days, and for no other role and no longer. */
  lemma MintedCookieVerifies(role: string, mintMs: nat, nowMs: int, hmac: string -> seq<Byte>,
                             number: string -> Option<real>)
    requires role == "provider" || role == "renter" || role == "admin"
    requires forall text :: hmac(text) != []
    requires forall n: nat :: number(Decimal(n)) == Some(n as real)
    ensures Minted(hmac, role, mintMs).Some?
    ensures var exp := Decimal(mintMs / 1000 + 7 * 24 * 60 * 60); var sig := Base64Url(hmac(role + "." + exp));
      && Minted(hmac, role, mintMs) == Some(role + "." + exp + "." + sig)
      && forall r, e, s :: Acceptable(Minted(hmac, role, mintMs).value, r, e, s, hmac, number, nowMs) <==>
           nowMs / 1000 < mintMs / 1000 + 7 * 24 * 60 * 60 && r == role && e == exp && s == sig
  {
    hide Base64Url, Split, Decode, Decimal;
    var exp := mintMs / 1000 + COOKIE_MAX_AGE;
    var digits := Decimal(exp);
    DecimalIsDotFree(exp);
    RolesAreDotFree(role);
    var sig := Base64Url(hmac(role + "." + digits));
    Base64UrlRoundTrip(hmac(role + "." + digits));
    SplitThree(Signed(hmac, role, digits), role, digits, sig);
    forall r, e, s
      ensures Acceptable(Signed(hmac, role, digits), r, e, s, hmac, number, nowMs) <==>
        nowMs / 1000 < exp && r == role && e == digits && s == sig
    {
      AcceptableIffSigned(Signed(hmac, role, digits), role, digits, s, hmac, number, nowMs);
    }
  }
}