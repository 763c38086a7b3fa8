/**
 The opaque ledger cursor (internal/app/cursor.go): a wallet and a version,
 printed in decimal, in unpadded base64url (sections 3.2 and 5 of RFC 4648).
 Text is bytes, as it is in Go.
 */
module Cursor {
  import opened Prelude

  type Byte = b: int | 0 <= b < 256
  type Text = seq<Byte>
  type Sextet = s: int | 0 <= s < 64

  const COLON: Byte := 58
  const MAX_UINT64: int := 0xffff_ffff_ffff_ffff

  // ----- base64url -----------------------------------------------------------

  /** A-Z, a-z, 0-9, '-' and '_'. */
  function Symbol(s: Sextet): Byte {
    if s < 26 then 65 + s
    else if s < 52 then 97 + s - 26
    else if s < 62 then 48 + s - 52
    else if s == 62 then 45
    else 95
  }

  function SextetOf(c: Byte): Option<Sextet> {
    if 65 <= c <= 90 then Some(c - 65)
    else if 97 <= c <= 122 then Some(c - 97 + 26)
    else if 48 <= c <= 57 then Some(c - 48 + 52)
    else if c == 45 then Some(62)
    else if c == 95 then Some(63)
    else None
  }

  function ToBase64(raw: Text): Text {
    if |raw| == 0 then []
    else if |raw| == 1 then [Symbol(raw[0] / 4), Symbol(raw[0] % 4 * 16)]
    else if |raw| == 2 then
      [Symbol(raw[0] / 4), Symbol(raw[0] % 4 * 16 + raw[1] / 16), Symbol(raw[1] % 16 * 4)]
    else
      [Symbol(raw[0] / 4), Symbol(raw[0] % 4 * 16 + raw[1] / 16),
       Symbol(raw[1] % 16 * 4 + raw[2] / 64), Symbol(raw[2] % 64)] + ToBase64(raw[3..])
  }

  /** The decoder passes over carriage returns and newlines. */
  function Symbols(text: Text): Option<seq<Sextet>> {
    if text == [] then Some([])
    else if text[0] == 10 || text[0] == 13 then Symbols(text[1..])
    else match SextetOf(text[0])
         case None => None
         case Some(s) =>
           match Symbols(text[1..])
           case None => None
           case Some(rest) => Some([s] + rest)
  }

  function High(a: int, b: int): Byte
    requires 0 <= a < 64 && 0 <= b < 64
  {
    a * 4 + b / 16
  }

  function Middle(a: int, b: int): Byte
    requires 0 <= a < 64 && 0 <= b < 64
  {
    a % 16 * 16 + b / 4
  }

  function Low(a: int, b: int): Byte
    requires 0 <= a < 64 && 0 <= b < 64
  {
    a % 4 * 64 + b
  }

  /** Not strict: the bits left over in a last short group are dropped. A group of
      one is not a group. */
  function Unpack(s: seq<Sextet>): Option<Text> {
    if |s| == 0 then Some([])
    else if |s| == 1 then None
    else if |s| == 2 then Some([High(s[0], s[1])])
    else if |s| == 3 then Some([High(s[0], s[1]), Middle(s[1], s[2])])
    else match Unpack(s[4..])
         case None => None
         case Some(rest) =>
           Some([High(s[0], s[1]), Middle(s[1], s[2]), Low(s[2], s[3])] + rest)
  }

  function FromBase64(text: Text): Option<Text> {
    match Symbols(text)
    case None => None
    case Some(s) => Unpack(s)
  }

  function Pack(raw: Text): seq<Sextet> {
    if |raw| == 0 then []
    else if |raw| == 1 then [raw[0] / 4, raw[0] % 4 * 16]
    else if |raw| == 2 then [raw[0] / 4, raw[0] % 4 * 16 + raw[1] / 16, raw[1] % 16 * 4]
    else
      [raw[0] / 4, raw[0] % 4 * 16 + raw[1] / 16, raw[1] % 16 * 4 + raw[2] / 64, raw[2] % 64] + Pack(raw[3..])
  }

  lemma SymbolReads(s: Sextet)
    ensures SextetOf(Symbol(s)) == Some(s) && Symbol(s) != 10 && Symbol(s) != 13
  {
  }

  lemma SymbolsRead(s: Sextet, rest: Text)
    ensures Symbols([Symbol(s)] + rest) == match Symbols(rest) { case None => None case Some(r) => Some([s] + r) }
  {
    SymbolReads(s);
    assert ([Symbol(s)] + rest)[1..] == rest;
  }

  lemma {:induction false} SymbolsOfBase64(raw: Text)
    ensures Symbols(ToBase64(raw)) == Some(Pack(raw))
  {
    var p := Pack(raw);
    if |raw| == 0 {
    } else if |raw| == 1 {
      SymbolsOfTwo(p[0], p[1]);
    } else if |raw| == 2 {
      SymbolsOfThree(p[0], p[1], p[2]);
    } else {
      SymbolsOfBase64(raw[3..]);
      SymbolsOfFour(p[0], p[1], p[2], p[3], ToBase64(raw[3..]));
      assert p == [p[0], p[1], p[2], p[3]] + Pack(raw[3..]);
    }
  }

  lemma SymbolsOfTwo(a: Sextet, b: Sextet)
    ensures Symbols([Symbol(a), Symbol(b)]) == Some([a, b])
  {
    SymbolsRead(b, []);
    SymbolsRead(a, [Symbol(b)]);
    assert [Symbol(b)] + [] == [Symbol(b)] && [b] + [] == [b] && [a] + [b] == [a, b];
    assert [Symbol(a)] + [Symbol(b)] == [Symbol(a), Symbol(b)];
  }

  lemma SymbolsOfThree(a: Sextet, b: Sextet, c: Sextet)
    ensures Symbols([Symbol(a), Symbol(b), Symbol(c)]) == Some([a, b, c])
  {
    SymbolsOfTwo(b, c);
    SymbolsRead(a, [Symbol(b), Symbol(c)]);
    assert [a] + [b, c] == [a, b, c];
    assert [Symbol(a)] + [Symbol(b), Symbol(c)] == [Symbol(a), Symbol(b), Symbol(c)];
  }

  lemma SymbolsOfFour(a: Sextet, b: Sextet, c: Sextet, d: Sextet, rest: Text)
    requires Symbols(rest).Some?
    ensures Symbols([Symbol(a), Symbol(b), Symbol(c), Symbol(d)] + rest) == Some([a, b, c, d] + Symbols(rest).value)
  {
    var r := Symbols(rest).value;
    SymbolsRead(d, rest);
    SymbolsRead(c, [Symbol(d)] + rest);
    SymbolsRead(b, [Symbol(c)] + ([Symbol(d)] + rest));
    SymbolsRead(a, [Symbol(b)] + ([Symbol(c)] + ([Symbol(d)] + rest)));
    assert [Symbol(a)] + ([Symbol(b)] + ([Symbol(c)] + ([Symbol(d)] + rest)))
        == [Symbol(a), Symbol(b), Symbol(c), Symbol(d)] + rest;
    assert [a] + ([b] + ([c] + ([d] + r))) == [a, b, c, d] + r;
  }

  lemma {:induction false} UnpackOfPack(raw: Text)
    ensures Unpack(Pack(raw)) == Some(raw)
  {
    var p := Pack(raw);
    if |raw| == 1 {
      assert raw == [raw[0]];
    } else if |raw| == 2 {
      assert raw == [raw[0], raw[1]];
    } else if |raw| >= 3 {
      UnpackOfPack(raw[3..]);
      assert p[4..] == Pack(raw[3..]);
      assert raw == [raw[0], raw[1], raw[2]] + raw[3..];
    }
  }

  /** What is encoded decodes to itself. */
  lemma Base64RoundTrips(raw: Text)
    ensures FromBase64(ToBase64(raw)) == Some(raw)
  {
    SymbolsOfBase64(raw);
    UnpackOfPack(raw);
  }

  // ----- Decimal -------------------------------------------------------------

  function Decimal(v: nat): Text {
    if v < 10 then [48 + v] else Decimal(v / 10) + [48 + v % 10]
  }

  predicate IsDigit(c: Byte) { 48 <= c <= 57 }

  function Digit(c: int): nat
    requires 48 <= c <= 57
  {
    c - 48
  }

  /** The number a run of digits spells. */
  function ValueOf(text: Text): nat
    requires forall i :: 0 <= i < |text| ==> IsDigit(text[i])
  {
    if text == [] then 0
    else
      assert IsDigit(text[|text| - 1]);
      ValueOf(text[..|text| - 1]) * 10 + Digit(text[|text| - 1])
  }

  /** strconv.ParseUint(text, 10, 64). */
  function ParseUint(text: Text): Option<nat> {
    if text == [] then None
    else if exists i :: 0 <= i < |text| && !IsDigit(text[i]) then None
    else if ValueOf(text) > MAX_UINT64 then None
    else Some(ValueOf(text))
  }

  lemma {:induction false} DecimalSpells(v: nat)
    ensures |Decimal(v)| > 0
    ensures forall i :: 0 <= i < |Decimal(v)| ==> IsDigit(Decimal(v)[i])
    ensures ValueOf(Decimal(v)) == v
  {
    var d := Decimal(v);
    if v < 10 {
      assert d[..0] == [];
    } else {
      DecimalSpells(v / 10);
      assert d[..|d| - 1] == Decimal(v / 10);
    }
  }

  // ----- The cursor ----------------------------------------------------------

  datatype CursorError = NotBase64 | Malformed | AnotherWallet | NotAVersion

  /** A wallet identifier as it prints: hexadecimal digits and dashes, and so no
      colon. */
  predicate IsWalletText(w: Text) {
    COLON !in w
  }

  function Plain(w: Text, version: nat): Text {
    w + [COLON] + Decimal(version)
  }

  function EncodeCursor(w: Text, version: nat): Text {
    ToBase64(Plain(w, version))
  }

  /** strings.Cut at the first colon. */
  function Cut(text: Text): Option<(Text, Text)> {
    if text == [] then None
    else if text[0] == COLON then Some(([], text[1..]))
    else match Cut(text[1..])
         case None => None
         case Some((before, after)) => Some(([text[0]] + before, after))
  }

  function DecodeCursor(cursor: Text, w: Text): Result<nat, CursorError> {
    if cursor == [] then Ok(0)
    else match FromBase64(cursor)
      case None => Err(NotBase64)
      case Some(raw) =>
        match Cut(raw)
        case None => Err(Malformed)
        case Some((id, version)) =>
          if id != w then Err(AnotherWallet)
          else match ParseUint(version)
               case None => Err(NotAVersion)
               case Some(v) => Ok(v)
  }

  lemma {:induction false} CutFindsTheFirst(id: Text, rest: Text)
    requires COLON !in id
    ensures Cut(id + [COLON] + rest) == Some((id, rest))
  {
    var text := id + [COLON] + rest;
    if id == [] {
      assert text == [COLON] + rest;
    } else {
      CutFindsTheFirst(id[1..], rest);
      assert text[1..] == id[1..] + [COLON] + rest;
      assert id == [id[0]] + id[1..];
    }
  }

  lemma {:induction false} CutSplits(text: Text)
    requires Cut(text).Some?
    ensures COLON !in Cut(text).value.0 && text == Cut(text).value.0 + [COLON] + Cut(text).value.1
  {
    if text[0] == COLON {
      assert text == [] + [COLON] + text[1..];
    } else {
      CutSplits(text[1..]);
      assert text == [text[0]] + text[1..];
    }
  }

  lemma EncodedIsNotEmpty(raw: Text)
    requires raw != []
    ensures ToBase64(raw) != []
  {
  }

  /** A cursor is read back as the position it was made from, and only on the
      wallet it was made for. */
  lemma CursorRoundTrips(w: Text, version: nat, other: Text)
    requires IsWalletText(w) && version <= MAX_UINT64
    ensures DecodeCursor(EncodeCursor(w, version), w) == Ok(version)
    ensures other != w ==> DecodeCursor(EncodeCursor(w, version), other) == Err(AnotherWallet)
  {
    hide ToBase64, FromBase64, Cut, Decimal;
    Base64RoundTrips(Plain(w, version));
    CutFindsTheFirst(w, Decimal(version));
    DecimalSpells(version);
    EncodedIsNotEmpty(Plain(w, version));
  }

  /** A cursor is accepted exactly when it is empty or decodes to this wallet, a
      colon, and a run of digits whose number fits 64 bits; and it then means that
      number. */
  lemma CursorAccepts(cursor: Text, w: Text, v: nat)
    requires IsWalletText(w) && cursor != []
    ensures DecodeCursor(cursor, w) == Ok(v) <==>
              exists digits :: FromBase64(cursor) == Some(w + [COLON] + digits) && Spells(digits, v) && v <= 0xffff_ffff_ffff_ffff
  {
    hide FromBase64, Cut, ValueOf;
    if DecodeCursor(cursor, w) == Ok(v) {
      var raw := FromBase64(cursor).value;
      CutSplits(raw);
      var digits := Cut(raw).value.1;
      assert FromBase64(cursor) == Some(w + [COLON] + digits);
      assert forall i :: 0 <= i < |digits| ==> IsDigit(digits[i]);
      ValuesAgree(digits);
      assert Spells(digits, v);
    }
    forall digits | FromBase64(cursor) == Some(w + [COLON] + digits) && Spells(digits, v) && v <= 0xffff_ffff_ffff_ffff
      ensures DecodeCursor(cursor, w) == Ok(v)
    {
      CutFindsTheFirst(w, digits);
      assert forall i :: 0 <= i < |digits| ==> IsDigit(digits[i]);
      ValuesAgree(digits);
    }
  }

  /** digits is a run of decimal digits, one at least, that spells v. */
  predicate Spells(digits: Text, v: nat) {
    |digits| > 0 && (forall i :: 0 <= i < |digits| ==> 48 <= digits[i] <= 57) && Value(digits) == v
  }

  /** The number most significant digit first. */
  function Value(digits: Text): nat
    requires forall i :: 0 <= i < |digits| ==> 48 <= digits[i] <= 57
  {
    if digits == [] then 0 else Value(digits[..|digits| - 1]) * 10 + Digit(digits[|digits| - 1])
  }

  lemma {:induction false} ValuesAgree(digits: Text)
    requires forall i :: 0 <= i < |digits| ==> IsDigit(digits[i])
    requires forall i :: 0 <= i < |digits| ==> 48 <= digits[i] <= 57
    ensures Value(digits) == ValueOf(digits)
  {
    if digits != [] {
      ValuesAgree(digits[..|digits| - 1]);
    }
  }

  /** The bytes that carry six bits. */
  predicate Carries(c: Byte) {
    65 <= c <= 90 || 97 <= c <= 122 || 48 <= c <= 57 || c == 45 || c == 95
  }

  function Count(text: Text): nat {
    if text == [] then 0 else (if Carries(text[0]) then 1 else 0) + Count(text[1..])
  }

  lemma {:induction false} SymbolsAccept(text: Text)
    ensures Symbols(text).Some? <==> forall i :: 0 <= i < |text| ==> Carries(text[i]) || text[i] == 10 || text[i] == 13
    ensures Symbols(text).Some? ==> |Symbols(text).value| == Count(text)
  {
    if text != [] {
      SymbolsAccept(text[1..]);
      assert forall i :: 0 < i < |text| ==> text[i] == text[1..][i - 1];
      assert forall i :: 0 <= i < |text[1..]| ==> text[1..][i] == text[i + 1];
    }
  }

  lemma {:induction false} UnpackAccepts(s: seq<Sextet>)
    ensures Unpack(s).Some? <==> |s| % 4 != 1
    ensures Unpack(s).Some? ==> |Unpack(s).value| == |s| * 3 / 4
  {
    if |s| >= 4 {
      UnpackAccepts(s[4..]);
    }
  }

  /** Text is base64url exactly when every byte is of its alphabet or a line break
      passed over, and the last group is not a single symbol. */
  lemma Base64Accepts(text: Text)
    ensures FromBase64(text).Some? <==>
              (forall i :: 0 <= i < |text| ==> Carries(text[i]) || text[i] == 10 || text[i] == 13) && Count(text) % 4 != 1
    ensures FromBase64(text).Some? ==> |FromBase64(text).value| == Count(text) * 3 / 4
  {
    hide Symbols, Unpack, Count, Carries;
    SymbolsAccept(text);
    if Symbols(text).Some? {
      UnpackAccepts(Symbols(text).value);
    }
  }
}
