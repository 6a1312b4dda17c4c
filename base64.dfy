/**
 * `btoa` and `atob`: Base 64 with the alphabet of section 4 of RFC 4648 over
 * JavaScript strings, seen as sequences of UTF-16 code units. `btoa` accepts
 * only strings whose units are at most 255 and pads with '='; `atob` is the
 * forgiving decoder of the HTML standard: it drops ASCII white space, drops one
 * or two trailing '=' from a length that is a multiple of 4, rejects a
 * remainder of 1 and any character outside the alphabet, and discards the
 * trailing bits of an incomplete group.
 */
module Base64 {
  import opened Wrappers

  /** A UTF-16 code unit. */
  type Unit = bv16

  /** A JavaScript string. */
  type JsString = seq<Unit>

  /** The `DOMException` both functions throw. */
  datatype DomError = InvalidCharacterError

  /** A six-bit value. */
  type Sextet = v: bv8 | v < 64

  const Pad: Unit := 61 // '='

  // ---------------------------------------------------------------------------
  // The alphabet
  // ---------------------------------------------------------------------------

  /** The character for a six-bit value: A-Z, a-z, 0-9, '+', '/'. */
  function AlphabetChar(v: Sextet): (u: Unit)
    ensures u != Pad
  {
    if v < 26 then 65 + v as Unit
    else if v < 52 then 97 + (v - 26) as Unit
    else if v < 62 then 48 + (v - 52) as Unit
    else if v == 62 then 43
    else 47
  }

  /** The value of an alphabet character, or `None` for any other unit. */
  function SextetOf(u: Unit): (r: Option<Sextet>)
    ensures r.Some? ==> AlphabetChar(r.value) == u
  {
    if 65 <= u <= 90 then Some((u - 65) as bv8)
    else if 97 <= u <= 122 then Some((u - 97 + 26) as bv8)
    else if 48 <= u <= 57 then Some((u - 48 + 52) as bv8)
    else if u == 43 then Some(62)
    else if u == 47 then Some(63)
    else None
  }

  lemma AlphabetInverse(v: Sextet)
    ensures SextetOf(AlphabetChar(v)) == Some(v)
  {
  }

  /** The HTML standard's ASCII white space: TAB, LF, FF, CR and SPACE. */
  predicate IsAsciiWhitespace(u: Unit) {
    u == 9 || u == 10 || u == 12 || u == 13 || u == 32
  }

  /** A string that `btoa` accepts: every unit at most 255. */
  predicate IsLatin1(s: JsString) {
    forall i :: 0 <= i < |s| ==> s[i] <= 255
  }

  // ---------------------------------------------------------------------------
  // Groups
  // ---------------------------------------------------------------------------

  /** The four values of three bytes. */
  function EncodeGroup(b0: bv8, b1: bv8, b2: bv8): seq<Sextet> {
    [b0 >> 2, ((b0 & 3) << 4) | (b1 >> 4), ((b1 & 15) << 2) | (b2 >> 6), b2 & 63]
  }

  /** The three bytes of four values. */
  function DecodeGroup(s0: Sextet, s1: Sextet, s2: Sextet, s3: Sextet): seq<bv8> {
    [(s0 << 2) | (s1 >> 4), ((s1 & 15) << 4) | (s2 >> 2), ((s2 & 3) << 6) | s3]
  }

  /** The values of the sextets, as far as there are input bits: 2 values for 1 byte, 3 for 2, 4 per group of 3. */
  function EncodeSextets(b: seq<bv8>): (r: seq<Sextet>)
    ensures |r| == 4 * (|b| / 3) + (if |b| % 3 == 0 then 0 else |b| % 3 + 1)
    decreases |b|
  {
    if |b| == 0 then []
    else if |b| == 1 then EncodeGroup(b[0], 0, 0)[..2]
    else if |b| == 2 then EncodeGroup(b[0], b[1], 0)[..3]
    else EncodeGroup(b[0], b[1], b[2]) + EncodeSextets(b[3..])
  }

  /** The bytes of a sequence of values whose length is not 1 more than a multiple of 4; extra low bits are discarded. */
  function DecodeSextets(s: seq<Sextet>): seq<bv8>
    requires |s| % 4 != 1
    decreases |s|
  {
    if |s| == 0 then []
    else if |s| == 2 then DecodeGroup(s[0], s[1], 0, 0)[..1]
    else if |s| == 3 then DecodeGroup(s[0], s[1], s[2], 0)[..2]
    else DecodeGroup(s[0], s[1], s[2], s[3]) + DecodeSextets(s[4..])
  }

  lemma GroupRoundTrip(b0: bv8, b1: bv8, b2: bv8)
    ensures var s := EncodeGroup(b0, b1, b2); DecodeGroup(s[0], s[1], s[2], s[3]) == [b0, b1, b2]
  {
  }

  lemma {:induction false} SextetsRoundTrip(b: seq<bv8>)
    ensures DecodeSextets(EncodeSextets(b)) == b
    decreases |b|
  {
    var s := EncodeSextets(b);
    if |b| == 1 {
      GroupRoundTrip(b[0], 0, 0);
    } else if |b| == 2 {
      GroupRoundTrip(b[0], b[1], 0);
    } else if |b| >= 3 {
      var g := EncodeGroup(b[0], b[1], b[2]);
      assert s[..4] == g && s[4..] == EncodeSextets(b[3..]);
      SextetsRoundTrip(b[3..]);
      GroupRoundTrip(b[0], b[1], b[2]);
      assert b == [b[0], b[1], b[2]] + b[3..];
    }
  }

  // ---------------------------------------------------------------------------
  // btoa and atob
  // ---------------------------------------------------------------------------

  function Chars(s: seq<Sextet>): (r: JsString)
    ensures |r| == |s| && forall i :: 0 <= i < |s| ==> r[i] == AlphabetChar(s[i])
  {
    seq(|s|, i requires 0 <= i < |s| => AlphabetChar(s[i]))
  }

  function Padding(n: nat): (r: JsString)
    ensures |r| == n && forall i :: 0 <= i < n ==> r[i] == Pad
  {
    seq(n, i => Pad)
  }

  function Bytes(s: JsString): (r: seq<bv8>)
    requires IsLatin1(s)
    ensures |r| == |s| && forall i :: 0 <= i < |s| ==> r[i] as Unit == s[i]
    decreases |s|
  {
    if s == [] then [] else [s[0] as bv8] + Bytes(s[1..])
  }

  function Units(b: seq<bv8>): (r: JsString)
    ensures |r| == |b| && IsLatin1(r) && forall i :: 0 <= i < |b| ==> r[i] == b[i] as Unit
    decreases |b|
  {
    if b == [] then [] else [b[0] as Unit] + Units(b[1..])
  }

  /** `btoa`: throws unless every unit is at most 255; the output length is a multiple of 4. */
  function Btoa(s: JsString): (r: Result<JsString, DomError>)
    ensures r.Err? <==> !IsLatin1(s)
    ensures r.Ok? ==> |r.value| % 4 == 0 && |r.value| == 4 * ((|s| + 2) / 3)
  {
    if IsLatin1(s) then
      var sextets := EncodeSextets(Bytes(s));
      EncodedLength(|s|, |sextets|);
      Ok(Chars(sextets) + Padding((4 - |sextets| % 4) % 4))
    else Err(InvalidCharacterError)
  }

  /** Encoding `n` bytes to `m` values, then padding them to a group of 4, gives 4 units per started group of 3 bytes. */
  lemma EncodedLength(n: nat, m: nat)
    requires m == 4 * (n / 3) + (if n % 3 == 0 then 0 else n % 3 + 1)
    ensures (m + (4 - m % 4) % 4) % 4 == 0 && m + (4 - m % 4) % 4 == 4 * ((n + 2) / 3)
  {
    var k := n / 3;
    assert n == 3 * k + n % 3;
    assert (n + 2) / 3 == k + (if n % 3 == 0 then 0 else 1);
    if n % 3 == 0 { assert m == 4 * k; } else { assert m % 4 == n % 3 + 1; }
  }

  /** The units left after removing ASCII white space. */
  function RemoveWhitespace(s: JsString): (r: JsString)
    ensures forall i :: 0 <= i < |s| && !IsAsciiWhitespace(s[i]) ==> s[i] in r
    decreases |s|
  {
    if s == [] then []
    else (if IsAsciiWhitespace(s[0]) then [] else [s[0]]) + RemoveWhitespace(s[1..])
  }

  /** Step 2 of the forgiving decoder: one or two trailing '=' go when the length is a multiple of 4. */
  function DropPadding(s: JsString): (r: JsString)
    ensures |r| <= |s| && r == s[..|r|]
    ensures forall i :: |r| <= i < |s| ==> s[i] == Pad
  {
    if |s| % 4 == 0 && |s| >= 2 && s[|s| - 1] == Pad && s[|s| - 2] == Pad then s[..|s| - 2]
    else if |s| % 4 == 0 && |s| >= 1 && s[|s| - 1] == Pad then s[..|s| - 1]
    else s
  }

  predicate InAlphabet(s: JsString) {
    forall i :: 0 <= i < |s| ==> SextetOf(s[i]).Some?
  }

  function SextetsOf(s: JsString): (r: seq<Sextet>)
    requires InAlphabet(s)
    ensures |r| == |s| && forall i :: 0 <= i < |s| ==> Some(r[i]) == SextetOf(s[i])
  {
    seq(|s|, i requires 0 <= i < |s| => SextetOf(s[i]).value)
  }

  /** `atob`: the forgiving decoder; the result's units are bytes. */
  function Atob(s: JsString): (r: Result<JsString, DomError>)
    ensures r.Ok? ==> IsLatin1(r.value)
  {
    var data := DropPadding(RemoveWhitespace(s));
    if |data| % 4 == 1 || !InAlphabet(data) then Err(InvalidCharacterError)
    else Ok(Units(DecodeSextets(SextetsOf(data))))
  }

  lemma {:induction false} RemoveWhitespaceKeeps(s: JsString)
    requires forall i :: 0 <= i < |s| ==> !IsAsciiWhitespace(s[i])
    ensures RemoveWhitespace(s) == s
    decreases |s|
  {
    if s != [] {
      RemoveWhitespaceKeeps(s[1..]);
      assert s == [s[0]] + s[1..];
    }
  }

  /** The encoded form of a value sequence: its characters, then the padding that completes a group of 4. */
  function Encoded(sextets: seq<Sextet>): JsString {
    Chars(sextets) + Padding((4 - |sextets| % 4) % 4)
  }

  lemma {:induction false} EncodedHasNoWhitespace(sextets: seq<Sextet>)
    ensures RemoveWhitespace(Encoded(sextets)) == Encoded(sextets)
  {
    var out := Encoded(sextets);
    forall i | 0 <= i < |out| ensures !IsAsciiWhitespace(out[i]) {
      if i < |sextets| {
        AlphabetInverse(sextets[i]);
      }
    }
    RemoveWhitespaceKeeps(out);
  }

  lemma {:induction false} EncodedPaddingDropped(sextets: seq<Sextet>)
    requires |sextets| % 4 != 1
    ensures DropPadding(Encoded(sextets)) == Chars(sextets)
  {
    var body := Chars(sextets);
    var n := (4 - |sextets| % 4) % 4;
    var out := Encoded(sextets);
    assert n <= 2;
    if n == 0 {
      if |body| > 0 { assert out[|out| - 1] == AlphabetChar(sextets[|sextets| - 1]); }
      assert out == body;
    } else if n == 1 {
      assert out[|out| - 1] == Pad;
      assert out[|out| - 2] == AlphabetChar(sextets[|sextets| - 1]);
      assert out[..|out| - 1] == body;
    } else {
      assert out[|out| - 1] == Pad && out[|out| - 2] == Pad;
      assert out[..|out| - 2] == body;
    }
  }

  lemma {:induction false} CharsDecode(sextets: seq<Sextet>)
    ensures InAlphabet(Chars(sextets)) && SextetsOf(Chars(sextets)) == sextets
  {
    var body := Chars(sextets);
    forall i | 0 <= i < |body| ensures SextetOf(body[i]) == Some(sextets[i]) {
      AlphabetInverse(sextets[i]);
    }
  }

  lemma {:induction false} UnitsOfBytes(s: JsString)
    requires IsLatin1(s)
    ensures Units(Bytes(s)) == s
  {
  }

  /**
   * A unit that is not white space, not '=' and not in the alphabet makes
   * `atob` throw, wherever it occurs; so does a length of 1 more than a multiple
   * of 4 for text made only of alphabet characters.
   */
  lemma AtobRejects(s: JsString, i: int)
    requires 0 <= i < |s| && !IsAsciiWhitespace(s[i]) && s[i] != Pad && SextetOf(s[i]).None?
    ensures Atob(s) == Err(InvalidCharacterError)
  {
    var noSpace := RemoveWhitespace(s);
    assert s[i] in noSpace;
    var data := DropPadding(noSpace);
    var j :| 0 <= j < |noSpace| && noSpace[j] == s[i];
    assert j < |data|;
    assert data[j] == s[i];
  }

  lemma AtobRejectsLength(s: JsString)
    requires InAlphabet(s) && |s| % 4 == 1
    ensures Atob(s) == Err(InvalidCharacterError)
  {
    forall i | 0 <= i < |s| ensures !IsAsciiWhitespace(s[i]) {
      assert AlphabetChar(SextetOf(s[i]).value) == s[i];
    }
    RemoveWhitespaceKeeps(s);
  }

  /** `atob` inverts `btoa`. */
  lemma BtoaAtob(s: JsString)
    requires IsLatin1(s)
    ensures Btoa(s).Ok? && Atob(Btoa(s).value) == Ok(s)
  {
    var b := Bytes(s);
    var sextets := EncodeSextets(b);
    assert Btoa(s) == Ok(Encoded(sextets));
    SextetsNeverOneOver(b);
    AtobOfEncoded(sextets);
    SextetsRoundTrip(b);
    UnitsOfBytes(s);
  }

  /** Encoding never leaves a lone value after the full groups. */
  lemma SextetsNeverOneOver(b: seq<bv8>)
    ensures |EncodeSextets(b)| % 4 != 1
  {
    var k := |b| / 3;
    assert (4 * k) % 4 == 0;
  }

  /** `atob` reads an encoded form back to the bytes of its values. */
  lemma AtobOfEncoded(sextets: seq<Sextet>)
    requires |sextets| % 4 != 1
    ensures Atob(Encoded(sextets)) == Ok(Units(DecodeSextets(sextets)))
  {
    EncodedHasNoWhitespace(sextets);
    EncodedPaddingDropped(sextets);
    CharsDecode(sextets);
  }
}
