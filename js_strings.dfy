/**
 * The few JavaScript string operations the plugin relies on, stated over Dafny strings:
 * `includes`, `toLowerCase`, `replace`, `split`, `slice`, `join`, `repeat` and `trim`,
 * plus the shape of the text `Date.prototype.toISOString` produces.
 */
module JsStrings {

  // ---------------------------------------------------------------------------
  // includes
  // ---------------------------------------------------------------------------

  /** `sub` occurs in `s` at index `i`. */
  predicate OccursAt(s: string, sub: string, i: nat) {
    i + |sub| <= |s| && s[i..i + |sub|] == sub
  }

  /** Some occurrence of `sub` starts at index `i` or later. */
  predicate ContainsFrom(s: string, sub: string, i: nat)
    decreases |s| - i
  {
    i + |sub| <= |s| && (s[i..i + |sub|] == sub || ContainsFrom(s, sub, i + 1))
  }

  /** `s.includes(sub)`. */
  predicate Contains(s: string, sub: string) {
    ContainsFrom(s, sub, 0)
  }

  lemma {:induction false} ContainsFromIff(s: string, sub: string, i: nat)
    ensures ContainsFrom(s, sub, i) <==> exists j: nat :: i <= j && OccursAt(s, sub, j)
    decreases |s| - i
  {
    if i + |sub| <= |s| {
      ContainsFromIff(s, sub, i + 1);
      if !OccursAt(s, sub, i) {
        forall j: nat | i <= j && OccursAt(s, sub, j) ensures i + 1 <= j {
        }
      }
    } else {
      forall j: nat | i <= j ensures !OccursAt(s, sub, j) {
      }
    }
  }

  /** `includes` finds exactly the occurrences of `sub`, wherever they are. */
  lemma ContainsIff(s: string, sub: string)
    ensures Contains(s, sub) <==> exists j: nat :: OccursAt(s, sub, j)
  {
    ContainsFromIff(s, sub, 0);
  }

  /** A witness for `includes`. */
  lemma ContainsWitness(s: string, sub: string, j: nat)
    requires OccursAt(s, sub, j)
    ensures Contains(s, sub)
  {
    ContainsIff(s, sub);
  }

  /** An occurrence inside a part is an occurrence in the whole. */
  lemma {:induction false} ContainsInConcat(a: string, b: string, c: string, sub: string)
    requires Contains(b, sub)
    ensures Contains(a + b + c, sub)
  {
    ContainsIff(b, sub);
    var j: nat :| OccursAt(b, sub, j);
    assert (a + b + c)[|a| + j..|a| + j + |sub|] == b[j..j + |sub|];
    ContainsWitness(a + b + c, sub, |a| + j);
  }

  /** Text that lacks one of the characters of `sub` cannot contain `sub`. */
  lemma AbsentCharExcludes(s: string, sub: string, c: char)
    requires c in sub && c !in s
    ensures !Contains(s, sub)
  {
    ContainsIff(s, sub);
  }

  /** A text shorter than the word cannot contain it. */
  lemma TooShortToContain(s: string, sub: string)
    requires |s| < |sub|
    ensures !Contains(s, sub)
  {
    ContainsIff(s, sub);
  }

  /** Containing a longer word means containing every word inside it. */
  lemma ContainsTransitive(s: string, big: string, small: string)
    requires Contains(big, small) && Contains(s, big)
    ensures Contains(s, small)
  {
    ContainsIff(big, small);
    ContainsIff(s, big);
    var j: nat :| OccursAt(s, big, j);
    var k: nat :| OccursAt(big, small, k);
    forall t | 0 <= t < |small| ensures s[j + k + t] == small[t] {
      assert s[j + k + t] == s[j..j + |big|][k + t];
      assert big[k + t] == big[k..k + |small|][t];
    }
    assert s[j + k..j + k + |small|] == small;
    ContainsWitness(s, small, j + k);
  }

  /** Appending in turn is appending the two parts at once. */
  lemma AppendInTurn<T>(a: seq<T>, b: seq<T>, c: seq<T>)
    ensures (a + b) + c == a + (b + c)
  {
  }

  // ---------------------------------------------------------------------------
  // toLowerCase
  // ---------------------------------------------------------------------------

  predicate IsAsciiUpper(c: char) { 'A' <= c <= 'Z' }

  /**
   * The lower-case form of one character, as far as it can matter for matching
   * ASCII keywords: ASCII capitals, and the two non-ASCII characters whose lower-case
   * forms contain ASCII letters (U+0130 becomes "i" followed by U+0307, U+212A becomes "k").
   * Every other character is kept, since its lower-case form holds no ASCII character.
   */
  function LowerChar(c: char): string {
    if IsAsciiUpper(c) then [(c as int + 32) as char]
    else if c == '\U{0130}' then "i\U{0307}"
    else if c == '\U{212A}' then "k"
    else [c]
  }

  /** `s.toLowerCase()`. */
  function ToLowerCase(s: string): (r: string)
    ensures forall i :: 0 <= i < |r| ==> !IsAsciiUpper(r[i])
    ensures |r| >= |s|
  {
    if s == [] then [] else LowerChar(s[0]) + ToLowerCase(s[1..])
  }

  /** Lower-casing works character by character. */
  lemma ToLowerCaseCons(c: char, rest: string)
    ensures ToLowerCase([c] + rest) == LowerChar(c) + ToLowerCase(rest)
  {
    assert ([c] + rest)[1..] == rest;
  }

  /** An ASCII string without capitals is its own lower-case form. */
  lemma {:induction false} LowerOfLower(s: string)
    requires forall i :: 0 <= i < |s| ==> !IsAsciiUpper(s[i]) && s[i] as int < 128
    ensures ToLowerCase(s) == s
  {
    if s != [] {
      LowerOfLower(s[1..]);
    }
  }

  predicate IsAsciiLower(c: char) { 'a' <= c <= 'z' }

  /**
   * `s.toUpperCase()` on ASCII text: lower-case ASCII letters become capitals and
   * every other ASCII character is kept. Non-ASCII upper-casing is not modelled.
   */
  function AsciiToUpperCase(s: string): (r: string)
    ensures |r| == |s|
    ensures forall i :: 0 <= i < |s| ==> r[i] == if IsAsciiLower(s[i]) then (s[i] as int - 32) as char else s[i]
  {
    seq(|s|, i requires 0 <= i < |s| => if IsAsciiLower(s[i]) then (s[i] as int - 32) as char else s[i])
  }

  /** Lower-casing undoes upper-casing on ASCII text without capitals. */
  lemma {:induction false} LowerOfUpper(s: string)
    requires forall i :: 0 <= i < |s| ==> !IsAsciiUpper(s[i]) && s[i] as int < 128
    ensures ToLowerCase(AsciiToUpperCase(s)) == s
  {
    if s != [] {
      LowerOfUpper(s[1..]);
      assert AsciiToUpperCase(s)[1..] == AsciiToUpperCase(s[1..]);
      assert LowerChar(AsciiToUpperCase(s)[0]) == [s[0]];
    }
  }

  // ---------------------------------------------------------------------------
  // replace, split, slice, join, repeat
  // ---------------------------------------------------------------------------

  /** `s.replace(/c/g, d)` for one character `c` and one character `d`. */
  function ReplaceAllChar(s: string, c: char, d: char): (r: string)
    ensures |r| == |s|
    ensures forall i :: 0 <= i < |s| ==> r[i] == if s[i] == c then d else s[i]
  {
    seq(|s|, i requires 0 <= i < |s| => if s[i] == c then d else s[i])
  }

  /** First index of `c` in `s`, or `|s|` when there is none. */
  function IndexOf(s: string, c: char): (k: nat)
    ensures k <= |s|
    ensures forall i :: 0 <= i < k ==> s[i] != c
    ensures k < |s| ==> s[k] == c
  {
    if s == [] then 0 else if s[0] == c then 0 else 1 + IndexOf(s[1..], c)
  }

  /** `s.replace(c, d)` with a string pattern: only the first occurrence is replaced. */
  function ReplaceFirst(s: string, c: char, d: string): (r: string)
    ensures IndexOf(s, c) == |s| ==> r == s
    ensures IndexOf(s, c) < |s| ==> r == s[..IndexOf(s, c)] + d + s[IndexOf(s, c) + 1..]
  {
    var k := IndexOf(s, c);
    if k == |s| then s else s[..k] + d + s[k + 1..]
  }

  /**
   * `s.replace(/\..+/, '')`: the leftmost '.' that has at least one character after it,
   * and everything after it, is removed (the text is assumed to hold no line terminator).
   */
  function DropFromFirstDot(s: string): (r: string)
    ensures IndexOf(s, '.') + 1 < |s| ==> r == s[..IndexOf(s, '.')]
    ensures IndexOf(s, '.') + 1 >= |s| ==> r == s
  {
    var k := IndexOf(s, '.');
    if k + 1 < |s| then s[..k] else s
  }

  /** `s.split(sep)` for a one-character separator. */
  function Split(s: string, sep: char): (r: seq<string>)
    ensures |r| >= 1
  {
    if s == [] then [""]
    else
      var rest := Split(s[1..], sep);
      if s[0] == sep then [""] + rest else [[s[0]] + rest[0]] + rest[1..]
  }

  /** Splitting text that does not hold the separator gives the text itself. */
  lemma {:induction false} SplitWithout(s: string, sep: char)
    requires forall i :: 0 <= i < |s| ==> s[i] != sep
    ensures Split(s, sep) == [s]
  {
    if s != [] {
      SplitWithout(s[1..], sep);
      assert [s[0]] + s[1..] == s;
    }
  }

  /** The first piece ends at the first separator; the rest is the split of what follows it. */
  lemma {:induction false} SplitAtFirst(s: string, sep: char)
    requires IndexOf(s, sep) < |s|
    ensures Split(s, sep) == [s[..IndexOf(s, sep)]] + Split(s[IndexOf(s, sep) + 1..], sep)
  {
    if s[0] != sep {
      SplitAtFirst(s[1..], sep);
      assert s[1..][..IndexOf(s[1..], sep)] == s[1..IndexOf(s, sep)];
      assert s[1..][IndexOf(s[1..], sep) + 1..] == s[IndexOf(s, sep) + 1..];
      assert [s[0]] + s[1..IndexOf(s, sep)] == s[..IndexOf(s, sep)];
    }
  }

  /** `s.slice(0, -1)`: every character but the last (nothing left of the empty string). */
  function DropLast(s: string): (r: string)
    ensures |s| > 0 ==> r == s[..|s| - 1]
    ensures |s| == 0 ==> r == ""
  {
    if |s| == 0 then s else s[..|s| - 1]
  }

  /** `parts.join(sep)`. */
  function Join(parts: seq<string>, sep: string): string {
    if parts == [] then ""
    else if |parts| == 1 then parts[0]
    else parts[0] + sep + Join(parts[1..], sep)
  }

  /** Joining a longer list adds one separator and the new part. */
  lemma {:induction false} JoinSnoc(parts: seq<string>, last: string, sep: string)
    requires parts != []
    ensures Join(parts + [last], sep) == Join(parts, sep) + sep + last
  {
    if |parts| == 1 {
      assert (parts + [last])[1..] == [last];
    } else {
      assert (parts + [last])[1..] == parts[1..] + [last];
      JoinSnoc(parts[1..], last, sep);
    }
  }

  /** `c.repeat(n)`. */
  function Repeat(c: char, n: nat): (r: string)
    ensures |r| == n
    ensures forall i :: 0 <= i < n ==> r[i] == c
  {
    if n == 0 then "" else [c] + Repeat(c, n - 1)
  }

  // ---------------------------------------------------------------------------
  // Date.prototype.toISOString
  // ---------------------------------------------------------------------------

  predicate IsDigit(c: char) { '0' <= c <= '9' }

  /** The positions of the separators in "YYYY-MM-DDTHH:mm:ss.sssZ". */
  predicate IsIsoSeparatorPosition(i: int) {
    i == 4 || i == 7 || i == 10 || i == 13 || i == 16 || i == 19 || i == 23
  }

  /** Text of the form "YYYY-MM-DDTHH:mm:ss.sssZ", as `toISOString` gives for the years 0 to 9999. */
  predicate IsIsoTimestamp(s: string) {
    && |s| == 24
    && s[4] == '-' && s[7] == '-' && s[10] == 'T'
    && s[13] == ':' && s[16] == ':' && s[19] == '.' && s[23] == 'Z'
    && forall i :: 0 <= i < 24 && !IsIsoSeparatorPosition(i) ==> IsDigit(s[i])
  }

  /** A `toISOString` timestamp. */
  type IsoTimestamp = s: string | IsIsoTimestamp(s) witness "1970-01-01T00:00:00.000Z"

  /** `new Date().toISOString().split('T')[1].slice(0, -1)`: the time of day without the 'Z'. */
  function TimeOfDay(iso: IsoTimestamp): (r: string)
    ensures |r| == 12 && forall i :: 0 <= i < 12 ==> r[i] == iso[11 + i]
  {
    assert IndexOf(iso, 'T') == 10 by {
      assert forall i :: 0 <= i < 10 ==> iso[i] != 'T' by {
        forall i | 0 <= i < 10 ensures iso[i] != 'T' {
          if !IsIsoSeparatorPosition(i) { assert IsDigit(iso[i]); }
        }
      }
    }
    SplitAtFirst(iso, 'T');
    assert forall i :: 0 <= i < |iso[11..]| ==> iso[11..][i] != 'T' by {
      forall i | 0 <= i < |iso[11..]| ensures iso[11..][i] != 'T' {
        assert iso[11..][i] == iso[11 + i];
        if !IsIsoSeparatorPosition(11 + i) { assert IsDigit(iso[11 + i]); }
      }
    }
    SplitWithout(iso[11..], 'T');
    var r := DropLast(Split(iso, 'T')[1]);
    assert r == iso[11..23];
    r
  }

  // ---------------------------------------------------------------------------
  // trim
  // ---------------------------------------------------------------------------

  /**
   * The code points `String.prototype.trim` removes: white space (TAB, VT, FF, SPACE,
   * NO-BREAK SPACE, ZERO WIDTH NO-BREAK SPACE and the space separators) and line
   * terminators (LF, CR, LINE SEPARATOR, PARAGRAPH SEPARATOR).
   */
  predicate IsJsWhitespace(c: char) {
    || c == '\t' || c == '\n' || c == '\U{000B}' || c == '\U{000C}' || c == '\r' || c == ' '
    || c == '\U{00A0}' || c == '\U{1680}' || ('\U{2000}' <= c <= '\U{200A}')
    || c == '\U{2028}' || c == '\U{2029}' || c == '\U{202F}' || c == '\U{205F}'
    || c == '\U{3000}' || c == '\U{FEFF}'
  }

  function TrimStart(s: string): string {
    if s != [] && IsJsWhitespace(s[0]) then TrimStart(s[1..]) else s
  }

  function TrimEnd(s: string): string {
    if s != [] && IsJsWhitespace(s[|s| - 1]) then TrimEnd(s[..|s| - 1]) else s
  }

  /** `s.trim()`. */
  function Trim(s: string): string {
    TrimEnd(TrimStart(s))
  }

  lemma {:induction false} TrimStartEmpty(s: string)
    ensures TrimStart(s) == [] <==> forall i :: 0 <= i < |s| ==> IsJsWhitespace(s[i])
  {
    if s != [] && IsJsWhitespace(s[0]) {
      TrimStartEmpty(s[1..]);
      assert forall i :: 1 <= i < |s| ==> s[i] == s[1..][i - 1];
    }
  }

  lemma {:induction false} TrimEndEmpty(s: string)
    ensures TrimEnd(s) == [] <==> forall i :: 0 <= i < |s| ==> IsJsWhitespace(s[i])
  {
    if s != [] && IsJsWhitespace(s[|s| - 1]) {
      TrimEndEmpty(s[..|s| - 1]);
      assert forall i :: 0 <= i < |s| - 1 ==> s[i] == s[..|s| - 1][i];
    }
  }

  lemma {:induction false} TrimStartSuffix(s: string)
    ensures |TrimStart(s)| <= |s| && TrimStart(s) == s[|s| - |TrimStart(s)|..]
    ensures forall i :: 0 <= i < |s| - |TrimStart(s)| ==> IsJsWhitespace(s[i])
  {
    if s != [] && IsJsWhitespace(s[0]) {
      TrimStartSuffix(s[1..]);
      assert forall i :: 1 <= i < |s| ==> s[i] == s[1..][i - 1];
    }
  }

  /** `s.trim().length > 0` exactly when `s` holds a character that is not white space. */
  lemma TrimNonEmpty(s: string)
    ensures |Trim(s)| > 0 <==> exists i :: 0 <= i < |s| && !IsJsWhitespace(s[i])
  {
    var t := TrimStart(s);
    TrimEndEmpty(t);
    TrimStartSuffix(s);
    var k := |s| - |t|;
    if i :| 0 <= i < |s| && !IsJsWhitespace(s[i]) {
      assert k <= i && t[i - k] == s[i];
    }
    if i :| 0 <= i < |t| && !IsJsWhitespace(t[i]) {
      assert t[i] == s[k + i];
    }
  }

  // ---------------------------------------------------------------------------
  // Array.prototype.sort on strings
  // ---------------------------------------------------------------------------

  /** `a` sorts before `b`: character by character, a proper prefix first. */
  predicate Precedes(a: string, b: string) {
    if a == [] then b != []
    else b != [] && (a[0] < b[0] || (a[0] == b[0] && Precedes(a[1..], b[1..])))
  }

  lemma {:induction false} PrecedesIrreflexive(a: string)
    ensures !Precedes(a, a)
  {
    if a != [] {
      PrecedesIrreflexive(a[1..]);
    }
  }

  lemma {:induction false} PrecedesTotal(a: string, b: string)
    ensures a == b || Precedes(a, b) || Precedes(b, a)
  {
    if a != [] && b != [] && a[0] == b[0] {
      PrecedesTotal(a[1..], b[1..]);
      if a[1..] == b[1..] {
        assert a == [a[0]] + a[1..] && b == [b[0]] + b[1..];
      }
    }
  }

  lemma {:induction false} PrecedesTransitive(a: string, b: string, c: string)
    requires Precedes(a, b) && Precedes(b, c)
    ensures Precedes(a, c)
  {
    if a != [] && a[0] == b[0] && b[0] == c[0] {
      PrecedesTransitive(a[1..], b[1..], c[1..]);
    }
  }

  lemma PrecedesAsymmetric(a: string, b: string)
    ensures !(Precedes(a, b) && Precedes(b, a))
  {
    if Precedes(a, b) && Precedes(b, a) {
      PrecedesTransitive(a, b, a);
      PrecedesIrreflexive(a);
    }
  }

  /** Not sorting after is transitive too. */
  lemma NotPrecedesTransitive(a: string, b: string, c: string)
    requires !Precedes(b, a) && !Precedes(c, b)
    ensures !Precedes(c, a)
  {
    if Precedes(c, a) {
      PrecedesTotal(a, b);
      if a != b {
        PrecedesTransitive(c, a, b);
      }
    }
  }

  /** No element sorts before an earlier one. */
  predicate SortedStrings(s: seq<string>) {
    forall i, j :: 0 <= i < j < |s| ==> !Precedes(s[j], s[i])
  }

  predicate Distinct<T(==)>(s: seq<T>) {
    forall i, j :: 0 <= i < j < |s| ==> s[i] != s[j]
  }

  /** `x` is below or equal to every element of a sorted sequence whose first element it does not follow. */
  lemma BelowSorted(x: string, s: seq<string>)
    requires SortedStrings(s) && s != [] && !Precedes(s[0], x)
    ensures forall j :: 0 <= j < |s| ==> !Precedes(s[j], x)
  {
    forall j | 0 <= j < |s| ensures !Precedes(s[j], x) {
      if j > 0 {
        NotPrecedesTransitive(x, s[0], s[j]);
      }
    }
  }

  /** One step of insertion sort. */
  function InsertString(x: string, s: seq<string>): (r: seq<string>)
    requires SortedStrings(s)
    ensures multiset(r) == multiset(s) + multiset{x}
    ensures SortedStrings(r)
    ensures Distinct(s) && x !in s ==> Distinct(r)
    decreases |s|
  {
    if s == [] then [x]
    else if !Precedes(s[0], x) then
      BelowSorted(x, s);
      [x] + s
    else
      var rest := InsertString(x, s[1..]);
      InsertBehindHead(x, s, rest);
      [s[0]] + rest
  }

  /** Putting the head back in front of the insertion into the tail keeps the order and the contents. */
  lemma InsertBehindHead(x: string, s: seq<string>, rest: seq<string>)
    requires SortedStrings(s) && s != [] && Precedes(s[0], x)
    requires multiset(rest) == multiset(s[1..]) + multiset{x} && SortedStrings(rest)
    requires Distinct(s[1..]) && x !in s[1..] ==> Distinct(rest)
    ensures multiset([s[0]] + rest) == multiset(s) + multiset{x}
    ensures SortedStrings([s[0]] + rest)
    ensures Distinct(s) && x !in s ==> Distinct([s[0]] + rest)
  {
    assert s == [s[0]] + s[1..];
    PrecedesAsymmetric(s[0], x);
    var t := [s[0]] + rest;
    forall k | 0 <= k < |rest| ensures !Precedes(rest[k], s[0]) && (x !in s ==> rest[k] != s[0] || !Distinct(s)) {
      assert rest[k] in multiset(rest);
      if rest[k] != x {
        var j :| 0 <= j < |s[1..]| && s[1..][j] == rest[k];
        assert s[j + 1] == rest[k];
      }
    }
    forall i, j | 0 <= i < j < |t| ensures !Precedes(t[j], t[i]) {
      if i > 0 {
        assert t[i] == rest[i - 1] && t[j] == rest[j - 1];
      }
    }
  }

  /** `Array.prototype.sort()` with the default comparison: a sorted permutation. */
  function SortStrings(s: seq<string>): (r: seq<string>)
    ensures multiset(r) == multiset(s)
    ensures SortedStrings(r)
    ensures Distinct(s) ==> Distinct(r)
  {
    if s == [] then []
    else
      var rest := SortStrings(s[1..]);
      assert s == [s[0]] + s[1..];
      assert Distinct(s) ==> s[0] !in s[1..];
      assert s[0] in rest <==> s[0] in multiset(s[1..]);
      InsertString(s[0], rest)
  }

  /** A sorted sequence without repetitions is strictly increasing. */
  lemma StrictlySorted(s: seq<string>)
    requires SortedStrings(s) && Distinct(s)
    ensures forall i, j :: 0 <= i < j < |s| ==> Precedes(s[i], s[j])
  {
    forall i, j | 0 <= i < j < |s| ensures Precedes(s[i], s[j]) {
      PrecedesTotal(s[i], s[j]);
    }
  }
}
