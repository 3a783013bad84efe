/**
 * JavaScript string behaviour the validators depend on: `trim`, the regular-
 * expression class `\s`, `String.prototype.length` (UTF-16 code units), the
 * length validator.js counts, `endsWith` and lower-casing.
 * Strings are sequences of Unicode scalar values.
 */
module Text {

  /** ECMAScript WhiteSpace and LineTerminator code points: what `trim` strips and `\s` matches. */
  predicate IsSpace(c: char) {
    var n := c as int;
    n == 0x09 || n == 0x0A || n == 0x0B || n == 0x0C || n == 0x0D || n == 0x20 ||
    n == 0xA0 || n == 0x1680 || (0x2000 <= n <= 0x200A) || n == 0x2028 || n == 0x2029 ||
    n == 0x202F || n == 0x205F || n == 0x3000 || n == 0xFEFF
  }

  /** No character of `s` is whitespace: every character matches `\S`. */
  predicate NoSpace(s: string) {
    forall i :: 0 <= i < |s| ==> !IsSpace(s[i])
  }

  /** Leading whitespace removed (validator.js `ltrim`). */
  function TrimStart(s: string): string {
    if s != [] && IsSpace(s[0]) then TrimStart(s[1..]) else s
  }

  /** Trailing whitespace removed (validator.js `rtrim`). */
  function TrimEnd(s: string): string {
    if s != [] && IsSpace(s[|s| - 1]) then TrimEnd(s[..|s| - 1]) else s
  }

  /** `s.trim()`: both ends stripped of whitespace. */
  function Trim(s: string): string {
    TrimEnd(TrimStart(s))
  }

  /** A string that `trim` leaves alone: it neither starts nor ends with whitespace. */
  predicate Trimmed(s: string) {
    s == [] || (!IsSpace(s[0]) && !IsSpace(s[|s| - 1]))
  }

  /** `TrimStart` keeps a suffix that does not start with whitespace and removes only whitespace. */
  lemma {:induction false} TrimStartShape(s: string)
    ensures var r := TrimStart(s);
      |r| <= |s| && r == s[|s| - |r|..] && (r == [] || !IsSpace(r[0])) &&
      forall i :: 0 <= i < |s| - |r| ==> IsSpace(s[i])
  {
    if s != [] && IsSpace(s[0]) {
      TrimStartShape(s[1..]);
      var r := TrimStart(s);
      forall i | 0 <= i < |s| - |r| ensures IsSpace(s[i]) {
        if i > 0 { assert s[i] == s[1..][i - 1]; }
      }
    }
  }

  /** `TrimEnd` keeps a prefix that does not end with whitespace and removes only whitespace. */
  lemma {:induction false} TrimEndShape(s: string)
    ensures var r := TrimEnd(s);
      |r| <= |s| && r == s[..|r|] && (r == [] || !IsSpace(r[|r| - 1])) &&
      forall i :: |r| <= i < |s| ==> IsSpace(s[i])
  {
    if s != [] && IsSpace(s[|s| - 1]) {
      var t := s[..|s| - 1];
      TrimEndShape(t);
      var r := TrimEnd(s);
      forall i | |r| <= i < |s| ensures IsSpace(s[i]) {
        if i < |s| - 1 { assert s[i] == t[i]; }
      }
    }
  }

  /** The result of `trim` has no whitespace at either end, and is no longer than its input. */
  lemma TrimResult(s: string)
    ensures Trimmed(Trim(s)) && |Trim(s)| <= |s|
  {
    var a := TrimStart(s);
    var r := TrimEnd(a);
    TrimStartShape(s);
    TrimEndShape(a);
    if r != [] {
      assert r[0] == a[0];
    }
  }

  /** `trim` changes a string exactly when it has whitespace at one of its ends. */
  lemma TrimFixedPoint(s: string)
    ensures Trim(s) == s <==> Trimmed(s)
  {
    TrimResult(s);
    if Trimmed(s) {
      assert TrimStart(s) == s;
      assert TrimEnd(s) == s;
    }
  }

  /** Trimming twice is trimming once. */
  lemma TrimIdempotent(s: string)
    ensures Trim(Trim(s)) == Trim(s)
  {
    TrimResult(s);
    TrimFixedPoint(Trim(s));
  }

  /** `trim` yields the empty string exactly for strings made only of whitespace. */
  lemma TrimEmpty(s: string)
    ensures Trim(s) == [] <==> forall i :: 0 <= i < |s| ==> IsSpace(s[i])
  {
    var a := TrimStart(s);
    TrimStartShape(s);
    TrimEndShape(a);
    assert a != [] ==> a[0] == s[|s| - |a|];
  }

  /** Code units a character takes in UTF-16: two above U+FFFF (a surrogate pair), one otherwise. */
  function Utf16Units(c: char): nat {
    if c as int > 0xFFFF then 2 else 1
  }

  /** JavaScript's `s.length`: the number of UTF-16 code units. */
  function Utf16Length(s: string): (n: nat)
    ensures |s| <= n <= 2 * |s|
  {
    if s == [] then 0 else Utf16Units(s[0]) + Utf16Length(s[1..])
  }

  /** Every character lies in the Basic Multilingual Plane. */
  predicate Bmp(s: string) {
    forall i :: 0 <= i < |s| ==> s[i] as int <= 0xFFFF
  }

  /** JavaScript's `length` agrees with the count of characters exactly on BMP strings. */
  lemma {:induction false} Utf16LengthBmp(s: string)
    ensures Utf16Length(s) == |s| <==> Bmp(s)
  {
    if s != [] {
      Utf16LengthBmp(s[1..]);
      assert Bmp(s) <==> s[0] as int <= 0xFFFF && Bmp(s[1..]) by {
        if s[0] as int <= 0xFFFF && Bmp(s[1..]) {
          forall i | 0 <= i < |s| ensures s[i] as int <= 0xFFFF {
            if i > 0 { assert s[i] == s[1..][i - 1]; }
          }
        }
      }
    }
  }

  /** The emoji/text presentation selectors U+FE0E and U+FE0F. */
  predicate IsPresentationSelector(c: char) {
    c as int == 0xFE0E || c as int == 0xFE0F
  }

  function PresentationSelectors(s: string): (n: nat)
    ensures n <= |s|
  {
    if s == [] then 0
    else (if IsPresentationSelector(s[0]) then 1 else 0) + PresentationSelectors(s[1..])
  }

  /**
   * The length validator.js `isLength` compares with its bounds: the UTF-16
   * length minus one per surrogate pair (so one per character) minus one per
   * presentation selector.
   */
  function ValidatorLength(s: string): (n: nat)
    ensures n <= |s|
  {
    |s| - PresentationSelectors(s)
  }

  /** A string without presentation selectors. */
  predicate NoSelectors(s: string) {
    forall i :: 0 <= i < |s| ==> !IsPresentationSelector(s[i])
  }

  /** validator.js counts every character exactly when no presentation selector occurs. */
  lemma {:induction false} ValidatorLengthPlain(s: string)
    ensures ValidatorLength(s) == |s| <==> NoSelectors(s)
  {
    if s != [] {
      ValidatorLengthPlain(s[1..]);
      assert NoSelectors(s) <==> !IsPresentationSelector(s[0]) && NoSelectors(s[1..]) by {
        if !IsPresentationSelector(s[0]) && NoSelectors(s[1..]) {
          forall i | 0 <= i < |s| ensures !IsPresentationSelector(s[i]) {
            if i > 0 { assert s[i] == s[1..][i - 1]; }
          }
        }
      }
    }
  }

  /** `s.endsWith(suffix)`. */
  predicate EndsWith(s: string, suffix: string) {
    |suffix| <= |s| && s[|s| - |suffix|..] == suffix
  }

  /** `c.toLowerCase()` on ASCII letters. */
  function AsciiLowerChar(c: char): (d: char)
    ensures 'A' <= c <= 'Z' ==> d as int == c as int + 32
    ensures !('A' <= c <= 'Z') ==> d == c
  {
    if 'A' <= c <= 'Z' then (c as int + 32) as char else c
  }

  /** `s.toLowerCase()` restricted to ASCII letters; other characters are kept. */
  function AsciiLower(s: string): (r: string)
    ensures |r| == |s|
    ensures forall i :: 0 <= i < |s| ==> r[i] == AsciiLowerChar(s[i])
  {
    if s == [] then [] else [AsciiLowerChar(s[0])] + AsciiLower(s[1..])
  }

  /** No upper-case ASCII letter occurs in `s`. */
  predicate NoAsciiUpper(s: string) {
    forall i :: 0 <= i < |s| ==> !('A' <= s[i] <= 'Z')
  }

  /** Lower-casing leaves no upper-case ASCII letter and is idempotent. */
  lemma AsciiLowerNormal(s: string)
    ensures NoAsciiUpper(AsciiLower(s))
    ensures AsciiLower(AsciiLower(s)) == AsciiLower(s)
  {
  }
}
