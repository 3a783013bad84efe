/**
 * The two email regular expressions of the repository.
 *
 * contact/submit.js tests `^\S+@\S+\.\S+$`. It is written here as a pattern of
 * atoms with a backtracking matcher, and its language is then characterised in
 * closed form. models/contact.js uses
 * `^\w+([.-]?\w+)*@\w+([.-]?\w+)*(\.\w{2,3})+$`, read here directly as the
 * language it denotes.
 */
module EmailPattern {
  import opened Text

  /** One element of a pattern: a literal character, or `\S+`. */
  datatype Atom = Literal(c: char) | NonSpaces

  /** `\S+@\S+\.\S+`, anchored at both ends. */
  const LoosePattern: seq<Atom> := [NonSpaces, Literal('@'), NonSpaces, Literal('.'), NonSpaces]

  /** No whitespace in `s[from..to]`. */
  predicate NoSpaceBetween(s: string, from: int, to: int)
    requires 0 <= from <= to <= |s|
  {
    forall i :: from <= i < to ==> !IsSpace(s[i])
  }

  /**
   * `p` matches exactly `s[at..]`, trying every length for each `\S+` (the
   * regular expression is anchored at both ends).
   */
  predicate MatchesFrom(p: seq<Atom>, s: string, at: nat)
    requires at <= |s|
    decreases |p|
  {
    if p == [] then at == |s|
    else match p[0]
      case Literal(c) => at < |s| && s[at] == c && MatchesFrom(p[1..], s, at + 1)
      case NonSpaces =>
        exists k :: at < k <= |s| && NoSpaceBetween(s, at, k) && MatchesFrom(p[1..], s, k)
  }

  /** `regex.test(s)` for an anchored pattern. */
  predicate Matches(p: seq<Atom>, s: string) {
    MatchesFrom(p, s, 0)
  }

  /**
   * The language of `^\S+@\S+\.\S+$`: no whitespace at all, an `@` that is not
   * first, and after it, with at least one character between, a `.` that is
   * not last.
   */
  predicate LooseEmailShape(s: string) {
    NoSpace(s) &&
    exists i, j :: 1 <= i && i + 2 <= j <= |s| - 2 && s[i] == '@' && s[j] == '.'
  }

  /** The witness form of `LooseEmailShape`. */
  lemma LooseShapeIntro(s: string, i: int, j: int)
    requires NoSpace(s) && 1 <= i && i + 2 <= j <= |s| - 2 && s[i] == '@' && s[j] == '.'
    ensures LooseEmailShape(s)
  {
  }

  /** A match of a pattern starting with `\S+` consumes a non-empty whitespace-free run. */
  lemma MatchNonSpacesHead(p: seq<Atom>, s: string, at: nat) returns (k: int)
    requires at <= |s| && p != [] && p[0] == NonSpaces && MatchesFrom(p, s, at)
    ensures at < k <= |s| && NoSpaceBetween(s, at, k) && MatchesFrom(p[1..], s, k)
  {
    k :| at < k <= |s| && NoSpaceBetween(s, at, k) && MatchesFrom(p[1..], s, k);
  }

  /** A match of a pattern starting with a literal consumes that character. */
  lemma MatchLiteralHead(p: seq<Atom>, s: string, at: nat)
    requires at <= |s| && p != [] && p[0].Literal? && MatchesFrom(p, s, at)
    ensures at < |s| && s[at] == p[0].c && MatchesFrom(p[1..], s, at + 1)
  {
  }

  /** Each `\S+` run of a match, and the literals between them, are free of whitespace. */
  lemma MatchedLooseIsShape(s: string)
    requires Matches(LoosePattern, s)
    ensures LooseEmailShape(s)
  {
    var p := LoosePattern;
    var i := MatchNonSpacesHead(p, s, 0);
    MatchLiteralHead(p[1..], s, i);
    assert p[1..][1..] == p[2..];
    var j := MatchNonSpacesHead(p[2..], s, i + 1);
    assert p[2..][1..] == p[3..];
    MatchLiteralHead(p[3..], s, j);
    assert p[3..][1..] == p[4..];
    var e := MatchNonSpacesHead(p[4..], s, j + 1);
    assert p[4..][1..] == [];
    assert e == |s|;
    forall n | 0 <= n < |s| ensures !IsSpace(s[n]) {
      if n == i || n == j {
      } else if n < i {
        assert NoSpaceBetween(s, 0, i);
      } else if n < j {
        assert NoSpaceBetween(s, i + 1, j);
      } else {
        assert NoSpaceBetween(s, j + 1, e);
      }
    }
    LooseShapeIntro(s, i, j);
  }

  /** Given the positions of `@` and `.`, the matcher finds the split. */
  lemma ShapeMatchesLoose(s: string)
    requires LooseEmailShape(s)
    ensures Matches(LoosePattern, s)
  {
    var i, j :| 1 <= i && i + 2 <= j <= |s| - 2 && s[i] == '@' && s[j] == '.';
    var p := LoosePattern;
    assert MatchesFrom(p[5..], s, |s|);
    assert NoSpaceBetween(s, j + 1, |s|);
    assert MatchesFrom(p[4..], s, j + 1);
    assert MatchesFrom(p[3..], s, j);
    assert NoSpaceBetween(s, i + 1, j);
    assert MatchesFrom(p[2..], s, i + 1);
    assert MatchesFrom(p[1..], s, i);
    assert NoSpaceBetween(s, 0, i);
  }

  /** The matcher accepts exactly the strings of the closed-form language. */
  lemma LoosePatternMeaning(s: string)
    ensures Matches(LoosePattern, s) <==> LooseEmailShape(s)
  {
    if Matches(LoosePattern, s) { MatchedLooseIsShape(s); }
    if LooseEmailShape(s) { ShapeMatchesLoose(s); }
  }

  /** `\w`: an ASCII letter, digit or underscore. */
  predicate IsWordChar(c: char) {
    'a' <= c <= 'z' || 'A' <= c <= 'Z' || '0' <= c <= '9' || c == '_'
  }

  predicate AllWordChars(s: string) {
    forall i :: 0 <= i < |s| ==> IsWordChar(s[i])
  }

  /** `[.-]`. */
  predicate IsSeparator(c: char) {
    c == '.' || c == '-'
  }

  /**
   * The language of `\w+([.-]?\w+)*`: word characters and separators, starting
   * and ending with a word character, with no two separators side by side.
   */
  predicate IsDottedWord(s: string) {
    |s| > 0 && IsWordChar(s[0]) && IsWordChar(s[|s| - 1]) &&
    (forall i :: 0 <= i < |s| ==> IsWordChar(s[i]) || IsSeparator(s[i])) &&
    (forall i :: 0 <= i < |s| - 1 ==> IsWordChar(s[i]) || IsWordChar(s[i + 1]))
  }

  /**
   * The language of the schema's pattern: a dotted word, `@`, and a domain that
   * is a dotted word followed by one or more `.` plus two or three word
   * characters. The last such group is the one after `m`; the groups before it
   * belong to the dotted word `s[k+1..m]`.
   */
  predicate SchemaEmailShape(s: string) {
    exists k, m :: 0 <= k < m < |s| && s[k] == '@' && s[m] == '.' &&
      IsDottedWord(s[..k]) && IsDottedWord(s[k + 1..m]) &&
      2 <= |s| - m - 1 <= 3 && AllWordChars(s[m + 1..])
  }

  /** A word character or separator is never whitespace. */
  lemma DottedWordNoSpace(s: string)
    requires IsDottedWord(s)
    ensures NoSpace(s)
  {
    forall i | 0 <= i < |s| ensures !IsSpace(s[i]) {
      assert IsWordChar(s[i]) || IsSeparator(s[i]);
    }
  }

  lemma WordCharsNoSpace(s: string)
    requires AllWordChars(s)
    ensures NoSpace(s)
  {
    forall i | 0 <= i < |s| ensures !IsSpace(s[i]) {
      assert IsWordChar(s[i]);
    }
  }

  /** Three whitespace-free pieces joined by two non-space characters are whitespace-free. */
  lemma NoSpaceAround(s: string, k: int, m: int)
    requires 0 <= k < m < |s| && !IsSpace(s[k]) && !IsSpace(s[m])
    requires NoSpace(s[..k]) && NoSpace(s[k + 1..m]) && NoSpace(s[m + 1..])
    ensures NoSpace(s)
  {
    forall i | 0 <= i < |s| ensures !IsSpace(s[i]) {
      if i < k {
        assert s[i] == s[..k][i];
      } else if k < i < m {
        assert s[i] == s[k + 1..m][i - k - 1];
      } else if m < i {
        assert s[i] == s[m + 1..][i - m - 1];
      }
    }
  }

  /** Every address the schema accepts also passes `^\S+@\S+\.\S+$`. */
  lemma SchemaEmailIsLoose(s: string)
    requires SchemaEmailShape(s)
    ensures LooseEmailShape(s)
  {
    var k, m :| 0 <= k < m < |s| && s[k] == '@' && s[m] == '.' &&
      IsDottedWord(s[..k]) && IsDottedWord(s[k + 1..m]) &&
      2 <= |s| - m - 1 <= 3 && AllWordChars(s[m + 1..]);
    DottedWordNoSpace(s[..k]);
    DottedWordNoSpace(s[k + 1..m]);
    WordCharsNoSpace(s[m + 1..]);
    NoSpaceAround(s, k, m);
    LooseShapeIntro(s, k, m);
  }

  /** The converse fails: a one-letter top-level domain passes submit.js but not the schema. */
  lemma LooseEmailIsNotSchemaEmail()
    ensures LooseEmailShape("a@b.c") && !SchemaEmailShape("a@b.c")
  {
    var s := "a@b.c";
    assert NoSpace(s) by {
      forall i | 0 <= i < |s| ensures !IsSpace(s[i]) {
        assert s[i] in {'a', '@', 'b', '.', 'c'};
      }
    }
    LooseShapeIntro(s, 1, 3);
  }
}
