/** The string operations of the TypeScript code: `String.prototype.trim`,
    `split` on one separator character, the `\D` character class and
    `startsWith`. Strings are sequences of characters. */
module Text {

  /** ECMAScript WhiteSpace and LineTerminator characters, the set `trim` removes. */
  predicate IsSpace(c: char) {
    c == '\t' || c == '\n' || c == '\U{000B}' || c == '\U{000C}' || c == '\r' || c == ' '
    || c == '\U{00A0}' || c == '\U{1680}' || ('\U{2000}' <= c <= '\U{200A}')
    || c == '\U{2028}' || c == '\U{2029}' || c == '\U{202F}' || c == '\U{205F}'
    || c == '\U{3000}' || c == '\U{FEFF}'
  }

  /** The characters the regular expression class `\d` matches (no `u` flag: ASCII digits only). */
  predicate IsDigit(c: char) {
    '0' <= c <= '9'
  }

  /** `s` has no white space at either end. */
  predicate IsTrimmed(s: string) {
    s == [] || (!IsSpace(s[0]) && !IsSpace(s[|s| - 1]))
  }

  function TrimStart(s: string): (r: string)
    ensures |r| <= |s| && r == s[|s| - |r|..]
    ensures r == [] || !IsSpace(r[0])
    ensures forall i :: 0 <= i < |s| - |r| ==> IsSpace(s[i])
  {
    if s == [] || !IsSpace(s[0]) then s else TrimStart(s[1..])
  }

  function TrimEnd(s: string): (r: string)
    ensures |r| <= |s| && r == s[..|r|]
    ensures r == [] || !IsSpace(r[|r| - 1])
    ensures forall i :: |r| <= i < |s| ==> IsSpace(s[i])
  {
    if s == [] || !IsSpace(s[|s| - 1]) then s else TrimEnd(s[..|s| - 1])
  }

  /** `s.trim()`. */
  function Trim(s: string): (r: string) {
    TrimEnd(TrimStart(s))
  }

  /** A prefix `r` of the suffix `t == s[start..]` is the infix of `s` at `start`, and the rest of
      `t` is the rest of `s`. */
  lemma PrefixOfSuffix<T>(s: seq<T>, start: nat, t: seq<T>, r: seq<T>)
    requires start <= |s| && t == s[start..]
    requires |r| <= |t| && r == t[..|r|]
    ensures start + |r| <= |s| && r == s[start..start + |r|]
    ensures forall i :: start + |r| <= i < |s| ==> s[i] == t[i - start]
  {
  }

  /** The characters after the trimmed infix are white space. */
  lemma TrailingSpace(s: string, start: nat, t: string, r: string)
    requires start <= |s| && t == s[start..]
    requires |r| <= |t| && forall i :: |r| <= i < |t| ==> IsSpace(t[i])
    requires forall i :: start + |r| <= i < |s| ==> s[i] == t[i - start]
    ensures forall i :: start + |r| <= i < |s| ==> IsSpace(s[i])
  {
    forall i | start + |r| <= i < |s| ensures IsSpace(s[i]) {
      assert s[i] == t[i - start];
    }
  }

  /** Trimming the end of a string that starts with a non-space leaves it trimmed at both ends. */
  lemma TrimEndTrimmed(t: string)
    requires t == [] || !IsSpace(t[0])
    ensures IsTrimmed(TrimEnd(t))
  {
    var r := TrimEnd(t);
    if r != [] {
      assert r[0] == t[0];
    }
  }

  /** What `trim` returns: the infix of `s` between the leading and the trailing white space. */
  lemma TrimIsInfix(s: string) returns (start: nat)
    ensures start + |Trim(s)| <= |s| && Trim(s) == s[start..start + |Trim(s)|]
    ensures IsTrimmed(Trim(s))
    ensures forall i :: 0 <= i < start ==> IsSpace(s[i])
    ensures forall i :: start + |Trim(s)| <= i < |s| ==> IsSpace(s[i])
  {
    var t := TrimStart(s);
    start := |s| - |t|;
    var r := TrimEnd(t);
    assert Trim(s) == r;
    PrefixOfSuffix(s, start, t, r);
    TrailingSpace(s, start, t, r);
    TrimEndTrimmed(t);
  }

  /** The trimmed text is empty exactly when every character is white space. */
  lemma TrimEmptyIff(s: string)
    ensures Trim(s) == [] <==> forall i :: 0 <= i < |s| ==> IsSpace(s[i])
  {
    var start := TrimIsInfix(s);
    if Trim(s) != [] {
      assert !IsSpace(s[start]);
    }
  }

  /** Trimming changes nothing on a string that has no white space at its ends. */
  lemma TrimOfTrimmed(s: string)
    requires IsTrimmed(s)
    ensures Trim(s) == s
  {
  }

  /** `trim` is idempotent. */
  lemma TrimIdempotent(s: string)
    ensures Trim(Trim(s)) == Trim(s)
  {
    var _ := TrimIsInfix(s);
    TrimOfTrimmed(Trim(s));
  }

  /** `s.startsWith(c)` for a one-character prefix. */
  predicate StartsWith(s: string, c: char) {
    |s| > 0 && s[0] == c
  }

  /** `s.split(sep)`: the pieces between occurrences of `sep`; there is always one more piece
      than there are separators, so the empty string splits into one empty piece. */
  function Split(s: string, sep: char): (r: seq<string>)
    ensures |r| >= 1
    ensures forall k :: 0 <= k < |r| ==> sep !in r[k]
  {
    if s == [] then [[]]
    else if s[0] == sep then [[]] + Split(s[1..], sep)
    else
      var rest := Split(s[1..], sep);
      [[s[0]] + rest[0]] + rest[1..]
  }

  /** `xs.join(sep)`: the inverse of `Split`. */
  function Join(xs: seq<string>, sep: char): string {
    if xs == [] then []
    else if |xs| == 1 then xs[0]
    else xs[0] + [sep] + Join(xs[1..], sep)
  }

  lemma {:induction false} SplitPrepend(c: char, s: string, sep: char)
    requires c != sep
    ensures Split([c] + s, sep) == [[c] + Split(s, sep)[0]] + Split(s, sep)[1..]
  {
    assert ([c] + s)[1..] == s;
  }

  lemma {:induction false} SplitPiece(x: string, s: string, sep: char)
    requires sep !in x
    ensures Split(x + s, sep) == [x + Split(s, sep)[0]] + Split(s, sep)[1..]
  {
    var r := Split(s, sep);
    if x == [] {
      assert x + s == s && x + r[0] == r[0];
      assert [r[0]] + r[1..] == r;
    } else {
      SplitPiece(x[1..], s, sep);
      assert x + s == [x[0]] + (x[1..] + s);
      SplitPrepend(x[0], x[1..] + s, sep);
      assert [x[0]] + (x[1..] + r[0]) == x + r[0];
    }
  }

  /** Joining pieces that do not contain the separator and splitting again gives the pieces back. */
  lemma {:induction false} SplitJoin(xs: seq<string>, sep: char)
    requires xs != []
    requires forall k :: 0 <= k < |xs| ==> sep !in xs[k]
    ensures Split(Join(xs, sep), sep) == xs
  {
    if |xs| == 1 {
      SplitPiece(xs[0], [], sep);
      assert xs[0] + [] == xs[0];
    } else {
      SplitJoin(xs[1..], sep);
      var tail := Join(xs[1..], sep);
      assert Join(xs, sep) == xs[0] + ([sep] + tail);
      SplitPiece(xs[0], [sep] + tail, sep);
      assert ([sep] + tail)[1..] == tail;
      assert Split([sep] + tail, sep) == [[]] + xs[1..];
      assert xs[0] + [] == xs[0];
    }
  }

  /** Splitting and joining again gives the string back. */
  lemma {:induction false} JoinSplit(s: string, sep: char)
    ensures Join(Split(s, sep), sep) == s
  {
    if s != [] {
      JoinSplit(s[1..], sep);
      var rest := Split(s[1..], sep);
      if s[0] == sep {
        assert Split(s, sep)[1..] == rest;
        assert s == [sep] + s[1..];
      } else {
        var r := Split(s, sep);
        assert r[0] == [s[0]] + rest[0] && r[1..] == rest[1..];
        if |rest| == 1 {
          assert s == [s[0]] + rest[0];
        } else {
          assert Join(rest, sep) == rest[0] + [sep] + Join(rest[1..], sep);
          assert s == [s[0]] + s[1..];
        }
      }
    }
  }
}
