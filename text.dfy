/** String helpers standing in for the Rust `str` methods the registry code calls. */
module Text {

  /** `s.starts_with(prefix)` */
  predicate StartsWith(s: string, prefix: string) {
    |prefix| <= |s| && s[..|prefix|] == prefix
  }

  /** `s.ends_with(suffix)` */
  predicate EndsWith(s: string, suffix: string) {
    |suffix| <= |s| && s[|s| - |suffix|..] == suffix
  }

  /** `pat` written `n` times in a row. */
  function Repeat(pat: string, n: nat): string {
    if n == 0 then [] else Repeat(pat, n - 1) + pat
  }

  /** A repetition starts with the first character of the pattern. */
  lemma {:induction false} RepeatHead(pat: string, n: nat)
    requires pat != [] && n > 0
    ensures Repeat(pat, n) != [] && Repeat(pat, n)[0] == pat[0]
  {
    if n > 1 {
      RepeatHead(pat, n - 1);
    }
  }

  /**
   * `s.trim_end_matches(pat)`: strip `pat` from the end of `s` for as long as `s` ends with it.
   * An empty pattern leaves `s` as it is.
   */
  function TrimEndMatches(s: string, pat: string): (r: string)
    ensures StartsWith(s, r)
    ensures pat != [] ==> !EndsWith(r, pat)
    decreases |s|
  {
    if pat != [] && EndsWith(s, pat) then TrimEndMatches(s[..|s| - |pat|], pat) else s
  }

  /** How many copies of `pat` `TrimEndMatches` strips from the end of `s`. */
  function TrimmedCopies(s: string, pat: string): nat
    decreases |s|
  {
    if pat != [] && EndsWith(s, pat) then TrimmedCopies(s[..|s| - |pat|], pat) + 1 else 0
  }

  /** What trimming removes is nothing but copies of the pattern. */
  lemma {:induction false} TrimEndMatchesRemovesCopies(s: string, pat: string)
    ensures s == TrimEndMatches(s, pat) + Repeat(pat, TrimmedCopies(s, pat))
    decreases |s|
  {
    if pat != [] && EndsWith(s, pat) {
      var front := s[..|s| - |pat|];
      assert s == front + pat by {
        assert s[|s| - |pat|..] == pat;
        assert s == s[..|s| - |pat|] + s[|s| - |pat|..];
      }
      TrimEndMatchesRemovesCopies(front, pat);
      var r, n := TrimEndMatches(front, pat), TrimmedCopies(front, pat);
      assert TrimEndMatches(s, pat) == r;
      assert TrimmedCopies(s, pat) == n + 1;
      assert Repeat(pat, n + 1) == Repeat(pat, n) + pat;
      assert s == r + Repeat(pat, n) + pat;
    }
  }

  /** Trimming is idempotent. */
  lemma TrimEndMatchesIdempotent(s: string, pat: string)
    ensures TrimEndMatches(TrimEndMatches(s, pat), pat) == TrimEndMatches(s, pat)
  {
  }

  /** One more trailing occurrence of the pattern makes no difference. */
  lemma TrimEndMatchesAppend(s: string, pat: string)
    ensures TrimEndMatches(s + pat, pat) == TrimEndMatches(s, pat)
  {
    if pat != [] {
      assert (s + pat)[..|s + pat| - |pat|] == s;
      assert (s + pat)[|s + pat| - |pat|..] == pat;
    }
  }

  /** `parts.join(sep)` */
  function Join(parts: seq<string>, sep: string): (r: string)
    ensures sep != [] ==> (r == [] <==> |parts| == 0 || (|parts| == 1 && parts[0] == []))
  {
    if |parts| == 0 then []
    else if |parts| == 1 then parts[0]
    else parts[0] + sep + Join(parts[1..], sep)
  }

  /** `s.split(sep).collect()`: the pieces between occurrences of `sep`; never empty. */
  function Split(s: string, sep: char): (parts: seq<string>)
    ensures |parts| > 0
  {
    if s == [] then [[]]
    else if s[0] == sep then [[]] + Split(s[1..], sep)
    else
      var rest := Split(s[1..], sep);
      [[s[0]] + rest[0]] + rest[1..]
  }

  /** A piece without the separator followed by the separator splits off as one piece. */
  lemma {:induction false} SplitPiece(a: string, sep: char, b: string)
    requires sep !in a
    ensures Split(a + [sep] + b, sep) == [a] + Split(b, sep)
  {
    if a != [] {
      SplitPiece(a[1..], sep, b);
      assert (a + [sep] + b)[1..] == a[1..] + [sep] + b;
      assert [a[0]] + a[1..] == a;
    } else {
      assert a + [sep] + b == [sep] + b;
    }
  }

  /** Without the separator, a string splits into itself. */
  lemma {:induction false} SplitWhole(a: string, sep: char)
    requires sep !in a
    ensures Split(a, sep) == [a]
  {
    if a != [] {
      SplitWhole(a[1..], sep);
      assert [a[0]] + a[1..] == a;
    }
  }

  /** Splitting undoes joining with a one-character separator that no piece contains. */
  lemma {:induction false} SplitJoin(parts: seq<string>, sep: char)
    requires |parts| > 0
    requires forall p :: p in parts ==> sep !in p
    ensures Split(Join(parts, [sep]), sep) == parts
  {
    if |parts| == 1 {
      SplitWhole(parts[0], sep);
    } else {
      SplitJoin(parts[1..], sep);
      SplitPiece(parts[0], sep, Join(parts[1..], [sep]));
      assert [parts[0]] + parts[1..] == parts;
    }
  }

  /** `a <= b` for Rust's `String` order: lexicographic by character (UTF-8 byte order is code point order). */
  predicate LexLessEq(a: string, b: string) {
    a == [] || (b != [] && (a[0] < b[0] || (a[0] == b[0] && LexLessEq(a[1..], b[1..]))))
  }

  lemma {:induction false} LexLessEqRefl(a: string)
    ensures LexLessEq(a, a)
  {
    if a != [] {
      LexLessEqRefl(a[1..]);
    }
  }

  lemma {:induction false} LexLessEqTotal(a: string, b: string)
    ensures LexLessEq(a, b) || LexLessEq(b, a)
  {
    if a != [] && b != [] && a[0] == b[0] {
      LexLessEqTotal(a[1..], b[1..]);
    }
  }

  lemma {:induction false} LexLessEqTrans(a: string, b: string, c: string)
    requires LexLessEq(a, b) && LexLessEq(b, c)
    ensures LexLessEq(a, c)
  {
    if a != [] && a[0] == b[0] && b[0] == c[0] {
      LexLessEqTrans(a[1..], b[1..], c[1..]);
    }
  }

  lemma {:induction false} LexLessEqAntisym(a: string, b: string)
    requires LexLessEq(a, b) && LexLessEq(b, a)
    ensures a == b
  {
    if a != [] && b != [] {
      LexLessEqAntisym(a[1..], b[1..]);
      assert a == [a[0]] + a[1..] && b == [b[0]] + b[1..];
    }
  }
}
