/** Path patterns of a file query: folding, the byte fast path for ASCII text, and the
    meaning of a compiled pattern. Scalars are `char`; bytes of ASCII text are their codes. */
module Query {
  import opened Common
  import Glob

  predicate IsAscii(s: string) {
    forall k | 0 <= k < |s| :: s[k] as int < 128
  }

  function AsciiLower(c: char): char {
    if 'A' <= c <= 'Z' then (c as int + 32) as char else c
  }

  function ByteLower(b: int): int {
    if 65 <= b <= 90 then b + 32 else b
  }

  /** `lower` is the first scalar of the Unicode lowercase of a non-ASCII scalar. */
  function Fold(c: char, lower: char -> char): char {
    if c as int < 128 then AsciiLower(c) else lower(c)
  }

  function FoldChars(s: string, lower: char -> char): string {
    Glob.Map(c => Fold(c, lower), s)
  }

  function Bytes(s: string): seq<int> {
    Glob.Map((c: char) => c as int, s)
  }

  function FoldBytes(s: string): seq<int> {
    Glob.Map(ByteLower, Bytes(s))
  }

  /** A folded pattern in the representations it can be matched in. */
  datatype Folded = Folded(chars: string, ascii: Option<seq<int>>)

  function NewFolded(pattern: string, lower: char -> char): Folded {
    Folded(FoldChars(pattern, lower), if IsAscii(pattern) then Some(FoldBytes(pattern)) else None)
  }

  datatype PathMatcher = All | Substring(folded: Folded) | Globbing(folded: Folded)

  predicate IsWild(c: char) { c == '*' || c == '?' }

  predicate HasWildcard(pattern: string) {
    exists k | 0 <= k < |pattern| :: IsWild(pattern[k])
  }

  /** The last step of compiling a pattern, after trimming and validation. */
  function Compile(pattern: string, lower: char -> char): PathMatcher {
    if pattern == "" then All
    else if HasWildcard(pattern) then Globbing(NewFolded(pattern, lower))
    else Substring(NewFolded(pattern, lower))
  }

  predicate OccursAt<T(==)>(hay: seq<T>, needle: seq<T>, k: int) {
    0 <= k <= |hay| - |needle| && hay[k..k + |needle|] == needle
  }

  predicate Contains<T(==)>(hay: seq<T>, needle: seq<T>) {
    exists k | 0 <= k <= |hay| :: OccursAt(hay, needle, k)
  }

  method ContainsFolded<T(==)>(hay: seq<T>, needle: seq<T>) returns (r: bool)
    ensures r <==> Contains(hay, needle)
  {
    if needle == [] {
      assert OccursAt(hay, needle, 0);
      return true;
    }
    if |needle| > |hay| { return false; }
    var first := needle[0];
    for start := 0 to |hay| - |needle| + 1
      invariant forall k | 0 <= k < start :: !OccursAt(hay, needle, k)
    {
      if hay[start] == first && hay[start..start + |needle|] == needle {
        assert OccursAt(hay, needle, start);
        return true;
      }
      assert hay[start..start + |needle|][0] == hay[start];
    }
    return false;
  }

  /** What a matcher says by scalars alone. */
  function ScalarVerdict(m: PathMatcher, path: string, lower: char -> char): bool {
    match m
    case All => true
    case Substring(f) => Contains(FoldChars(path, lower), f.chars)
    case Globbing(f) => Glob.Answer(f.chars, FoldChars(path, lower), '*', '?')
  }

  /** Matching as done: ASCII pattern against ASCII path by bytes, anything else by scalars. */
  method MatchPath(pattern: string, path: string, lower: char -> char) returns (r: bool)
    ensures r == ScalarVerdict(Compile(pattern, lower), path, lower)
  {
    var m := Compile(pattern, lower);
    match m {
      case All => r := true;
      case Substring(f) =>
        if f.ascii.Some? && IsAscii(path) {
          r := ContainsFolded(FoldBytes(path), f.ascii.value);
          BytesContain(FoldChars(path, lower), f.chars);
          FoldsAgree(path, lower);
          FoldsAgree(pattern, lower);
        } else {
          r := ContainsFolded(FoldChars(path, lower), f.chars);
        }
      case Globbing(f) =>
        if f.ascii.Some? && IsAscii(path) {
          ghost var steps;
          r, steps := Glob.GlobMatch(f.ascii.value, FoldBytes(path), '*' as int, '?' as int);
          FoldsAgree(path, lower);
          FoldsAgree(pattern, lower);
          BytesGlob(f.chars, FoldChars(path, lower));
        } else {
          ghost var steps;
          r, steps := Glob.GlobMatch(f.chars, FoldChars(path, lower), '*', '?');
        }
    }
  }

  // ---------- bytes and scalars agree on ASCII ----------

  /** Folding the bytes of ASCII text is folding its scalars. */
  lemma FoldsAgree(s: string, lower: char -> char)
    requires IsAscii(s)
    ensures FoldBytes(s) == Bytes(FoldChars(s, lower))
  {}

  /** A folded pattern has its bytes exactly when it is ASCII, and they are those of its scalars. */
  lemma BytesOfPattern(pattern: string, lower: char -> char)
    ensures var f := NewFolded(pattern, lower);
            if forall c :: c in pattern ==> c as int < 128 then f.ascii == Some(Bytes(f.chars)) else f.ascii.None?
  {
    if IsAscii(pattern) {
      FoldsAgree(pattern, lower);
    } else {
      var k :| 0 <= k < |pattern| && pattern[k] as int >= 128;
      assert pattern[k] in pattern;
    }
  }

  lemma CodesInjective()
    ensures Glob.Injective((c: char) => c as int)
  {}

  lemma BytesOccur(hay: string, needle: string, k: int)
    ensures OccursAt(Bytes(hay), Bytes(needle), k) <==> OccursAt(hay, needle, k)
  {
    if 0 <= k <= |hay| - |needle| {
      var part := hay[k..k + |needle|];
      assert Bytes(hay)[k..k + |needle|] == Bytes(part);
      if Bytes(part) == Bytes(needle) {
        assert forall j | 0 <= j < |needle| :: Bytes(part)[j] == part[j] as int && Bytes(needle)[j] == needle[j] as int;
        assert part == needle;
      }
    }
  }

  lemma BytesContain(hay: string, needle: string)
    ensures Contains(Bytes(hay), Bytes(needle)) <==> Contains(hay, needle)
  {
    forall k ensures OccursAt(Bytes(hay), Bytes(needle), k) <==> OccursAt(hay, needle, k) {
      BytesOccur(hay, needle, k);
    }
  }

  lemma BytesGlob(pat: string, s: string)
    ensures Glob.Answer(Bytes(pat), Bytes(s), '*' as int, '?' as int) == Glob.Answer(pat, s, '*', '?')
  {
    CodesInjective();
    Glob.ScanReencoded(pat, s, '*', '?', Glob.ORIGIN, (c: char) => c as int);
  }

  // ---------- letter case ----------

  /** `x` is the lower case of the ASCII scalar `c`. */
  predicate IsLower(x: char, c: char) {
    if 'A' <= c <= 'Z' then x as int == c as int + 32 else x == c
  }

  /** The two are the upper or lower case of one letter: ASCII by its letters, any other scalar by what the
      lower-case table says of it. */
  predicate SameLetter(c: char, d: char, lower: char -> char) {
    if c as int < 128 then
      if d as int < 128 then exists x :: IsLower(x, c) && IsLower(x, d) else IsLower(lower(d), c)
    else
      if d as int < 128 then IsLower(lower(c), d) else lower(c) == lower(d)
  }

  predicate SameLetters(s: string, t: string, lower: char -> char) {
    |s| == |t| && forall k :: 0 <= k < |s| ==> SameLetter(s[k], t[k], lower)
  }

  lemma LowerIs(c: char)
    requires c as int < 128
    ensures forall x :: IsLower(x, c) <==> x == AsciiLower(c)
  {
  }

  /** Folding takes the lower case, and identifies exactly the cases of a letter. */
  lemma FoldExactly(c: char, d: char, lower: char -> char)
    ensures if c as int < 128 then IsLower(Fold(c, lower), c) else Fold(c, lower) == lower(c)
    ensures Fold(c, lower) == Fold(d, lower) <==> SameLetter(c, d, lower)
  {
    if c as int < 128 { LowerIs(c); }
    if d as int < 128 { LowerIs(d); }
    if c as int < 128 && d as int < 128 && AsciiLower(c) == AsciiLower(d) {
      assert IsLower(AsciiLower(c), c) && IsLower(AsciiLower(c), d);
    }
  }

  lemma FoldsAlike(s: string, t: string, lower: char -> char)
    ensures FoldChars(s, lower) == FoldChars(t, lower) <==> SameLetters(s, t, lower)
  {
    if |s| == |t| {
      forall k | 0 <= k < |s|
        ensures FoldChars(s, lower)[k] == FoldChars(t, lower)[k] <==> SameLetter(s[k], t[k], lower)
      {
        FoldExactly(s[k], t[k], lower);
      }
    }
  }

  predicate Plain(pattern: string) { '*' !in pattern && '?' !in pattern }

  lemma PlainIs(pattern: string)
    ensures Plain(pattern) <==> !HasWildcard(pattern)
  {
    if !Plain(pattern) {
      var c :| c in pattern && (c == '*' || c == '?');
      var k :| 0 <= k < |pattern| && pattern[k] == c;
      assert IsWild(pattern[k]);
    }
  }

  /** Letter case makes no difference: patterns alike but for it select the same paths, and paths alike but
      for it are selected by the same patterns. */
  lemma CaseIgnored(pattern: string, pattern2: string, path: string, path2: string, lower: char -> char)
    requires SameLetters(pattern, pattern2, lower) && SameLetters(path, path2, lower)
    requires Plain(pattern) <==> Plain(pattern2)
    ensures ScalarVerdict(Compile(pattern, lower), path, lower)
            == ScalarVerdict(Compile(pattern2, lower), path2, lower)
  {
    FoldsAlike(pattern, pattern2, lower);
    FoldsAlike(path, path2, lower);
    PlainIs(pattern);
    PlainIs(pattern2);
  }

  /** The pattern stands at `k`, letter case aside. */
  predicate ReadsAt(path: string, pattern: string, k: int, lower: char -> char) {
    0 <= k <= |path| - |pattern| && SameLetters(path[k..k + |pattern|], pattern, lower)
  }

  lemma OccursFolded(pattern: string, path: string, k: int, lower: char -> char)
    ensures OccursAt(FoldChars(path, lower), FoldChars(pattern, lower), k) <==> ReadsAt(path, pattern, k, lower)
  {
    if 0 <= k <= |path| - |pattern| {
      var part := path[k..k + |pattern|];
      assert FoldChars(path, lower)[k..k + |pattern|] == FoldChars(part, lower);
      FoldsAlike(part, pattern, lower);
    }
  }

  // ---------- what a query means ----------

  /** A pattern without wildcards selects exactly the paths that hold it somewhere, letter case aside. */
  lemma SubstringMeans(pattern: string, path: string, lower: char -> char)
    requires Plain(pattern)
    ensures ScalarVerdict(Compile(pattern, lower), path, lower) <==> exists k :: ReadsAt(path, pattern, k, lower)
  {
    PlainIs(pattern);
    forall k ensures OccursAt(FoldChars(path, lower), FoldChars(pattern, lower), k)
                     <==> ReadsAt(path, pattern, k, lower) {
      OccursFolded(pattern, path, k, lower);
    }
    assert pattern == "" ==> ReadsAt(path, pattern, 0, lower);
  }

  /** Any other selects by the glob relation on the foldings, exactly for paths whose folding holds no
      literal star. */
  lemma GlobMeans(pattern: string, path: string, lower: char -> char)
    requires !Plain(pattern) && '*' !in FoldChars(path, lower)
    ensures ScalarVerdict(Compile(pattern, lower), path, lower)
            <==> Glob.Matches(FoldChars(pattern, lower), FoldChars(path, lower), '*', '?')
  {
    PlainIs(pattern);
    Glob.AnswerIsMatches(FoldChars(pattern, lower), FoldChars(path, lower), '*', '?');
  }
}
