/** The iterative glob matcher of the file query, against the recursive meaning of a glob. */
module Glob {

  /** Whole-subject match: `star` stands for any run of elements, `question` for any one. */
  predicate Matches<T(==)>(pat: seq<T>, s: seq<T>, star: T, question: T)
    decreases |pat| + |s|
  {
    if pat == [] then s == []
    else if pat[0] == star then
      Matches(pat[1..], s, star, question) || (s != [] && Matches(pat, s[1..], star, question))
    else s != [] && (pat[0] == question || pat[0] == s[0]) && Matches(pat[1..], s[1..], star, question)
  }

  // ---------- the algorithm ----------

  /** The two pointers and the one backtrack mark; `last` is -1 until a star was passed. */
  datatype Cursor = Cursor(p: nat, i: nat, last: int, mark: nat)

  predicate CursorOk<T>(pat: seq<T>, s: seq<T>, c: Cursor) {
    c.p <= |pat| && c.mark <= c.i <= |s| && -1 <= c.last < c.p + 1 && c.last < |pat|
  }

  predicate AllStars<T(==)>(pat: seq<T>, star: T) {
    forall k | 0 <= k < |pat| :: pat[k] == star
  }

  /** What the scan answers from a cursor: the loop as a recursion. */
  function Scan<T(==)>(pat: seq<T>, s: seq<T>, star: T, question: T, c: Cursor): bool
    requires CursorOk(pat, s, c)
    decreases |s| - c.mark, |pat| - c.p
  {
    if c.i == |s| then AllStars(pat[c.p..], star)
    else if c.p < |pat| && (pat[c.p] == question || pat[c.p] == s[c.i]) then
      Scan(pat, s, star, question, c.(p := c.p + 1, i := c.i + 1))
    else if c.p < |pat| && pat[c.p] == star then
      Scan(pat, s, star, question, Cursor(c.p + 1, c.i, c.p, c.i))
    else if c.last != -1 then
      Scan(pat, s, star, question, Cursor(c.last + 1, c.mark + 1, c.last, c.mark + 1))
    else false
  }

  const ORIGIN := Cursor(0, 0, -1, 0)

  function Answer<T(==)>(pat: seq<T>, s: seq<T>, star: T, question: T): bool {
    Scan(pat, s, star, question, ORIGIN)
  }

  /** How many moves the scan makes from a cursor, with those over the stars left at the end. */
  ghost function Moves<T>(pat: seq<T>, s: seq<T>, star: T, question: T, c: Cursor): nat
    requires CursorOk(pat, s, c)
    decreases |s| - c.mark, |pat| - c.p
  {
    if c.i == |s| then Stars(pat[c.p..], star)
    else if c.p < |pat| && (pat[c.p] == question || pat[c.p] == s[c.i]) then
      1 + Moves(pat, s, star, question, c.(p := c.p + 1, i := c.i + 1))
    else if c.p < |pat| && pat[c.p] == star then
      1 + Moves(pat, s, star, question, Cursor(c.p + 1, c.i, c.p, c.i))
    else if c.last != -1 then
      1 + Moves(pat, s, star, question, Cursor(c.last + 1, c.mark + 1, c.last, c.mark + 1))
    else 0
  }

  ghost function Stars<T>(pat: seq<T>, star: T): nat {
    if pat != [] && pat[0] == star then 1 + Stars(pat[1..], star) else 0
  }

  /** The matcher. `steps` counts loop iterations, the moves of the scan: it is quadratic at worst. */
  method GlobMatch<T(==)>(pat: seq<T>, s: seq<T>, star: T, question: T) returns (r: bool, ghost steps: nat)
    ensures r == Answer(pat, s, star, question)
    ensures steps == Moves(pat, s, star, question, ORIGIN) && steps <= |s| * (|pat| + 1) + |pat|
  {
    var p, i := 0, 0;
    var last, mark := -1, 0;
    steps := 0;
    while i < |s|
      invariant CursorOk(pat, s, Cursor(p, i, last, mark))
      invariant Answer(pat, s, star, question) == Scan(pat, s, star, question, Cursor(p, i, last, mark))
      invariant steps + Moves(pat, s, star, question, Cursor(p, i, last, mark)) == Moves(pat, s, star, question, ORIGIN)
      invariant steps <= mark * (|pat| + 1) + p
      decreases |s| - mark, |pat| - p
    {
      ghost var mark0 := mark;
      if p < |pat| && (pat[p] == question || pat[p] == s[i]) {
        p := p + 1;
        i := i + 1;
      } else if p < |pat| && pat[p] == star {
        last := p;
        mark := i;
        p := p + 1;
      } else if last != -1 {
        mark := mark + 1;
        i := mark;
        p := last + 1;
      } else {
        MulMono(mark, |s|, |pat| + 1);
        return false, steps;
      }
      MulMono(mark0, mark, |pat| + 1);
      steps := steps + 1;
    }
    MulMono(mark, |s|, |pat| + 1);
    while p < |pat| && pat[p] == star
      invariant p <= |pat|
      invariant AllStars(pat[p..], star) == Answer(pat, s, star, question)
      invariant steps + Stars(pat[p..], star) == Moves(pat, s, star, question, ORIGIN)
      invariant steps <= |s| * (|pat| + 1) + p
    {
      p := p + 1;
      steps := steps + 1;
    }
    r := p == |pat|;
  }

  lemma MulMono(a: nat, b: nat, k: nat)
    requires a <= b
    ensures a * k <= b * k
    ensures a < b ==> a * k + k <= b * k
  {
    assert b * k == a * k + (b - a) * k;
    if a < b { assert (b - a) * k == (b - a - 1) * k + k; }
  }

  // ---------- what the scan answers ----------

  lemma {:induction false} StarsMatchEmpty<T>(pat: seq<T>, star: T, question: T)
    ensures Matches(pat, [], star, question) <==> AllStars(pat, star)
  {
    if pat != [] && pat[0] == star {
      StarsMatchEmpty(pat[1..], star, question);
      assert forall k | 1 <= k < |pat| :: pat[k] == pat[1..][k - 1];
    }
  }

  /** The scan passed a star at `last`. */
  predicate StarAt<T(==)>(pat: seq<T>, star: T, last: int) {
    last == -1 || (0 <= last < |pat| && pat[last] == star)
  }

  /** An accepted subject matches, from the pointers or from the mark: no false positives. */
  lemma {:induction false} ScanSound<T>(pat: seq<T>, s: seq<T>, star: T, question: T, c: Cursor)
    requires CursorOk(pat, s, c) && StarAt(pat, star, c.last)
    requires Scan(pat, s, star, question, c)
    ensures || Matches(pat[c.p..], s[c.i..], star, question)
            || (c.last != -1 && Matches(pat[c.last..], s[c.mark..], star, question))
    decreases |s| - c.mark, |pat| - c.p
  {
    if c.i == |s| {
      StarsMatchEmpty(pat[c.p..], star, question);
      assert s[c.i..] == [];
    } else if c.p < |pat| && (pat[c.p] == question || pat[c.p] == s[c.i]) {
      ScanSound(pat, s, star, question, c.(p := c.p + 1, i := c.i + 1));
      assert pat[c.p..][1..] == pat[c.p + 1..] && s[c.i..][1..] == s[c.i + 1..];
      if Matches(pat[c.p + 1..], s[c.i + 1..], star, question) {
        assert s[c.i..] != [];
        if pat[c.p] == star { assert Matches(pat[c.p..], s[c.i + 1..], star, question); }
      }
    } else if c.p < |pat| && pat[c.p] == star {
      ScanSound(pat, s, star, question, Cursor(c.p + 1, c.i, c.p, c.i));
      assert pat[c.p..][1..] == pat[c.p + 1..];
    } else {
      ScanSound(pat, s, star, question, Cursor(c.last + 1, c.mark + 1, c.last, c.mark + 1));
      assert pat[c.last..][1..] == pat[c.last + 1..] && s[c.mark..][1..] == s[c.mark + 1..];
    }
  }

  /** A star-free head of the pattern takes exactly its length of the subject. */
  lemma {:induction false} HeadTakesItsLength<T>(head: seq<T>, rest: seq<T>, s: seq<T>, star: T, question: T)
    requires star !in head && Matches(head + rest, s, star, question)
    ensures |head| <= |s| && Matches(rest, s[|head|..], star, question)
  {
    if head == [] {
      assert head + rest == rest && s[0..] == s;
    } else {
      assert (head + rest)[0] == head[0] && (head + rest)[1..] == head[1..] + rest;
      HeadTakesItsLength(head[1..], rest, s[1..], star, question);
      assert s[1..][|head| - 1..] == s[|head|..];
    }
  }

  /** A pattern that begins with a star may begin its match earlier. */
  lemma {:induction false} StarReachesBack<T>(pat: seq<T>, s: seq<T>, i: nat, j: nat, star: T, question: T)
    requires pat != [] && pat[0] == star && i <= j <= |s|
    requires Matches(pat, s[j..], star, question)
    ensures Matches(pat, s[i..], star, question)
    decreases j - i
  {
    if i < j {
      StarReachesBack(pat, s, i + 1, j, star, question);
      assert s[i..][1..] == s[i + 1..];
    }
  }

  /** A leading star gives up some prefix of the subject. */
  lemma {:induction false} StarTakesPrefix<T>(pat: seq<T>, s: seq<T>, i: nat, star: T, question: T) returns (k: nat)
    requires pat != [] && pat[0] == star && i <= |s|
    requires Matches(pat, s[i..], star, question)
    ensures i <= k <= |s| && Matches(pat[1..], s[k..], star, question)
    decreases |s| - i
  {
    if Matches(pat[1..], s[i..], star, question) {
      k := i;
    } else {
      assert s[i..][1..] == s[i + 1..];
      k := StarTakesPrefix(pat, s, i + 1, star, question);
    }
  }

  /** Since the last star, the pattern read is star-free and as long as the subject read. */
  predicate Aligned<T(==)>(pat: seq<T>, s: seq<T>, star: T, c: Cursor)
    requires CursorOk(pat, s, c)
  {
    c.last != -1 ==>
      && c.last < c.p && pat[c.last] == star && star !in pat[c.last + 1..c.p]
      && c.p - c.last - 1 == c.i - c.mark
  }

  /** What still has to match from a cursor. */
  predicate Pending<T(==)>(pat: seq<T>, s: seq<T>, star: T, question: T, c: Cursor)
    requires CursorOk(pat, s, c)
  {
    if c.last == -1 then Matches(pat[c.p..], s[c.i..], star, question)
    else Matches(pat[c.last..], s[c.mark..], star, question)
  }

  /** The rest of the pattern from a position where the last star's match was begun at k. */
  lemma AfterSegment<T>(pat: seq<T>, s: seq<T>, star: T, question: T, c: Cursor, k: nat)
    requires CursorOk(pat, s, c) && Aligned(pat, s, star, c) && c.last != -1 && k <= |s|
    requires Matches(pat[c.last + 1..], s[k..], star, question)
    ensures k + (c.i - c.mark) <= |s|
    ensures Matches(pat[c.p..], s[k + (c.i - c.mark)..], star, question)
  {
    var head := pat[c.last + 1..c.p];
    assert pat[c.last + 1..] == head + pat[c.p..];
    HeadTakesItsLength(head, pat[c.p..], s[k..], star, question);
    assert s[k..][|head|..] == s[k + |head|..];
  }

  /** Meeting the next star, an earlier match of the last one carries over to here. */
  lemma NextStar<T>(pat: seq<T>, s: seq<T>, star: T, question: T, c: Cursor)
    requires CursorOk(pat, s, c) && Aligned(pat, s, star, c) && Pending(pat, s, star, question, c)
    requires c.p < |pat| && pat[c.p] == star
    ensures Matches(pat[c.p..], s[c.i..], star, question)
  {
    if c.last != -1 {
      var k := StarTakesPrefix(pat[c.last..], s, c.mark, star, question);
      assert pat[c.last..][1..] == pat[c.last + 1..];
      AfterSegment(pat, s, star, question, c, k);
      StarReachesBack(pat[c.p..], s, c.i, k + (c.i - c.mark), star, question);
    }
  }

  /** On a mismatch the last star has to take one more element. */
  lemma Backtrack<T>(pat: seq<T>, s: seq<T>, star: T, question: T, c: Cursor)
    requires CursorOk(pat, s, c) && Aligned(pat, s, star, c) && Pending(pat, s, star, question, c)
    requires c.i < |s| && c.p < |pat| ==> pat[c.p] != question && pat[c.p] != star && pat[c.p] != s[c.i]
    requires c.i < |s|
    ensures c.last != -1 && Matches(pat[c.last..], s[c.mark + 1..], star, question)
  {
    assert !Matches(pat[c.p..], s[c.i..], star, question);
    if Matches(pat[c.last + 1..], s[c.mark..], star, question) {
      AfterSegment(pat, s, star, question, c, c.mark);
    }
    assert pat[c.last..][1..] == pat[c.last + 1..] && s[c.mark..][1..] == s[c.mark + 1..];
  }

  /** On a subject without the star element the scan misses no match. */
  lemma {:induction false} ScanComplete<T>(pat: seq<T>, s: seq<T>, star: T, question: T, c: Cursor)
    requires star != question && star !in s
    requires CursorOk(pat, s, c) && Aligned(pat, s, star, c) && Pending(pat, s, star, question, c)
    ensures Scan(pat, s, star, question, c)
    decreases |s| - c.mark, |pat| - c.p
  {
    if c.i == |s| {
      assert s[c.i..] == [];
      if c.last != -1 {
        var k := StarTakesPrefix(pat[c.last..], s, c.mark, star, question);
        assert pat[c.last..][1..] == pat[c.last + 1..];
        AfterSegment(pat, s, star, question, c, k);
      }
      StarsMatchEmpty(pat[c.p..], star, question);
    } else if c.p < |pat| && (pat[c.p] == question || pat[c.p] == s[c.i]) {
      assert pat[c.p..][1..] == pat[c.p + 1..] && s[c.i..][1..] == s[c.i + 1..];
      assert c.last != -1 ==> pat[c.last + 1..c.p + 1] == pat[c.last + 1..c.p] + [pat[c.p]];
      ScanComplete(pat, s, star, question, c.(p := c.p + 1, i := c.i + 1));
    } else if c.p < |pat| && pat[c.p] == star {
      NextStar(pat, s, star, question, c);
      ScanComplete(pat, s, star, question, Cursor(c.p + 1, c.i, c.p, c.i));
    } else {
      Backtrack(pat, s, star, question, c);
      ScanComplete(pat, s, star, question, Cursor(c.last + 1, c.mark + 1, c.last, c.mark + 1));
    }
  }

  // ---------- the theorems ----------

  /** Whatever the matcher accepts does match. */
  lemma AnswerSound<T>(pat: seq<T>, s: seq<T>, star: T, question: T)
    requires Answer(pat, s, star, question)
    ensures Matches(pat, s, star, question)
  {
    ScanSound(pat, s, star, question, ORIGIN);
    assert pat[0..] == pat && s[0..] == s;
  }

  /** On star-free subjects the matcher is the glob relation. */
  lemma AnswerIsMatches<T>(pat: seq<T>, s: seq<T>, star: T, question: T)
    requires star != question && star !in s
    ensures Answer(pat, s, star, question) <==> Matches(pat, s, star, question)
  {
    if Matches(pat, s, star, question) {
      assert pat[0..] == pat && s[0..] == s;
      ScanComplete(pat, s, star, question, ORIGIN);
    } else if Answer(pat, s, star, question) {
      AnswerSound(pat, s, star, question);
    }
  }

  /** A pattern read literally matches itself in front of whatever matches behind it. */
  lemma {:induction false} LiteralHead<T>(u: seq<T>, pat: seq<T>, s: seq<T>, star: T, question: T)
    requires Matches(pat, s, star, question)
    ensures Matches(u + pat, u + s, star, question)
  {
    if u == [] {
      assert u + pat == pat && u + s == s;
    } else {
      LiteralHead(u[1..], pat, s, star, question);
      assert (u + pat)[1..] == u[1..] + pat && (u + s)[1..] == u[1..] + s;
      if u[0] == star { assert Matches(u + pat, (u + s)[1..], star, question); }
    }
  }

  /** With no star left in the pattern and none to return to, the lengths must agree. */
  lemma {:induction false} LengthsMustAgree<T>(pat: seq<T>, s: seq<T>, star: T, question: T, c: Cursor)
    requires CursorOk(pat, s, c) && c.last == -1 && star !in pat[c.p..]
    requires |pat| - c.p > |s| - c.i
    ensures !Scan(pat, s, star, question, c)
    decreases |pat| - c.p
  {
    assert pat[c.p] == pat[c.p..][0];
    if c.i < |s| && (pat[c.p] == question || pat[c.p] == s[c.i]) {
      assert forall x | x in pat[c.p + 1..] :: x in pat[c.p..];
      LengthsMustAgree(pat, s, star, question, c.(p := c.p + 1, i := c.i + 1));
    }
  }

  /** Equal elements are taken one by one, stars included, without setting the mark. */
  lemma {:induction false} ReadsLiterally<T>(pat: seq<T>, s: seq<T>, star: T, question: T, k: nat, n: nat)
    requires k <= n <= |s| && n <= |pat| && (forall j | 0 <= j < n :: pat[j] == s[j])
    ensures Scan(pat, s, star, question, Cursor(k, k, -1, 0)) == Scan(pat, s, star, question, Cursor(n, n, -1, 0))
    decreases n - k
  {
    if k < n { ReadsLiterally(pat, s, star, question, k + 1, n); }
  }

  lemma {:induction false} LastStar<T>(s: seq<T>, star: T) returns (k: nat)
    requires star in s
    ensures k < |s| && s[k] == star && star !in s[k + 1..]
  {
    k := |s| - 1;
    if s[k] == star {
      assert s[k + 1..] == [];
    } else {
      assert s == s[..k] + [s[k]];
      k := LastStar(s[..k], star);
      assert s[k + 1..] == s[..|s| - 1][k + 1..] + [s[|s| - 1]];
    }
  }

  /** On a subject that holds the star element, the pattern `s[..k] * ? s[k+1..]`, with k the
      last star, matches but is refused: the star is read as a literal and never returned to. */
  lemma StarSubjectMissed<T>(s: seq<T>, star: T, question: T) returns (pat: seq<T>)
    requires star != question && star in s
    ensures Matches(pat, s, star, question) && !Answer(pat, s, star, question)
  {
    var k := LastStar(s, star);
    var tail := s[k + 1..];
    var gap := [question] + tail;
    pat := s[..k] + ([star] + gap);
    LiteralHead(tail, [], [], star, question);
    assert tail + [] == tail;
    assert gap[1..] == tail && s[k..][1..] == tail && ([star] + gap)[1..] == gap;
    assert Matches(gap, s[k..], star, question);
    LiteralHead(s[..k], [star] + gap, s[k..], star, question);
    assert s[..k] + s[k..] == s;
    ReadsLiterally(pat, s, star, question, 0, k + 1);
    assert pat[k + 1..] == gap;
    LengthsMustAgree(pat, s, star, question, Cursor(k + 1, k + 1, -1, 0));
  }

  /** The matcher agrees with the glob relation on every pattern exactly for the subjects
      that do not contain the star element. */
  lemma AgreesIffStarFree<T(!new)>(s: seq<T>, star: T, question: T)
    requires star != question
    ensures (forall pat: seq<T> :: Answer(pat, s, star, question) <==> Matches(pat, s, star, question))
       <==> star !in s
  {
    if star !in s {
      forall pat: seq<T> ensures Answer(pat, s, star, question) <==> Matches(pat, s, star, question) {
        AnswerIsMatches(pat, s, star, question);
      }
    } else {
      var pat := StarSubjectMissed(s, star, question);
    }
  }

  // ---------- only equality matters ----------

  function Map<T, U>(f: T -> U, s: seq<T>): (r: seq<U>)
    ensures |r| == |s| && forall k | 0 <= k < |s| :: r[k] == f(s[k])
  {
    seq(|s|, k requires 0 <= k < |s| => f(s[k]))
  }

  ghost predicate Injective<T(!new), U>(f: T -> U) {
    forall x, y :: f(x) == f(y) ==> x == y
  }

  /** Re-encoding pattern and subject element by element does not change the answer. */
  lemma {:induction false} ScanReencoded<T(!new), U>(pat: seq<T>, s: seq<T>, star: T, question: T, c: Cursor, f: T -> U)
    requires CursorOk(pat, s, c) && Injective(f)
    ensures Scan(Map(f, pat), Map(f, s), f(star), f(question), c) == Scan(pat, s, star, question, c)
    decreases |s| - c.mark, |pat| - c.p
  {
    if c.i == |s| {
      assert Map(f, pat)[c.p..] == Map(f, pat[c.p..]);
    } else if c.p < |pat| && (pat[c.p] == question || pat[c.p] == s[c.i]) {
      ScanReencoded(pat, s, star, question, c.(p := c.p + 1, i := c.i + 1), f);
    } else if c.p < |pat| && pat[c.p] == star {
      ScanReencoded(pat, s, star, question, Cursor(c.p + 1, c.i, c.p, c.i), f);
    } else if c.last != -1 {
      ScanReencoded(pat, s, star, question, Cursor(c.last + 1, c.mark + 1, c.last, c.mark + 1), f);
    }
  }
}
