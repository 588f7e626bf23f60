/** The follow cursor of the audit log: each poll reports the complete lines appended since
    the last one. The log's bytes are a string; `parse` trims and parses one line. */
module AuditCursor {
  import opened Common

  datatype Event = Event(ts: nat, kind: string, path: Option<string>, peer: Option<string>)

  datatype Filter = Filter(path: Option<string>, peer: Option<string>, since: Option<nat>, kinds: seq<string>)

  predicate Selects(f: Filter, e: Event) {
    && (f.path.Some? ==> e.path == f.path)
    && (f.peer.Some? ==> e.peer.Some? && f.peer.value <= e.peer.value)
    && (f.since.Some? ==> e.ts >= f.since.value)
    && (f.kinds != [] ==> e.kind in f.kinds)
  }

  const ANY := Filter(None, None, None, [])

  /** The filter's laws, which determine it: without a condition it selects every event, and each condition
      added narrows the selection to the events that meet it. */
  lemma FilterLaws(f: Filter, e: Event, s: string, since: nat, kinds: seq<string>)
    ensures Selects(ANY, e)
    ensures f.path.None? ==> (Selects(f.(path := Some(s)), e) <==> Selects(f, e) && e.path == Some(s))
    ensures f.peer.None? ==>
              (Selects(f.(peer := Some(s)), e) <==>
                 Selects(f, e) && exists rest :: e.peer == Some(s + rest))
    ensures f.since.None? ==> (Selects(f.(since := Some(since)), e) <==> Selects(f, e) && e.ts >= since)
    ensures f.kinds == [] && kinds != [] ==> (Selects(f.(kinds := kinds), e) <==> Selects(f, e) && e.kind in kinds)
  {
    if e.peer.Some? && s <= e.peer.value {
      var rest := e.peer.value[|s|..];
      assert e.peer.value == s + rest;
    }
  }

  // ---------- lines ----------

  /** Length of the first line with its newline; 0 when no line is complete. */
  function FirstLine(s: string): (n: nat)
    ensures n <= |s|
  {
    if s == "" then 0
    else if s[0] == '\n' then 1
    else if FirstLine(s[1..]) == 0 then 0
    else FirstLine(s[1..]) + 1
  }

  lemma {:induction false} FirstLineMeaning(s: string)
    ensures FirstLine(s) == 0 <==> '\n' !in s
    ensures FirstLine(s) > 0 ==> s[FirstLine(s) - 1] == '\n'
  {
    if s != "" {
      FirstLineMeaning(s[1..]);
      assert s == [s[0]] + s[1..];
    }
  }

  /** What one line contributes. */
  function Report(line: string, parse: string -> Option<Event>, f: Filter): seq<Event> {
    if parse(line).Some? && Selects(f, parse(line).value) then [parse(line).value] else []
  }

  /** The selected events of all complete lines, in order. */
  function Events(s: string, parse: string -> Option<Event>, f: Filter): seq<Event>
    decreases |s|
  {
    var n := FirstLine(s);
    if n == 0 then [] else Report(s[..n], parse, f) + Events(s[n..], parse, f)
  }

  /** Length of the complete lines. */
  function Complete(s: string): (n: nat)
    ensures n <= |s|
    decreases |s|
  {
    var n := FirstLine(s);
    if n == 0 then 0 else n + Complete(s[n..])
  }

  lemma {:induction false} CompleteMeaning(s: string)
    ensures Complete(s) > 0 ==> s[Complete(s) - 1] == '\n'
    ensures '\n' !in s[Complete(s)..]
    decreases |s|
  {
    var n := FirstLine(s);
    FirstLineMeaning(s);
    if n == 0 {
      assert s[0..] == s;
    } else {
      CompleteMeaning(s[n..]);
      var m := Complete(s[n..]);
      assert s[n..][m..] == s[n + m..];
      assert m > 0 ==> s[n..][m - 1] == s[n + m - 1];
    }
  }

  // ---------- line by line ----------

  /** One line: a newline at its end and nowhere else. */
  predicate IsLine(l: string) {
    l != "" && forall i :: 0 <= i < |l| ==> (l[i] == '\n' <==> i == |l| - 1)
  }

  function Joined(lines: seq<string>): string {
    if lines == [] then "" else Joined(lines[..|lines| - 1]) + lines[|lines| - 1]
  }

  /** `lines` are the newline-delimited segments of `s`. */
  ghost predicate LinesOf(s: string, lines: seq<string>) {
    s == Joined(lines) && AllLines(lines)
  }

  ghost predicate AllLines(lines: seq<string>) { forall i :: 0 <= i < |lines| ==> IsLine(lines[i]) }

  predicate Reported(l: string, parse: string -> Option<Event>, f: Filter) {
    parse(l).Some? && Selects(f, parse(l).value)
  }

  function Parsed(l: string, parse: string -> Option<Event>): Event {
    match parse(l)
    case Some(e) => e
    case None => Event(0, "", None, None)
  }

  function Keeping(parse: string -> Option<Event>, f: Filter): string -> bool { l => Reported(l, parse, f) }

  function Parsing(parse: string -> Option<Event>): string -> Event { l => Parsed(l, parse) }

  /** `out` holds the event of every line that parses to one the filter selects, in order and one each. */
  ghost predicate ReportOf(lines: seq<string>, parse: string -> Option<Event>, f: Filter, out: seq<Event>) {
    exists at :: Picks(lines, Keeping(parse, f), Parsing(parse), out, at)
  }

  lemma {:induction false} LineIsFirst(l: string)
    requires IsLine(l)
    ensures FirstLine(l) == |l|
  {
    if l[0] != '\n' { LineIsFirst(l[1..]); }
  }

  /** One complete line contributes its event if it parses and the filter selects it, and nothing else. */
  lemma LineReports(l: string, parse: string -> Option<Event>, f: Filter)
    requires IsLine(l)
    ensures Complete(l) == |l|
    ensures Events(l, parse, f) == if Reported(l, parse, f) then [Parsed(l, parse)] else []
  {
    LineIsFirst(l);
    assert l[|l|..] == "" && l[..|l|] == l;
  }

  /** `s` is complete, and contributes what its lines do. */
  ghost predicate Covers(lines: seq<string>, s: string, parse: string -> Option<Event>, f: Filter) {
    Complete(s) == |s| && ReportOf(lines, parse, f, Events(s, parse, f))
  }

  /** Whole lines report line by line. */
  lemma {:induction false} LinesReport(lines: seq<string>, parse: string -> Option<Event>, f: Filter)
    requires AllLines(lines)
    ensures Covers(lines, Joined(lines), parse, f)
  {
    if lines == [] {
      NoReport(lines, Joined(lines), parse, f);
    } else {
      var front, l := lines[..|lines| - 1], lines[|lines| - 1];
      FrontLines(lines);
      LastLine(lines);
      LinesReport(front, parse, f);
      NextLine(front, l, Joined(front), parse, f);
    }
  }

  lemma NoReport(lines: seq<string>, s: string, parse: string -> Option<Event>, f: Filter)
    requires lines == [] && s == ""
    ensures Covers(lines, s, parse, f)
  {
    PickNone(Keeping(parse, f), Parsing(parse));
  }

  lemma FrontLines(lines: seq<string>)
    requires AllLines(lines) && lines != []
    ensures AllLines(lines[..|lines| - 1]) && IsLine(lines[|lines| - 1])
  {
    var front := lines[..|lines| - 1];
    forall i | 0 <= i < |front| ensures IsLine(front[i]) { assert front[i] == lines[i]; }
  }

  lemma LastLine(lines: seq<string>)
    requires lines != []
    ensures lines[..|lines| - 1] + [lines[|lines| - 1]] == lines
  {
  }

  lemma NextLine(lines: seq<string>, l: string, x: string, parse: string -> Option<Event>, f: Filter)
    requires Covers(lines, x, parse, f) && IsLine(l)
    ensures Covers(lines + [l], x + l, parse, f)
  {
    LineReports(l, parse, f);
    WholeLinesFirst(x, l, parse, f);
    NextReport(lines, l, parse, f, Events(x, parse, f), Events(l, parse, f));
  }

  lemma NextReport(lines: seq<string>, l: string, parse: string -> Option<Event>, f: Filter, out: seq<Event>,
                   more: seq<Event>)
    requires ReportOf(lines, parse, f, out) && more == if Reported(l, parse, f) then [Parsed(l, parse)] else []
    ensures ReportOf(lines + [l], parse, f, out + more)
  {
    var at :| Picks(lines, Keeping(parse, f), Parsing(parse), out, at);
    PickNext(lines, l, Keeping(parse, f), Parsing(parse), out, at);
    Assoc(out, [], []);
  }

  /** Text made of whole lines can be cut into them. */
  lemma {:induction false} Cut(s: string) returns (lines: seq<string>)
    requires Complete(s) == |s|
    ensures LinesOf(s, lines)
    decreases |s|
  {
    var n := FirstLine(s);
    if n == 0 {
      lines := [];
    } else {
      var rest := Cut(s[n..]);
      FirstIsLine(s);
      assert s == s[..n] + s[n..];
      Prefixed(s[..n], s[n..], rest);
      lines := [s[..n]] + rest;
    }
  }

  lemma Prefixed(l: string, s: string, rest: seq<string>)
    requires IsLine(l) && LinesOf(s, rest)
    ensures LinesOf(l + s, [l] + rest)
  {
    JoinedFront(l, rest);
    var lines := [l] + rest;
    forall i | 0 <= i < |lines| ensures IsLine(lines[i]) {
      if i > 0 { assert lines[i] == rest[i - 1]; }
    }
  }

  lemma {:induction false} FirstIsLine(s: string)
    requires FirstLine(s) > 0
    ensures IsLine(s[..FirstLine(s)])
  {
    if s[0] != '\n' {
      FirstIsLine(s[1..]);
      var n := FirstLine(s);
      assert s[..n] == [s[0]] + s[1..][..n - 1];
    }
  }

  lemma {:induction false} JoinedFront(l: string, rest: seq<string>)
    ensures Joined([l] + rest) == l + Joined(rest)
    decreases |rest|
  {
    if rest == [] {
      assert [l] + rest == [l] && Joined([l][..0]) == "";
    } else {
      var n := |rest| - 1;
      JoinedFront(l, rest[..n]);
      assert ([l] + rest)[..n + 1] == [l] + rest[..n];
    }
  }

  /** There is one way to cut it, so the report of text is determined line by line. */
  lemma ReportDetermined(lines: seq<string>, parse: string -> Option<Event>, f: Filter, a: seq<Event>, b: seq<Event>)
    requires ReportOf(lines, parse, f, a) && ReportOf(lines, parse, f, b)
    ensures a == b
  {
    var i :| Picks(lines, Keeping(parse, f), Parsing(parse), a, i);
    var k :| Picks(lines, Keeping(parse, f), Parsing(parse), b, k);
    PicksUnique(lines, Keeping(parse, f), Parsing(parse), a, i, b, k);
  }

  // ---------- one poll ----------

  /** What a poll at `from` answers. `log` is absent when the file cannot be opened. */
  function Polled(log: Option<string>, from: nat, utf8: string -> bool,
                  parse: string -> Option<Event>, f: Filter): (seq<Event>, nat) {
    if log.None? then ([], 0)
    else
      var start := if from > |log.value| then |log.value| else from;
      var tail := log.value[start..];
      if utf8(tail) then (Events(tail, parse, f), start + Complete(tail)) else ([], |log.value|)
  }

  lemma Assoc(a: seq<Event>, b: seq<Event>, c: seq<Event>)
    ensures a + (b + c) == (a + b) + c && a + [] == a && [] + a == a
  {}

  /** One pass over the lines of the tail, stopping at an incomplete one. */
  method ReadLines(tail: string, parse: string -> Option<Event>, f: Filter)
    returns (out: seq<Event>, used: nat)
    ensures out == Events(tail, parse, f) && used == Complete(tail)
  {
    out, used := [], 0;
    var rest := tail;
    Assoc(Events(tail, parse, f), [], []);
    while FirstLine(rest) > 0
      invariant out + Events(rest, parse, f) == Events(tail, parse, f)
      invariant used + Complete(rest) == Complete(tail)
      decreases |rest|
    {
      var n := FirstLine(rest);
      var line := rest[..n];
      Assoc(out, Report(line, parse, f), Events(rest[n..], parse, f));
      used := used + |line|;
      var e := parse(line);
      if e.Some? && Selects(f, e.value) { out := out + [e.value]; }
      rest := rest[n..];
    }
    Assoc(out, [], []);
  }

  method ReadSinceOffset(log: Option<string>, from: nat, utf8: string -> bool,
                         parse: string -> Option<Event>, f: Filter)
    returns (out: seq<Event>, consumed: nat)
    ensures (out, consumed) == Polled(log, from, utf8, parse, f)
  {
    if log.None? { return [], 0; }
    var start := if from > |log.value| then |log.value| else from;
    var tail := log.value[start..];
    if !utf8(tail) { return [], |log.value|; }
    var used;
    out, used := ReadLines(tail, parse, f);
    consumed := start + used;
  }

  /** A poll answers the complete lines of its tail exactly when the tail can be decoded, or
      had nothing to report and no line left open. */
  lemma PollIsExact(log: string, from: nat, utf8: string -> bool, parse: string -> Option<Event>, f: Filter)
    requires from <= |log|
    ensures Polled(Some(log), from, utf8, parse, f)
              == (Events(log[from..], parse, f), from + Complete(log[from..]))
       <==> utf8(log[from..])
            || (Events(log[from..], parse, f) == [] && Complete(log[from..]) == |log| - from)
  {}

  // ---------- appends ----------

  /** Appended text leaves the earlier lines as they are. */
  lemma {:induction false} FirstLineStable(s: string, more: string)
    requires FirstLine(s) > 0
    ensures FirstLine(s + more) == FirstLine(s)
  {
    assert (s + more)[1..] == s[1..] + more;
    if s[0] != '\n' { FirstLineStable(s[1..], more); }
  }

  lemma ConsSlices(x: string, y: string, n: nat)
    requires n <= |x|
    ensures (x + y)[n..] == x[n..] + y && (x + y)[..n] == x[..n]
  {}

  /** Text made of whole lines contributes its events and then the rest its own. */
  lemma {:induction false} WholeLinesFirst(x: string, y: string, parse: string -> Option<Event>, f: Filter)
    requires Complete(x) == |x|
    ensures Complete(x + y) == |x| + Complete(y)
    ensures Events(x + y, parse, f) == Events(x, parse, f) + Events(y, parse, f)
    decreases |x|
  {
    var n := FirstLine(x);
    if n == 0 {
      assert x + y == y;
      Assoc(Events(y, parse, f), [], []);
    } else {
      FirstLineStable(x, y);
      ConsSlices(x, y, n);
      WholeLinesFirst(x[n..], y, parse, f);
      Assoc(Report(x[..n], parse, f), Events(x[n..], parse, f), Events(y, parse, f));
    }
  }

  lemma FirstLineOfPrefix(y: string, k: nat)
    requires 0 < FirstLine(y) <= k <= |y|
    ensures FirstLine(y[..k]) == FirstLine(y)
  {
    if y[0] != '\n' {
      FirstLineOfPrefix(y[1..], k - 1);
      assert y[..k][1..] == y[1..][..k - 1];
    }
  }

  lemma CutSlices(y: string, n: nat, m: nat)
    requires n + m <= |y|
    ensures y[..n + m][n..] == y[n..][..m] && y[..n + m][..n] == y[..n]
  {}

  /** The incomplete line at the end contributes nothing. */
  lemma {:induction false} OnlyWholeLinesCount(y: string, parse: string -> Option<Event>, f: Filter)
    ensures Complete(y[..Complete(y)]) == Complete(y)
    ensures Events(y[..Complete(y)], parse, f) == Events(y, parse, f)
    decreases |y|
  {
    var n := FirstLine(y);
    if n > 0 {
      var m := Complete(y[n..]);
      FirstLineOfPrefix(y, n + m);
      OnlyWholeLinesCount(y[n..], parse, f);
      CutSlices(y, n, m);
    }
  }

  // ---------- following ----------

  /** A follower: the log, the cursor, and all it has reported. */
  datatype Session = Session(log: string, cursor: nat, reported: seq<Event>)

  datatype Step = Append(chunk: string) | Poll

  /** The log only grows; a poll reads what it can decode. */
  predicate Enabled(s: Session, st: Step, utf8: string -> bool) {
    st.Poll? && s.cursor <= |s.log| ==> utf8(s.log[s.cursor..])
  }

  function Do(s: Session, st: Step, utf8: string -> bool, parse: string -> Option<Event>, f: Filter): Session {
    match st
    case Append(chunk) => s.(log := s.log + chunk)
    case Poll =>
      var (out, c) := Polled(Some(s.log), s.cursor, utf8, parse, f);
      s.(cursor := c, reported := s.reported + out)
  }

  predicate IsRun(s: Session, steps: seq<Step>, utf8: string -> bool, parse: string -> Option<Event>, f: Filter)
    decreases |steps|
  {
    steps != [] ==>
      Enabled(s, steps[0], utf8) && IsRun(Do(s, steps[0], utf8, parse, f), steps[1..], utf8, parse, f)
  }

  function Final(s: Session, steps: seq<Step>, utf8: string -> bool,
                 parse: string -> Option<Event>, f: Filter): Session
    decreases |steps|
  {
    if steps == [] then s else Final(Do(s, steps[0], utf8, parse, f), steps[1..], utf8, parse, f)
  }

  /** From `start` to the cursor lie whole lines, and their events are what was reported. */
  predicate Inv(s: Session, start: nat, parse: string -> Option<Event>, f: Filter) {
    UpTo(s.log, start, s.cursor, s.reported, parse, f)
  }

  predicate UpTo(log: string, i: nat, j: nat, reported: seq<Event>, parse: string -> Option<Event>, f: Filter) {
    i <= j <= |log| && Complete(log[i..j]) == j - i && reported == Events(log[i..j], parse, f)
  }

  lemma AppendKeepsInv(s: Session, chunk: string, start: nat, parse: string -> Option<Event>, f: Filter)
    requires Inv(s, start, parse, f)
    ensures Inv(s.(log := s.log + chunk), start, parse, f)
  {
    assert (s.log + chunk)[start..s.cursor] == s.log[start..s.cursor];
  }

  /** A poll from the end of whole lines x, with y unread. */
  lemma ReadOn(x: string, y: string, parse: string -> Option<Event>, f: Filter)
    requires Complete(x) == |x|
    ensures var w := x + y[..Complete(y)];
            Complete(w) == |w| && Events(w, parse, f) == Events(x, parse, f) + Events(y, parse, f)
  {
    OnlyWholeLinesCount(y, parse, f);
    WholeLinesFirst(x, y[..Complete(y)], parse, f);
  }

  lemma PollReads(s: Session, utf8: string -> bool, parse: string -> Option<Event>, f: Filter)
    requires s.cursor <= |s.log| && utf8(s.log[s.cursor..])
    ensures var y := s.log[s.cursor..];
            Do(s, Poll, utf8, parse, f) == Session(s.log, s.cursor + Complete(y), s.reported + Events(y, parse, f))
  {}

  lemma ReadOnLog(log: string, i: nat, j: nat, n: nat, reported: seq<Event>, parse: string -> Option<Event>, f: Filter)
    requires UpTo(log, i, j, reported, parse, f) && n == Complete(log[j..])
    ensures UpTo(log, i, j + n, reported + Events(log[j..], parse, f), parse, f)
  {
    Adjacent(log, i, j, n);
    ReadOn(log[i..j], log[j..], parse, f);
  }

  lemma PollKeepsInv(s: Session, start: nat, utf8: string -> bool, parse: string -> Option<Event>, f: Filter)
    requires Inv(s, start, parse, f) && utf8(s.log[s.cursor..])
    ensures Inv(Do(s, Poll, utf8, parse, f), start, parse, f)
  {
    PollReads(s, utf8, parse, f);
    ReadOnLog(s.log, start, s.cursor, Complete(s.log[s.cursor..]), s.reported, parse, f);
  }

  lemma Adjacent(log: string, i: nat, j: nat, n: nat)
    requires i <= j && j + n <= |log|
    ensures log[i..j] + log[j..][..n] == log[i..j + n] && log[i..j] + log[j..] == log[i..]
    ensures log[j..][n..] == log[j + n..]
  {}

  lemma {:induction false} InvOfRun(s: Session, steps: seq<Step>, start: nat, utf8: string -> bool,
                                    parse: string -> Option<Event>, f: Filter)
    requires Inv(s, start, parse, f) && IsRun(s, steps, utf8, parse, f)
    ensures Inv(Final(s, steps, utf8, parse, f), start, parse, f)
    decreases |steps|
  {
    if steps != [] {
      match steps[0] {
        case Append(chunk) => AppendKeepsInv(s, chunk, start, parse, f);
        case Poll => PollKeepsInv(s, start, utf8, parse, f);
      }
      InvOfRun(Do(s, steps[0], utf8, parse, f), steps[1..], start, utf8, parse, f);
    }
  }

  predicate OnBoundary(log: string, c: nat) {
    c <= |log| && (c == 0 || log[c - 1] == '\n')
  }

  /** Whatever appends and polls happen, a follower that started on a line boundary stands on one, and has
      reported the events of exactly the lines between that parse and are selected, in order and one each. */
  lemma FollowerIsExact(log: string, start: nat, steps: seq<Step>, utf8: string -> bool,
                        parse: string -> Option<Event>, f: Filter)
    requires OnBoundary(log, start) && IsRun(Session(log, start, []), steps, utf8, parse, f)
    ensures var e := Final(Session(log, start, []), steps, utf8, parse, f);
            && start <= e.cursor && OnBoundary(e.log, e.cursor)
            && (exists lines :: LinesOf(e.log[start..e.cursor], lines))
            && forall lines :: LinesOf(e.log[start..e.cursor], lines) ==> ReportOf(lines, parse, f, e.reported)
  {
    var s := Session(log, start, []);
    assert Inv(s, start, parse, f) by { assert log[start..start] == ""; }
    InvOfRun(s, steps, start, utf8, parse, f);
    LogGrows(s, steps, utf8, parse, f);
    var e := Final(s, steps, utf8, parse, f);
    EndsOnBoundary(log, e.log, start, e.cursor);
    ReadByLines(e.log[start..e.cursor], parse, f);
  }

  lemma ReadByLines(s: string, parse: string -> Option<Event>, f: Filter)
    requires Complete(s) == |s|
    ensures exists lines :: LinesOf(s, lines)
    ensures forall lines :: LinesOf(s, lines) ==> ReportOf(lines, parse, f, Events(s, parse, f))
  {
    var cut := Cut(s);
    forall lines | LinesOf(s, lines) ensures ReportOf(lines, parse, f, Events(s, parse, f)) {
      LinesReport(lines, parse, f);
    }
  }

  lemma EndsOnBoundary(log: string, later: string, start: nat, cursor: nat)
    requires log <= later && OnBoundary(log, start) && start <= cursor <= |later|
    requires Complete(later[start..cursor]) == cursor - start
    ensures OnBoundary(later, cursor)
  {
    var x := later[start..cursor];
    CompleteMeaning(x);
    assert |x| > 0 ==> x[|x| - 1] == later[cursor - 1];
  }

  lemma {:induction false} LogGrows(s: Session, steps: seq<Step>, utf8: string -> bool,
                                    parse: string -> Option<Event>, f: Filter)
    ensures s.log <= Final(s, steps, utf8, parse, f).log
    decreases |steps|
  {
    if steps != [] { LogGrows(Do(s, steps[0], utf8, parse, f), steps[1..], utf8, parse, f); }
  }

  /** One more poll brings the report up to all complete lines of the log. */
  lemma PollCatchesUp(s: Session, start: nat, utf8: string -> bool, parse: string -> Option<Event>, f: Filter)
    requires Inv(s, start, parse, f) && utf8(s.log[s.cursor..])
    ensures var e := Do(s, Poll, utf8, parse, f);
            && e.cursor == start + Complete(s.log[start..]) && start <= e.cursor <= |s.log|
            && '\n' !in s.log[e.cursor..]
            && (forall lines :: LinesOf(s.log[start..e.cursor], lines) ==> ReportOf(lines, parse, f, e.reported))
  {
    var e := Do(s, Poll, utf8, parse, f);
    PollReads(s, utf8, parse, f);
    AllRead(s.log, start, s.cursor, parse, f);
    PollKeepsInv(s, start, utf8, parse, f);
    ReadByLines(s.log[start..e.cursor], parse, f);
  }

  lemma AllRead(log: string, i: nat, j: nat, parse: string -> Option<Event>, f: Filter)
    requires i <= j <= |log| && Complete(log[i..j]) == j - i
    ensures Complete(log[i..]) == j - i + Complete(log[j..]) && '\n' !in log[j + Complete(log[j..])..]
  {
    WholeLinesFirst(log[i..j], log[j..], parse, f);
    CompleteMeaning(log[j..]);
    Adjacent(log, i, j, Complete(log[j..]));
  }
}
