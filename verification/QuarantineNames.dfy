/** Names of quarantined copies: percent encoding, the bounded name, recovery of the path.
    Byte strings are strings of characters below 256. */
module QuarantineNames {
  import opened Common
  import opened Timestamps

  predicate IsBytes(s: string) {
    forall k | 0 <= k < |s| :: s[k] as int < 256
  }

  // ---------- percent encoding (section 2.1 of RFC 3986) ----------

  predicate Plain(c: char) {
    'A' <= c <= 'Z' || 'a' <= c <= 'z' || '0' <= c <= '9' || c == '.' || c == '_' || c == '-'
  }

  function HexUpper(n: nat): char
    requires n < 16
  {
    if n < 10 then '0' + n as char else 'A' + (n - 10) as char
  }

  function HexLower(n: nat): char
    requires n < 16
  {
    if n < 10 then '0' + n as char else 'a' + (n - 10) as char
  }

  function HexValue(c: char): Option<nat> {
    if '0' <= c <= '9' then Some(c as int - '0' as int)
    else if 'a' <= c <= 'f' then Some(c as int - 'a' as int + 10)
    else if 'A' <= c <= 'F' then Some(c as int - 'A' as int + 10)
    else None
  }

  const CAPITALS := "ABCDEFGHIJKLMNOPQRSTUVWXYZ"
  const SMALLS := "abcdefghijklmnopqrstuvwxyz"
  const DIGITS := "0123456789"
  const UPPER := "0123456789ABCDEF"
  const LOWER := "0123456789abcdef"

  lemma Capital(c: char)
    ensures c in CAPITALS <==> 'A' <= c <= 'Z'
  {
    if 'A' <= c <= 'Z' { assert CAPITALS[c as int - 65] == c; }
  }

  lemma Small(c: char)
    ensures c in SMALLS <==> 'a' <= c <= 'z'
  {
    if 'a' <= c <= 'z' { assert SMALLS[c as int - 97] == c; }
  }

  lemma Digit(c: char)
    ensures c in DIGITS <==> '0' <= c <= '9'
  {
    if '0' <= c <= '9' { assert DIGITS[c as int - 48] == c; }
  }

  /** The letters, digits and marks that stay as they are. */
  lemma PlainExactly(c: char)
    ensures Plain(c) <==> c in CAPITALS || c in SMALLS || c in DIGITS || c == '.' || c == '_' || c == '-'
  {
    Capital(c);
    Small(c);
    Digit(c);
  }

  /** The digits written are upper case; both cases are read. */
  lemma HexExactly(c: char, v: nat)
    ensures HexValue(c) == Some(v) <==> v < 16 && (c == UPPER[v] || c == LOWER[v])
    ensures v < 16 ==> HexUpper(v) == UPPER[v] && HexLower(v) == LOWER[v]
  {
  }

  function EncodeByte(c: char): string
    requires c as int < 256
  {
    if Plain(c) then [c] else ['%', HexUpper(c as int / 16), HexUpper(c as int % 16)]
  }

  function Encode(s: string): string
    requires IsBytes(s)
  {
    if s == "" then "" else EncodeByte(s[0]) + Encode(s[1..])
  }

  function Decode(s: string): Option<string> {
    if s == "" then Some("")
    else if s[0] == '%' then
      if |s| < 3 || HexValue(s[1]).None? || HexValue(s[2]).None? || Decode(s[3..]).None? then None
      else Some([(16 * HexValue(s[1]).value + HexValue(s[2]).value) as char] + Decode(s[3..]).value)
    else if Decode(s[1..]).None? then None
    else Some([s[0]] + Decode(s[1..]).value)
  }

  lemma {:induction false} EncodeLast(s: string, k: nat)
    requires IsBytes(s) && k < |s|
    ensures Encode(s[..k + 1]) == Encode(s[..k]) + EncodeByte(s[k])
  {
    if k == 0 {
      assert s[..1][1..] == "" && s[..1][0] == s[0];
    } else {
      EncodeLast(s[1..], k - 1);
      assert s[..k + 1][1..] == s[1..][..k] && s[..k][1..] == s[1..][..k - 1];
      var h, m, l := EncodeByte(s[0]), Encode(s[1..][..k - 1]), EncodeByte(s[k]);
      assert h + (m + l) == (h + m) + l;
    }
  }

  method PercentEncode(s: string) returns (out: string)
    requires IsBytes(s)
    ensures out == Encode(s)
  {
    out := "";
    for k := 0 to |s|
      invariant out == Encode(s[..k])
    {
      EncodeLast(s, k);
      if Plain(s[k]) {
        out := out + [s[k]];
      } else {
        out := out + ['%', HexUpper(s[k] as int / 16), HexUpper(s[k] as int % 16)];
      }
    }
    assert s[..|s|] == s;
  }

  function Prepend(head: string, rest: Option<string>): Option<string> {
    if rest.None? then None else Some(head + rest.value)
  }

  lemma PrependTwice(a: string, b: string, rest: Option<string>)
    ensures Prepend(a, Prepend(b, rest)) == Prepend(a + b, rest)
    ensures Prepend("", rest) == rest
  {
    if rest.Some? { assert a + (b + rest.value) == (a + b) + rest.value && "" + rest.value == rest.value; }
  }

  lemma DecodeStep(s: string, i: nat)
    requires i < |s|
    ensures s[i] != '%' ==> Decode(s[i..]) == Prepend([s[i]], Decode(s[i + 1..]))
    ensures s[i] == '%' && i + 3 <= |s| && HexValue(s[i + 1]).Some? && HexValue(s[i + 2]).Some? ==>
              Decode(s[i..]) == Prepend([(16 * HexValue(s[i + 1]).value + HexValue(s[i + 2]).value) as char],
                                        Decode(s[i + 3..]))
    ensures s[i] == '%' && !(i + 3 <= |s| && HexValue(s[i + 1]).Some? && HexValue(s[i + 2]).Some?) ==>
              Decode(s[i..]) == None
  {
    assert s[i..][1..] == s[i + 1..];
    if i + 3 <= |s| { assert s[i..][3..] == s[i + 3..]; }
  }

  /** `utf8` is the check made when the decoded bytes become a path. */
  method PercentDecode(s: string, utf8: string -> bool) returns (r: Option<string>)
    ensures r == if Decode(s).Some? && utf8(Decode(s).value) then Decode(s) else None
  {
    var out := "";
    var i := 0;
    PrependTwice("", "", Decode(s));
    assert s[0..] == s;
    while i < |s|
      invariant i <= |s|
      invariant Decode(s) == Prepend(out, Decode(s[i..]))
    {
      DecodeStep(s, i);
      if s[i] == '%' {
        if i + 3 > |s| { return None; }
        var hi, lo := HexValue(s[i + 1]), HexValue(s[i + 2]);
        if hi.None? || lo.None? { return None; }
        PrependTwice(out, [(16 * hi.value + lo.value) as char], Decode(s[i + 3..]));
        out := out + [(16 * hi.value + lo.value) as char];
        i := i + 3;
      } else {
        PrependTwice(out, [s[i]], Decode(s[i + 1..]));
        out := out + [s[i]];
        i := i + 1;
      }
    }
    assert s[i..] == "" && out + "" == out;
    r := if utf8(out) then Some(out) else None;
  }

  /** Decoding inverts encoding, for every byte string. */
  lemma {:induction false} RoundTrip(s: string)
    requires IsBytes(s)
    ensures Decode(Encode(s)) == Some(s)
  {
    if s != "" {
      RoundTrip(s[1..]);
      var e := Encode(s);
      if Plain(s[0]) {
        assert e[1..] == Encode(s[1..]);
      } else {
        assert e[3..] == Encode(s[1..]);
      }
      assert s == [s[0]] + s[1..];
    }
  }

  lemma EncodeInjective(a: string, b: string)
    requires IsBytes(a) && IsBytes(b) && Encode(a) == Encode(b)
    ensures a == b
  {
    RoundTrip(a);
    RoundTrip(b);
  }

  predicate NameChar(c: char) { Plain(c) || c == '%' }

  lemma {:induction false} EncodedChars(s: string)
    requires IsBytes(s)
    ensures forall k | 0 <= k < |Encode(s)| :: NameChar(Encode(s)[k])
  {
    if s != "" { EncodedChars(s[1..]); }
  }

  // ---------- runs of one character ----------

  /** Some n consecutive characters are c, r of them already read before s. */
  predicate HasRun(s: string, c: char, n: nat, r: nat) {
    r >= n || (s != "" && HasRun(s[1..], c, n, if s[0] == c then r + 1 else 0))
  }

  predicate RunAt(s: string, c: char, k: int, n: nat) {
    0 <= k <= |s| - n && forall j | k <= j < k + n :: s[j] == c
  }

  /** The run is the substring c repeated n times. */
  lemma {:induction false} RunIsSubstring(s: string, c: char, n: nat, r: nat)
    requires r <= n
    ensures HasRun(s, c, n, r) <==> RunAt(s, c, 0, n - r) || exists k :: RunAt(s, c, k, n)
  {
    if r < n && s != "" {
      var t, r' := s[1..], if s[0] == c then r + 1 else 0;
      RunIsSubstring(t, c, n, r');
      assert forall j | 1 <= j < |s| :: s[j] == t[j - 1];
      if HasRun(s, c, n, r) {
        if RunAt(t, c, 0, n - r') {
          if s[0] != c { assert RunAt(s, c, 1, n); }
        } else {
          var k :| RunAt(t, c, k, n);
          assert RunAt(s, c, k + 1, n);
        }
      }
      if RunAt(s, c, 0, n - r) { assert RunAt(t, c, 0, n - r'); }
      if k :| RunAt(s, c, k, n) {
        if k > 0 { assert RunAt(t, c, k - 1, n); } else { assert RunAt(t, c, 0, n - r'); }
      }
    } else if r < n {
      assert !RunAt(s, c, 0, n - r) && forall k :: !RunAt(s, c, k, n);
    } else {
      assert RunAt(s, c, 0, 0);
    }
  }

  /** Encoding keeps the runs of dots and dashes. */
  lemma {:induction false} EncodeKeepsRuns(s: string, c: char, n: nat, r: nat)
    requires IsBytes(s) && (c == '.' || c == '-') && n > 0
    ensures HasRun(Encode(s), c, n, r) <==> HasRun(s, c, n, r)
  {
    if s != "" && r < n {
      EncodeKeepsRuns(s[1..], c, n, if s[0] == c then r + 1 else 0);
      var e, t := Encode(s), Encode(s[1..]);
      if Plain(s[0]) {
        assert e[1..] == t;
      } else {
        assert e[1..][1..] == e[2..] && e[2..][1..] == e[3..] == t;
        assert HasRun(e, c, n, r) == HasRun(e[1..], c, n, 0) == HasRun(e[2..], c, n, 0) == HasRun(t, c, n, 0);
      }
    }
  }

  lemma {:induction false} RunBehind(u: string, v: string, c: char, n: nat, r: nat)
    requires u != "" && c !in u && r < n
    ensures HasRun(u + v, c, n, r) <==> HasRun(v, c, n, 0)
  {
    assert (u + v)[1..] == u[1..] + v;
    if |u| == 1 {
      assert u[1..] + v == v;
    } else {
      RunBehind(u[1..], v, c, n, 0);
    }
  }

  // ---------- the bounded name ----------

  const MAX_ENCODED: nat := 180

  function HexOf(hash: string): string
    requires IsBytes(hash)
  {
    if hash == "" then ""
    else [HexLower(hash[0] as int / 16), HexLower(hash[0] as int % 16)] + HexOf(hash[1..])
  }

  /** `hash` is the hash of the path, of which eight bytes are used. */
  function BoundedName(rel: string, hash: string): string
    requires IsBytes(rel) && IsBytes(hash) && |hash| >= 8
  {
    if |Encode(rel)| <= MAX_ENCODED then Encode(rel)
    else Encode(rel)[..MAX_ENCODED] + ("---" + HexOf(hash[..8]))
  }

  /** A cut of UTF-8 text at n does not split a character. */
  predicate CharBoundary(s: string, n: nat) {
    n == 0 || n == |s| || (n < |s| && !(128 <= s[n] as int < 192))
  }

  method QuarantineName(rel: string, hash: string) returns (name: string)
    requires IsBytes(rel) && IsBytes(hash) && |hash| >= 8
    ensures name == BoundedName(rel, hash)
  {
    var encoded := PercentEncode(rel);
    if |encoded| <= MAX_ENCODED { return encoded; }
    var n: nat := MAX_ENCODED;
    while !CharBoundary(encoded, n)
      invariant n <= MAX_ENCODED
      invariant n < MAX_ENCODED ==> !CharBoundary(encoded, MAX_ENCODED)
      decreases n
    {
      n := n - 1;
    }
    EncodedChars(rel);
    name := encoded[..n] + ("---" + HexOf(hash[..8]));
  }

  function FileName(ms: nat, rel: string, hash: string): string
    requires IsBytes(rel) && IsBytes(hash) && |hash| >= 8
  {
    UtcTimestamp(ms) + ("__" + BoundedName(rel, hash))
  }

  // ---------- recovering the path ----------

  /** What follows the first `__`. */
  function AfterSeparator(name: string): Option<string> {
    if |name| < 2 then None
    else if name[0] == '_' && name[1] == '_' then Some(name[2..])
    else AfterSeparator(name[1..])
  }

  method PathFromName(name: string, utf8: string -> bool) returns (r: Option<string>)
    ensures r == RecoveredPath(name, utf8)
  {
    var rest := AfterSeparator(name);
    if rest.None? || HasRun(rest.value, '-', 3, 0) { return None; }
    r := PercentDecode(rest.value, utf8);
  }

  function RecoveredPath(name: string, utf8: string -> bool): Option<string> {
    var rest := AfterSeparator(name);
    if rest.None? || HasRun(rest.value, '-', 3, 0) then None
    else if Decode(rest.value).Some? && utf8(Decode(rest.value).value) then Decode(rest.value)
    else None
  }

  lemma {:induction false} SeparatorBehind(u: string, v: string)
    requires '_' !in u
    ensures AfterSeparator(u + ("__" + v)) == Some(v)
  {
    var s := u + ("__" + v);
    if u == "" {
      assert s == "__" + v && s[2..] == v;
    } else {
      assert s[0] == u[0] && s[1..] == u[1..] + ("__" + v);
      SeparatorBehind(u[1..], v);
    }
  }

  lemma StampChars(ms: nat)
    ensures forall c | c in UtcTimestamp(ms) :: '0' <= c <= '9' || c == 'T' || c == 'Z'
    ensures UtcTimestamp(ms) != "" && '0' <= UtcTimestamp(ms)[0] <= '9'
  {
    var t := StampOf(ms);
    StampDigits(t, ms / 1000 % 86400, ms % 1000);
  }

  lemma StampDigits(t: Calendar.Date, rem: nat, ms: nat)
    requires Calendar.IsDate(t) && t.y >= 0
    ensures forall c | c in Stamp(t, rem, ms) :: '0' <= c <= '9' || c == 'T' || c == 'Z'
    ensures Stamp(t, rem, ms) != "" && '0' <= Stamp(t, rem, ms)[0] <= '9'
  {
    assert forall c | c in DatePart(t) :: '0' <= c <= '9';
    assert forall c | c in ClockPart(rem, ms) :: '0' <= c <= '9';
    StampBegins(t, rem, ms);
  }

  /** The path comes back exactly, or not at all; and it comes back exactly when its encoding
      is short enough and it holds no `---` that would read as the truncation mark. */
  lemma PathRecovered(ms: nat, rel: string, hash: string, utf8: string -> bool)
    requires IsBytes(rel) && IsBytes(hash) && |hash| >= 8 && utf8(rel)
    ensures RecoveredPath(FileName(ms, rel, hash), utf8) ==
              if |Encode(rel)| <= MAX_ENCODED && !HasRun(rel, '-', 3, 0) then Some(rel) else None
  {
    StampChars(ms);
    SeparatorBehind(UtcTimestamp(ms), BoundedName(rel, hash));
    EncodeKeepsRuns(rel, '-', 3, 0);
    RoundTrip(rel);
    if |Encode(rel)| > MAX_ENCODED {
      var name := BoundedName(rel, hash);
      assert RunAt(name, '-', MAX_ENCODED, 3);
      RunIsSubstring(name, '-', 3, 0);
    }
  }

  // ---------- the name as an id ----------

  predicate ValidId(id: string) {
    && id != "" && |id| <= 255 && id[0] != '.'
    && '/' !in id && '\\' !in id && ':' !in id && '\0' !in id
    && !HasRun(id, '.', 2, 0)
  }

  lemma {:induction false} HexChars(hash: string)
    requires IsBytes(hash)
    ensures |HexOf(hash)| == 2 * |hash|
    ensures forall c | c in HexOf(hash) :: '0' <= c <= '9' || 'a' <= c <= 'f'
  {
    if hash != "" { HexChars(hash[1..]); }
  }

  lemma BoundedChars(rel: string, hash: string)
    requires IsBytes(rel) && IsBytes(hash) && |hash| >= 8
    ensures |BoundedName(rel, hash)| <= 199
    ensures forall c | c in BoundedName(rel, hash) :: NameChar(c)
  {
    EncodedChars(rel);
    HexChars(hash[..8]);
  }

  lemma FileNameChars(ms: nat, rel: string, hash: string)
    requires IsBytes(rel) && IsBytes(hash) && |hash| >= 8
    ensures forall c | c in FileName(ms, rel, hash) :: NameChar(c)
    ensures FileName(ms, rel, hash) != "" && '0' <= FileName(ms, rel, hash)[0] <= '9'
    ensures |FileName(ms, rel, hash)| <= |UtcTimestamp(ms)| + 201
  {
    StampChars(ms);
    BoundedChars(rel, hash);
  }

  lemma NameRun(ms: nat, rel: string, hash: string)
    requires IsBytes(rel) && IsBytes(hash) && |hash| >= 8
    ensures HasRun(FileName(ms, rel, hash), '.', 2, 0) <==> HasRun(BoundedName(rel, hash), '.', 2, 0)
  {
    StampChars(ms);
    var head, name := UtcTimestamp(ms) + "__", BoundedName(rel, hash);
    assert UtcTimestamp(ms) + ("__" + name) == head + name;
    RunBehind(head, name, '.', 2, 0);
  }

  lemma IdOfNameChars(name: string)
    requires forall c | c in name :: NameChar(c)
    requires name != "" && |name| <= 255 && '0' <= name[0] <= '9'
    ensures ValidId(name) <==> !HasRun(name, '.', 2, 0)
  {}

  /** A generated name is an acceptable id exactly when its path part has no `..`; below the
      truncation length that is when the path itself has none. */
  lemma GeneratedIdValid(ms: nat, rel: string, hash: string)
    requires IsBytes(rel) && IsBytes(hash) && |hash| >= 8 && ms < LIMIT
    ensures |FileName(ms, rel, hash)| <= 220
    ensures ValidId(FileName(ms, rel, hash)) <==> !HasRun(BoundedName(rel, hash), '.', 2, 0)
    ensures |Encode(rel)| <= MAX_ENCODED ==>
              (ValidId(FileName(ms, rel, hash)) <==> !HasRun(rel, '.', 2, 0))
    ensures !HasRun(rel, '.', 2, 0) ==> ValidId(FileName(ms, rel, hash))
  {
    FixedWidth(ms);
    var name := FileName(ms, rel, hash);
    FileNameChars(ms, rel, hash);
    IdOfNameChars(name);
    NameRun(ms, rel, hash);
    BoundedRun(rel, hash);
  }

  /** A run of dots in the bounded name comes from the path. */
  lemma BoundedRun(rel: string, hash: string)
    requires IsBytes(rel) && IsBytes(hash) && |hash| >= 8
    ensures HasRun(BoundedName(rel, hash), '.', 2, 0) ==> HasRun(rel, '.', 2, 0)
    ensures |Encode(rel)| <= MAX_ENCODED ==> (HasRun(BoundedName(rel, hash), '.', 2, 0) <==> HasRun(rel, '.', 2, 0))
  {
    EncodeKeepsRuns(rel, '.', 2, 0);
    if |Encode(rel)| > MAX_ENCODED && HasRun(BoundedName(rel, hash), '.', 2, 0) {
      HexChars(hash[..8]);
      RunInFront(Encode(rel), MAX_ENCODED, "---" + HexOf(hash[..8]));
    }
  }

  /** A run of dots in a truncated text with a dot-free tail lies in the text. */
  lemma RunInFront(e: string, n: nat, tail: string)
    requires n <= |e| && '.' !in tail && HasRun(e[..n] + tail, '.', 2, 0)
    ensures HasRun(e, '.', 2, 0)
  {
    var name := e[..n] + tail;
    RunIsSubstring(name, '.', 2, 0);
    var k: int;
    if RunAt(name, '.', 0, 2) { k := 0; } else { k :| RunAt(name, '.', k, 2); }
    assert name[k] == '.' && name[k + 1] == '.';
    assert forall j | n <= j < |name| :: name[j] == tail[j - n];
    assert RunAt(e, '.', k, 2);
    RunIsSubstring(e, '.', 2, 0);
  }

  // ---------- collisions ----------

  lemma {:induction false} HexInjective(a: string, b: string)
    requires IsBytes(a) && IsBytes(b) && |a| == |b| && HexOf(a) == HexOf(b)
    ensures a == b
  {
    if a != "" {
      assert HexOf(a)[0] == HexOf(b)[0] && HexOf(a)[1] == HexOf(b)[1];
      assert HexOf(a)[2..] == HexOf(a[1..]) && HexOf(b)[2..] == HexOf(b[1..]);
      HexInjective(a[1..], b[1..]);
      assert a == [a[0]] + a[1..] && b == [b[0]] + b[1..];
    }
  }

  /** Two paths share a name only when both are truncated at the same prefix and their hashes
      agree on the eight bytes kept. */
  lemma NameCollision(a: string, ha: string, b: string, hb: string)
    requires IsBytes(a) && IsBytes(ha) && |ha| >= 8 && IsBytes(b) && IsBytes(hb) && |hb| >= 8
    requires a != b
    ensures BoundedName(a, ha) == BoundedName(b, hb) <==>
              && |Encode(a)| > MAX_ENCODED && |Encode(b)| > MAX_ENCODED
              && Encode(a)[..MAX_ENCODED] == Encode(b)[..MAX_ENCODED] && ha[..8] == hb[..8]
  {
    HexChars(ha[..8]);
    HexChars(hb[..8]);
    var x, y := BoundedName(a, ha), BoundedName(b, hb);
    if x == y {
      if |Encode(a)| <= MAX_ENCODED {
        EncodeInjective(a, b);
      } else {
        assert x[..MAX_ENCODED] == Encode(a)[..MAX_ENCODED] && y[..MAX_ENCODED] == Encode(b)[..MAX_ENCODED];
        assert x[MAX_ENCODED + 3..] == HexOf(ha[..8]) && y[MAX_ENCODED + 3..] == HexOf(hb[..8]);
        HexInjective(ha[..8], hb[..8]);
      }
    }
  }

  lemma SplitEqual(u: string, v: string, u': string, v': string)
    requires |u| == |u'| && u + v == u' + v'
    ensures u == u' && v == v'
  {
    assert u == (u + v)[..|u|] && u' == (u' + v')[..|u|];
    assert v == (u + v)[|u|..] && v' == (u' + v')[|u|..];
  }

  /** Copies get one file name exactly when they are made in one millisecond under one
      bounded name: in particular two copies of one path in one millisecond. */
  lemma FileNameCollision(ms: nat, a: string, ha: string, ms': nat, b: string, hb: string)
    requires IsBytes(a) && IsBytes(ha) && |ha| >= 8 && IsBytes(b) && IsBytes(hb) && |hb| >= 8
    requires ms < LIMIT && ms' < LIMIT
    ensures FileName(ms, a, ha) == FileName(ms', b, hb) <==>
              ms == ms' && BoundedName(a, ha) == BoundedName(b, hb)
  {
    FixedWidth(ms);
    FixedWidth(ms');
    var x, y := BoundedName(a, ha), BoundedName(b, hb);
    if FileName(ms, a, ha) == FileName(ms', b, hb) {
      SplitEqual(UtcTimestamp(ms), "__" + x, UtcTimestamp(ms'), "__" + y);
      SplitEqual("__", x, "__", y);
      if ms < ms' { StampsAscend(ms, ms'); }
      if ms' < ms { StampsAscend(ms', ms); }
    }
  }
}
