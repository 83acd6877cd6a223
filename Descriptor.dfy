/**
 * The routed event descriptor `[emitterName]eventName` and the regular
 * expression /\[(.+)\](.+)/ that splits it (event-router.js, lines 4 and 21-26).
 *
 * The expression is unanchored and both groups are greedy, so JavaScript's
 * `exec` returns the match that starts at the leftmost `[` that can start one,
 * whose `]` is the rightmost one that still leaves at least one character for
 * the event name, and whose event name runs as far as it can. `.` matches any
 * character except a line terminator, so a whole match lies on one line.
 *
 * IsMatch and IsExecMatch below say this declaratively; Exec computes it and
 * the lemma ExecSpec ties the two together.
 */
module Descriptor {
  import opened Wrappers

  /** The characters that `.` in a JavaScript regular expression does not match. */
  predicate IsLineTerminator(c: char) {
    c == '\n' || c == '\r' || c == '\U{2028}' || c == '\U{2029}'
  }

  /** The positions of one match: `[` at start, `]` at close, the match ends just before stop. */
  datatype RegexMatch = RegexMatch(start: nat, close: nat, stop: nat)

  /** The two capture groups, as `on` reads them from parsedDesc[1] and parsedDesc[2]. */
  datatype Parsed = Parsed(emitterName: string, eventName: string)

  /** s[i..e] is a match of /\[(.+)\](.+)/ whose first group is s[i+1..j] and second group s[j+1..e]. */
  ghost predicate IsMatch(s: string, i: int, j: int, e: int) {
    0 <= i && i + 1 < j && j + 1 < e <= |s| &&
    s[i] == '[' && s[j] == ']' &&
    forall m :: i < m < e ==> !IsLineTerminator(s[m])
  }

  /** The match `exec` reports: leftmost start, then the longest first group, then the longest second group. */
  ghost predicate IsExecMatch(s: string, m: RegexMatch) {
    IsMatch(s, m.start, m.close, m.stop) &&
    (forall i, j, e :: i < m.start ==> !IsMatch(s, i, j, e)) &&
    (forall j, e :: m.close < j ==> !IsMatch(s, m.start, j, e)) &&
    (forall e :: m.stop < e ==> !IsMatch(s, m.start, m.close, e))
  }

  /** The end of the run of characters `.` can match that begins at k. */
  function RunEnd(s: string, k: nat): (e: nat)
    requires k <= |s|
    ensures k <= e <= |s|
    decreases |s| - k
  {
    if k == |s| || IsLineTerminator(s[k]) then k else RunEnd(s, k + 1)
  }

  /** RunEnd stops at the first line terminator from k on, or at the end of s. */
  lemma {:induction false} RunEndSpec(s: string, k: nat)
    requires k <= |s|
    ensures forall m :: k <= m < RunEnd(s, k) ==> !IsLineTerminator(s[m])
    ensures RunEnd(s, k) < |s| ==> IsLineTerminator(s[RunEnd(s, k)])
    decreases |s| - k
  {
    if k < |s| && !IsLineTerminator(s[k]) {
      RunEndSpec(s, k + 1);
    }
  }

  /** The rightmost `]` in s[lo..hi], if any. */
  function LastClose(s: string, lo: nat, hi: nat): (r: Option<nat>)
    requires lo <= hi <= |s|
    ensures r.Some? ==> lo <= r.value < hi
    decreases hi - lo
  {
    if lo == hi then None
    else if s[hi - 1] == ']' then Some(hi - 1)
    else LastClose(s, lo, hi - 1)
  }

  /** LastClose finds a `]` with none after it before hi, or reports that s[lo..hi] holds none. */
  lemma {:induction false} LastCloseSpec(s: string, lo: nat, hi: nat)
    requires lo <= hi <= |s|
    ensures LastClose(s, lo, hi).Some? ==> s[LastClose(s, lo, hi).value] == ']'
    ensures LastClose(s, lo, hi).Some? ==> forall m :: LastClose(s, lo, hi).value < m < hi ==> s[m] != ']'
    ensures LastClose(s, lo, hi).None? ==> forall m :: lo <= m < hi ==> s[m] != ']'
    decreases hi - lo
  {
    if lo < hi && s[hi - 1] != ']' {
      LastCloseSpec(s, lo, hi - 1);
    }
  }

  /** A match can reach no further than the run of matchable characters after its `[`. */
  lemma MatchesWithinRun(s: string, i: nat)
    requires i < |s|
    ensures forall j, e :: IsMatch(s, i, j, e) ==> e <= RunEnd(s, i + 1)
  {
    RunEndSpec(s, i + 1);
    var r := RunEnd(s, i + 1);
    assert r < |s| ==> IsLineTerminator(s[r]);
  }

  /** The match the backtracking matcher finds when it tries start position i. */
  function MatchAt(s: string, i: nat): (r: Option<RegexMatch>)
    requires i < |s|
    ensures r.Some? ==> r.value.start == i && i + 1 < r.value.close && r.value.close + 1 < r.value.stop <= |s|
  {
    if s[i] != '[' then None
    else
      var stop := RunEnd(s, i + 1);
      var close := if stop < i + 3 then None else LastClose(s, i + 2, stop - 1);
      if close.None? then None
      else Some(RegexMatch(i, close.value, stop))
  }

  /** MatchAt finds the greedy match at i: the rightmost possible `]`, then the longest event name. */
  lemma MatchAtSpec(s: string, i: nat)
    requires i < |s|
    ensures var r := MatchAt(s, i);
            (r.Some? ==> IsMatch(s, i, r.value.close, r.value.stop)) &&
            (r.Some? ==> forall j, e :: r.value.close < j ==> !IsMatch(s, i, j, e)) &&
            (r.Some? ==> forall e :: r.value.stop < e ==> !IsMatch(s, i, r.value.close, e)) &&
            (r.None? ==> forall j, e :: !IsMatch(s, i, j, e))
  {
    if s[i] == '[' {
      var stop := RunEnd(s, i + 1);
      RunEndSpec(s, i + 1);
      MatchesWithinRun(s, i);
      if stop >= i + 3 {
        LastCloseSpec(s, i + 2, stop - 1);
      }
    }
  }

  /** The first match that starts at or after position k. */
  function ExecFrom(s: string, k: nat): (r: Option<RegexMatch>)
    requires k <= |s|
    ensures r.Some? ==> k <= r.value.start && r.value.start + 1 < r.value.close && r.value.close + 1 < r.value.stop <= |s|
    decreases |s| - k
  {
    if k == |s| then None
    else
      var here := MatchAt(s, k);
      if here.Some? then here else ExecFrom(s, k + 1)
  }

  /** ExecFrom finds the greedy match with the leftmost start at or after k, or reports that there is none. */
  lemma {:induction false} ExecFromSpec(s: string, k: nat)
    requires k <= |s|
    ensures var r := ExecFrom(s, k);
            (r.Some? ==> IsMatch(s, r.value.start, r.value.close, r.value.stop)) &&
            (r.Some? ==> forall i, j, e :: k <= i < r.value.start ==> !IsMatch(s, i, j, e)) &&
            (r.Some? ==> forall j, e :: r.value.close < j ==> !IsMatch(s, r.value.start, j, e)) &&
            (r.Some? ==> forall e :: r.value.stop < e ==> !IsMatch(s, r.value.start, r.value.close, e)) &&
            (r.None? ==> forall i, j, e :: k <= i ==> !IsMatch(s, i, j, e))
    decreases |s| - k
  {
    if k < |s| {
      MatchAtSpec(s, k);
      if MatchAt(s, k).None? {
        ExecFromSpec(s, k + 1);
      }
    }
  }

  /** RE.exec(s), reduced to the positions of the match it returns; None where it returns null. */
  function Exec(s: string): (r: Option<RegexMatch>)
    ensures r.Some? ==> r.value.start + 1 < r.value.close && r.value.close + 1 < r.value.stop <= |s|
  {
    ExecFrom(s, 0)
  }

  /** Exec reports the leftmost-greedy match, and returns None exactly when there is no match at all. */
  lemma ExecSpec(s: string)
    ensures Exec(s).Some? ==> IsExecMatch(s, Exec(s).value)
    ensures Exec(s).None? <==> forall i, j, e :: !IsMatch(s, i, j, e)
  {
    ExecFromSpec(s, 0);
  }

  /** Two matches that are both the one `exec` reports are the same match. */
  lemma ExecMatchUnique(s: string, m1: RegexMatch, m2: RegexMatch)
    requires IsExecMatch(s, m1) && IsExecMatch(s, m2)
    ensures m1 == m2
  {
  }

  function Groups(s: string, m: RegexMatch): Parsed
    requires m.start < m.close < m.stop <= |s|
  {
    Parsed(s[m.start + 1..m.close], s[m.close + 1..m.stop])
  }

  /** The descriptor split as `on` reads it (event-router.js:21-26); None where `exec` returns null. */
  function Parse(desc: string): (r: Option<Parsed>)
    ensures r.Some? ==> |r.value.emitterName| > 0 && |r.value.eventName| > 0
  {
    match Exec(desc)
    case None => None
    case Some(m) => Some(Groups(desc, m))
  }

  /** `on` reads a descriptor exactly when some match exists, and then reads the groups of the match `exec` reports. */
  lemma ParseMeaning(desc: string)
    ensures Parse(desc).None? <==> forall i, j, e :: !IsMatch(desc, i, j, e)
    ensures Parse(desc).Some? ==> exists m :: IsExecMatch(desc, m) && Parse(desc).value == Groups(desc, m)
  {
    ExecSpec(desc);
  }

  /** The documented form: `[A]B` with non-empty A and B on one line, and no `]` in B, splits into A and B. */
  lemma ParseBracketed(a: string, b: string)
    requires |a| > 0 && |b| > 0
    requires forall c :: c in a ==> !IsLineTerminator(c)
    requires forall c :: c in b ==> !IsLineTerminator(c)
    requires ']' !in b
    ensures Parse("[" + a + "]" + b) == Some(Parsed(a, b))
  {
    var s := "[" + a + "]" + b;
    ExecSpec(s);
    var j := |a| + 1;
    assert s[0] == '[' && s[j] == ']';
    assert s[1..j] == a && s[j + 1..] == b;
    forall m | 0 < m < |s| ensures !IsLineTerminator(s[m]) {
      if m < j {
        assert s[m] == a[m - 1];
      } else if j < m {
        assert s[m] == b[m - j - 1];
      }
    }
    assert IsMatch(s, 0, j, |s|);
    forall j', e | j < j' ensures !IsMatch(s, 0, j', e) {
      if j' + 1 < |s| {
        assert s[j'] == b[j' - j - 1];
      }
    }
    var m := RegexMatch(0, j, |s|);
    assert forall j', e :: m.close < j' ==> !IsMatch(s, 0, j', e);
    assert forall e :: m.stop < e ==> !IsMatch(s, 0, j, e);
    assert forall i', j', e :: i' < 0 ==> !IsMatch(s, i', j', e);
    assert IsExecMatch(s, m);
    ExecMatchUnique(s, m, Exec(s).value);
    assert Exec(s) == Some(m);
    assert Groups(s, m) == Parsed(a, b);
  }

  lemma MatchShiftsBack(p: string, s: string, i: int, j: int, e: int)
    requires '[' !in p && IsMatch(p + s, i, j, e)
    ensures i >= |p| && IsMatch(s, i - |p|, j - |p|, e - |p|)
  {
    var t, n := p + s, |p|;
    forall m | i - n < m < e - n ensures !IsLineTerminator(s[m]) {
      assert s[m] == t[m + n];
    }
  }

  lemma MatchShiftsForward(p: string, s: string, i: int, j: int, e: int)
    requires IsMatch(s, i, j, e)
    ensures IsMatch(p + s, i + |p|, j + |p|, e + |p|)
  {
    var t, n := p + s, |p|;
    forall m | i + n < m < e + n ensures !IsLineTerminator(t[m]) {
      assert t[m] == s[m - n];
    }
  }

  lemma ExecMatchShiftsForward(p: string, s: string, m: RegexMatch)
    requires '[' !in p && IsExecMatch(s, m)
    ensures IsExecMatch(p + s, RegexMatch(m.start + |p|, m.close + |p|, m.stop + |p|))
  {
    var t, n := p + s, |p|;
    var m' := RegexMatch(m.start + n, m.close + n, m.stop + n);
    MatchShiftsForward(p, s, m.start, m.close, m.stop);
    forall i, j, e | i < m'.start ensures !IsMatch(t, i, j, e) {
      if IsMatch(t, i, j, e) {
        MatchShiftsBack(p, s, i, j, e);
      }
    }
    forall j, e | m'.close < j ensures !IsMatch(t, m'.start, j, e) {
      if IsMatch(t, m'.start, j, e) {
        MatchShiftsBack(p, s, m'.start, j, e);
      }
    }
    forall e | m'.stop < e ensures !IsMatch(t, m'.start, m'.close, e) {
      if IsMatch(t, m'.start, m'.close, e) {
        MatchShiftsBack(p, s, m'.start, m'.close, e);
      }
    }
  }

  /** Text before the first `[` plays no part: the match and both groups are those of the rest. */
  lemma ParseIgnoresLeadingText(p: string, s: string)
    requires '[' !in p
    ensures Parse(p + s) == Parse(s)
  {
    var t, n := p + s, |p|;
    ExecSpec(s);
    ExecSpec(t);
    if Exec(s).None? {
      forall i, j, e | IsMatch(t, i, j, e) ensures false {
        MatchShiftsBack(p, s, i, j, e);
      }
      assert Exec(t).None?;
    } else {
      var m := Exec(s).value;
      var m' := RegexMatch(m.start + n, m.close + n, m.stop + n);
      ExecMatchShiftsForward(p, s, m);
      assert Exec(t).Some?;
      ExecMatchUnique(t, m', Exec(t).value);
      assert Exec(t) == Some(m');
      assert Groups(t, m') == Groups(s, m) by {
        assert t[m'.start + 1..m'.close] == s[m.start + 1..m.close];
        assert t[m'.close + 1..m'.stop] == s[m.close + 1..m.stop];
      }
    }
  }

  /** The malformed descriptors `noBrackets`, `[]x` and `[A]`: `exec` returns null for each. */
  lemma ParseRejectsMalformed()
    ensures Parse("noBrackets") == None
    ensures Parse("[]x") == None
    ensures Parse("[A]") == None
  {
    ExecSpec("noBrackets");
    ExecSpec("[]x");
    ExecSpec("[A]");
    var s := "noBrackets";
    assert '[' !in s;
    forall i, j, e | 0 <= i < |s| ensures !IsMatch(s, i, j, e) {
      assert s[i] in s;
    }
  }
}
