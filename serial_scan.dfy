/**
 * The scan the rolling update runs over an instance's serial console:
 * `re.findall(r"startup-script-url exit status (\d+)", output)` and the
 * verdict drawn from its last match.
 */
module SerialScan {
  import opened Text

  const Marker := "startup-script-url exit status "

  /** The longest prefix of `s` made of digits: what a greedy `\d+` consumes. */
  function DigitRun(s: string): (d: string)
    ensures |d| <= |s| && d == s[..|d|] && AllDigits(d)
    ensures |d| < |s| ==> !IsDigit(s[|d|])
  {
    if s != [] && IsDigit(s[0]) then [s[0]] + DigitRun(s[1..]) else []
  }

  /** Does a match of the pattern start at the beginning of `s`? */
  predicate MatchesAtStart(s: string) {
    |s| > |Marker| && s[..|Marker|] == Marker && IsDigit(s[|Marker|])
  }

  /**
   * The captured groups of every non-overlapping match, left to right;
   * each is a non-empty run of digits.
   */
  function FindExitStatuses(s: string): (found: seq<string>)
    ensures forall k :: 0 <= k < |found| ==> found[k] != [] && AllDigits(found[k])
    decreases |s|
  {
    if s == [] then []
    else if MatchesAtStart(s) then
      var d := DigitRun(s[|Marker|..]);
      [d] + FindExitStatuses(s[|Marker| + |d|..])
    else FindExitStatuses(s[1..])
  }

  /** What one look at the console tells the rolling update. */
  datatype Verdict = NoStatusYet | ScriptSucceeded | ScriptFailed

  /** No match yet keeps polling; otherwise only a last match of exactly "0" is success. */
  function Judge(output: string): (v: Verdict)
    ensures v == NoStatusYet <==> FindExitStatuses(output) == []
    ensures v == ScriptSucceeded <==>
      FindExitStatuses(output) != [] && Last(FindExitStatuses(output)) == "0"
  {
    var found := FindExitStatuses(output);
    if |found| == 0 then NoStatusYet
    else if found[|found| - 1] == "0" then ScriptSucceeded
    else ScriptFailed
  }

  /** Past its first character, the marker's 's' sits only at these offsets. */
  lemma LetterSAt(j: nat)
    requires 0 < j < |Marker| && Marker[j] == 's'
    ensures j == 8 || j == 24 || j == 29
  {
  }

  /** The marker overlaps no shifted copy of itself. */
  lemma MarkerHasNoBorder(j: nat)
    requires 0 < j < |Marker|
    ensures Marker[j..] != Marker[..|Marker| - j]
  {
    var k := if j == 24 then 3 else if j == 8 || j == 29 then 1 else 0;
    if Marker[j] == 's' {
      LetterSAt(j);
    }
    assert Marker[j + k] != Marker[k];
    assert Marker[j..][k] != Marker[..|Marker| - j][k];
  }

  /** A match at the start of `a + Marker + d` is a match at the start of `a`. */
  lemma MatchAtStartOfPrefix(a: string, d: string)
    requires a != [] && d != [] && AllDigits(d)
    ensures MatchesAtStart(a + Marker + d) <==> MatchesAtStart(a)
  {
    var t := Marker + d;
    var s := a + t;
    assert a + Marker + d == s;
    var m := |Marker|;
    if |a| > m {
      assert s[..m] == a[..m] && s[m] == a[m];
    } else if |a| == m {
      assert s[m] == t[0] == 's';
    } else {
      NoMatchAcrossMarker(a, t);
    }
  }

  /** A match cannot start inside the text before the marker when that text is shorter than the marker. */
  lemma NoMatchAcrossMarker(a: string, t: string)
    requires 0 < |a| < |Marker| && Marker <= t
    ensures !MatchesAtStart(a + t)
  {
    var s := a + t;
    var m := |Marker|;
    if MatchesAtStart(s) {
      var j := |a|;
      assert Marker[j..] == s[j..m];
      assert s[j..m] == t[..m - j];
      assert t[..m - j] == Marker[..m - j];
      MarkerHasNoBorder(j);
      assert false;
    }
  }



  /** A run of digits stops at the first non-digit. */
  lemma {:induction false} DigitRunBefore(x: string, t: string)
    requires t != [] && !IsDigit(t[0])
    ensures DigitRun(x + t) == DigitRun(x)
  {
    if x == [] {
      assert x + t == t;
    } else if IsDigit(x[0]) {
      assert (x + t)[1..] == x[1..] + t;
      DigitRunBefore(x[1..], t);
    }
  }

  /** A report on its own is one match, of its status. */
  lemma ReportAlone(d: string)
    requires d != [] && AllDigits(d)
    ensures FindExitStatuses(Marker + d) == [d]
  {
    var s := Marker + d;
    assert s[..|Marker|] == Marker && s[|Marker|] == d[0];
    assert s[|Marker|..] == d;
    DigitRunAll(d);
    assert s[|Marker| + |d|..] == [];
  }

  /** One step of the scan at a match: its digits, then the scan of what follows them. */
  lemma FindAtMatch(s: string)
    requires MatchesAtStart(s)
    ensures var r := DigitRun(s[|Marker|..]);
      FindExitStatuses(s) == [r] + FindExitStatuses(s[|Marker| + |r|..])
  {
  }

  lemma DropConcat(a: string, t: string, k: nat)
    requires k <= |a|
    ensures (a + t)[k..] == a[k..] + t
  {
  }

  /** A match at the start of `a` is still the first match once anything not starting with a digit is appended. */
  lemma ScanAfterMatch(a: string, t: string)
    requires MatchesAtStart(a) && t != [] && !IsDigit(t[0])
    ensures var r := DigitRun(a[|Marker|..]);
      |Marker| + |r| <= |a| && FindExitStatuses(a + t) == [r] + FindExitStatuses(a[|Marker| + |r|..] + t)
  {
    var m := |Marker|;
    var s := a + t;
    assert s[..m] == a[..m] && s[m] == a[m];
    assert MatchesAtStart(s);
    FindAtMatch(s);
    DropConcat(a, t, m);
    DigitRunBefore(a[m..], t);
    var r := DigitRun(a[m..]);
    DropConcat(a, t, m + |r|);
  }

  /** A match at the start of `a` is also the first match of `a + Marker + d`, with the same digits. */
  lemma SkipMatch(a: string, d: string)
    requires MatchesAtStart(a)
    ensures var r := DigitRun(a[|Marker|..]);
      |Marker| + |r| <= |a| &&
      FindExitStatuses(a + Marker + d) == [r] + FindExitStatuses(a[|Marker| + |r|..] + Marker + d) &&
      FindExitStatuses(a) == [r] + FindExitStatuses(a[|Marker| + |r|..])
  {
    var t := Marker + d;
    assert t[0] == 's';
    ScanAfterMatch(a, t);
    FindAtMatch(a);
    var r := DigitRun(a[|Marker|..]);
    assert a + Marker + d == a + t;
    assert a[|Marker| + |r|..] + Marker + d == a[|Marker| + |r|..] + t;
  }

  /** Without a match at the start of `a`, both scans move on by one character. */
  lemma SkipOther(a: string, d: string)
    requires a != [] && d != [] && AllDigits(d) && !MatchesAtStart(a)
    ensures FindExitStatuses(a + Marker + d) == FindExitStatuses(a[1..] + Marker + d)
    ensures FindExitStatuses(a) == FindExitStatuses(a[1..])
  {
    var t := Marker + d;
    var s := a + t;
    assert a + Marker + d == s;
    MatchAtStartOfPrefix(a, d);
    DropConcat(a, t, 1);
    assert a[1..] + t == a[1..] + Marker + d;
  }

  /**
   * Appending one more report of an exit status adds exactly that status as
   * the last match, whatever the console printed before.
   */
  lemma {:induction false} FindAfterReport(a: string, d: string)
    requires d != [] && AllDigits(d)
    ensures FindExitStatuses(a + Marker + d) == FindExitStatuses(a) + [d]
    decreases |a|
  {
    if a == [] {
      assert a + Marker + d == Marker + d;
      ReportAlone(d);
    } else if MatchesAtStart(a) {
      SkipMatch(a, d);
      var r := DigitRun(a[|Marker|..]);
      FindAfterReport(a[|Marker| + |r|..], d);
    } else {
      SkipOther(a, d);
      FindAfterReport(a[1..], d);
    }
  }

  lemma {:induction false} DigitRunAll(d: string)
    requires AllDigits(d)
    ensures DigitRun(d) == d
  {
    if d != [] {
      DigitRunAll(d[1..]);
    }
  }

  /** The verdict follows the most recent report only: earlier failures do not count. */
  lemma LatestReportDecides(a: string, d: string)
    requires d != [] && AllDigits(d)
    ensures Judge(a + Marker + d) == if d == "0" then ScriptSucceeded else ScriptFailed
  {
    FindAfterReport(a, d);
  }

  predicate MarkerAt(s: string, i: int) {
    0 <= i && i + |Marker| <= |s| && s[i..i + |Marker|] == Marker
  }

  /** Output that never mentions the marker has produced no status yet. */
  lemma {:induction false} NoMarkerNoStatus(s: string)
    requires forall i :: !MarkerAt(s, i)
    ensures Judge(s) == NoStatusYet
    decreases |s|
  {
    if s != [] {
      assert !MarkerAt(s, 0);
      forall i ensures !MarkerAt(s[1..], i) {
        if MarkerAt(s[1..], i) {
          assert s[1..][i..i + |Marker|] == s[i + 1..i + 1 + |Marker|];
          assert MarkerAt(s, i + 1);
        }
      }
      NoMarkerNoStatus(s[1..]);
    }
  }
}
