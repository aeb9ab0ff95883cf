/** The findings of a log are exactly those its lines report, and the flags admit everything else. */
module ProblemFindings {
  import opened Faults
  import opened ControlStripper
  import opened RunLog
  import opened Problems
  import opened ProblemReports
  import Unicode = Text

  // ---------------------------------------------------------------- what the rest of a log still adds

  function TurnedAll(f: Found, es: seq<Entry>): Found
    decreases |es|
  {
    if es == [] then f else TurnedAll(Turned(f, es[0]), es[1..])
  }

  /** The open finding is the last one, no finding has more than four details, and the counter is exact. */
  predicate Tidy(f: Found) {
    && (f.last.Some? ==> |f.problems| > 0 && f.last.value == |f.problems| - 1)
    && (forall i :: 0 <= i < |f.problems| ==> |f.problems[i].details| <= 4)
    && f.retained == RetainedSize(f.problems)
  }

  /** The open finding with these details after its own. */
  function Opened(f: Found, more: seq<string>): seq<Problem>
    requires Tidy(f)
  {
    if f.last.None? then f.problems
    else
      var p := f.problems[f.last.value];
      f.problems[f.last.value := p.(details := FirstFour(p.details + more))]
  }

  /** What the parser should end with when these lines are left. */
  function Expected(f: Found, es: seq<Entry>): seq<Problem>
    requires Tidy(f)
  {
    Opened(f, Following(es, ContextOf(f))) + Shown(Reported(es, ContextOf(f)))
  }

  /** A line that is too long, which is always flagged. */
  predicate Overlong(es: seq<Entry>, c: Context)
    decreases |es|
  {
    es != [] && (Meant(es[0].line, c).TooLong? || Overlong(es[1..], Remembering(es[0], c)))
  }

  lemma OverlongFirst(e: Entry, rest: seq<Entry>, c: Context)
    ensures Overlong([e] + rest, c) <==> Meant(e.line, c).TooLong? || Overlong(rest, Remembering(e, c))
  {
    assert ([e] + rest)[1..] == rest;
  }

  /** Whether some finding gets a fifth detail, or a line is too long. */
  predicate Overfull(f: Found, es: seq<Entry>)
    requires Tidy(f)
  {
    || (f.last.Some? && |f.problems[f.last.value].details| + |Following(es, ContextOf(f))| > 4
        && Following(es, ContextOf(f)) != [])
    || Crowded(Reported(es, ContextOf(f)))
    || Overlong(es, ContextOf(f))
  }

  /** The budgets let this line add what it wants to add. */
  predicate Affords(f: Found, e: Entry)
    requires Tidy(f)
  {
    var report := ReportOf(e, ContextOf(f));
    var line := Meant(e.line, ContextOf(f));
    && (report.Some? ==> |f.problems| < 256 && f.retained + TextSize(report.value) <= 524_288)
    && (report.None? && IsDetail(line) && f.last.Some? && |f.problems[f.last.value].details| < 4 ==>
          f.retained + Size(Clip(line.text, 512)) <= 524_288)
  }

  predicate IsDetail(line: Line) {
    line.Ordinary? && !Blank(line.text) && line.text != "" && Unicode.IsWhitespace(line.text[0])
  }

  /** A line that leaves the open finding as it is. */
  predicate IsNeutral(line: Line) {
    line.TraceFrame? || line.FormMessage? || (line.Ordinary? && Blank(line.text))
  }

  // ---------------------------------------------------------------- one line

  lemma NoneFollow(f: Found)
    requires Tidy(f)
    ensures Opened(f, []) == f.problems
  {
    if f.last.Some? {
      var p := f.problems[f.last.value];
      assert p.details + [] == p.details;
    }
  }

  lemma ReportedFirst(e: Entry, rest: seq<Entry>, c: Context)
    ensures ([e] + rest)[1..] == rest
    ensures Reported([e] + rest, c)
         == (if ReportOf(e, c).Some? then [ReportOf(e, c).value.(details := Following(rest, Remembering(e, c)))] else [])
            + Reported(rest, Remembering(e, c))
  {
    assert ([e] + rest)[1..] == rest;
  }

  lemma ReportCloses(e: Entry, rest: seq<Entry>, c: Context)
    requires ReportOf(e, c).Some?
    ensures Following([e] + rest, c) == []
  {
  }

  lemma FreshReport(e: Entry, c: Context)
    requires ReportOf(e, c).Some?
    ensures ReportOf(e, c).value.details == []
  {
  }

  lemma ShownConcat(a: seq<Problem>, b: seq<Problem>)
    ensures Shown(a + b) == Shown(a) + Shown(b)
  {
  }

  lemma ReportTurned(f: Found, e: Entry)
    requires Tidy(f) && Affords(f, e) && ReportOf(e, ContextOf(f)).Some?
    ensures var p := ReportOf(e, ContextOf(f)).value;
            var t := Turned(f, e);
            && t.problems == f.problems + [p] && t.last == Some(|f.problems|) && t.limited == f.limited
            && ContextOf(t) == Remembering(e, ContextOf(f)) && t.retained == f.retained + TextSize(p)
  {
  }

  lemma ReportIsTidy(f: Found, e: Entry)
    requires Tidy(f) && Affords(f, e) && ReportOf(e, ContextOf(f)).Some?
    ensures Tidy(Turned(f, e))
  {
    ReportTurned(f, e);
    FreshReport(e, ContextOf(f));
    var p := ReportOf(e, ContextOf(f)).value;
    RetainedSnoc(f.problems, p);
    assert ProblemSize(p) == TextSize(p);
  }

  lemma NewLast(f: Found, t: Found, p: Problem, more: seq<string>)
    requires Tidy(f) && Tidy(t) && p.details == [] && t.problems == f.problems + [p] && t.last == Some(|f.problems|)
    ensures Opened(t, more) == f.problems + Shown([p.(details := more)])
  {
    assert p.details + more == more;
  }

  lemma ReportedSplit(e: Entry, rest: seq<Entry>, c: Context)
    requires ReportOf(e, c).Some?
    ensures var next := Remembering(e, c);
            var p := ReportOf(e, c).value.(details := Following(rest, next));
            && Shown(Reported([e] + rest, c)) == Shown([p]) + Shown(Reported(rest, next))
            && (Crowded(Reported([e] + rest, c)) <==> |p.details| > 4 || Crowded(Reported(rest, next)))
  {
    ReportedFirst(e, rest, c);
    var next := Remembering(e, c);
    var p := ReportOf(e, c).value.(details := Following(rest, next));
    ShownConcat([p], Reported(rest, next));
    CrowdedFirst(p, Reported(rest, next));
  }

  lemma ReportExpected(f: Found, e: Entry, rest: seq<Entry>)
    requires Tidy(f) && Affords(f, e) && ReportOf(e, ContextOf(f)).Some?
    ensures Tidy(Turned(f, e))
    ensures Expected(Turned(f, e), rest) == Expected(f, [e] + rest)
  {
    var c := ContextOf(f);
    var p, t, next := ReportOf(e, c).value, Turned(f, e), Remembering(e, c);
    ReportIsTidy(f, e);
    ReportTurned(f, e);
    FreshReport(e, c);
    ReportCloses(e, rest, c);
    NoneFollow(f);
    ReportedSplit(e, rest, c);
    var more := Following(rest, next);
    NewLast(f, t, p, more);
    Joined(f.problems, Shown([p.(details := more)]), Shown(Reported(rest, next)));
  }

  lemma Joined(a: seq<Problem>, b: seq<Problem>, c: seq<Problem>)
    ensures (a + b) + c == a + (b + c)
  {
  }

  lemma ReportOverfills(f: Found, e: Entry, rest: seq<Entry>)
    requires Tidy(f) && Affords(f, e) && ReportOf(e, ContextOf(f)).Some? && Tidy(Turned(f, e))
    ensures Turned(f, e).limited || Overfull(Turned(f, e), rest) <==> f.limited || Overfull(f, [e] + rest)
  {
    var c := ContextOf(f);
    ReportTurned(f, e);
    FreshReport(e, c);
    ReportCloses(e, rest, c);
    ReportedSplit(e, rest, c);
    OverlongFirst(e, rest, c);
  }

  lemma CrowdedFirst(p: Problem, rest: seq<Problem>)
    ensures Crowded([p] + rest) <==> |p.details| > 4 || Crowded(rest)
  {
    if Crowded(rest) {
      var q :| q in rest && |q.details| > 4;
      assert q in [p] + rest;
    }
    if |p.details| > 4 {
      assert p in [p] + rest;
    }
  }

  lemma FollowingFirst(e: Entry, rest: seq<Entry>, c: Context)
    requires ReportOf(e, c).None?
    ensures IsDetail(Meant(e.line, c)) ==>
      Following([e] + rest, c) == [Clip(Meant(e.line, c).text, 512)] + Following(rest, c) && Remembering(e, c) == c
    ensures IsNeutral(Meant(e.line, c)) ==> Following([e] + rest, c) == Following(rest, Remembering(e, c))
    ensures !IsDetail(Meant(e.line, c)) && !IsNeutral(Meant(e.line, c)) ==> Following([e] + rest, c) == []
  {
    assert ([e] + rest)[1..] == rest;
  }

  lemma QuietTurned(f: Found, e: Entry)
    requires ReportOf(e, ContextOf(f)).None?
    ensures var line, t := Meant(e.line, ContextOf(f)), Turned(f, e);
            && ContextOf(t) == Remembering(e, ContextOf(f))
            && (IsNeutral(line) ==> t.problems == f.problems && t.last == f.last && t.limited == f.limited && t.retained == f.retained)
            && (!IsNeutral(line) && !IsDetail(line) ==>
                  t.problems == f.problems && t.last == None && t.limited == (f.limited || line.TooLong?) && t.retained == f.retained)
            && (IsDetail(line) ==> t == Detailed(f, line.text))
  {
  }

  lemma NeutralExpected(f: Found, e: Entry, rest: seq<Entry>)
    requires Tidy(f) && ReportOf(e, ContextOf(f)).None? && !IsDetail(Meant(e.line, ContextOf(f)))
    ensures Tidy(Turned(f, e))
    ensures Expected(Turned(f, e), rest) == Expected(f, [e] + rest)
    ensures Turned(f, e).limited || Overfull(Turned(f, e), rest) <==> f.limited || Overfull(f, [e] + rest)
  {
    QuietTurned(f, e);
    FollowingFirst(e, rest, ContextOf(f));
    ReportedFirst(e, rest, ContextOf(f));
    OverlongFirst(e, rest, ContextOf(f));
    NoneFollow(f);
    var t := Turned(f, e);
    assert [] + Reported(rest, ContextOf(t)) == Reported(rest, ContextOf(t));
  }

  /** The details of the open finding after one more. */
  lemma DetailJoins(details: seq<string>, d: string, more: seq<string>)
    requires |details| <= 4
    ensures |details| < 4 ==> FirstFour(details + ([d] + more)) == FirstFour((details + [d]) + more)
    ensures |details| == 4 ==> FirstFour(details + ([d] + more)) == details == FirstFour(details + more)
  {
    assert details + ([d] + more) == (details + [d]) + more;
  }

  lemma DetailTurned(f: Found, e: Entry)
    requires Tidy(f) && Affords(f, e) && ReportOf(e, ContextOf(f)).None? && IsDetail(Meant(e.line, ContextOf(f)))
    requires f.last.Some?
    ensures var d := Clip(Meant(e.line, ContextOf(f)).text, 512);
            var t, i := Turned(f, e), f.last.value;
            && t.last == f.last && ContextOf(t) == ContextOf(f)
            && (|f.problems[i].details| < 4 ==>
                  && t.problems == f.problems[i := f.problems[i].(details := f.problems[i].details + [d])]
                  && t.limited == f.limited && t.retained == f.retained + Size(d))
            && (|f.problems[i].details| == 4 ==> t.problems == f.problems && t.limited && t.retained == f.retained)
  {
    QuietTurned(f, e);
  }

  lemma DetailIsTidy(f: Found, e: Entry)
    requires Tidy(f) && Affords(f, e) && ReportOf(e, ContextOf(f)).None? && IsDetail(Meant(e.line, ContextOf(f)))
    ensures Tidy(Turned(f, e))
  {
    if f.last.Some? {
      DetailTurned(f, e);
      var i := f.last.value;
      var p := f.problems[i];
      if |p.details| < 4 {
        var d := Clip(Meant(e.line, ContextOf(f)).text, 512);
        assert (p.details + [d])[..|p.details|] == p.details;
        RetainedUpdate(f.problems, i, p.(details := p.details + [d]));
      }
    } else {
      QuietTurned(f, e);
    }
  }

  lemma DetailExpected(f: Found, e: Entry, rest: seq<Entry>)
    requires Tidy(f) && Affords(f, e) && ReportOf(e, ContextOf(f)).None? && IsDetail(Meant(e.line, ContextOf(f)))
    ensures Tidy(Turned(f, e))
    ensures Expected(Turned(f, e), rest) == Expected(f, [e] + rest)
    ensures Turned(f, e).limited || Overfull(Turned(f, e), rest) <==> f.limited || Overfull(f, [e] + rest)
  {
    DetailIsTidy(f, e);
    var c := ContextOf(f);
    FollowingFirst(e, rest, c);
    ReportedFirst(e, rest, c);
    OverlongFirst(e, rest, c);
    assert [] + Reported(rest, c) == Reported(rest, c);
    if f.last.Some? {
      DetailTurned(f, e);
      DetailJoins(f.problems[f.last.value].details, Clip(Meant(e.line, c).text, 512), Following(rest, c));
      DetailOpens(f, Turned(f, e), Clip(Meant(e.line, c).text, 512), Following(rest, c));
    } else {
      QuietTurned(f, e);
    }
  }

  lemma DetailOpens(f: Found, t: Found, d: string, more: seq<string>)
    requires Tidy(f) && Tidy(t) && f.last.Some? && t.last == f.last
    requires t.problems ==
      if |f.problems[f.last.value].details| < 4 then
        f.problems[f.last.value := f.problems[f.last.value].(details := f.problems[f.last.value].details + [d])]
      else f.problems
    ensures Opened(t, more) == Opened(f, [d] + more)
  {
    DetailJoins(f.problems[f.last.value].details, d, more);
  }

  /** A line that the budgets afford changes what is expected neither in findings nor in the flag. */
  lemma OneLine(f: Found, e: Entry, rest: seq<Entry>)
    requires Tidy(f) && Affords(f, e)
    ensures Tidy(Turned(f, e))
    ensures Expected(Turned(f, e), rest) == Expected(f, [e] + rest)
    ensures Turned(f, e).limited || Overfull(Turned(f, e), rest) <==> f.limited || Overfull(f, [e] + rest)
  {
    if ReportOf(e, ContextOf(f)).Some? {
      ReportExpected(f, e, rest);
      ReportOverfills(f, e, rest);
    } else if IsDetail(Meant(e.line, ContextOf(f))) {
      DetailExpected(f, e, rest);
    } else {
      NeutralExpected(f, e, rest);
    }
  }

  // ---------------------------------------------------------------- budgets

  lemma {:induction false} RetainedConcat(a: seq<Problem>, b: seq<Problem>)
    ensures RetainedSize(a + b) == RetainedSize(a) + RetainedSize(b)
  {
    if b == [] {
      assert a + b == a;
    } else {
      assert (a + b)[..|a + b| - 1] == a + b[..|b| - 1];
      RetainedConcat(a, b[..|b| - 1]);
    }
  }

  lemma {:induction false} DetailsConcat(a: seq<string>, b: seq<string>)
    ensures DetailsSize(a + b) == DetailsSize(a) + DetailsSize(b)
  {
    if b == [] {
      assert a + b == a;
    } else {
      assert (a + b)[..|a + b| - 1] == a + b[..|b| - 1];
      DetailsConcat(a, b[..|b| - 1]);
    }
  }

  /** What is still expected leaves room for the next finding. */
  lemma ReportFits(f: Found, e: Entry, rest: seq<Entry>)
    requires Tidy(f) && ReportOf(e, ContextOf(f)).Some? && WithinBudget(Expected(f, [e] + rest))
    ensures Affords(f, e)
  {
    var c := ContextOf(f);
    ReportCloses(e, rest, c);
    NoneFollow(f);
    ReportedSplit(e, rest, c);
    var p := ReportOf(e, c).value.(details := Following(rest, Remembering(e, c)));
    var shown, others := Shown([p]), Shown(Reported(rest, Remembering(e, c)));
    RetainedConcat(f.problems, shown + others);
    RetainedConcat(shown, others);
    assert shown == [Shortened(p)];
    RetainedSnoc([], Shortened(p));
    assert [] + [Shortened(p)] == shown;
  }

  lemma DetailCounts(p: Problem, d: string, more: seq<string>)
    requires |p.details| < 4
    ensures ProblemSize(p.(details := FirstFour(p.details + ([d] + more)))) >= ProblemSize(p) + Size(d)
  {
    var all := p.details + ([d] + more);
    var four := FirstFour(all);
    assert four == (p.details + [d]) + four[|p.details| + 1..];
    DetailsConcat(p.details + [d], four[|p.details| + 1..]);
    DetailsConcat(p.details, [d]);
    assert DetailsSize([d]) == DetailsSize([d][..0]) + Size(d);
  }

  lemma DetailFits(f: Found, e: Entry, rest: seq<Entry>)
    requires Tidy(f) && ReportOf(e, ContextOf(f)).None? && IsDetail(Meant(e.line, ContextOf(f)))
    requires WithinBudget(Expected(f, [e] + rest))
    ensures Affords(f, e)
  {
    var c := ContextOf(f);
    FollowingFirst(e, rest, c);
    var d, more := Clip(Meant(e.line, c).text, 512), Following(rest, c);
    if f.last.Some? && |f.problems[f.last.value].details| < 4 {
      var i := f.last.value;
      var p := f.problems[i];
      RetainedConcat(Opened(f, [d] + more), Shown(Reported([e] + rest, c)));
      RetainedUpdate(f.problems, i, p.(details := FirstFour(p.details + ([d] + more))));
      DetailCounts(p, d, more);
    }
  }

  lemma Fits(f: Found, e: Entry, rest: seq<Entry>)
    requires Tidy(f) && WithinBudget(Expected(f, [e] + rest))
    ensures Affords(f, e)
  {
    if ReportOf(e, ContextOf(f)).Some? {
      ReportFits(f, e, rest);
    } else if IsDetail(Meant(e.line, ContextOf(f))) {
      DetailFits(f, e, rest);
    }
  }

  /** A line that the budgets do not afford sets the flag. */
  lemma RefusalIsFlagged(f: Found, e: Entry)
    requires Tidy(f) && !Affords(f, e)
    ensures Turned(f, e).limited
  {
    if ReportOf(e, ContextOf(f)).None? {
      QuietTurned(f, e);
    }
  }

  lemma FlagStays(f: Found, e: Entry)
    requires f.limited
    ensures Turned(f, e).limited
  {
    if ReportOf(e, ContextOf(f)).None? {
      QuietTurned(f, e);
    }
  }

  lemma {:induction false} FlagRemains(f: Found, es: seq<Entry>)
    requires f.limited
    ensures TurnedAll(f, es).limited
    decreases |es|
  {
    if es != [] {
      FlagStays(f, es[0]);
      FlagRemains(Turned(f, es[0]), es[1..]);
    }
  }

  // ---------------------------------------------------------------- all lines

  lemma NothingLeft(f: Found)
    requires Tidy(f)
    ensures Expected(f, []) == f.problems && !Overfull(f, [])
  {
    NoneFollow(f);
    assert Reported([], ContextOf(f)) == [];
  }

  /** Within the budgets the parser ends with what was expected, and flags exactly a fifth detail and a line that is too long. */
  lemma {:induction false} AllLines(f: Found, es: seq<Entry>)
    requires Tidy(f) && WithinBudget(Expected(f, es))
    ensures TurnedAll(f, es).problems == Expected(f, es)
    ensures TurnedAll(f, es).limited <==> f.limited || Overfull(f, es)
    decreases |es|
  {
    if es == [] {
      NothingLeft(f);
    } else {
      assert [es[0]] + es[1..] == es;
      Fits(f, es[0], es[1..]);
      OneLine(f, es[0], es[1..]);
      AllLines(Turned(f, es[0]), es[1..]);
    }
  }

  /** Without the flag nothing was left out. */
  lemma {:induction false} UnflaggedLines(f: Found, es: seq<Entry>)
    requires Tidy(f) && !TurnedAll(f, es).limited
    ensures TurnedAll(f, es).problems == Expected(f, es)
    decreases |es|
  {
    if es == [] {
      NothingLeft(f);
    } else {
      assert [es[0]] + es[1..] == es;
      if !Affords(f, es[0]) {
        RefusalIsFlagged(f, es[0]);
        FlagRemains(Turned(f, es[0]), es[1..]);
        assert false;
      }
      OneLine(f, es[0], es[1..]);
      UnflaggedLines(Turned(f, es[0]), es[1..]);
    }
  }
}
