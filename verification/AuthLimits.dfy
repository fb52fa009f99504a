/** Two runs in which a session ends that should not: after a refresh that came back as another member's, and after a
    refresh that was asked for with no token. */
module AuthLimits {
  import opened Option
  import opened AuthFailures
  import opened AuthSession
  import opened AuthRuns
  import opened AuthEndings
  import opened AuthChecks

  /** A run, one step longer. */
  lemma {:induction false} OneMore(w: World, steps: seq<Step>, step: Step)
    requires IsRun(w, steps) && Enabled(After(w, steps), step)
    ensures IsRun(w, steps + [step]) && After(w, steps + [step]) == Next(After(w, steps), step)
    decreases |steps|
  {
    if steps == [] {
      assert [step][1..] == [];
    } else {
      OneMore(Next(w, steps[0]), steps[1..], step);
      assert (steps + [step])[1..] == steps[1..] + [step];
    }
  }

  const UNAUTHORIZED := Failure(Some(401), false, None, None)

  // ── A refresh that comes back as another member's ──

  function Loaded(mine: Pair): World {
    World(Tab(Some(mine.access), Some(mine.refresh), None, true, true, false, false, None, Some(mine),
              0, 0, 0, 0, Free, [], []), map[], {})
  }

  function Refused401(g: nat): Step {
    AnswerRead(g, Threw(OfRequest(UNAUTHORIZED)))
  }

  function OnlyCheck(mine: Pair, stage: Stage): Check {
    Check(1, mine.access.subject, 0, false, false, 0, stage, false)
  }

  /** The check's read is out, and meanwhile another tab has stored another member's tokens. */
  function Asked(mine: Pair, theirs: Pair): World {
    var w := Loaded(mine);
    w.(tab := w.tab.(readsSent := 1, checksStarted := 1, stored := Some(theirs)),
       checks := map[1 := OnlyCheck(mine, Reading(1))])
  }

  /** The read was refused: the check refreshes with what storage holds. */
  function Refreshes(mine: Pair, theirs: Pair): World {
    var w := Asked(mine, theirs);
    w.(tab := w.tab.(mutex := Out(theirs.refresh, false)),
       checks := map[1 := OnlyCheck(mine, Refreshing).(refreshNext := true)])
  }

  /** The new pair is the other member's, and the check reads the session again as its own. */
  function ReadsAgain(mine: Pair, theirs: Pair, renewed: Pair): World {
    var w := Refreshes(mine, theirs);
    w.(tab := Installed(w.tab, renewed).(mutex := Free, readsSent := 2),
       checks := map[1 := OnlyCheck(mine, Reading(2)).(refreshed := true, epochAtStart := 1, strayed := true)])
  }

  lemma ToAsked(mine: Pair, theirs: Pair)
    ensures Next(Next(Loaded(mine), StartCheck), StoreElsewhere(Some(theirs))) == Asked(mine, theirs)
  {
    assert map[][1 := OnlyCheck(mine, Reading(1))] == map[1 := OnlyCheck(mine, Reading(1))];
  }

  lemma ToRefreshes(mine: Pair, theirs: Pair)
    ensures Next(Asked(mine, theirs), Refused401(1)) == Refreshes(mine, theirs)
  {
  }

  lemma ToReadsAgain(mine: Pair, theirs: Pair, renewed: Pair)
    requires renewed.access.subject != mine.access.subject
    ensures var w := Next(Refreshes(mine, theirs), AnswerRefresh(Issued(renewed)));
      Enabled(w, GoOn(1)) && Next(w, GoOn(1)) == ReadsAgain(mine, theirs, renewed)
  {
    var w, c := Refreshes(mine, theirs), OnlyCheck(mine, Resuming(None)).(refreshNext := true);
    assert Next(w, AnswerRefresh(Issued(renewed))).checks == map[1 := c];
  }

  lemma ToEnded(mine: Pair, theirs: Pair, renewed: Pair)
    requires renewed.access.subject != mine.access.subject
    ensures var t := Next(ReadsAgain(mine, theirs, renewed), Refused401(1)).tab;
      |t.endings| == 1 && HeldAnothers(t.endings[0]) && SignedOut(t)
  {
    var w := ReadsAgain(mine, theirs, renewed);
    RefusalEnds(w.tab, w.checks[1], None, false);
  }

  /** A check whose own refresh comes back with another member's tokens takes them for its own: the next 401 signs that
      other member out, in storage too. */
  lemma StrayedRefreshEndsAnothersSession(mine: Pair, theirs: Pair, renewed: Pair) returns (steps: seq<Step>)
    requires renewed.access.subject != mine.access.subject
    ensures Loads(Loaded(mine)) && IsRun(Loaded(mine), steps)
    ensures var t := After(Loaded(mine), steps).tab;
      |t.endings| == 1 && HeldAnothers(t.endings[0]) && SignedOut(t)
  {
    var w := Loaded(mine);
    ToAsked(mine, theirs);
    ToRefreshes(mine, theirs);
    ToReadsAgain(mine, theirs, renewed);
    ToEnded(mine, theirs, renewed);
    steps := [];
    OneMore(w, steps, StartCheck);
    steps := steps + [StartCheck];
    OneMore(w, steps, StoreElsewhere(Some(theirs)));
    steps := steps + [StoreElsewhere(Some(theirs))];
    OneMore(w, steps, Refused401(1));
    steps := steps + [Refused401(1)];
    OneMore(w, steps, AnswerRefresh(Issued(renewed)));
    steps := steps + [AnswerRefresh(Issued(renewed))];
    OneMore(w, steps, GoOn(1));
    steps := steps + [GoOn(1)];
    OneMore(w, steps, Refused401(1));
    steps := steps + [Refused401(1)];
  }

  // ── Every refresh that comes back as another member's ──

  lemma GoesOnReading(t: Tab, c: Check)
    requires c.generation == t.checksStarted && c.stage == Resuming(None) && t.access.Some?
    ensures RefreshResumed(t, c)
         == (t.(readsSent := t.readsSent + 1),
             c.(refreshNext := false, refreshed := true, epochAtStart := t.epoch, stage := Reading(t.readsSent + 1),
                strayed := t.access.value.subject != c.member))
  {
  }

  /** From wherever a run has come to: when the newest check's refresh has ended well with tokens in place, it reads the
      session again, and a 401 to that read signs out whoever's tokens they are: another member if and only if they are
      not the check's own member's. */
  lemma RefusedAfterItsRefresh(start: World, steps: seq<Step>, g: nat)
    requires Loads(start) && IsRun(start, steps)
    requires var w := After(start, steps);
      g in w.checks && g == w.tab.checksStarted && w.checks[g].stage == Resuming(None) && w.tab.access.Some?
    ensures var w := After(start, steps);
      && Enabled(w, GoOn(g)) && Enabled(Next(w, GoOn(g)), Refused401(g))
      && var end := Next(Next(w, GoOn(g)), Refused401(g)).tab;
         && SignedOut(end) && |end.endings| == |w.tab.endings| + 1
         && end.endings[|w.tab.endings|].held == w.tab.access
         && (HeldAnothers(end.endings[|w.tab.endings|]) <==> w.tab.access.value.subject != w.checks[g].member)
  {
    RunKeeps(start, steps);
    var w := After(start, steps);
    GoesOnReading(w.tab, w.checks[g]);
    var t, c := Next(w, GoOn(g)).tab, Next(w, GoOn(g)).checks[g];
    RefusalEnds(t, c, None, false);
    RefusalEndsWhoseTokensAreHeld(t, c, None, false);
  }

  // ── A refresh asked for with no token ──

  /** In a tab that once asked for a refresh with no token anywhere, a later sign-in works until its access token is
      first refused: its refresh token is never sent, and the session ends. */
  lemma StuckRefreshEndsLaterSessions(w: World, steps: seq<Step>, pair: Pair)
    requires w.tab.mutex == Free && RefreshTokenOf(w.tab).None? && IsRun(Next(w, AskRefresh), steps)
    ensures var before := After(Next(w, AskRefresh), steps);
      var g := before.tab.checksStarted + 1;
      var signedIn := Next(before, SignIn(pair));
      && Enabled(signedIn, Refused401(g))
      && var refused := Next(signedIn, Refused401(g));
        Enabled(refused, GoOn(g)) && SignedOut(Next(refused, GoOn(g)).tab)
  {
    StuckStays(Next(w, AskRefresh), steps);
    StuckSignIn(After(Next(w, AskRefresh), steps), pair);
  }

  lemma StuckSignIn(w: World, pair: Pair)
    requires w.tab.mutex == Stuck
    ensures var g := w.tab.checksStarted + 1;
      var signedIn := Next(w, SignIn(pair));
      && Enabled(signedIn, Refused401(g))
      && var refused := Next(signedIn, Refused401(g));
        Enabled(refused, GoOn(g)) && SignedOut(Next(refused, GoOn(g)).tab)
  {
    var g, t1 := w.tab.checksStarted + 1, Installed(w.tab, pair);
    var t2 := t1.(checksStarted := g, readsSent := t1.readsSent + 1);
    var c := Check(g, pair.access.subject, t1.epoch, false, false, 0, Reading(t2.readsSent), false);
    SignInReads(w, pair);
    var c2 := c.(refreshNext := true, stage := Resuming(Some(NO_REFRESH_TOKEN)));
    RefusedWhileStuck(t2, c);
    RefusalEnds(t2, c2, None, true);
  }

  lemma SignInReads(w: World, pair: Pair)
    ensures var g, t1 := w.tab.checksStarted + 1, Installed(w.tab, pair);
      && Next(w, SignIn(pair)).tab == t1.(checksStarted := g, readsSent := t1.readsSent + 1)
      && Next(w, SignIn(pair)).checks == w.checks[g := Check(g, pair.access.subject, t1.epoch, false, false, 0,
                                                            Reading(t1.readsSent + 1), false)]
  {
  }

  lemma RefusedWhileStuck(t: Tab, c: Check)
    requires t.mutex == Stuck && c.generation == t.checksStarted && t.access.Some? && t.epoch == c.epochAtStart
    requires c.stage.Reading? && !c.refreshed
    ensures ReadAnswered(t, c, Threw(OfRequest(UNAUTHORIZED)))
         == (t, c.(refreshNext := true, stage := Resuming(Some(NO_REFRESH_TOKEN))))
  {
  }
}
