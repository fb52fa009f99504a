/** What every run of a tab's session keeps: which sessions end, which answers are put in place, and that a check
    ends. */
module AuthRuns {
  import opened Option
  import opened AuthFailures
  import opened AuthSession

  /** `rereads`: the reads of rereadSession still on their way. */
  datatype World = World(tab: Tab, checks: map<nat, Check>, rereads: set<nat>)

  datatype Step =
    | StartCheck
    | AnswerRead(check: nat, answer: Answer)
    | GoOn(check: nat)
    | EndWait(check: nat)
    | AskRefresh
    | AnswerRefresh(refreshed: RefreshAnswer)
    | SignIn(pair: Pair)
    | StoreElsewhere(stored: Option<Pair>)
    | Adopt
    | LogOut
    | FollowOut
    | Block(reason: string)
    | StartReread
    | AnswerReread(read: nat, session: Option<User>)

  predicate Enabled(w: World, step: Step) {
    match step
    case AnswerRead(g, _) => g in w.checks && w.checks[g].stage.Reading?
    case GoOn(g) => g in w.checks && w.checks[g].stage.Resuming?
    case EndWait(g) => g in w.checks && w.checks[g].stage.Waiting?
    case AnswerRefresh(_) => w.tab.mutex.Out?
    case AnswerReread(read, _) => read in w.rereads
    case _ => true
  }

  /** The steps a check makes itself, when what it awaited has come. */
  predicate IsOwn(step: Step) {
    step.AnswerRead? || step.GoOn? || step.EndWait?
  }

  function Own(w: World, step: Step): (Tab, Check)
    requires IsOwn(step) && Enabled(w, step)
  {
    match step
    case AnswerRead(g, answer) => ReadAnswered(w.tab, w.checks[g], answer)
    case GoOn(g) => RefreshResumed(w.tab, w.checks[g])
    case EndWait(g) => WaitEnded(w.tab, w.checks[g])
  }

  function Starting(w: World): World {
    var (tab, c) := CheckStarted(w.tab);
    w.(tab := tab, checks := if c.Some? then w.checks[tab.checksStarted := c.value] else w.checks)
  }

  function Next(w: World, step: Step): World
    requires Enabled(w, step)
  {
    match step
    case StartCheck => Starting(w)
    case AnswerRead(_, _) => w.(tab := Own(w, step).0, checks := w.checks[step.check := Own(w, step).1])
    case GoOn(_) => w.(tab := Own(w, step).0, checks := w.checks[step.check := Own(w, step).1])
    case EndWait(_) => w.(tab := Own(w, step).0, checks := w.checks[step.check := Own(w, step).1])
    case AskRefresh => w.(tab := RefreshAsked(w.tab))
    case AnswerRefresh(answer) =>
      var (tab, ended) := RefreshAnswered(w.tab, answer);
      w.(tab := tab,
         checks := if ended.Some? then map g | g in w.checks :: Heard(w.checks[g], ended.value) else w.checks)
    // A sign-in installs its tokens and starts a check in one go, and so does adopting another tab's.
    case SignIn(pair) => Starting(w.(tab := Installed(w.tab, pair)))
    case StoreElsewhere(stored) => w.(tab := w.tab.(stored := stored))
    case Adopt => if w.tab.stored.None? then w else Starting(w.(tab := Adopted(w.tab)))
    case LogOut => w.(tab := LoggedOut(w.tab))
    case FollowOut => w.(tab := FollowedOut(w.tab))
    case Block(reason) => w.(tab := EndBlockedSession(w.tab, reason))
    case StartReread =>
      w.(tab := w.tab.(readsSent := w.tab.readsSent + 1), rereads := w.rereads + {w.tab.readsSent + 1})
    case AnswerReread(read, session) => w.(tab := Reread(w.tab, read, session), rereads := w.rereads - {read})
  }

  ghost predicate IsRun(w: World, steps: seq<Step>)
    decreases |steps|
  {
    steps != [] ==> Enabled(w, steps[0]) && IsRun(Next(w, steps[0]), steps[1..])
  }

  function After(w: World, steps: seq<Step>): World
    requires IsRun(w, steps)
    decreases |steps|
  {
    if steps == [] then w else After(Next(w, steps[0]), steps[1..])
  }

  /** A tab as it loads: nothing asked yet, its tokens whatever storage holds. */
  predicate Loads(w: World) {
    var t := w.tab;
    && w.checks == map[] && w.rereads == {}
    && t.user.None? && t.epoch == 0 && t.readsSent == 0 && t.newestInPlace == 0 && t.checksStarted == 0
    && t.mutex == Free && t.accepted == [] && t.endings == []
    && (if t.stored.Some? then t.access == Some(t.stored.value.access) && t.refresh == Some(t.stored.value.refresh)
        else t.access.None? && t.refresh.None?)
  }

  // ── Session answers never regress ──

  ghost predicate Increasing(accepted: seq<Accepted>) {
    forall i, j :: 0 <= i < j < |accepted| ==> accepted[i].read < accepted[j].read
  }

  ghost predicate WasAccepted(t: Tab, read: nat) {
    exists i :: 0 <= i < |t.accepted| && t.accepted[i].read == read
  }

  /** The newest answer put in place is the last one accepted, and the member shown is its. */
  predicate ShowsTheNewest(t: Tab) {
    && t.newestInPlace == (if t.accepted == [] then 0 else t.accepted[|t.accepted| - 1].read)
    && (t.user.Some? ==> t.accepted != [] && t.user.value == t.accepted[|t.accepted| - 1].user)
  }

  predicate Awaits(w: World, g: nat, read: nat) {
    g in w.checks && w.checks[g].stage == Reading(read)
  }

  ghost predicate Unused(t: Tab, read: nat) {
    0 < read <= t.readsSent && !WasAccepted(t, read)
  }

  /** Each number is given to one read, and put in place at most once. */
  ghost predicate ReadsInv(w: World) {
    && Increasing(w.tab.accepted) && ShowsTheNewest(w.tab) && w.tab.newestInPlace <= w.tab.readsSent
    && (forall read: nat :: read in w.rereads ==> Unused(w.tab, read))
    && (forall g: nat, read: nat :: Awaits(w, g, read) ==> Unused(w.tab, read) && read !in w.rereads)
    && (forall g: nat, h: nat, read: nat :: Awaits(w, g, read) && Awaits(w, h, read) ==> g == h)
  }

  predicate SameNumbers(t: Tab, t': Tab) {
    t'.readsSent == t.readsSent && t'.newestInPlace == t.newestInPlace && t'.accepted == t.accepted
    && (t'.user == t.user || t'.user.None?)
  }

  /** A step of a check sends the next read, puts in place the one it awaited, or leaves the numbers as they are. */
  predicate NumbersMove(t: Tab, before: Stage, t': Tab, after: Stage) {
    if after.Reading? then
      after.read == t.readsSent + 1 && SameNumbers(t.(readsSent := t.readsSent + 1), t')
    else
      || SameNumbers(t, t')
      || (before.Reading? && Accepts(t, before.read, t'))
  }

  predicate Accepts(t: Tab, read: nat, t': Tab) {
    && read >= t.newestInPlace && t'.newestInPlace == read && t'.readsSent == t.readsSent
    && t'.user.Some? && t'.accepted == t.accepted + [Accepted(read, t'.user.value)]
  }

  lemma LoopHeadMoves(t: Tab, c: Check)
    ensures NumbersMove(t, c.stage, LoopHead(t, c).0, LoopHead(t, c).1.stage)
  {
  }

  lemma PassingMoves(t: Tab, c: Check, f: Option<Failure>)
    ensures SameNumbers(t, Passing(t, c, f).0) && !Passing(t, c, f).1.stage.Reading?
  {
  }

  lemma RefusedMoves(t: Tab, c: Check, blocked: Option<string>, definitive: bool)
    ensures SameNumbers(t, Refused(t, c, blocked, definitive))
  {
  }

  lemma FailureMoves(t: Tab, c: Check, thrown: Thrown)
    ensures NumbersMove(t, c.stage, FailureCame(t, c, thrown).0, FailureCame(t, c, thrown).1.stage)
  {
    if c.generation == t.checksStarted {
      match thrown
      case OfRefresh(error) =>
        RefusedMoves(t, c, error.accountBlocked, true);
        PassingMoves(t, c, error.cause);
      case OfRequest(failure) =>
        RefusedMoves(t, c, None, false);
        PassingMoves(t, c, Some(failure));
        LoopHeadMoves(t, c.(refreshNext := true));
    }
  }

  lemma ReadAnsweredMoves(t: Tab, c: Check, answer: Answer)
    requires c.stage.Reading?
    ensures NumbersMove(t, c.stage, ReadAnswered(t, c, answer).0, ReadAnswered(t, c, answer).1.stage)
  {
    if answer.Threw? {
      FailureMoves(t, c, answer.thrown);
    }
  }

  lemma ResumedMoves(t: Tab, c: Check)
    requires c.stage.Resuming?
    ensures NumbersMove(t, c.stage, RefreshResumed(t, c).0, RefreshResumed(t, c).1.stage)
  {
    match c.stage.error
    case None =>
      LoopHeadMoves(t, c.(refreshNext := false, refreshed := true, epochAtStart := t.epoch,
                          strayed := t.access.Some? && t.access.value.subject != c.member));
    case Some(error) => FailureMoves(t, c, OfRefresh(error));
  }

  /** Accepting a number not yet used keeps the accepted ones increasing, and shows the newest. */
  lemma AcceptingIncreases(t: Tab, read: nat, t': Tab)
    requires Increasing(t.accepted) && ShowsTheNewest(t) && Unused(t, read) && Accepts(t, read, t')
    ensures Increasing(t'.accepted) && ShowsTheNewest(t') && WasAccepted(t', read)
    ensures forall other :: WasAccepted(t', other) ==> WasAccepted(t, other) || other == read
  {
    assert t'.accepted[|t.accepted|].read == read;
    if t.accepted != [] {
      assert t.accepted[|t.accepted| - 1].read != read;
    }
  }

  /** No number is taken twice while the ones taken are let go of as they are accepted. */
  lemma CheckKeepsReads(w: World, g: nat, before: Stage, t': Tab, c': Check)
    requires ReadsInv(w) && NumbersMove(w.tab, before, t', c'.stage)
    requires before.Reading? ==> Awaits(w, g, before.read)
    ensures ReadsInv(w.(tab := t', checks := w.checks[g := c']))
  {
    var w' := w.(tab := t', checks := w.checks[g := c']);
    var t := w.tab;
    assert forall h: nat, read: nat :: h != g && Awaits(w', h, read) ==> Awaits(w, h, read);
    if SameNumbers(t, t') || c'.stage.Reading? {
      assert forall read :: WasAccepted(t', read) == WasAccepted(t, read);
      if c'.stage.Reading? && WasAccepted(t, c'.stage.read) {
        NewestIsLast(t, c'.stage.read);
      }
    } else {
      AcceptingIncreases(t, before.read, t');
    }
  }

  lemma NewestIsLast(t: Tab, read: nat)
    requires Increasing(t.accepted) && ShowsTheNewest(t) && WasAccepted(t, read)
    ensures read <= t.newestInPlace
  {
    var i :| 0 <= i < |t.accepted| && t.accepted[i].read == read;
    assert i == |t.accepted| - 1 || t.accepted[i].read < t.accepted[|t.accepted| - 1].read;
  }

  lemma StartingMoves(t: Tab)
    ensures var (t', c) := CheckStarted(t); NumbersMove(t, Done, t', if c.Some? then c.value.stage else Done)
  {
    if t.access.Some? {
      var t1 := t.(checksStarted := t.checksStarted + 1);
      LoopHeadMoves(t1, NewCheck(t1));
    }
  }

  /** A change of the tab that touches no number. */
  lemma QuietKeepsReads(w: World, w': World)
    requires ReadsInv(w) && SameNumbers(w.tab, w'.tab) && w'.rereads == w.rereads
    requires forall g: nat, read: nat :: Awaits(w', g, read) ==> Awaits(w, g, read)
    ensures ReadsInv(w')
  {
    assert forall read :: WasAccepted(w'.tab, read) == WasAccepted(w.tab, read);
  }

  lemma StartingKeepsReads(w: World)
    requires ReadsInv(w)
    ensures ReadsInv(Starting(w))
  {
    StartingMoves(w.tab);
    var (t', c) := CheckStarted(w.tab);
    if c.Some? {
      CheckKeepsReads(w, t'.checksStarted, Done, t', c.value);
    } else {
      QuietKeepsReads(w, Starting(w));
    }
  }

  lemma RereadKeepsReads(w: World, step: Step)
    requires ReadsInv(w) && Enabled(w, step) && (step.StartReread? || step.AnswerReread?)
    ensures ReadsInv(Next(w, step))
  {
    var w' := Next(w, step);
    assert forall g: nat, read: nat :: Awaits(w', g, read) == Awaits(w, g, read);
    if step.AnswerReread? && Accepts(w.tab, step.read, w'.tab) {
      AcceptingIncreases(w.tab, step.read, w'.tab);
    } else {
      assert forall read :: WasAccepted(w'.tab, read) == WasAccepted(w.tab, read);
      if WasAccepted(w.tab, w.tab.readsSent + 1) {
        NewestIsLast(w.tab, w.tab.readsSent + 1);
      }
    }
  }

  lemma OwnMoves(w: World, step: Step)
    requires IsOwn(step) && Enabled(w, step)
    ensures NumbersMove(w.tab, w.checks[step.check].stage, Own(w, step).0, Own(w, step).1.stage)
  {
    match step
    case AnswerRead(g, answer) => ReadAnsweredMoves(w.tab, w.checks[g], answer);
    case GoOn(g) => ResumedMoves(w.tab, w.checks[g]);
    case EndWait(g) => LoopHeadMoves(w.tab, w.checks[g]);
  }

  lemma StepKeepsReads(w: World, step: Step)
    requires ReadsInv(w) && Enabled(w, step)
    ensures ReadsInv(Next(w, step))
  {
    if IsOwn(step) {
      OwnMoves(w, step);
      CheckKeepsReads(w, step.check, w.checks[step.check].stage, Own(w, step).0, Own(w, step).1);
    } else {
      OtherStepKeepsReads(w, step);
    }
  }

  lemma OtherStepKeepsReads(w: World, step: Step)
    requires ReadsInv(w) && Enabled(w, step) && !IsOwn(step)
    ensures ReadsInv(Next(w, step))
  {
    if step.StartCheck? {
      StartingKeepsReads(w);
    } else if step.SignIn? {
      var w1 := w.(tab := Installed(w.tab, step.pair));
      QuietKeepsReads(w, w1);
      StartingKeepsReads(w1);
    } else if step.Adopt? && w.tab.stored.Some? {
      var w1 := w.(tab := Adopted(w.tab));
      QuietKeepsReads(w, w1);
      StartingKeepsReads(w1);
    } else if step.StartReread? || step.AnswerReread? {
      RereadKeepsReads(w, step);
    } else {
      QuietStepKeepsReads(w, step);
    }
  }

  /** The steps that send and put in place no read. */
  lemma QuietStepKeepsReads(w: World, step: Step)
    requires ReadsInv(w) && Enabled(w, step) && !IsOwn(step)
    requires !step.StartCheck? && !step.SignIn? && !(step.Adopt? && w.tab.stored.Some?)
    requires !step.StartReread? && !step.AnswerReread?
    ensures ReadsInv(Next(w, step))
  {
    QuietKeepsReads(w, Next(w, step));
  }

  lemma {:induction false} RunKeepsReads(w: World, steps: seq<Step>)
    requires ReadsInv(w) && IsRun(w, steps)
    ensures ReadsInv(After(w, steps))
    decreases |steps|
  {
    if steps != [] {
      StepKeepsReads(w, steps[0]);
      RunKeepsReads(Next(w, steps[0]), steps[1..]);
    }
  }

  /** However a run mixes checks, re-reads, refreshes and sign-ins, the answers put in place are of ever newer reads,
      and the member shown is the newest answer's. */
  lemma AnswersNeverRegress(w: World, steps: seq<Step>)
    requires Loads(w) && IsRun(w, steps)
    ensures Increasing(After(w, steps).tab.accepted) && ShowsTheNewest(After(w, steps).tab)
  {
    RunKeepsReads(w, steps);
  }
}
