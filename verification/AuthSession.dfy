/** One tab's session: the checks that read it, the refresh they share, and what an answer may change
    (client/src/stores/authStore.ts). Each `await` ends a step: between two steps anything else may happen. */
module AuthSession {
  import opened Option
  import opened AuthFailures

  datatype Member = Member(id: string)

  /** The signed-in member as the session answers them. */
  datatype User = User(member: Member, profile: string)

  /** An access token, of which only whose it is (when it can be read) matters here. */
  datatype Access = Access(serial: nat, subject: Option<Member>)

  datatype Pair = Pair(access: Access, refresh: nat)

  /** The shared refresh: none; a request out with this refresh token, the second try or the first; or the rejected
      promise that was stored after it had already been let go of. */
  datatype Mutex = Free | Out(token: nat, second: bool) | Stuck

  /** Where a check is. `Resuming`: the refresh it awaited has ended like this, and it has yet to go on. */
  datatype Stage = Reading(read: nat) | Refreshing | Resuming(error: Option<RefreshError>) | Waiting | Done

  /** `strayed` is the model's own note: the tokens in place when its own refresh ended were another member's, and the
      epoch it goes by is theirs. */
  datatype Check = Check(generation: nat, member: Option<Member>, epochAtStart: nat, refreshNext: bool, refreshed: bool,
                         passingFailures: nat, stage: Stage, strayed: bool)

  /** A session a check ended: what refused it, and whose tokens the tab held. */
  datatype Ending = Ending(check: Check, definitive: bool, held: Option<Access>)

  /** An answer put in place, with the number of its read. */
  datatype Accepted = Accepted(read: nat, user: User)

  /** The last two fields are history: the answers put in place, and the sessions ended by a check. */
  datatype Tab = Tab(access: Option<Access>, refresh: Option<nat>, user: Option<User>, signedIn: bool, loading: bool,
                     checked: bool, retrying: bool, reason: Option<string>, stored: Option<Pair>,
                     epoch: nat, readsSent: nat, newestInPlace: nat, checksStarted: nat, mutex: Mutex,
                     accepted: seq<Accepted>, endings: seq<Ending>)

  datatype Verdict = This | Gone | Another

  datatype Answer = Answered(user: User) | Threw(thrown: Thrown)

  // ── The pieces of a check ──

  /** The owner of the tokens held, as this check sees it, and the check with its epoch brought up to date. */
  function SessionNow(t: Tab, c: Check): (Verdict, Check) {
    if t.access.None? then (Gone, c)
    else if t.epoch == c.epochAtStart then (This, c)
    else if c.member.None? || t.access.value.subject != c.member then (Another, c)
    else (This, c.(epochAtStart := t.epoch, strayed := false))
  }

  function StopWaiting(t: Tab): Tab {
    t.(loading := false, checked := true, retrying := false)
  }

  function EndSessionHere(t: Tab): Tab {
    t.(stored := None, loading := false, signedIn := false, user := None, retrying := false, access := None,
       refresh := None, checked := true)
  }

  function EndBlockedSession(t: Tab, reason: string): Tab {
    t.(stored := None, user := None, access := None, refresh := None, signedIn := false, loading := false,
       checked := true, reason := Some(reason))
  }

  /** What a refusal does: sign this tab out, except when the tokens in place have become another member's. */
  function Refused(t: Tab, c: Check, blocked: Option<string>, definitive: bool): Tab {
    var (verdict, c') := SessionNow(t, c);
    if verdict == Another then StopWaiting(t)
    else
      (if blocked.Some? then EndBlockedSession(t, blocked.value) else EndSessionHere(t))
      .(endings := t.endings + [Ending(c', definitive, t.access)])
  }

  function RefreshTokenOf(t: Tab): Option<nat> {
    if t.stored.Some? then Some(t.stored.value.refresh) else t.refresh
  }

  /** Asking for a refresh joins the one on its way. With no token to be found the attempt is over before its promise is
      stored, and that rejected promise is what stays. */
  function RefreshAsked(t: Tab): Tab {
    if t.mutex != Free then t
    else if RefreshTokenOf(t).Some? then t.(mutex := Out(RefreshTokenOf(t).value, false))
    else t.(mutex := Stuck)
  }

  /** The head of the check's loop, up to its next await or its end. */
  function LoopHead(t: Tab, c: Check): (Tab, Check) {
    if c.generation != t.checksStarted then (t, c.(stage := Done))
    else
      var (verdict, c') := SessionNow(t, c);
      if verdict != This then (StopWaiting(t), c'.(stage := Done))
      else if c'.refreshNext then
        var asked := RefreshAsked(t);
        (asked, c'.(stage := if asked.mutex == Stuck then Resuming(Some(NO_REFRESH_TOKEN)) else Refreshing))
      else
        (t.(readsSent := t.readsSent + 1), c'.(stage := Reading(t.readsSent + 1)))
  }

  function MayPutInPlace(t: Tab, read: nat): bool {
    read >= t.newestInPlace
  }

  function PutInPlace(t: Tab, read: nat, user: User): Tab {
    t.(newestInPlace := read, user := Some(user), accepted := t.accepted + [Accepted(read, user)])
  }

  /** An answer to a read: put in place when it is the newest session's own, newer than what is there. */
  function ReadLanded(t: Tab, c: Check, read: nat, user: User): (Tab, Check) {
    if c.generation != t.checksStarted then (t, c.(stage := Done))
    else
      var (verdict, c') := SessionNow(t, c);
      if verdict != This then (StopWaiting(t), c'.(stage := Done))
      else
        var here := t.(signedIn := true, loading := false, checked := true, retrying := false);
        (if MayPutInPlace(t, read) then PutInPlace(here, read, user) else here, c'.(stage := Done))
  }

  const RETRIES_WITH_A_MEMBER := 3

  /** A failure that may pass: waited out, unless the session is no longer this one or a member in place has waited
      enough. */
  function Passing(t: Tab, c: Check, f: Option<Failure>): (Tab, Check) {
    if f.Some? && !IsPassingFailure(f.value) then (StopWaiting(t), c.(stage := Done))
    else
      var (verdict, c') := SessionNow(t, c);
      if verdict != This || (t.user.Some? && c.passingFailures >= RETRIES_WITH_A_MEMBER) then
        (StopWaiting(t), c'.(stage := Done))
      else
        (if t.user.None? then t.(retrying := true) else t,
         c'.(passingFailures := c.passingFailures + 1, stage := Waiting))
  }

  function FailureCame(t: Tab, c: Check, thrown: Thrown): (Tab, Check) {
    if c.generation != t.checksStarted then (t, c.(stage := Done))
    else match thrown
      case OfRefresh(error) =>
        if error.definitive then (Refused(t, c, error.accountBlocked, true), c.(stage := Done))
        else Passing(t, c, error.cause)
      case OfRequest(failure) =>
        if failure.status == Some(401) then
          if c.refreshed then (Refused(t, c, None, false), c.(stage := Done))
          else LoopHead(t, c.(refreshNext := true))
        else Passing(t, c, Some(failure))
  }

  // ── The steps of a check ──

  function NewCheck(t: Tab): Check
    requires t.access.Some?
  {
    Check(t.checksStarted, t.access.value.subject, t.epoch, false, false, 0, Done, false)
  }

  /** A check starts: the older ones are superseded from here on. Without tokens there is nobody to ask about. */
  function CheckStarted(t: Tab): (Tab, Option<Check>) {
    var t' := t.(checksStarted := t.checksStarted + 1);
    if t.access.None? then
      (t'.(loading := false, signedIn := false, user := None, checked := true, retrying := false), None)
    else
      var (after, c) := LoopHead(t', NewCheck(t'));
      (after, Some(c))
  }

  function ReadAnswered(t: Tab, c: Check, answer: Answer): (Tab, Check)
    requires c.stage.Reading?
  {
    match answer
    case Answered(user) => ReadLanded(t, c, c.stage.read, user)
    case Threw(thrown) => FailureCame(t, c, thrown)
  }

  /** The check goes on after the refresh it awaited. */
  function RefreshResumed(t: Tab, c: Check): (Tab, Check)
    requires c.stage.Resuming?
  {
    match c.stage.error
    case None =>
      LoopHead(t, c.(refreshNext := false, refreshed := true, epochAtStart := t.epoch,
                     strayed := t.access.Some? && t.access.value.subject != c.member))
    case Some(error) => FailureCame(t, c, OfRefresh(error))
  }

  function WaitEnded(t: Tab, c: Check): (Tab, Check) {
    LoopHead(t, c)
  }

  // ── The steps of the refresh, and the rest of the tab ──

  function Installed(t: Tab, pair: Pair): Tab {
    t.(stored := Some(pair), epoch := t.epoch + 1, access := Some(pair.access), refresh := Some(pair.refresh),
       signedIn := true, reason := None)
  }

  datatype RefreshAnswer = Issued(pair: Pair) | Refusal(failure: Failure)

  /** The request's answer: a token another tab has rotated is tried once more with the newest; otherwise the refresh is
      over, and this is how. */
  function RefreshAnswered(t: Tab, answer: RefreshAnswer): (Tab, Option<Option<RefreshError>>)
    requires t.mutex.Out?
  {
    match answer
    case Issued(pair) => (Installed(t, pair).(mutex := Free), Some(None))
    case Refusal(failure) =>
      if !t.mutex.second && failure.status == Some(401) && BlockedCodeOf(failure).None?
         && t.stored.Some? && t.stored.value.refresh != t.mutex.token then
        (t.(mutex := Out(t.stored.value.refresh, true)), None)
      else (t.(mutex := Free), Some(Some(RefreshErrorFrom(failure))))
  }

  /** Everyone who awaited the refresh hears how it ended. */
  function Heard(c: Check, ended: Option<RefreshError>): Check {
    if c.stage == Refreshing then c.(stage := Resuming(ended)) else c
  }

  /** Tokens another tab stored are taken into memory. */
  function Adopted(t: Tab): Tab {
    if t.stored.None? then t
    else
      t.(epoch := t.epoch + 1, access := Some(t.stored.value.access), refresh := Some(t.stored.value.refresh),
         signedIn := true)
  }

  function LoggedOut(t: Tab): Tab {
    t.(stored := None, user := None, access := None, refresh := None, signedIn := false, loading := false)
  }

  /** Another tab logged out: this one follows, its storage being already empty. */
  function FollowedOut(t: Tab): Tab {
    if t.signedIn then t.(user := None, access := None, refresh := None, signedIn := false, loading := false) else t
  }

  /** The session read again for the member shown: put in place when it is that member's and no newer answer is. */
  function Reread(t: Tab, read: nat, answer: Option<User>): Tab {
    if answer.None? || !t.signedIn || t.user.None? || t.user.value.member != answer.value.member then t
    else if !MayPutInPlace(t, read) then t
    else PutInPlace(t, read, answer.value)
  }
}
