/** Background scoring of agents (server/src/routes/agents.ts): scorings of one agent do not overlap, and the words of
    the last call that counted are the last ones scored. */
module Rescore {

  datatype Id = Id(name: string)

  datatype Agent = Agent(id: Id, words: string)

  /** `rescoring`: whose scoring is under way. `again`: what each of them is to be scored with afterwards. */
  datatype Scoring = Scoring(rescoring: set<Id>, again: map<Id, Agent>)

  predicate Drops(s: Scoring, agent: Agent, onlyIfIdle: bool) {
    agent.id in s.rescoring && onlyIfIdle
  }

  function Asked(s: Scoring, agent: Agent, onlyIfIdle: bool): Scoring {
    if agent.id !in s.rescoring then s.(rescoring := s.rescoring + {agent.id})
    else if onlyIfIdle then s
    else s.(again := s.again[agent.id := agent])
  }

  function Ended(s: Scoring, id: Id): Scoring {
    var s' := s.(rescoring := s.rescoring - {id});
    if id in s.again then Asked(s'.(again := s.again - {id}), s.again[id], false) else s'
  }

  class Rescorer {
    var rescoring: set<Id>
    var rescoreAgain: map<Id, Agent>

    function State(): Scoring
      reads this
    {
      Scoring(rescoring, rescoreAgain)
    }

    /** True when the agent's scoring starts now. */
    method RescoreInBackground(agent: Agent, onlyIfIdle: bool) returns (starts: bool)
      modifies this
      ensures State() == Asked(old(State()), agent, onlyIfIdle)
      ensures starts == (agent.id !in old(rescoring))
    {
      if agent.id in rescoring {
        if !onlyIfIdle {
          rescoreAgain := rescoreAgain[agent.id := agent];
        }
        return false;
      }
      rescoring := rescoring + {agent.id};
      return true;
    }

    method RescoringEnded(id: Id) returns (starts: bool)
      modifies this
      ensures State() == Ended(old(State()), id)
      ensures starts == (id in old(rescoreAgain) && old(rescoreAgain)[id].id !in old(rescoring) - {id})
    {
      rescoring := rescoring - {id};
      if id !in rescoreAgain {
        return false;
      }
      var again := rescoreAgain[id];
      rescoreAgain := rescoreAgain - {id};
      starts := RescoreInBackground(again, false);
    }
  }

  // ── Runs ──

  datatype Step = Call(agent: Agent, onlyIfIdle: bool) | Ends(id: Id)

  /** History: the rescorings in flight, the words each agent's last one started with, and the words of its last call
      that was not dropped. */
  datatype World = World(scoring: Scoring, inFlight: multiset<Id>, scored: map<Id, Agent>, wanted: map<Id, Agent>)

  predicate Enabled(w: World, step: Step) {
    step.Ends? ==> step.id in w.inFlight
  }

  function Started(w: World, agent: Agent): World {
    w.(inFlight := w.inFlight + multiset{agent.id}, scored := w.scored[agent.id := agent])
  }

  function Next(w: World, step: Step): World
    requires Enabled(w, step)
  {
    match step
    case Call(agent, onlyIfIdle) =>
      var called := w.(scoring := Asked(w.scoring, agent, onlyIfIdle),
                       wanted := if Drops(w.scoring, agent, onlyIfIdle) then w.wanted else w.wanted[agent.id := agent]);
      if agent.id in w.scoring.rescoring then called else Started(called, agent)
    case Ends(id) =>
      var ended := w.(scoring := Ended(w.scoring, id), inFlight := w.inFlight - multiset{id});
      if id in w.scoring.again then Started(ended, w.scoring.again[id]) else ended
  }

  ghost predicate IsRun(w: World, steps: seq<Step>)
    decreases |steps|
  {
    steps != [] ==> Enabled(w, steps[0]) && IsRun(Next(w, steps[0]), steps[1..])
  }

  function After(w: World, steps: seq<Step>): World
    requires IsRun(w, steps)
    decreases |steps|
  {
    if steps == [] then w else After(Next(w, steps[0]), steps[1..])
  }

  /** The words of the last call that counted are to be scored next, or were scored last. */
  predicate WordsInHand(w: World, id: Id)
    requires id in w.wanted
  {
    if id in w.scoring.again then w.scoring.again[id] == w.wanted[id]
    else id in w.scored && w.scored[id] == w.wanted[id]
  }

  ghost predicate Inv(w: World) {
    && (forall id :: w.inFlight[id] == if id in w.scoring.rescoring then 1 else 0)
    && (forall id :: id in w.scoring.again ==>
          id in w.scoring.rescoring && w.scoring.again[id].id == id && id in w.wanted)
    && (forall id :: id in w.wanted ==> WordsInHand(w, id))
  }

  lemma CallKeeps(w: World, step: Step)
    requires Inv(w) && step.Call?
    ensures Inv(Next(w, step))
  {
    var w' := Next(w, step);
    forall id | id in w'.wanted ensures WordsInHand(w', id) {
      assert id in w.wanted ==> WordsInHand(w, id);
    }
  }

  lemma EndKeeps(w: World, step: Step)
    requires Inv(w) && step.Ends? && Enabled(w, step)
    ensures Inv(Next(w, step))
  {
    var w' := Next(w, step);
    forall id | id in w'.wanted ensures WordsInHand(w', id) {
      assert WordsInHand(w, id);
    }
  }

  lemma StepKeeps(w: World, step: Step)
    requires Inv(w) && Enabled(w, step)
    ensures Inv(Next(w, step))
  {
    if step.Call? {
      CallKeeps(w, step);
    } else {
      EndKeeps(w, step);
    }
  }

  lemma {:induction false} RunKeeps(w: World, steps: seq<Step>)
    requires Inv(w) && IsRun(w, steps)
    ensures Inv(After(w, steps))
    decreases |steps|
  {
    if steps != [] {
      StepKeeps(w, steps[0]);
      RunKeeps(Next(w, steps[0]), steps[1..]);
    }
  }

  const IDLE := World(Scoring({}, map[]), multiset{}, map[], map[])

  /** Over every run, an agent is never scored twice at once, and the last scored words of one that is not being scored,
      whatever the others do, are those of its last call that was not dropped. */
  lemma LastWordsAreScored(steps: seq<Step>)
    requires IsRun(IDLE, steps)
    ensures var w := After(IDLE, steps);
      && (forall id :: w.inFlight[id] <= 1)
      && (forall id :: id in w.wanted && w.inFlight[id] == 0 ==> id in w.scored && w.scored[id] == w.wanted[id])
  {
    RunKeeps(IDLE, steps);
    var w := After(IDLE, steps);
    forall id | id in w.wanted ensures WordsInHand(w, id) {
    }
  }

  /** A call while its agent is being scored starts nothing: one that asks only if idle is dropped whole, and any
      other is what the agent is scored with next, in place of what was to be. */
  lemma CallDuringScoring(w: World, agent: Agent, onlyIfIdle: bool)
    requires Inv(w) && w.inFlight[agent.id] > 0
    ensures var after := Next(w, Call(agent, onlyIfIdle));
      if onlyIfIdle then after == w
      else
        && after.inFlight == w.inFlight && after.scored == w.scored && Enabled(after, Ends(agent.id))
        && var ended := Next(after, Ends(agent.id));
           ended.inFlight[agent.id] == 1 && agent.id in ended.scored && ended.scored[agent.id] == agent
  {
  }

  function Rank(s: Scoring): nat {
    |s.rescoring| + |s.again|
  }

  /** Calls apart, every rescoring that ends brings the work closer to its end: what is asked for during one
      rescoring is scored in one more. */
  lemma EndingDecreases(w: World, id: Id)
    requires Inv(w) && Enabled(w, Ends(id))
    ensures Rank(Next(w, Ends(id)).scoring) == Rank(w.scoring) - 1
  {
    var s := w.scoring;
    assert id in s.rescoring;
    if id in s.again {
      assert s.rescoring - {id} + {id} == s.rescoring;
      assert (s.again - {id}).Keys == s.again.Keys - {id};
    }
  }
}
