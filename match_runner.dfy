/** The match runner: episodes played against a scripted environment, turn
    dispatch to the side to move, rendering, and the win/draw/loss tally. */
module MatchRunner {
  import opened Configuration
  import opened PolicyAdapter
  import opened Scoring

  /** One environment step as the runner observes it: the side to move before
      the step, and the reward and termination flag the step returns. */
  datatype Step = Step(playerTurn: int, reward: int, done: bool)

  datatype Agent = Protagonist | Opponent

  /** What the runner asks of its collaborators, in order. `Act(who)` is one
      call of `who`'s `get_action` followed by one environment step. */
  datatype Event = EnvReset | PolicyReset(who: Agent) | Render | Act(who: Agent)

  /** An episode the environment can produce: it ends at its first `done` step. */
  predicate WellFormedEpisode(e: seq<Step>) {
    |e| > 0 && e[|e| - 1].done && forall k :: 0 <= k < |e| - 1 ==> !e[k].done
  }

  predicate WellFormedScript(script: seq<seq<Step>>) {
    forall i :: 0 <= i < |script| ==> WellFormedEpisode(script[i])
  }

  /** Number of episodes `range(numRounds)` runs: none for a negative count. */
  function Rounds(numRounds: int): (n: nat)
    ensures n == 0 <==> numRounds <= 0
    ensures numRounds >= 0 ==> n == numRounds
  {
    if numRounds < 0 then 0 else numRounds
  }

  /** The agent the runner hands a turn to. */
  function Dispatch(protagonist: int, playerTurn: int): (who: Agent)
    ensures who == Protagonist <==> protagonist == playerTurn
  {
    if protagonist == playerTurn then Protagonist else Opponent
  }

  /** Events of one turn: the acting policy, then a render unless the step ended the episode. */
  function TurnEvents(protagonist: int, render: bool, s: Step): (r: seq<Event>)
    ensures 1 <= |r| <= 2 && r[0] == Act(Dispatch(protagonist, s.playerTurn))
    ensures |r| == 2 <==> render && !s.done
    ensures forall k :: 1 <= k < |r| ==> r[k] == Render
  {
    [Act(Dispatch(protagonist, s.playerTurn))] + (if render && !s.done then [Render] else [])
  }

  /** Events of a sequence of turns, in order. */
  function StepsEvents(protagonist: int, render: bool, steps: seq<Step>): (r: seq<Event>)
    decreases |steps|
  {
    if |steps| == 0 then []
    else StepsEvents(protagonist, render, steps[..|steps| - 1])
         + TurnEvents(protagonist, render, steps[|steps| - 1])
  }

  /** Events at the start of an episode: reset, both policy resets, one render if enabled. */
  function EpisodeStart(render: bool): (r: seq<Event>)
    ensures |r| == (if render then 4 else 3)
    ensures r[..3] == [EnvReset, PolicyReset(Protagonist), PolicyReset(Opponent)]
    ensures render ==> r[3] == Render
  {
    [EnvReset, PolicyReset(Protagonist), PolicyReset(Opponent)] + (if render then [Render] else [])
  }

  /** Events of one episode: its start, then its turns. */
  function EpisodeEvents(protagonist: int, render: bool, e: seq<Step>): (r: seq<Event>)
    ensures |r| >= 3
    ensures r[..3] == [EnvReset, PolicyReset(Protagonist), PolicyReset(Opponent)]
  {
    EpisodeStart(render) + StepsEvents(protagonist, render, e)
  }

  /** Events of the whole run: the episodes' events one after the other. */
  function RunEvents(protagonist: int, render: bool, script: seq<seq<Step>>): (r: seq<Event>)
    decreases |script|
  {
    if |script| == 0 then []
    else RunEvents(protagonist, render, script[..|script| - 1])
         + EpisodeEvents(protagonist, render, script[|script| - 1])
  }

  /** The outcome of an episode, scored from the reward of its terminal step. */
  function EpisodeOutcome(numDiskAsReward: bool, protagonist: int, boardSize: int, e: seq<Step>): (o: Outcome)
    requires |e| > 0
    ensures !numDiskAsReward ==> (o == Win <==> e[|e| - 1].reward == 1)
    ensures !numDiskAsReward ==> (o == Draw <==> e[|e| - 1].reward == 0)
    ensures numDiskAsReward ==> (o == Draw <==> 2 * e[|e| - 1].reward == boardSize * boardSize)
  {
    Classify(numDiskAsReward, protagonist, boardSize, e[|e| - 1].reward)
  }

  /** The tally after the episodes of `script`: one outcome recorded per episode. */
  function RunTally(numDiskAsReward: bool, protagonist: int, boardSize: int,
                    script: seq<seq<Step>>): (t: Tally)
    requires WellFormedScript(script)
    decreases |script|
  {
    if |script| == 0 then EmptyTally
    else Record(RunTally(numDiskAsReward, protagonist, boardSize, script[..|script| - 1]),
                EpisodeOutcome(numDiskAsReward, protagonist, boardSize, script[|script| - 1]))
  }

  function TotalSteps(script: seq<seq<Step>>): nat
    decreases |script|
  {
    if |script| == 0 then 0 else TotalSteps(script[..|script| - 1]) + |script[|script| - 1]|
  }

  /** How often `ev` occurs in `events`. */
  function Count(ev: Event, events: seq<Event>): nat
    decreases |events|
  {
    if |events| == 0 then 0
    else Count(ev, events[..|events| - 1]) + (if events[|events| - 1] == ev then 1 else 0)
  }

  /** The agents of the `Act` events, in order. */
  function Acts(events: seq<Event>): seq<Agent>
    decreases |events|
  {
    if |events| == 0 then []
    else Acts(events[..|events| - 1]) + ActOf(events[|events| - 1])
  }

  function ActOf(ev: Event): seq<Agent> {
    if ev.Act? then [ev.who] else []
  }

  /** The agent each step of `steps` is dispatched to, step by step. */
  function Dispatches(protagonist: int, steps: seq<Step>): (ws: seq<Agent>)
    ensures |ws| == |steps|
    ensures forall k :: 0 <= k < |steps| ==> ws[k] == Dispatch(protagonist, steps[k].playerTurn)
    decreases |steps|
  {
    if |steps| == 0 then []
    else Dispatches(protagonist, steps[..|steps| - 1]) + [Dispatch(protagonist, steps[|steps| - 1].playerTurn)]
  }

  lemma {:induction false} CountConcat(ev: Event, a: seq<Event>, b: seq<Event>)
    ensures Count(ev, a + b) == Count(ev, a) + Count(ev, b)
    decreases |b|
  {
    if |b| == 0 {
      assert a + b == a;
    } else {
      var n := |b| - 1;
      assert (a + b)[..|a + b| - 1] == a + b[..n];
      assert (a + b)[|a + b| - 1] == b[n];
      CountConcat(ev, a, b[..n]);
    }
  }

  lemma {:induction false} ActsConcat(a: seq<Event>, b: seq<Event>)
    ensures Acts(a + b) == Acts(a) + Acts(b)
    decreases |b|
  {
    if |b| == 0 {
      assert a + b == a;
    } else {
      var n := |b| - 1;
      assert (a + b)[..|a + b| - 1] == a + b[..n];
      assert (a + b)[|a + b| - 1] == b[n];
      ActsConcat(a, b[..n]);
    }
  }

  lemma Single(ev: Event, x: Event)
    ensures Count(ev, [x]) == if x == ev then 1 else 0
    ensures Acts([x]) == ActOf(x)
  {
  }

  /** The events a turn or the start of an episode can raise besides `Act`. */
  predicate Housekeeping(ev: Event) {
    ev == Render || ev == EnvReset || ev == PolicyReset(Protagonist) || ev == PolicyReset(Opponent)
  }

  /** A turn acts once and raises no reset; it renders once exactly when
      rendering is on and the step is not terminal. */
  lemma TurnCounts(protagonist: int, render: bool, s: Step, ev: Event)
    requires Housekeeping(ev)
    ensures Count(ev, TurnEvents(protagonist, render, s))
            == (if ev == Render && render && !s.done then 1 else 0)
  {
    var act := Act(Dispatch(protagonist, s.playerTurn));
    var rest: seq<Event> := if render && !s.done then [Render] else [];
    assert TurnEvents(protagonist, render, s) == [act] + rest;
    Single(ev, act);
    CountConcat(ev, [act], rest);
    if render && !s.done {
      Single(ev, Render);
    }
  }

  lemma TurnActs(protagonist: int, render: bool, s: Step)
    ensures Acts(TurnEvents(protagonist, render, s)) == [Dispatch(protagonist, s.playerTurn)]
  {
    var act := Act(Dispatch(protagonist, s.playerTurn));
    var rest: seq<Event> := if render && !s.done then [Render] else [];
    assert TurnEvents(protagonist, render, s) == [act] + rest;
    Single(Render, act);
    ActsConcat([act], rest);
    if render && !s.done {
      Single(Render, Render);
    }
  }

  /** The start of an episode resets each collaborator once and renders once if enabled. */
  lemma StartCounts(render: bool, ev: Event)
    requires Housekeeping(ev)
    ensures Count(ev, EpisodeStart(render)) == (if ev == Render then (if render then 1 else 0) else 1)
  {
    var a, b, c := [EnvReset], [PolicyReset(Protagonist)], [PolicyReset(Opponent)];
    var rest: seq<Event> := if render then [Render] else [];
    assert EpisodeStart(render) == ((a + b) + c) + rest;
    CountConcat(ev, a, b);
    CountConcat(ev, a + b, c);
    CountConcat(ev, (a + b) + c, rest);
    Single(ev, EnvReset);
    Single(ev, PolicyReset(Protagonist));
    Single(ev, PolicyReset(Opponent));
    if render {
      Single(ev, Render);
    }
  }

  lemma StartActs(render: bool)
    ensures Acts(EpisodeStart(render)) == []
  {
    var a, b, c := [EnvReset], [PolicyReset(Protagonist)], [PolicyReset(Opponent)];
    var rest: seq<Event> := if render then [Render] else [];
    assert EpisodeStart(render) == ((a + b) + c) + rest;
    ActsConcat(a, b);
    ActsConcat(a + b, c);
    ActsConcat((a + b) + c, rest);
    Single(Render, EnvReset);
    Single(Render, PolicyReset(Protagonist));
    Single(Render, PolicyReset(Opponent));
    if render {
      Single(Render, Render);
    }
  }

  /** Within the steps before the terminal one, each turn renders once when
      rendering is on and no turn resets anything. */
  lemma {:induction false} OpenStepsCounts(protagonist: int, render: bool, steps: seq<Step>, ev: Event)
    requires forall k :: 0 <= k < |steps| ==> !steps[k].done
    requires Housekeeping(ev)
    ensures Count(ev, StepsEvents(protagonist, render, steps)) == (if ev == Render && render then |steps| else 0)
    decreases |steps|
  {
    if |steps| > 0 {
      var n := |steps| - 1;
      OpenStepsCounts(protagonist, render, steps[..n], ev);
      TurnCounts(protagonist, render, steps[n], ev);
      CountConcat(ev, StepsEvents(protagonist, render, steps[..n]), TurnEvents(protagonist, render, steps[n]));
    }
  }

  /** The acting agents of a sequence of turns are exactly the dispatched ones. */
  lemma {:induction false} StepsActs(protagonist: int, render: bool, steps: seq<Step>)
    ensures Acts(StepsEvents(protagonist, render, steps)) == Dispatches(protagonist, steps)
    decreases |steps|
  {
    if |steps| > 0 {
      var n := |steps| - 1;
      StepsActs(protagonist, render, steps[..n]);
      TurnActs(protagonist, render, steps[n]);
      ActsConcat(StepsEvents(protagonist, render, steps[..n]), TurnEvents(protagonist, render, steps[n]));
    }
  }

  /** One episode: one environment reset and one reset of each policy; with
      rendering on, one render after the reset and one per non-terminal step
      (so as many renders as steps), none otherwise. */
  lemma EpisodeCounts(protagonist: int, render: bool, e: seq<Step>, ev: Event)
    requires WellFormedEpisode(e)
    requires Housekeeping(ev)
    ensures Count(ev, EpisodeEvents(protagonist, render, e))
            == (if ev == Render then (if render then |e| else 0) else 1)
  {
    var n := |e| - 1;
    assert e[..n + 1] == e;
    OpenStepsCounts(protagonist, render, e[..n], ev);
    TurnCounts(protagonist, render, e[n], ev);
    StartCounts(render, ev);
    var open := StepsEvents(protagonist, render, e[..n]);
    var last := TurnEvents(protagonist, render, e[n]);
    CountConcat(ev, EpisodeStart(render), open + last);
    CountConcat(ev, open, last);
  }

  /** One episode: one acting policy per step, the protagonist's exactly when
      it is the protagonist's turn, and the terminal step is the last thing
      that happens (it is not rendered). */
  lemma EpisodeActs(protagonist: int, render: bool, e: seq<Step>)
    requires WellFormedEpisode(e)
    ensures Acts(EpisodeEvents(protagonist, render, e)) == Dispatches(protagonist, e)
    ensures EpisodeEvents(protagonist, render, e)[|EpisodeEvents(protagonist, render, e)| - 1]
            == Act(Dispatch(protagonist, e[|e| - 1].playerTurn))
  {
    StartActs(render);
    StepsActs(protagonist, render, e);
    ActsConcat(EpisodeStart(render), StepsEvents(protagonist, render, e));
  }

  /** Over the run: one environment reset and one reset of each policy per
      episode, and as many renders as steps when rendering is on, none otherwise. */
  lemma {:induction false} RunCounts(protagonist: int, render: bool, script: seq<seq<Step>>, ev: Event)
    requires WellFormedScript(script)
    requires Housekeeping(ev)
    ensures Count(ev, RunEvents(protagonist, render, script))
            == (if ev == Render then (if render then TotalSteps(script) else 0) else |script|)
    decreases |script|
  {
    if |script| > 0 {
      var n := |script| - 1;
      RunCounts(protagonist, render, script[..n], ev);
      EpisodeCounts(protagonist, render, script[n], ev);
      CountConcat(ev, RunEvents(protagonist, render, script[..n]), EpisodeEvents(protagonist, render, script[n]));
    }
  }

  /** The agents the steps of a run are dispatched to: each episode's
      dispatches, episode after episode. */
  function RunDispatches(protagonist: int, script: seq<seq<Step>>): (ws: seq<Agent>)
    ensures |ws| == TotalSteps(script)
    decreases |script|
  {
    if |script| == 0 then []
    else RunDispatches(protagonist, script[..|script| - 1]) + Dispatches(protagonist, script[|script| - 1])
  }

  /** Over the run, one policy acts per step, and the acting policies are the
      per-step dispatches of every episode in order. */
  lemma {:induction false} RunActs(protagonist: int, render: bool, script: seq<seq<Step>>)
    requires WellFormedScript(script)
    ensures Acts(RunEvents(protagonist, render, script)) == RunDispatches(protagonist, script)
    ensures |Acts(RunEvents(protagonist, render, script))| == TotalSteps(script)
    decreases |script|
  {
    if |script| > 0 {
      var n := |script| - 1;
      RunActs(protagonist, render, script[..n]);
      EpisodeActs(protagonist, render, script[n]);
      ActsConcat(RunEvents(protagonist, render, script[..n]), EpisodeEvents(protagonist, render, script[n]));
    }
  }

  /** The whole run: one reset per episode, as many renders as steps when
      rendering is on and none otherwise, and one acting policy per step. */
  lemma RunFacts(protagonist: int, render: bool, script: seq<seq<Step>>)
    requires WellFormedScript(script)
    ensures Count(Render, RunEvents(protagonist, render, script)) == (if render then TotalSteps(script) else 0)
    ensures Count(EnvReset, RunEvents(protagonist, render, script)) == |script|
    ensures |Acts(RunEvents(protagonist, render, script))| == TotalSteps(script)
  {
    RunCounts(protagonist, render, script, Render);
    RunCounts(protagonist, render, script, EnvReset);
    RunActs(protagonist, render, script);
  }

  /** Every episode adds exactly one outcome: the tally sums to the number of episodes. */
  lemma {:induction false} RunTallyTotal(numDiskAsReward: bool, protagonist: int, boardSize: int,
                                         script: seq<seq<Step>>)
    requires WellFormedScript(script)
    ensures Total(RunTally(numDiskAsReward, protagonist, boardSize, script)) == |script|
    decreases |script|
  {
    if |script| > 0 {
      RunTallyTotal(numDiskAsReward, protagonist, boardSize, script[..|script| - 1]);
    }
  }

  /** Counters never decrease: the tally after any prefix of the run is below the final one. */
  lemma {:induction false} RunTallyMonotone(numDiskAsReward: bool, protagonist: int, boardSize: int,
                                            script: seq<seq<Step>>, k: nat)
    requires WellFormedScript(script)
    requires k <= |script|
    ensures Below(RunTally(numDiskAsReward, protagonist, boardSize, script[..k]),
                  RunTally(numDiskAsReward, protagonist, boardSize, script))
    decreases |script|
  {
    if k < |script| {
      var n := |script| - 1;
      assert script[..n][..k] == script[..k];
      RunTallyMonotone(numDiskAsReward, protagonist, boardSize, script[..n], k);
    } else {
      assert script[..k] == script;
    }
  }

  /** Binary mode, black protagonist, one episode ending with reward 1: one win. */
  lemma BinaryScenario(playerTurn: int)
    ensures RunTally(false, -1, 8, [[Step(playerTurn, 1, true)]]) == Tally(1, 0, 0)
  {
    var script := [[Step(playerTurn, 1, true)]];
    assert script[..0] == [];
    assert EpisodeOutcome(false, -1, 8, script[0]) == Win;
  }

  /** Scores a terminal reward under the configured mode and increments exactly
      the counter of its outcome. */
  method CountTerminal(protagonist: int, boardSize: int, numDiskAsReward: bool, reward: int,
                       winsIn: nat, drawsIn: nat, lossesIn: nat)
    returns (winCnts: nat, drawCnts: nat, loseCnts: nat)
    ensures Tally(winCnts, drawCnts, loseCnts)
            == Record(Tally(winsIn, drawsIn, lossesIn), Classify(numDiskAsReward, protagonist, boardSize, reward))
  {
    winCnts, drawCnts, loseCnts := winsIn, drawsIn, lossesIn;
    if numDiskAsReward {
      var totalDisks := boardSize * boardSize;
      var whiteCnts, blackCnts;
      if protagonist == 1 {
        whiteCnts := reward;
        blackCnts := totalDisks - whiteCnts;
      } else {
        blackCnts := reward;
        whiteCnts := totalDisks - blackCnts;
      }
      if whiteCnts > blackCnts {
        winCnts := winCnts + 1;
      } else if whiteCnts == blackCnts {
        drawCnts := drawCnts + 1;
      } else {
        loseCnts := loseCnts + 1;
      }
    } else {
      if reward == 1 {
        winCnts := winCnts + 1;
      } else if reward == 0 {
        drawCnts := drawCnts + 1;
      } else {
        loseCnts := loseCnts + 1;
      }
    }
  }

  /** Plays one episode from its reset: turns go to the side to move until a
      step reports `done`, and that step's reward increments exactly one of
      the counters. `trace` is what the episode asks of its collaborators. */
  method PlayEpisode(protagonist: int, boardSize: int, numDiskAsReward: bool, render: bool,
                     episode: seq<Step>, winsIn: nat, drawsIn: nat, lossesIn: nat)
    returns (winCnts: nat, drawCnts: nat, loseCnts: nat, trace: seq<Event>)
    requires WellFormedEpisode(episode)
    ensures Tally(winCnts, drawCnts, loseCnts)
            == Record(Tally(winsIn, drawsIn, lossesIn),
                      EpisodeOutcome(numDiskAsReward, protagonist, boardSize, episode))
    ensures trace == EpisodeEvents(protagonist, render, episode)
  {
    winCnts, drawCnts, loseCnts := winsIn, drawsIn, lossesIn;
    trace := [EnvReset, PolicyReset(Protagonist), PolicyReset(Opponent)];
    if render {
      trace := trace + [Render];
    }
    ghost var outcome := EpisodeOutcome(numDiskAsReward, protagonist, boardSize, episode);
    var done := false;
    var j := 0;
    while !done
      invariant 0 <= j <= |episode|
      invariant done <==> j == |episode|
      invariant trace == EpisodeStart(render) + StepsEvents(protagonist, render, episode[..j])
      invariant !done ==> winCnts == winsIn && drawCnts == drawsIn && loseCnts == lossesIn
      invariant done ==> Tally(winCnts, drawCnts, loseCnts) == Record(Tally(winsIn, drawsIn, lossesIn), outcome)
      decreases |episode| - j
    {
      var step := episode[j];
      if protagonist == step.playerTurn {
        trace := trace + [Act(Protagonist)];
      } else {
        trace := trace + [Act(Opponent)];
      }
      var reward := step.reward;
      done := step.done;
      assert episode[..j + 1][..j] == episode[..j];
      assert StepsEvents(protagonist, render, episode[..j + 1])
          == StepsEvents(protagonist, render, episode[..j]) + TurnEvents(protagonist, render, step);
      j := j + 1;
      if done {
        assert outcome == Classify(numDiskAsReward, protagonist, boardSize, reward);
        winCnts, drawCnts, loseCnts :=
          CountTerminal(protagonist, boardSize, numDiskAsReward, reward, winCnts, drawCnts, loseCnts);
      } else {
        if render {
          trace := trace + [Render];
        }
      }
    }
    assert episode[..j] == episode;
  }

  /** Plays the run: resolves the configuration, builds both policies, then
      plays each scripted episode, dispatching every turn to the side to move
      and scoring the terminal reward. The environment and the policies'
      decisions are the script; `events` records every collaborator call. */
  method Play(protagonist: int, protagonistType: string, opponentType: string,
              boardSize: int, numRounds: int, protagonistDepth: int, opponentDepth: int,
              seed: int, numDiskAsReward: bool, render: bool,
              requestedMode: Option<RenderMode>, script: seq<seq<Step>>)
    returns (initP: InitParams, protagonistPolicy: Policy, opponentPolicy: Policy,
             tally: Tally, events: seq<Event>)
    requires |script| == Rounds(numRounds)
    requires WellFormedScript(script)
    ensures initP == ResolveInitParams(protagonist, protagonistType, opponentType, boardSize,
                                       numDiskAsReward, render, requestedMode)
    ensures protagonistPolicy == CreatePolicy(protagonistType, seed, protagonistDepth, initP)
    ensures opponentPolicy == CreatePolicy(opponentType, seed, opponentDepth, initP)
    ensures tally == RunTally(numDiskAsReward, protagonist, boardSize, script)
    ensures Total(tally) == |script|
    ensures events == RunEvents(protagonist, render, script)
  {
    initP := ResolveInitParams(protagonist, protagonistType, opponentType, boardSize,
                               numDiskAsReward, render, requestedMode);
    protagonistPolicy := CreatePolicy(protagonistType, seed, protagonistDepth, initP);
    opponentPolicy := CreatePolicy(opponentType, seed, opponentDepth, initP);

    var winCnts: nat, drawCnts: nat, loseCnts: nat := 0, 0, 0;
    events := [];
    var i := 0;
    while i < numRounds
      invariant 0 <= i <= |script|
      invariant events == RunEvents(protagonist, render, script[..i])
      invariant Tally(winCnts, drawCnts, loseCnts) == RunTally(numDiskAsReward, protagonist, boardSize, script[..i])
    {
      var trace;
      winCnts, drawCnts, loseCnts, trace :=
        PlayEpisode(protagonist, boardSize, numDiskAsReward, render, script[i], winCnts, drawCnts, loseCnts);
      events := events + trace;
      assert script[..i + 1][..i] == script[..i];
      i := i + 1;
    }
    assert script[..i] == script;
    tally := Tally(winCnts, drawCnts, loseCnts);
    RunTallyTotal(numDiskAsReward, protagonist, boardSize, script);
  }
}
