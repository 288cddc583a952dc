# Othello match runner — Dafny model

This project models the match-orchestration core of an Othello play script.
`create_policy` picks a policy variant from an agent-type token. `play`
resolves the render configuration when a human takes part, builds the two
policies and plays `num_rounds` episodes against the Othello environment.
On each turn it hands control to the protagonist's policy when the side to
move is the protagonist's, and otherwise to the opponent's. It scores the
terminal reward of every episode as a win, draw or loss, in disk-count mode
or binary mode, and counts the outcomes.

Modules, one per component:

- `Configuration` (`configuration.dfy`): the side mapping, the render-mode
  override, per-step rendering and the `init_params` record.
- `PolicyAdapter` (`policy_adapter.dfy`): the policy variants and the factory.
- `Scoring` (`scoring.dfy`): disk counts, both classification modes, and the
  tally with its `Record` step.
- `MatchRunner` (`match_runner.dfy`): the episode and run loops, which are
  imperative methods with loop invariants.
  - They are proved against specification functions: `RunTally` gives the
    final counters and `RunEvents` gives the trace of collaborator calls.
  - Lemmas about those functions state the per-step, per-episode and
    per-run properties.

The environment is a script rather than a simulator. It is a sequence of
episodes, and each episode is a sequence of `Step(playerTurn, reward, done)`
records: the side to move before the step, then the reward and done flag
the step returns. An episode the environment can produce ends at its first
`done` step (`WellFormedEpisode`). Each call on a collaborator is an
`Event` in the trace:

- `EnvReset`: a reset of the environment;
- `PolicyReset`: a reset of one policy;
- `Render`: a render;
- `Act(who)`: one `get_action` by `who` followed by one `step`.

Two behaviours of the code are modelled as written:

- Disk-count mode compares the white count with the black count whichever
  side the protagonist plays (run_ai.py:109). So a black protagonist is
  scored a win exactly when it holds fewer disks than half the board (see
  `Scoring.ClassifyDiskCount`, `Scoring.DiskCountScoresWhiteForEitherSide`
  and `Scoring.DiskCountScenarios`). The tally uses this scoring.
- The render mode is overridden with the human surface only when a human
  plays and no mode was requested (run_ai.py:51-54). A requested mode is
  kept even when a human plays.

The white+black == board_size² relation holds by construction, because the
other colour is computed from the reward. No check of the environment's
reward is modelled, since the code makes none.

## Model

| member | source | states |
|---|---|---|
| `Configuration.ProtagonistSide` | run_ai.py:153 | The side is 1 or -1, and it is 1 exactly when the protagonist plays white |
| `Configuration.ResolveRenderMode` | run_ai.py:51-54 | With a human agent and no requested mode, the result is the human surface. In every other case the requested mode is returned unchanged. The result is empty only when nothing was requested and no human plays |
| `Configuration.ResolveRenderModeIdempotent` | run_ai.py:51-54 | Resolving an already resolved mode changes nothing |
| `Configuration.RenderInStep` | run_ai.py:56-59 | Per-step rendering is on exactly when the opponent is human and rendering is enabled |
| `Configuration.HumanProtagonistNeverStepRenders` | run_ai.py:56-65 | With a human protagonist and an opponent that is not human, the resolved `init_params` has per-step rendering off |
| `Configuration.RenderInStepHasSurface` | run_ai.py:51-65 | Whenever per-step rendering is on, the resolved render mode exists |
| `Configuration.ResolveInitParams` | run_ai.py:61-67 | The record carries the protagonist side, board size and reward mode unchanged. Its render_in_step is the opponent-is-human-and-render rule, and its render mode is the resolved one. A human agent always gets a render mode |
| `PolicyAdapter.CreatePolicy` | run_ai.py:23-33 | 'rand' gives exactly Random(seed), 'greedy' exactly Greedy(init_p), and 'maximin' exactly MaxiMin(depth, init_p) with the depth unchanged. Every other token gives Human, in both directions |
| `PolicyAdapter.TokenOf` | run_ai.py:134-137 | Each variant maps back to one of the four command-line tokens |
| `PolicyAdapter.CreatePolicyTokenRoundTrip` | run_ai.py:25-32 | A recognised token maps back to itself after building. Any other token maps back to 'human' |
| `PolicyAdapter.CreatePolicyUsesOnlyItsParameters` | run_ai.py:25-32 | The seed reaches only Random and the depth only MaxiMin. init_p reaches only Greedy and MaxiMin. Human ignores all three |
| `PolicyAdapter.UnknownTokenIsHuman` | run_ai.py:31-32 | The tokens 'foo' and 'human' both build the human policy |
| `Scoring.DiskCounts` | run_ai.py:100-107 | White plus black is board_size². The reward is the white count for side 1 and the black count otherwise |
| `Scoring.ClassifyDiskCount` | run_ai.py:100-114 | For side 1: a win iff 2·reward > board_size². For any other side: a win iff 2·reward < board_size². A draw iff 2·reward == board_size² |
| `Scoring.DiskCountScoresWhiteForEitherSide` | run_ai.py:102-114 | The outcome depends on the white count alone: side 1 with reward w scores like side -1 with reward board_size² − w |
| `Scoring.DiskCountScenarios` | run_ai.py:100-114 | On an 8×8 board, reward 40 gives white 40 and black 24, a win for side 1. For side -1 it gives white 24 and black 40, a loss |
| `Scoring.ClassifyBinary` | run_ai.py:115-121 | Reward 1 iff Win, 0 iff Draw, any other value iff Loss |
| `Scoring.Classify` | run_ai.py:100-121 | The mode flag selects the scoring. In binary mode: a win iff reward 1 and a draw iff reward 0. In disk-count mode: the thresholds on 2·reward against board_size² for each side |
| `Scoring.Record` | run_ai.py:109-121 | Exactly the counter of the given outcome grows by one. The total grows by one and no counter decreases |
| `MatchRunner.Rounds` | run_ai.py:83 | The number of episodes `range(num_rounds)` runs: zero exactly when the count is zero or negative, the count itself otherwise |
| `MatchRunner.TurnEvents` | run_ai.py:91-97 | A turn is one action by the dispatched policy, followed by one render exactly when rendering is on and the step is not terminal |
| `MatchRunner.StepsEvents` | run_ai.py:91-125 | Defines the calls a sequence of turns makes: each turn's events, in step order |
| `MatchRunner.EpisodeStart` | run_ai.py:85-89 | An episode starts with the environment reset, then the protagonist's and the opponent's policy resets. A fourth event, a render, follows exactly when rendering is on |
| `MatchRunner.EpisodeEvents` | run_ai.py:85-125 | An episode's calls begin with the three resets, followed by its start render (if any) and its turns |
| `MatchRunner.RunEvents` | run_ai.py:83-125 | Defines the calls a run makes: the episodes' events one after another |
| `MatchRunner.Dispatches` | run_ai.py:91-97 | The k-th entry is the dispatch of step k's side to move, one entry per step |
| `MatchRunner.EpisodeOutcome` | run_ai.py:98-121 | An episode is scored from its terminal step's reward. In binary mode: a win iff that reward is 1 and a draw iff it is 0. In disk-count mode: a draw iff twice the reward is board_size² |
| `MatchRunner.RunTally` | run_ai.py:82-121 | Defines the tally after a run: empty at the start, then one `Record` of each episode's outcome in order. Its total and monotonicity are the two lemmas below |
| `MatchRunner.Dispatch` | run_ai.py:92-97 | The protagonist gets the turn exactly when its side equals the side to move |
| `MatchRunner.TurnCounts` | run_ai.py:91-125 | A turn resets nothing. It renders once exactly when rendering is on and the step is not terminal |
| `MatchRunner.TurnActs` | run_ai.py:91-97 | A turn calls exactly one policy, the dispatched one |
| `MatchRunner.StartCounts` | run_ai.py:85-89 | An episode start resets the environment and each policy once. It renders once when rendering is on and not at all otherwise |
| `MatchRunner.StartActs` | run_ai.py:85-89 | No policy acts during an episode start |
| `MatchRunner.OpenStepsCounts` | run_ai.py:123-125 | The non-terminal steps render once each when rendering is on. They reset nothing |
| `MatchRunner.StepsActs` | run_ai.py:91-97 | The acting policies of a sequence of turns are, step by step, the dispatch of each step's side to move. The check is redone at every turn |
| `MatchRunner.EpisodeCounts` | run_ai.py:85-125 | An episode resets each collaborator once. With rendering on it renders as many times as it has steps (one after the reset, one per non-terminal step). With rendering off it never renders |
| `MatchRunner.EpisodeActs` | run_ai.py:91-97 | Exactly one policy acts per step of an episode: the protagonist's iff it is the protagonist's turn. The episode's last event is the terminal step's action, so the terminal step is never rendered |
| `MatchRunner.RunCounts` | run_ai.py:83-125 | Over the run, each reset event occurs once per episode. Renders occur as many times as there are steps when rendering is on, and never otherwise |
| `MatchRunner.RunDispatches` | run_ai.py:83-97 | The run's dispatches, one per step: each episode's `Dispatches`, episode after episode |
| `MatchRunner.RunActs` | run_ai.py:83-97 | Over the run, the acting policies are exactly `RunDispatches`, in order, so there are as many acting calls as steps |
| `MatchRunner.RunFacts` | run_ai.py:83-125 | Over the run: one environment reset per episode, as many acting calls as steps, and as many renders as steps when rendering is on (none when it is off) |
| `MatchRunner.RunTallyTotal` | run_ai.py:82-121 | The three counters, which start at 0, sum to the number of episodes played |
| `MatchRunner.RunTallyMonotone` | run_ai.py:82-121 | The tally after any prefix of the run is componentwise below the final tally, so counters never decrease |
| `MatchRunner.BinaryScenario` | run_ai.py:115-117 | In binary mode with side -1, one episode ending with reward 1 gives the tally (1, 0, 0) |
| `MatchRunner.CountTerminal` | run_ai.py:100-121 | The literal if-chains of both modes leave the counters equal to the incoming ones with the outcome from `Scoring.Classify` recorded, so exactly one counter grows by one |
| `MatchRunner.PlayEpisode` | run_ai.py:85-125 | One episode leaves the counters equal to the incoming ones with its terminal outcome recorded. Its trace is the reset and render prologue followed by each turn's dispatched action and non-terminal render |
| `MatchRunner.Play` | run_ai.py:36-128 | The run builds init_params and both policies from the factory with each side's depth and the shared seed. It plays `range(num_rounds)` episodes. The returned tally is `RunTally` of the script and sums to the episode count. The trace is `RunEvents` of the script |

## Left out

- The Othello environment (`gymnasium`, `othello_ai`): board rules, move generation and rewards are a foreign call. The environment is a script of steps. The observation passed to `get_action` is never inspected by the runner and is not modelled. Neither is the action passed to `step`: the script fixes each step's result.
- The policy internals (`simple_policies_ai`): random choice, greedy evaluation, minimax search and human input are foreign calls. A policy is a value recording its construction parameters. Its action is the scripted step.
- Episodes that never terminate: a script holds only episodes that end with a `done` step.
- Argument parsing and the `__main__` block, apart from the side mapping `ProtagonistSide`: this is I/O.
- All `print` output and `env.close()`: this is I/O. The tally is returned from `Play` instead of printed.
- `env_init_rand_steps`: `play` accepts it and never uses it.
- Default parameter values of `create_policy` and `play` (run_ai.py:23-24, 37-47): `CreatePolicy` and `Play` take every argument explicitly. The only call site (run_ai.py:156-167) passes every argument, so no behaviour depends on a default.
- The `truncated` and `info` results of `step`: the runner ignores them.
- Reward values are integers. A floating-point reward is not modelled.
- `MatchRunner.Play`: its inner `while not done` loop is the separate method `MatchRunner.PlayEpisode`, called once per round, and the terminal scoring inside that loop is the method `MatchRunner.CountTerminal`. The counters are threaded through their parameters. Apart from that split, the order of calls and the in-loop scoring follow the code.
- Collaborator failures: an exception raised by `env.reset`, `env.step`, `render` or `get_action` is not caught in `play` (run_ai.py:83-128 has no `try`). It aborts the run, and the tally is never printed. The model's collaborators cannot fail, so `Play` always returns a tally.
