/** Run configuration: the side mapping, the render-mode override when a human
    plays, and the initialisation parameters handed to the environment and to
    the greedy and maximin policies. */
module Configuration {

  datatype Option<T> = None | Some(value: T)

  /** The render surfaces the command line accepts ('ansi', 'rgb_array', 'human'). */
  datatype RenderMode = Ansi | RgbArray | HumanSurface

  /** The dictionary `init_params` built by `play`. */
  datatype InitParams = InitParams(
    protagonist: int,
    boardSize: int,
    numDiskAsReward: bool,
    renderInStep: bool,
    renderMode: Option<RenderMode>)

  /** The side the protagonist plays: 1 is white, -1 is black. */
  function ProtagonistSide(playsWhite: bool): (side: int)
    ensures side == 1 || side == -1
    ensures side == 1 <==> playsWhite
  {
    if playsWhite then 1 else -1
  }

  predicate HumanPresent(protagonistType: string, opponentType: string) {
    protagonistType == "human" || opponentType == "human"
  }

  /** The requested render mode, replaced by the human surface only when a
      human agent plays and no mode was requested. */
  function ResolveRenderMode(protagonistType: string, opponentType: string,
                             requested: Option<RenderMode>): (mode: Option<RenderMode>)
    ensures HumanPresent(protagonistType, opponentType) && requested.None? ==> mode == Some(HumanSurface)
    ensures !(HumanPresent(protagonistType, opponentType) && requested.None?) ==> mode == requested
    ensures HumanPresent(protagonistType, opponentType) ==> mode.Some?
    ensures mode.None? <==> requested.None? && !HumanPresent(protagonistType, opponentType)
  {
    if (protagonistType == "human" || opponentType == "human") && requested.None? then
      Some(HumanSurface)
    else
      requested
  }

  /** Resolving a second time changes nothing. */
  lemma ResolveRenderModeIdempotent(protagonistType: string, opponentType: string,
                                    requested: Option<RenderMode>)
    ensures var once := ResolveRenderMode(protagonistType, opponentType, requested);
            ResolveRenderMode(protagonistType, opponentType, once) == once
  {
  }

  /** Per-step rendering: on only for a human opponent, and only when rendering is on. */
  function RenderInStep(opponentType: string, render: bool): (inStep: bool)
    ensures inStep <==> opponentType == "human" && render
  {
    var opponentIsHuman := opponentType == "human";
    opponentIsHuman && render
  }

  /** A human protagonist alone never switches on per-step rendering. */
  lemma HumanProtagonistNeverStepRenders(protagonist: int, opponentType: string, boardSize: int,
                                         numDiskAsReward: bool, render: bool,
                                         requested: Option<RenderMode>)
    requires opponentType != "human"
    ensures !ResolveInitParams(protagonist, "human", opponentType, boardSize,
                               numDiskAsReward, render, requested).renderInStep
  {
  }

  /** Per-step rendering always comes with a render surface. */
  lemma RenderInStepHasSurface(protagonistType: string, opponentType: string,
                               requested: Option<RenderMode>, render: bool)
    requires RenderInStep(opponentType, render)
    ensures ResolveRenderMode(protagonistType, opponentType, requested).Some?
  {
  }

  /** The `init_params` dictionary built at the start of `play`. */
  function ResolveInitParams(protagonist: int, protagonistType: string, opponentType: string,
                             boardSize: int, numDiskAsReward: bool, render: bool,
                             requested: Option<RenderMode>): (p: InitParams)
    ensures p.protagonist == protagonist && p.boardSize == boardSize
    ensures p.numDiskAsReward == numDiskAsReward
    ensures p.renderInStep <==> opponentType == "human" && render
    ensures p.renderMode == ResolveRenderMode(protagonistType, opponentType, requested)
    ensures HumanPresent(protagonistType, opponentType) ==> p.renderMode.Some?
    ensures p.renderInStep ==> p.renderMode.Some?
  {
    InitParams(protagonist, boardSize, numDiskAsReward,
               RenderInStep(opponentType, render),
               ResolveRenderMode(protagonistType, opponentType, requested))
  }
}
