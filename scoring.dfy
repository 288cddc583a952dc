/** Classification of a terminal reward into an episode outcome, and the
    three-way tally of outcomes over a run. */
module Scoring {

  datatype Outcome = Win | Draw | Loss

  /** The run tally: counters that start at zero and only grow. */
  datatype Tally = Tally(wins: nat, draws: nat, losses: nat)

  const EmptyTally: Tally := Tally(0, 0, 0)

  function Total(t: Tally): nat {
    t.wins + t.draws + t.losses
  }

  /** Componentwise order: no counter of `t` exceeds the one of `u`. */
  predicate Below(t: Tally, u: Tally) {
    t.wins <= u.wins && t.draws <= u.draws && t.losses <= u.losses
  }

  /** Disk-count mode: the reward is the white count when the protagonist plays
      white (side 1) and the black count otherwise; the other colour holds the
      rest of the board. The result is (white, black). */
  function DiskCounts(protagonist: int, boardSize: int, reward: int): (counts: (int, int))
    ensures counts.0 + counts.1 == boardSize * boardSize
    ensures protagonist == 1 ==> counts.0 == reward
    ensures protagonist != 1 ==> counts.1 == reward
  {
    var totalDisks := boardSize * boardSize;
    if protagonist == 1 then
      (reward, totalDisks - reward)
    else
      (totalDisks - reward, reward)
  }

  /** Disk-count mode as the runner scores it: white against black, on either side. */
  function ClassifyDiskCount(protagonist: int, boardSize: int, reward: int): (o: Outcome)
    ensures protagonist == 1 ==> (o == Win <==> 2 * reward > boardSize * boardSize)
    ensures protagonist != 1 ==> (o == Win <==> 2 * reward < boardSize * boardSize)
    ensures o == Draw <==> 2 * reward == boardSize * boardSize
  {
    var (white, black) := DiskCounts(protagonist, boardSize, reward);
    if white > black then Win
    else if white == black then Draw
    else Loss
  }

  /** The scored outcome depends on the white count alone: given the same
      board, the protagonist's side only changes which colour the reward counts. */
  lemma DiskCountScoresWhiteForEitherSide(boardSize: int, whiteCount: int)
    ensures ClassifyDiskCount(1, boardSize, whiteCount)
         == ClassifyDiskCount(-1, boardSize, boardSize * boardSize - whiteCount)
  {
  }

  /** A black protagonist holding 40 of the 64 disks is scored a loss; a white
      protagonist holding 40 wins, with 24 black disks left. */
  lemma DiskCountScenarios()
    ensures DiskCounts(1, 8, 40) == (40, 24) && ClassifyDiskCount(1, 8, 40) == Win
    ensures DiskCounts(-1, 8, 40) == (24, 40) && ClassifyDiskCount(-1, 8, 40) == Loss
  {
  }

  /** Binary mode: 1 is a win, 0 a draw, anything else a loss. */
  function ClassifyBinary(reward: int): (o: Outcome)
    ensures o == Win <==> reward == 1
    ensures o == Draw <==> reward == 0
    ensures o == Loss <==> reward != 0 && reward != 1
  {
    if reward == 1 then Win
    else if reward == 0 then Draw
    else Loss
  }

  /** The outcome of a terminal reward under the configured mode. */
  function Classify(numDiskAsReward: bool, protagonist: int, boardSize: int, reward: int): (o: Outcome)
    ensures !numDiskAsReward ==> (o == Win <==> reward == 1) && (o == Draw <==> reward == 0)
    ensures numDiskAsReward && protagonist == 1 ==> (o == Win <==> 2 * reward > boardSize * boardSize)
    ensures numDiskAsReward && protagonist != 1 ==> (o == Win <==> 2 * reward < boardSize * boardSize)
    ensures numDiskAsReward ==> (o == Draw <==> 2 * reward == boardSize * boardSize)
  {
    if numDiskAsReward then ClassifyDiskCount(protagonist, boardSize, reward)
    else ClassifyBinary(reward)
  }

  /** Counting one outcome increments exactly its own counter. */
  function Record(t: Tally, o: Outcome): (u: Tally)
    ensures Total(u) == Total(t) + 1
    ensures Below(t, u)
    ensures u.wins == t.wins + (if o == Win then 1 else 0)
    ensures u.draws == t.draws + (if o == Draw then 1 else 0)
    ensures u.losses == t.losses + (if o == Loss then 1 else 0)
  {
    match o
    case Win => t.(wins := t.wins + 1)
    case Draw => t.(draws := t.draws + 1)
    case Loss => t.(losses := t.losses + 1)
  }
}
