/** What the battle engine of server.js exchanges with its environment:
    the deferred work it leaves behind (timers and the continuations of
    handlers after their first database call) and the messages it sends to
    connections. */
module Events {
  import opened Wrappers

  /** A round of a battle, as the source addresses it: `(battleId, roundNumber)`. */
  datatype RoundKey = RoundKey(id: string, round: int)

  /** Deferred work. The environment fires pending tasks one at a time, in any order. */
  datatype Task =
    | StartRoundDue(key: RoundKey)   // startRound(id, n), 3000 ms after pairing or 8000/5000 ms after scoring
    | SubmitResumes(key: RoundKey)   // the rest of submit_roast, once the submission is written
    | ScoreDue(key: RoundKey)        // scoreRound(id, n), 1000 ms after both submissions are in
    | TimeoutDue(key: RoundKey)      // the auto-score timer, round duration + 5000 ms after round start
    | EndBattleDue(id: string)       // endBattle(id), 8000/5000 ms after the last round is scored

  datatype Label = You | Opponent

  datatype Verdict = Win | Lose

  /** Messages to one connection (`to` is its socket id). */
  datatype Outbound =
    | Matched(to: string, battleId: string, opponentUserId: string, mode: string)
    | RoundStart(to: string, battleId: string, round: int, prompt: Option<string>, duration: int)
    | OpponentRoast(to: string, round: int, roast: string, mode: string)
    | RoundScored(to: string, round: int,
                  yourScore: int, yourBreakdown: Option<string>,
                  opponentScore: int, opponentBreakdown: Option<string>,
                  commentary: string, winner: Label)
    | OpponentDisconnected(to: string)
    | Ended(to: string, yourScore: int, opponentScore: int, result: Verdict, earnings: real, prizePool: int)
}
