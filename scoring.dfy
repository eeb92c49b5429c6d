/** The outcome of `scoreRound` in server.js: build the judge's request
    from the round's record, judge it (or fall back to random scores when
    judging throws), tell each player their own and their opponent's score
    with a `you`/`opponent` winner label, and schedule what comes next. */
module Scoring {
  import opened Wrappers
  import Config
  import opened Judge
  import opened Battles
  import opened Events

  const NoRoast: string := "No roast submitted"
  const DefaultPrompt: string := "General roast"
  const Unavailable: string := "AI judging temporarily unavailable"

  /** `round.player<slot>?.roast || "No roast submitted"`. */
  function RoastText(e: RoundEntry, slot: int): (r: string)
    ensures r == NoRoast <==> slot !in e.submissions || e.submissions[slot].roast in {"", NoRoast}
    ensures r != NoRoast ==> r == e.submissions[slot].roast
  {
    if slot in e.submissions && e.submissions[slot].roast != "" then e.submissions[slot].roast else NoRoast
  }

  /** The judge's request; `storedPrompt` is the prompt read back from the
      rounds table (None when the read yields nothing), with `|| "General roast"`. */
  function Request(e: RoundEntry, storedPrompt: Option<string>): (r: JudgeRequest)
    ensures r.prompt == DefaultPrompt <==> storedPrompt.None? || storedPrompt.value in {"", DefaultPrompt}
    ensures r.prompt != DefaultPrompt ==> storedPrompt.Some? && r.prompt == storedPrompt.value
    ensures storedPrompt.Some? && storedPrompt.value != "" ==> r.prompt == storedPrompt.value
    ensures r.roast1 == RoastText(e, 1) && r.roast2 == RoastText(e, 2)
  {
    var prompt := if storedPrompt.Some? && storedPrompt.value != "" then storedPrompt.value else DefaultPrompt;
    JudgeRequest(prompt, RoastText(e, 1), RoastText(e, 2))
  }

  /** Everything `scoreRound` takes from outside: the stored prompt, the
      model call, the JSON parser, and the values `Math.random` yields for
      the tie-break bonus and the two fallback scores. */
  datatype Judging = Judging(
    storedPrompt: Option<string>,
    complete: JudgeRequest -> Option<string>,
    parse: string -> Option<ScoreCard>,
    bonus: int, fallback1: int, fallback2: int)

  /** `Math.floor(Math.random() * 5) + 1` and `Math.floor(Math.random() * 50) + 50`. */
  predicate WellFormed(j: Judging)
  {
    1 <= j.bonus <= 5 && 50 <= j.fallback1 < 100 && 50 <= j.fallback2 < 100
  }

  /** The label the player at `index` receives. */
  function WinnerLabel(score1: int, score2: int, index: int): (r: Label)
    ensures r == You <==> (index == 0 && score1 > score2) || (index == 1 && score1 <= score2)
  {
    if score1 > score2 then (if index == 0 then You else Opponent)
    else (if index == 1 then You else Opponent)
  }

  /** The two players always receive opposite labels; player 1 is told
      `you` exactly when its score is strictly greater. */
  lemma LabelsOpposite(score1: int, score2: int)
    ensures WinnerLabel(score1, score2, 0) != WinnerLabel(score1, score2, 1)
    ensures WinnerLabel(score1, score2, 0) == You <==> score1 > score2
    ensures WinnerLabel(score1, score2, 1) == You <==> score1 <= score2
  {
  }

  /** One `battle:round_scored` per player, in player order, each with the
      scores swapped into "yours" and "the opponent's". */
  function Notices(b: Battle, round: int, score1: int, score2: int,
                   breakdown1: Option<string>, breakdown2: Option<string>, commentary: string): (r: seq<Outbound>)
    ensures |r| == 2 && r[0].RoundScored? && r[1].RoundScored?
    ensures r[0].to == b.player1.socketId && r[1].to == b.player2.socketId
    ensures r[0].yourScore == r[1].opponentScore == score1 && r[1].yourScore == r[0].opponentScore == score2
    ensures r[0].yourBreakdown == r[1].opponentBreakdown == breakdown1
    ensures r[1].yourBreakdown == r[0].opponentBreakdown == breakdown2
    ensures r[0].round == r[1].round == round && r[0].commentary == r[1].commentary == commentary
    ensures r[0].winner != r[1].winner && (r[0].winner == You <==> score1 > score2)
  {
    LabelsOpposite(score1, score2);
    [RoundScored(b.player1.socketId, round, score1, breakdown1, score2, breakdown2, commentary, WinnerLabel(score1, score2, 0)),
     RoundScored(b.player2.socketId, round, score2, breakdown2, score1, breakdown1, commentary, WinnerLabel(score1, score2, 1))]
  }

  /** The judged scores of the round, or None when judging threw
      (reading a roast from a round without a record throws too). */
  function Judged(b: Battle, round: int, j: Judging): (r: Option<ScoreCard>)
    requires WellFormed(j)
    ensures r.Some? ==> round in b.rounds && r.value.roast1Score != r.value.roast2Score
    ensures round in b.rounds ==>
      r == ScoreRoasts(Request(b.rounds[round], j.storedPrompt), j.complete, j.parse, j.bonus)
  {
    if round in b.rounds then ScoreRoasts(Request(b.rounds[round], j.storedPrompt), j.complete, j.parse, j.bonus)
    else None
  }

  /** What the players are told about the round. */
  function RoundOutcome(b: Battle, round: int, j: Judging): (r: seq<Outbound>)
    requires WellFormed(j)
    ensures |r| == 2 && r[0].RoundScored? && r[1].RoundScored?
    ensures r[0].to == b.player1.socketId && r[1].to == b.player2.socketId
    ensures r[0].round == r[1].round == round
    ensures Judged(b, round, j).Some? ==>
      r[0].yourScore == Judged(b, round, j).value.roast1Score &&
      r[1].yourScore == Judged(b, round, j).value.roast2Score &&
      r[0].commentary == Judged(b, round, j).value.commentary
    ensures Judged(b, round, j).None? ==>
      r[0].yourScore == j.fallback1 && r[1].yourScore == j.fallback2 && r[0].commentary == Unavailable &&
      r[0].yourBreakdown.None? && r[1].yourBreakdown.None?
  {
    match Judged(b, round, j)
    case Some(s) =>
      Notices(b, round, s.roast1Score, s.roast2Score, Some(s.roast1Breakdown), Some(s.roast2Breakdown), s.commentary)
    case None =>
      Notices(b, round, j.fallback1, j.fallback2, None, None, Unavailable)
  }

  /** A judged round always has exactly one winner, and the players' scores
      are the judge's (after the tie-break). */
  lemma JudgedRoundHasOneWinner(b: Battle, round: int, j: Judging)
    requires WellFormed(j) && Judged(b, round, j).Some?
    ensures var r := RoundOutcome(b, round, j); var s := Judged(b, round, j).value;
      r[0].yourScore == s.roast1Score && r[1].yourScore == s.roast2Score &&
      r[0].yourScore != r[0].opponentScore &&
      (r[0].winner == You) != (r[1].winner == You) &&
      (r[0].winner == You <==> r[0].yourScore > r[0].opponentScore) &&
      (r[1].winner == You <==> r[1].yourScore > r[1].opponentScore)
  {
  }

  /** A round whose judging threw gets fallback scores in [50, 100), no
      breakdowns and the "unavailable" commentary; equal fallback scores
      are not tie-broken and label player 2 the winner. */
  lemma FallbackRound(b: Battle, round: int, j: Judging)
    requires WellFormed(j) && Judged(b, round, j).None?
    ensures var r := RoundOutcome(b, round, j);
      (forall i :: 0 <= i < 2 ==> 50 <= r[i].yourScore < 100 && r[i].yourBreakdown.None? && r[i].commentary == Unavailable) &&
      (j.fallback1 == j.fallback2 ==> r[0].winner == Opponent && r[1].winner == You)
  {
  }

  /** A slot that never submitted, or submitted an empty roast, is judged
      as the placeholder text. */
  lemma MissingRoastIsPlaceholder(b: Battle, round: int, j: Judging, slot: int)
    requires round in b.rounds && slot in {1, 2}
    requires slot !in b.rounds[round].submissions || b.rounds[round].submissions[slot].roast == ""
    ensures var req := Request(b.rounds[round], j.storedPrompt);
      (if slot == 1 then req.roast1 else req.roast2) == NoRoast
  {
  }

  /** What `scoreRound` schedules once the players are told (the same on
      the judged and the fallback path). */
  function NextTask(id: string, round: int): (t: Task)
    ensures t.EndBattleDue? <==> round >= Config.RoundsPerBattle
    ensures t.EndBattleDue? ==> t.id == id
    ensures t.StartRoundDue? ==> t.key == RoundKey(id, round + 1)
  {
    if round < 3 then StartRoundDue(RoundKey(id, round + 1)) else EndBattleDue(id)
  }

  /** From round 1 the battle goes through rounds 2 and 3 and then ends. */
  lemma ThreeRoundsThenEnd(id: string)
    ensures NextTask(id, 1) == StartRoundDue(RoundKey(id, 2))
    ensures NextTask(id, 2) == StartRoundDue(RoundKey(id, 3))
    ensures NextTask(id, 3) == EndBattleDue(id)
  {
  }
}
