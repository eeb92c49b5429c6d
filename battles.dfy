/** The in-memory battle record of server.js and its per-round submission
    record. A round record is a JavaScript object whose keys are
    `player0`/`player1`/`player2` (one per submitting slot) and, once set,
    `isScoring`; "both submitted" is the test that it has exactly two keys. */
module Battles {
  import opened Wrappers
  import opened Queue

  datatype Submission = Submission(roast: string, submittedAt: int)

  /** `submissions` maps slot n to the value under key `player<n>`;
      `isScoring` is true exactly when that key has been assigned. */
  datatype RoundEntry = RoundEntry(submissions: map<int, Submission>, isScoring: bool)

  /** `battle.rounds[round] = {}`. */
  const EmptyRound: RoundEntry := RoundEntry(map[], false)

  /** `Object.keys(battle.rounds[round]).length`. */
  function KeyCount(e: RoundEntry): nat
  {
    |e.submissions| + (if e.isScoring then 1 else 0)
  }

  /** The source's "both submitted" test. */
  predicate BothSubmitted(e: RoundEntry)
  {
    KeyCount(e) == 2
  }

  /** `battle.rounds[round][`player${slot}`] = {roast, submittedAt}`. */
  function Record(e: RoundEntry, slot: int, s: Submission): RoundEntry
  {
    e.(submissions := e.submissions[slot := s])
  }

  datatype Battle = Battle(
    id: string, tier: string, mode: string,
    player1: QueueEntry, player2: QueueEntry,   // `players: [player1, player2]`
    rounds: map<int, RoundEntry>,
    currentRound: int,
    startedAt: int)

  /** Two queue entries paired for (tier, mode), waiting for the battle's
      database insert before the battle record is created. */
  datatype Pairing = Pairing(tier: string, mode: string, player1: QueueEntry, player2: QueueEntry)

  /** `battle.players.findIndex(p => p.socketId === sid)`. */
  function PlayerIndex(b: Battle, sid: string): (r: int)
    ensures -1 <= r <= 1
    ensures r == -1 <==> b.player1.socketId != sid && b.player2.socketId != sid
    ensures r == 0 <==> b.player1.socketId == sid
  {
    if b.player1.socketId == sid then 0 else if b.player2.socketId == sid then 1 else -1
  }

  predicate HasSocket(b: Battle, sid: string)
  {
    PlayerIndex(b, sid) > -1
  }

  /** `battle.players.find(p => p.socketId !== sid)`: the first player on
      another connection (player 1 for a connection that is not in the battle). */
  function OtherPlayer(b: Battle, sid: string): (r: Option<QueueEntry>)
    ensures r.None? <==> b.player1.socketId == sid && b.player2.socketId == sid
    ensures r.Some? ==> r.value.socketId != sid && (r.value == b.player1 || r.value == b.player2)
    ensures b.player1.socketId != sid ==> r == Some(b.player1)
  {
    if b.player1.socketId != sid then Some(b.player1)
    else if b.player2.socketId != sid then Some(b.player2)
    else None
  }

  /** The synchronous part of submit_roast on the battle record: create the
      round's record when absent and store the roast under the submitter's slot. */
  function Submit(b: Battle, round: int, sid: string, roast: string, now: int): (r: Battle)
    ensures r.(rounds := b.rounds) == b
    ensures r.rounds.Keys == b.rounds.Keys + {round}
    ensures forall n :: n in b.rounds && n != round ==> r.rounds[n] == b.rounds[n]
    ensures PlayerIndex(b, sid) + 1 in r.rounds[round].submissions &&
      r.rounds[round].submissions[PlayerIndex(b, sid) + 1] == Submission(roast, now)
    ensures forall slot :: slot != PlayerIndex(b, sid) + 1 ==>
      (slot in r.rounds[round].submissions <==> round in b.rounds && slot in b.rounds[round].submissions) &&
      (slot in r.rounds[round].submissions ==> r.rounds[round].submissions[slot] == b.rounds[round].submissions[slot])
    ensures r.rounds[round].isScoring == (round in b.rounds && b.rounds[round].isScoring)
  {
    var e := if round in b.rounds then b.rounds[round] else EmptyRound;
    b.(rounds := b.rounds[round := Record(e, PlayerIndex(b, sid) + 1, Submission(roast, now))])
  }

  /** `battle.rounds[round].isScoring = true`. */
  function Flag(b: Battle, round: int): (r: Battle)
    requires round in b.rounds
    ensures r.rounds.Keys == b.rounds.Keys && r.rounds[round].isScoring
    ensures r.rounds[round].submissions == b.rounds[round].submissions
    ensures forall n :: n in b.rounds && n != round ==> r.rounds[n] == b.rounds[n]
    ensures r == b.(rounds := r.rounds)
  {
    b.(rounds := b.rounds[round := b.rounds[round].(isScoring := true)])
  }

  /** The timeout path may claim the round: it has a record that is not yet scoring. */
  predicate Unflagged(b: Battle, round: int)
  {
    round in b.rounds && !b.rounds[round].isScoring
  }

  /** The both-submitted path may claim the round. */
  predicate Claimable(b: Battle, round: int)
  {
    round in b.rounds && BothSubmitted(b.rounds[round]) && !b.rounds[round].isScoring
  }

  /** A resubmission by the same slot overwrites the earlier roast and adds no key. */
  lemma ResubmitOverwrites(e: RoundEntry, slot: int, first: Submission, second: Submission)
    ensures Record(Record(e, slot, first), slot, second) == Record(e, slot, second)
    ensures KeyCount(Record(Record(e, slot, first), slot, second)) == KeyCount(Record(e, slot, first))
  {
    assert Record(Record(e, slot, first), slot, second).submissions == e.submissions[slot := second];
  }

  /** The key count includes the scoring flag: before the flag is set, two
      keys means two slots have submitted; after, one slot is enough. */
  lemma BothSubmittedMeaning(e: RoundEntry)
    ensures !e.isScoring ==> (BothSubmitted(e) <==> |e.submissions| == 2)
    ensures e.isScoring ==> (BothSubmitted(e) <==> |e.submissions| == 1)
  {
  }

  /** The two players of a battle on distinct connections, each submitting
      once to a fresh round, make the round "both submitted" and not yet scoring. */
  lemma TwoPlayersCompleteRound(b: Battle, round: int, r1: string, r2: string, t1: int, t2: int)
    requires b.player1.socketId != b.player2.socketId
    requires round !in b.rounds
    ensures var after := Submit(Submit(b, round, b.player1.socketId, r1, t1), round, b.player2.socketId, r2, t2);
      BothSubmitted(after.rounds[round]) && !after.rounds[round].isScoring &&
      after.rounds[round].submissions == map[1 := Submission(r1, t1), 2 := Submission(r2, t2)]
  {
    var mid := Submit(b, round, b.player1.socketId, r1, t1);
    assert mid.rounds[round].submissions == map[1 := Submission(r1, t1)];
    var after := Submit(mid, round, b.player2.socketId, r2, t2);
    assert PlayerIndex(mid, b.player2.socketId) == 1;
    assert after.rounds[round].submissions.Keys == {1, 2};
  }

  /** A connection outside the battle submits under slot 0, so it and one
      player together already pass the "both submitted" test. */
  lemma OutsiderCountsTowardsBoth(b: Battle, round: int, outsider: string, r0: string, r1: string, t0: int, t1: int)
    requires !HasSocket(b, outsider)
    requires round !in b.rounds
    ensures var after := Submit(Submit(b, round, outsider, r0, t0), round, b.player1.socketId, r1, t1);
      BothSubmitted(after.rounds[round]) && 2 !in after.rounds[round].submissions
  {
    var mid := Submit(b, round, outsider, r0, t0);
    assert mid.rounds[round].submissions == map[0 := Submission(r0, t0)];
    var after := Submit(mid, round, b.player1.socketId, r1, t1);
    assert after.rounds[round].submissions.Keys == {0, 1};
  }
}
