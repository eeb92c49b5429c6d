/** The settlement of `endBattle` in server.js: total the stored round
    scores, pick the winner, update both players' user records, and tell
    each player the result and the prize. The rounds table and the users
    table are values handed in and out. */
module Settlement {
  import opened Wrappers
  import Config
  import Helpers
  import opened Queue
  import opened Battles
  import opened Events

  /** One row of the battle's stored rounds; None is a null score. */
  datatype ScoreRow = ScoreRow(player1Score: Option<int>, player2Score: Option<int>)

  datatype Side = First | Second

  /** `round.player<n>_score || 0`. */
  function RowScore(row: ScoreRow, side: Side): int
  {
    var s := if side == First then row.player1Score else row.player2Score;
    if s.Some? then s.value else 0
  }

  /** The sum over all rows, a missing score counting as 0. */
  function Total(rows: seq<ScoreRow>, side: Side): (r: int)
    ensures (forall i :: 0 <= i < |rows| ==> RowScore(rows[i], side) >= 0) ==> r >= 0
    ensures (forall i :: 0 <= i < |rows| ==> RowScore(rows[i], side) == 0) ==> r == 0
  {
    if rows == [] then 0 else RowScore(rows[0], side) + Total(rows[1..], side)
  }

  lemma {:induction false} TotalAppend(a: seq<ScoreRow>, b: seq<ScoreRow>, side: Side)
    ensures Total(a + b, side) == Total(a, side) + Total(b, side)
  {
    if a == [] {
      assert a + b == b;
    } else {
      assert (a + b)[0] == a[0];
      assert (a + b)[1..] == a[1..] + b;
      TotalAppend(a[1..], b, side);
    }
  }

  /** Taking one row out of the middle takes its score out of the total. */
  lemma TotalWithout(b: seq<ScoreRow>, k: int, side: Side)
    requires 0 <= k < |b|
    ensures Total(b, side) == RowScore(b[k], side) + Total(b[..k] + b[k + 1..], side)
  {
    assert b == b[..k] + [b[k]] + b[k + 1..];
    TotalAppend(b[..k] + [b[k]], b[k + 1..], side);
    TotalAppend(b[..k], [b[k]], side);
    TotalAppend(b[..k], b[k + 1..], side);
    assert [b[k]][1..] == [];
  }

  /** A row is one copy in the multiset of the rows, besides the others. */
  lemma MultisetWithout(b: seq<ScoreRow>, k: int)
    requires 0 <= k < |b|
    ensures multiset(b) == multiset{b[k]} + multiset(b[..k] + b[k + 1..])
  {
    assert b == b[..k] + ([b[k]] + b[k + 1..]);
  }

  lemma MultisetCancel(x: ScoreRow, m: multiset<ScoreRow>, n: multiset<ScoreRow>)
    requires multiset{x} + m == multiset{x} + n
    ensures m == n
  {
    assert forall y :: m[y] == (multiset{x} + m)[y] - multiset{x}[y];
  }

  /** The totals do not depend on the order in which the rows come back. */
  lemma {:induction false} TotalReorder(a: seq<ScoreRow>, b: seq<ScoreRow>, side: Side)
    requires multiset(a) == multiset(b)
    ensures Total(a, side) == Total(b, side)
    decreases |a|
  {
    if a == [] {
      assert |b| == |multiset(b)| == 0;
    } else {
      assert a[0] in multiset(a);
      assert a[0] in b;
      var k :| 0 <= k < |b| && b[k] == a[0];
      var rest := b[..k] + b[k + 1..];
      assert a == [a[0]] + a[1..];
      MultisetWithout(b, k);
      MultisetCancel(a[0], multiset(a[1..]), multiset(rest));
      TotalReorder(a[1..], rest, side);
      TotalWithout(b, k, side);
    }
  }

  /** The `forEach` with its two `let` accumulators. */
  method SumTotals(rows: seq<ScoreRow>) returns (player1Total: int, player2Total: int)
    ensures player1Total == Total(rows, First) && player2Total == Total(rows, Second)
  {
    player1Total, player2Total := 0, 0;
    for i := 0 to |rows|
      invariant player1Total == Total(rows[..i], First)
      invariant player2Total == Total(rows[..i], Second)
    {
      assert rows[..i + 1] == rows[..i] + [rows[i]];
      TotalAppend(rows[..i], [rows[i]], First);
      TotalAppend(rows[..i], [rows[i]], Second);
      assert [rows[i]][1..] == [];
      player1Total := player1Total + RowScore(rows[i], First);
      player2Total := player2Total + RowScore(rows[i], Second);
    }
    assert rows[..|rows|] == rows;
  }

  /** Player 1's user id on a strictly greater total, else player 2's. */
  function WinnerId(b: Battle, player1Total: int, player2Total: int): (w: string)
    ensures w == b.player1.userId || w == b.player2.userId
    ensures b.player1.userId != b.player2.userId ==> (w == b.player1.userId <==> player1Total > player2Total)
  {
    if player1Total > player2Total then b.player1.userId else b.player2.userId
  }

  /** A row of the users table, keyed by wallet address (the user id). */
  datatype UserStats = UserStats(totalBattles: int, totalWins: int, totalRoastEarned: int)

  function BattlesOf(users: map<string, UserStats>, userId: string): int
  {
    if userId in users then users[userId].totalBattles else 0
  }

  function WinsOf(users: map<string, UserStats>, userId: string): int
  {
    if userId in users then users[userId].totalWins else 0
  }

  function EarnedOf(users: map<string, UserStats>, userId: string): int
  {
    if userId in users then users[userId].totalRoastEarned else 0
  }

  /** Create-or-increment of one player's record. */
  function Upsert(users: map<string, UserStats>, userId: string, isWinner: bool): (r: map<string, UserStats>)
    ensures r.Keys == users.Keys + {userId}
    ensures BattlesOf(r, userId) == BattlesOf(users, userId) + 1
    ensures WinsOf(r, userId) == WinsOf(users, userId) + (if isWinner then 1 else 0)
    ensures EarnedOf(r, userId) == EarnedOf(users, userId)
    ensures forall u :: u in users && u != userId ==> r[u] == users[u]
  {
    if userId in users then
      var s := users[userId];
      users[userId := s.(totalBattles := s.totalBattles + 1, totalWins := s.totalWins + (if isWinner then 1 else 0))]
    else
      users[userId := UserStats(1, if isWinner then 1 else 0, 0)]
  }

  /** The records after the settlement loop has visited `players` in order. */
  function Settled(users: map<string, UserStats>, players: seq<QueueEntry>, winnerId: string): map<string, UserStats>
    decreases |players|
  {
    if players == [] then users
    else Settled(Upsert(users, players[0].userId, players[0].userId == winnerId), players[1..], winnerId)
  }

  /** The `for` loop over `battle.players`. */
  method UpdateStats(users: map<string, UserStats>, b: Battle, winnerId: string) returns (r: map<string, UserStats>)
    ensures r == Settled(users, [b.player1, b.player2], winnerId)
  {
    var players := [b.player1, b.player2];
    r := users;
    for i := 0 to |players|
      invariant Settled(r, players[i..], winnerId) == Settled(users, players, winnerId)
    {
      assert players[i..][0] == players[i] && players[i..][1..] == players[i + 1..];
      r := Upsert(r, players[i].userId, players[i].userId == winnerId);
    }
    assert players[|players|..] == [];
  }

  /** For two distinct users: each one's battle count goes up by one, the
      win count goes up only for the winner, earnings are never credited,
      and no other record changes. */
  lemma SettledDistinct(users: map<string, UserStats>, b: Battle, winnerId: string)
    requires b.player1.userId != b.player2.userId
    ensures var r := Settled(users, [b.player1, b.player2], winnerId);
      r.Keys == users.Keys + {b.player1.userId, b.player2.userId} &&
      (forall p :: p in [b.player1, b.player2] ==>
         BattlesOf(r, p.userId) == BattlesOf(users, p.userId) + 1 &&
         WinsOf(r, p.userId) == WinsOf(users, p.userId) + (if p.userId == winnerId then 1 else 0) &&
         EarnedOf(r, p.userId) == EarnedOf(users, p.userId)) &&
      (forall u :: u in users && u != b.player1.userId && u != b.player2.userId ==> r[u] == users[u])
  {
    var u1 := b.player1.userId;
    var u2 := b.player2.userId;
    var mid := Upsert(users, u1, u1 == winnerId);
    var r := Upsert(mid, u2, u2 == winnerId);
    assert [b.player1, b.player2][1..] == [b.player2];
    assert Settled(mid, [b.player2], winnerId) == Settled(r, [], winnerId);
    assert BattlesOf(r, u1) == BattlesOf(mid, u1) && WinsOf(r, u1) == WinsOf(mid, u1) && EarnedOf(r, u1) == EarnedOf(mid, u1);
  }

  /** A user paired with themselves is recorded as two battles and, since
      the winner is chosen by user id, two wins. */
  lemma SettledSelfPairing(users: map<string, UserStats>, b: Battle, t1: int, t2: int)
    requires b.player1.userId == b.player2.userId
    ensures var r := Settled(users, [b.player1, b.player2], WinnerId(b, t1, t2));
      BattlesOf(r, b.player1.userId) == BattlesOf(users, b.player1.userId) + 2 &&
      WinsOf(r, b.player1.userId) == WinsOf(users, b.player1.userId) + 2
  {
    var w := WinnerId(b, t1, t2);
    var mid := Upsert(users, b.player1.userId, true);
    assert [b.player1, b.player2][1..] == [b.player2];
    assert Settled(mid, [b.player2], w) == Settled(Upsert(mid, b.player2.userId, true), [], w);
  }

  /** endBattle's own prize table; `tierPrizes[battle.tier] || 100`. */
  const ServerTierPrizes: map<string, int> := map["Bronze" := 2000, "Silver" := 6000, "Gold" := 8000, "Diamond" := 10000]

  function ServerEntryFee(tier: string): (r: int)
    ensures r > 0
    ensures tier !in ServerTierPrizes ==> r == 100
    ensures tier in ServerTierPrizes ==> r == ServerTierPrizes[tier]
  {
    if tier in ServerTierPrizes && ServerTierPrizes[tier] != 0 then ServerTierPrizes[tier] else 100
  }

  /** `totalPool - totalPool * 0.05`, in exact arithmetic. */
  function WinnerPrize(entryFee: int): (r: real)
    ensures r == entryFee as real * 1.9
    ensures entryFee % 10 == 0 ==> r == (entryFee / 10 * 19) as real
    ensures r + (entryFee * 2) as real * 0.05 == (entryFee * 2) as real
  {
    (entryFee * 2) as real - (entryFee * 2) as real * 0.05
  }

  /** One `battle:ended` per player, in player order. */
  function EndedNotices(b: Battle, player1Total: int, player2Total: int): (r: seq<Outbound>)
    ensures |r| == 2 && r[0].Ended? && r[1].Ended?
    ensures r[0].to == b.player1.socketId && r[1].to == b.player2.socketId
  {
    var winnerId := WinnerId(b, player1Total, player2Total);
    var fee := ServerEntryFee(b.tier);
    [Ended(b.player1.socketId, player1Total, player2Total,
           if b.player1.userId == winnerId then Win else Lose,
           if b.player1.userId == winnerId then WinnerPrize(fee) else -(fee as real), fee * 2),
     Ended(b.player2.socketId, player2Total, player1Total,
           if b.player2.userId == winnerId then Win else Lose,
           if b.player2.userId == winnerId then WinnerPrize(fee) else -(fee as real), fee * 2)]
  }

  /** The users table after settling `b` from `rows`: both players' records
      updated for the winner of the totals. */
  function SettledUsers(b: Battle, rows: seq<ScoreRow>, users: map<string, UserStats>): map<string, UserStats>
  {
    Settled(users, [b.player1, b.player2], WinnerId(b, Total(rows, First), Total(rows, Second)))
  }

  /** The two battle:ended notices for the totals of `rows`. */
  function SettledNotices(b: Battle, rows: seq<ScoreRow>): seq<Outbound>
  {
    EndedNotices(b, Total(rows, First), Total(rows, Second))
  }

  /** The settlement of endBattle once the round scores are read: totals,
      winner, both user records, and the two result notices. */
  method Settle(b: Battle, rows: seq<ScoreRow>, users: map<string, UserStats>)
    returns (settled: map<string, UserStats>, out: seq<Outbound>)
    ensures settled == SettledUsers(b, rows, users) && out == SettledNotices(b, rows)
  {
    var player1Total, player2Total := SumTotals(rows);
    var winnerId := WinnerId(b, player1Total, player2Total);
    settled := UpdateStats(users, b, winnerId);
    out := EndedNotices(b, player1Total, player2Total);
  }

  /** For two distinct users exactly one wins, player 1 exactly on a
      strictly greater total; the winner earns the pool less 5%, the loser
      loses the entry fee, and the pool is twice the fee. */
  lemma SettlementOutcome(b: Battle, player1Total: int, player2Total: int)
    requires b.player1.userId != b.player2.userId
    ensures var r := EndedNotices(b, player1Total, player2Total); var fee := ServerEntryFee(b.tier);
      (r[0].result == Win) != (r[1].result == Win) &&
      (r[0].result == Win <==> player1Total > player2Total) &&
      r[0].yourScore == r[1].opponentScore == player1Total &&
      r[1].yourScore == r[0].opponentScore == player2Total &&
      (forall i :: 0 <= i < 2 ==>
         r[i].prizePool == 2 * fee &&
         r[i].earnings == (if r[i].result == Win then (19 * fee) as real / 10.0 else -(fee as real)))
  {
  }

  /** Every tier of the table is charged its table fee, any other tier 100. */
  lemma ServerEntryFees(tier: string)
    ensures tier in Config.TierPrizes ==> ServerEntryFee(tier) == Config.TierPrizes[tier]
    ensures tier !in Config.TierPrizes ==> ServerEntryFee(tier) == 100
  {
  }

  /** The server's fallback differs from the helper's: an unknown tier
      costs 100 here and the Bronze fee (2000) in `calculatePrizes`. */
  lemma UnknownTierFeeDiverges(tier: string)
    requires tier !in Config.TierPrizes
    ensures ServerEntryFee(tier) == 100
    ensures Helpers.CalculatePrizes(tier, Config.TierPrizes, Config.PlatformFee).Some?
    ensures Helpers.CalculatePrizes(tier, Config.TierPrizes, Config.PlatformFee).value.entryFee == 2000
  {
  }
}
