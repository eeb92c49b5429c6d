/** The battle engine of server.js: the matchmaking queue, the registry of
    active battles, the socket handlers and the timer callbacks. Each
    method is one atomic step. Timers are tasks in `pending` that the
    environment fires in any order. Two async handlers are split at their
    first database call: the rest of `submit_roast` is a `SubmitResumes`
    task, and the rest of `tryMatchmaking` is a pairing in `matching`,
    resumed by `RegisterBattle`. `startRound`, `scoreRound` and `endBattle`
    each run whole, as one step. Messages a step sends are its `out`
    result. */
module Server {
  import opened Wrappers
  import Config
  import opened Queue
  import opened Battles
  import opened Events
  import opened Scoring
  import opened Settlement

  /** server.js keeps its own copy of the prompt table. */
  const ServerPrompts: map<string, seq<string>> :=
    map[
      "Bronze" := [
        "Roast your opponent's fashion sense",
        "Roast your opponent's gaming skills",
        "Roast your opponent's cooking abilities"],
      "Silver" := [
        "Roast your opponent's music taste",
        "Roast your opponent's social media posts",
        "Roast your opponent's selfie game"],
      "Gold" := [
        "Roast your opponent's dance moves",
        "Roast your opponent's pickup lines",
        "Roast your opponent's life choices"],
      "Diamond" := [
        "Roast your opponent's entire existence",
        "Roast your opponent's future",
        "Roast your opponent's past mistakes"]
    ]

  /** The `duration` sent with every round start. */
  const RoundDuration: int := 30000

  /** The server's copy agrees with the configuration module on every tier
      and every prompt but one: Diamond's second prompt. */
  lemma ServerPromptsDiverge()
    ensures ServerPrompts.Keys == Config.RoastPrompts.Keys
    ensures forall t :: t in ServerPrompts ==> |ServerPrompts[t]| == |Config.RoastPrompts[t]| == Config.RoundsPerBattle
    ensures ServerPrompts["Diamond"][1] == "Roast your opponent's future"
    ensures Config.RoastPrompts["Diamond"][1] == "Roast your opponent's future prospects"
    ensures forall t, i :: t in ServerPrompts && 0 <= i < |ServerPrompts[t]| && !(t == "Diamond" && i == 1) ==>
      ServerPrompts[t][i] == Config.RoastPrompts[t][i]
  {
  }

  /** `list[i]`: None for undefined. */
  function PromptAt(list: seq<string>, i: int): (r: Option<string>)
    ensures r.Some? <==> 0 <= i < |list|
    ensures r.Some? ==> r.value == list[i]
  {
    if 0 <= i < |list| then Some(list[i]) else None
  }

  /** `battle:round_start` to both players, in player order. */
  function RoundStarts(b: Battle, round: int, prompt: Option<string>): (r: seq<Outbound>)
    ensures |r| == 2 && r[0].to == b.player1.socketId && r[1].to == b.player2.socketId
    ensures forall i :: 0 <= i < |r| ==>
      r[i].RoundStart? && r[i].battleId == b.id && r[i].round == round &&
      r[i].prompt == prompt && r[i].duration == RoundDuration
  {
    [RoundStart(b.player1.socketId, b.id, round, prompt, RoundDuration),
     RoundStart(b.player2.socketId, b.id, round, prompt, RoundDuration)]
  }

  /** Battles are filed under their own id and never leave round 1; every
      battle id was registered once, and a pairing waiting for its insert
      has an id that was never registered. */
  ghost predicate Filed(battles: map<string, Battle>, matching: map<string, Pairing>, registered: set<string>)
  {
    (forall id :: id in battles ==> battles[id].id == id && battles[id].currentRound == 1) &&
    battles.Keys <= registered &&
    matching.Keys !! registered
  }

  /** A round record's `isScoring` flag is set exactly when the round has
      been claimed; a claimed round keeps its record as long as its battle
      lives; every scoreRound call was for a claimed round. */
  ghost predicate Claims(battles: map<string, Battle>, registered: set<string>, claimed: set<RoundKey>, scored: set<RoundKey>)
  {
    (forall k :: k in claimed ==> k.id in registered) &&
    (forall k :: k in claimed && k.id in battles ==> k.round in battles[k.id].rounds) &&
    (forall id, n :: id in battles && n in battles[id].rounds ==>
       (battles[id].rounds[n].isScoring <==> RoundKey(id, n) in claimed)) &&
    scored <= claimed
  }

  /** A due scoring timer is the only one for its round, and its round has
      been claimed but not scored; a suspended submit_roast refers to a
      registered battle and, while that battle lives, to an existing round record. */
  ghost predicate Tasks(battles: map<string, Battle>, pending: multiset<Task>,
                        registered: set<string>, claimed: set<RoundKey>, scored: set<RoundKey>)
  {
    (forall k :: ScoreDue(k) in pending ==> k in claimed && k !in scored && pending[ScoreDue(k)] == 1) &&
    (forall k :: SubmitResumes(k) in pending ==>
       k.id in registered && (k.id in battles ==> k.round in battles[k.id].rounds))
  }

  /** The engine's invariant, over its state and its ghost history. */
  ghost predicate Inv(battles: map<string, Battle>, matching: map<string, Pairing>, pending: multiset<Task>,
                      registered: set<string>, claimed: set<RoundKey>, scored: set<RoundKey>)
  {
    Filed(battles, matching, registered) && Claims(battles, registered, claimed, scored) &&
    Tasks(battles, pending, registered, claimed, scored)
  }

  /** Deleting battles keeps the invariant. */
  lemma InvDropBattles(battles: map<string, Battle>, keep: map<string, Battle>, matching: map<string, Pairing>,
                       pending: multiset<Task>, registered: set<string>, claimed: set<RoundKey>, scored: set<RoundKey>)
    requires Inv(battles, matching, pending, registered, claimed, scored)
    requires forall id :: id in keep ==> id in battles && keep[id] == battles[id]
    ensures Inv(keep, matching, pending, registered, claimed, scored)
  {
  }

  /** Firing (removing) any task keeps the invariant. */
  lemma InvDropTask(battles: map<string, Battle>, matching: map<string, Pairing>, pending: multiset<Task>,
                    registered: set<string>, claimed: set<RoundKey>, scored: set<RoundKey>, t: Task)
    requires Inv(battles, matching, pending, registered, claimed, scored)
    ensures Inv(battles, matching, pending - multiset{t}, registered, claimed, scored)
  {
  }

  /** Scheduling a round start, a round timeout or the end keeps the invariant. */
  lemma InvAddTimer(battles: map<string, Battle>, matching: map<string, Pairing>, pending: multiset<Task>,
                    registered: set<string>, claimed: set<RoundKey>, scored: set<RoundKey>, t: Task)
    requires Inv(battles, matching, pending, registered, claimed, scored)
    requires t.StartRoundDue? || t.TimeoutDue? || t.EndBattleDue?
    ensures Inv(battles, matching, pending + multiset{t}, registered, claimed, scored)
  {
  }

  /** Calling scoreRound for a claimed round with no scoring timer due keeps the invariant. */
  lemma InvScore(battles: map<string, Battle>, matching: map<string, Pairing>, pending: multiset<Task>,
                 registered: set<string>, claimed: set<RoundKey>, scored: set<RoundKey>, k: RoundKey)
    requires Inv(battles, matching, pending, registered, claimed, scored)
    requires k in claimed && ScoreDue(k) !in pending
    ensures Inv(battles, matching, pending, registered, claimed, scored + {k})
  {
  }

  /** Setting the flag of an existing, unflagged round record claims that round. */
  lemma InvClaim(battles: map<string, Battle>, matching: map<string, Pairing>, pending: multiset<Task>,
                 registered: set<string>, claimed: set<RoundKey>, scored: set<RoundKey>, k: RoundKey)
    requires Inv(battles, matching, pending, registered, claimed, scored)
    requires k.id in battles && Unflagged(battles[k.id], k.round)
    ensures var b := battles[k.id];
      var b' := Flag(b, k.round);
      k !in claimed && k !in scored && ScoreDue(k) !in pending &&
      Inv(battles[k.id := b'], matching, pending, registered, claimed + {k}, scored)
  {
  }

  /** Arming the scoring timer of a claimed, unscored round that has none. */
  lemma InvAddScoreDue(battles: map<string, Battle>, matching: map<string, Pairing>, pending: multiset<Task>,
                       registered: set<string>, claimed: set<RoundKey>, scored: set<RoundKey>, k: RoundKey)
    requires Inv(battles, matching, pending, registered, claimed, scored)
    requires k in claimed && k !in scored && ScoreDue(k) !in pending
    ensures Inv(battles, matching, pending + multiset{ScoreDue(k)}, registered, claimed, scored)
  {
  }

  /** Recording a submission and suspending the handler keeps the invariant. */
  lemma InvSubmit(battles: map<string, Battle>, matching: map<string, Pairing>, pending: multiset<Task>,
                  registered: set<string>, claimed: set<RoundKey>, scored: set<RoundKey>,
                  id: string, round: int, sid: string, roast: string, now: int)
    requires Inv(battles, matching, pending, registered, claimed, scored)
    requires id in battles
    ensures Inv(battles[id := Submit(battles[id], round, sid, roast, now)], matching,
                pending + multiset{SubmitResumes(RoundKey(id, round))}, registered, claimed, scored)
  {
  }

  /** Registering a paired battle under its id keeps the invariant. */
  lemma InvRegister(battles: map<string, Battle>, matching: map<string, Pairing>, pending: multiset<Task>,
                    registered: set<string>, claimed: set<RoundKey>, scored: set<RoundKey>, id: string, now: int)
    requires Inv(battles, matching, pending, registered, claimed, scored)
    requires id in matching
    ensures var p := matching[id];
      Inv(battles[id := Battle(id, p.tier, p.mode, p.player1, p.player2, map[], 1, now)], matching - {id},
          pending + multiset{StartRoundDue(RoundKey(id, 1))}, registered + {id}, claimed, scored)
  {
  }

  /** The `activeBattles.forEach` of disconnect: the battles that do not
      involve the connection, and a notice to the opponent in each that does. */
  method DropPlayer(all: map<string, Battle>, sid: string) returns (kept: map<string, Battle>, notices: map<string, Outbound>)
    ensures forall id :: id in kept <==> id in all && !HasSocket(all[id], sid)
    ensures forall id :: id in kept ==> kept[id] == all[id]
    ensures forall id :: id in notices <==> id in all && HasSocket(all[id], sid) && OtherPlayer(all[id], sid).Some?
    ensures forall id :: id in notices ==> notices[id] == OpponentDisconnected(OtherPlayer(all[id], sid).value.socketId)
  {
    kept := all;
    notices := map[];
    var todo := all.Keys;
    while todo != {}
      invariant todo <= all.Keys
      invariant forall id :: id in kept <==> id in all && (id in todo || !HasSocket(all[id], sid))
      invariant forall id :: id in kept ==> kept[id] == all[id]
      invariant forall id :: id in notices <==> id in all && id !in todo && HasSocket(all[id], sid) && OtherPlayer(all[id], sid).Some?
      invariant forall id :: id in notices ==> notices[id] == OpponentDisconnected(OtherPlayer(all[id], sid).value.socketId)
      decreases todo
    {
      var id :| id in todo;
      var b := all[id];
      if HasSocket(b, sid) {
        var opponent := OtherPlayer(b, sid);
        if opponent.Some? {
          notices := notices[id := OpponentDisconnected(opponent.value.socketId)];
        }
        kept := kept - {id};
      }
      todo := todo - {id};
    }
  }

  class Engine {
    var queue: seq<QueueEntry>              // matchmakingQueue
    var battles: map<string, Battle>        // activeBattles
    var matching: map<string, Pairing>      // pairings waiting for their battle insert
    var pending: multiset<Task>             // timers and suspended handlers
    var users: map<string, UserStats>       // the users table
    ghost var registered: set<string>       // every battle id ever put in activeBattles
    ghost var claimed: set<RoundKey>        // rounds whose isScoring flag was set
    ghost var scored: set<RoundKey>         // rounds scoreRound was called for

    ghost predicate Valid()
      reads this
    {
      Inv(battles, matching, pending, registered, claimed, scored)
    }

    /** What `crypto.randomUUID` is trusted to return. */
    ghost predicate Fresh(id: string)
      reads this
    {
      id !in registered && id !in matching
    }

    constructor ()
      ensures Valid()
      ensures queue == [] && battles == map[] && matching == map[] && pending == multiset{} && users == map[]
      ensures registered == {} && claimed == {} && scored == {}
    {
      queue, battles, matching, pending, users := [], map[], map[], multiset{}, map[];
      registered, claimed, scored := {}, {}, {};
    }

    /** battle:join_queue: append the entry, then try to pair. */
    method JoinQueue(sid: string, userId: string, tier: string, mode: string, now: int, freshId: string)
      requires Valid() && Fresh(freshId)
      modifies this
      ensures Valid()
      ensures var q := old(queue) + [QueueEntry(sid, userId, tier, mode, now)]; var f := Filter(q, tier, mode);
        (|f| >= 2 ==> queue == RemoveMatches(q, tier, mode, 2) &&
                      matching == old(matching)[freshId := Pairing(tier, mode, f[0], f[1])]) &&
        (|f| < 2 ==> queue == q && matching == old(matching))
      ensures battles == old(battles) && pending == old(pending) && users == old(users)
      ensures registered == old(registered) && claimed == old(claimed) && scored == old(scored)
    {
      queue := queue + [QueueEntry(sid, userId, tier, mode, now)];
      TryMatchmaking(tier, mode, freshId);
    }

    /** The synchronous part of tryMatchmaking: find the first two entries
        for (tier, mode) and splice them out; the battle is created once
        its insert returns (RegisterBattle). */
    method TryMatchmaking(tier: string, mode: string, freshId: string)
      requires Valid() && Fresh(freshId)
      modifies this
      ensures Valid()
      ensures var f := Filter(old(queue), tier, mode);
        (|f| >= 2 ==> queue == RemoveMatches(old(queue), tier, mode, 2) &&
                      matching == old(matching)[freshId := Pairing(tier, mode, f[0], f[1])]) &&
        (|f| < 2 ==> queue == old(queue) && matching == old(matching))
      ensures battles == old(battles) && pending == old(pending) && users == old(users)
      ensures registered == old(registered) && claimed == old(claimed) && scored == old(scored)
    {
      var i, j := FindPair(queue, tier, mode);
      if j != -1 {
        RemovePairBySplices(queue, tier, mode, i, j);
        var player1, player2 := queue[i], queue[j];
        queue := Splice(queue, i);
        queue := Splice(queue, j - 1);
        matching := matching[freshId := Pairing(tier, mode, player1, player2)];
      }
    }

    /** The rest of tryMatchmaking: put the battle in the registry, tell both
        players, and start round 1 later. */
    method RegisterBattle(id: string, now: int) returns (out: seq<Outbound>)
      requires Valid() && id in matching
      modifies this
      ensures Valid()
      ensures var p := old(matching)[id];
        battles == old(battles)[id := Battle(id, p.tier, p.mode, p.player1, p.player2, map[], 1, now)] &&
        out == [Matched(p.player1.socketId, id, p.player2.userId, p.mode),
                Matched(p.player2.socketId, id, p.player1.userId, p.mode)]
      ensures matching == old(matching) - {id} && pending == old(pending) + multiset{StartRoundDue(RoundKey(id, 1))}
      ensures queue == old(queue) && users == old(users)
      ensures registered == old(registered) + {id} && claimed == old(claimed) && scored == old(scored)
    {
      var p := matching[id];
      InvRegister(battles, matching, pending, registered, claimed, scored, id, now);
      battles := battles[id := Battle(id, p.tier, p.mode, p.player1, p.player2, map[], 1, now)];
      registered := registered + {id};
      matching := matching - {id};
      pending := pending + multiset{StartRoundDue(RoundKey(id, 1))};
      out := [Matched(p.player1.socketId, id, p.player2.userId, p.mode),
              Matched(p.player2.socketId, id, p.player1.userId, p.mode)];
    }

    /** battle:leave_queue. */
    method LeaveQueue(sid: string)
      requires Valid()
      modifies this
      ensures Valid()
      ensures queue == RemoveSocket(old(queue), sid)
      ensures battles == old(battles) && matching == old(matching) && pending == old(pending) && users == old(users)
      ensures registered == old(registered) && claimed == old(claimed) && scored == old(scored)
    {
      queue := RemoveSocket(queue, sid);
    }

    /** battle:request_state: resend the battle's current round to a player
        of it. No handler advances `currentRound`, so this is always round 1
        with the tier's first prompt; an unknown tier throws and sends nothing. */
    method RequestState(sid: string, battleId: string) returns (out: seq<Outbound>)
      requires Valid()
      ensures battleId !in battles || !HasSocket(battles[battleId], sid) || battles[battleId].tier !in ServerPrompts ==> out == []
      ensures battleId in battles && HasSocket(battles[battleId], sid) && battles[battleId].tier in ServerPrompts ==>
        out == [RoundStart(sid, battleId, 1, PromptAt(ServerPrompts[battles[battleId].tier], 0), RoundDuration)]
    {
      out := [];
      if battleId in battles {
        var b := battles[battleId];
        if HasSocket(b, sid) && b.tier in ServerPrompts {
          var prompt := PromptAt(ServerPrompts[b.tier], b.currentRound - 1);
          out := [RoundStart(sid, b.id, b.currentRound, prompt, RoundDuration)];
        }
      }
    }

    /** The synchronous part of battle:submit_roast: forward the roast to
        the opponent and record it under the submitter's slot. */
    method SubmitRoast(sid: string, battleId: string, round: int, roast: string, mode: string, now: int)
      returns (out: seq<Outbound>)
      requires Valid()
      modifies this
      ensures Valid()
      ensures battleId !in old(battles) ==> out == [] && battles == old(battles) && pending == old(pending)
      ensures battleId in old(battles) ==>
        var b := old(battles)[battleId];
        battles == old(battles)[battleId := Submit(b, round, sid, roast, now)] &&
        pending == old(pending) + multiset{SubmitResumes(RoundKey(battleId, round))} &&
        out == (match OtherPlayer(b, sid)
                case Some(o) => [OpponentRoast(o.socketId, round, roast, mode)]
                case None => [])
      ensures queue == old(queue) && matching == old(matching) && users == old(users)
      ensures registered == old(registered) && claimed == old(claimed) && scored == old(scored)
    {
      out := [];
      if battleId in battles {
        var b := battles[battleId];
        var opponent := OtherPlayer(b, sid);
        if opponent.Some? {
          out := [OpponentRoast(opponent.value.socketId, round, roast, mode)];
        }
        InvSubmit(battles, matching, pending, registered, claimed, scored, battleId, round, sid, roast, now);
        battles := battles[battleId := Submit(b, round, sid, roast, now)];
        pending := pending + multiset{SubmitResumes(RoundKey(battleId, round))};
      }
    }

    /** The rest of submit_roast: when the round's record has exactly two
        keys and is not yet scoring, set the flag and schedule scoring. */
    method ResumeSubmit(k: RoundKey)
      requires Valid() && SubmitResumes(k) in pending
      modifies this
      ensures Valid()
      ensures k.id in old(battles) && Claimable(old(battles)[k.id], k.round) ==>
        battles == old(battles)[k.id := Flag(old(battles)[k.id], k.round)] &&
        pending == old(pending) - multiset{SubmitResumes(k)} + multiset{ScoreDue(k)} &&
        claimed == old(claimed) + {k}
      ensures !(k.id in old(battles) && Claimable(old(battles)[k.id], k.round)) ==>
        battles == old(battles) && pending == old(pending) - multiset{SubmitResumes(k)} && claimed == old(claimed)
      ensures queue == old(queue) && matching == old(matching) && users == old(users)
      ensures registered == old(registered) && scored == old(scored)
    {
      Consume(SubmitResumes(k));
      if k.id in battles && Claimable(battles[k.id], k.round) {
        Claim(k);
        InvAddScoreDue(battles, matching, pending, registered, claimed, scored, k);
        pending := pending + multiset{ScoreDue(k)};
      }
    }

    /** A fired timer or a resumed handler leaves the pending tasks. */
    method Consume(t: Task)
      requires Valid() && t in pending
      modifies this
      ensures Valid()
      ensures pending == old(pending) - multiset{t}
      ensures queue == old(queue) && battles == old(battles) && matching == old(matching) && users == old(users)
      ensures registered == old(registered) && claimed == old(claimed) && scored == old(scored)
    {
      InvDropTask(battles, matching, pending, registered, claimed, scored, t);
      pending := pending - multiset{t};
    }

    /** `battle.rounds[round].isScoring = true` on an existing round record
        that is not yet scoring: the round is claimed for its one scoring. */
    method Claim(k: RoundKey)
      requires Valid() && k.id in battles && Unflagged(battles[k.id], k.round)
      modifies this
      ensures Valid()
      ensures battles == old(battles)[k.id := Flag(old(battles)[k.id], k.round)]
      ensures k !in old(claimed) && claimed == old(claimed) + {k}
      ensures k !in scored && ScoreDue(k) !in pending
      ensures queue == old(queue) && matching == old(matching) && pending == old(pending) && users == old(users)
      ensures registered == old(registered) && scored == old(scored)
    {
      InvClaim(battles, matching, pending, registered, claimed, scored, k);
      battles, claimed := battles[k.id := Flag(battles[k.id], k.round)], claimed + {k};
    }

    /** scoreRound: tell the players the outcome and schedule the next
        round or the end. Called at most once per round: its caller has
        claimed the round and no other call for it has happened or is due. */
    method ScoreRound(k: RoundKey, j: Judging) returns (out: seq<Outbound>)
      requires Valid() && WellFormed(j)
      requires k in claimed && k !in scored && ScoreDue(k) !in pending
      modifies this
      ensures Valid()
      ensures k.id !in battles ==> out == [] && pending == old(pending)
      ensures k.id in battles ==>
        out == RoundOutcome(battles[k.id], k.round, j) &&
        pending == old(pending) + multiset{NextTask(k.id, k.round)}
      ensures scored == old(scored) + {k}
      ensures queue == old(queue) && battles == old(battles) && matching == old(matching) && users == old(users)
      ensures registered == old(registered) && claimed == old(claimed)
    {
      InvScore(battles, matching, pending, registered, claimed, scored, k);
      scored := scored + {k};
      out := [];
      if k.id in battles {
        out := RoundOutcome(battles[k.id], k.round, j);
        InvAddTimer(battles, matching, pending, registered, claimed, scored, NextTask(k.id, k.round));
        pending := pending + multiset{NextTask(k.id, k.round)};
      }
    }

    /** The scoring timer set by the both-submitted path fires. */
    method ScoreWhenDue(k: RoundKey, j: Judging) returns (out: seq<Outbound>)
      requires Valid() && WellFormed(j) && ScoreDue(k) in pending
      modifies this
      ensures Valid()
      ensures k.id !in battles ==> out == [] && pending == old(pending) - multiset{ScoreDue(k)}
      ensures k.id in battles ==>
        out == RoundOutcome(battles[k.id], k.round, j) &&
        pending == old(pending) - multiset{ScoreDue(k)} + multiset{NextTask(k.id, k.round)}
      ensures k !in old(scored) && scored == old(scored) + {k}
      ensures queue == old(queue) && battles == old(battles) && matching == old(matching) && users == old(users)
      ensures registered == old(registered) && claimed == old(claimed)
    {
      InvDropTask(battles, matching, pending, registered, claimed, scored, ScoreDue(k));
      pending := pending - multiset{ScoreDue(k)};
      assert ScoreDue(k) !in pending;
      out := ScoreRound(k, j);
    }

    /** The auto-score timer of startRound fires: if the battle still exists,
        the round has a record and is not yet scoring, set the flag and score. */
    method RoundTimeout(k: RoundKey, j: Judging) returns (out: seq<Outbound>)
      requires Valid() && WellFormed(j) && TimeoutDue(k) in pending
      modifies this
      ensures Valid()
      ensures k.id in old(battles) && Unflagged(old(battles)[k.id], k.round) ==>
        battles == old(battles)[k.id := Flag(old(battles)[k.id], k.round)] &&
        out == RoundOutcome(battles[k.id], k.round, j) &&
        pending == old(pending) - multiset{TimeoutDue(k)} + multiset{NextTask(k.id, k.round)} &&
        k !in old(claimed) && claimed == old(claimed) + {k} && scored == old(scored) + {k}
      ensures !(k.id in old(battles) && Unflagged(old(battles)[k.id], k.round)) ==>
        out == [] && battles == old(battles) && pending == old(pending) - multiset{TimeoutDue(k)} &&
        claimed == old(claimed) && scored == old(scored)
      ensures queue == old(queue) && matching == old(matching) && users == old(users)
      ensures registered == old(registered)
    {
      Consume(TimeoutDue(k));
      out := [];
      if k.id in battles && Unflagged(battles[k.id], k.round) {
        Claim(k);
        out := ScoreRound(k, j);
      }
    }

    /** startRound: announce the round and arm its auto-score timer. The
        round's record is not created here. An unknown tier throws before
        anything is sent. */
    method StartRound(k: RoundKey) returns (out: seq<Outbound>)
      requires Valid() && StartRoundDue(k) in pending
      modifies this
      ensures Valid()
      ensures k.id in battles && battles[k.id].tier in ServerPrompts ==>
        out == RoundStarts(battles[k.id], k.round, PromptAt(ServerPrompts[battles[k.id].tier], k.round - 1)) &&
        pending == old(pending) - multiset{StartRoundDue(k)} + multiset{TimeoutDue(k)}
      ensures !(k.id in battles && battles[k.id].tier in ServerPrompts) ==>
        out == [] && pending == old(pending) - multiset{StartRoundDue(k)}
      ensures queue == old(queue) && battles == old(battles) && matching == old(matching) && users == old(users)
      ensures registered == old(registered) && claimed == old(claimed) && scored == old(scored)
    {
      InvDropTask(battles, matching, pending, registered, claimed, scored, StartRoundDue(k));
      pending := pending - multiset{StartRoundDue(k)};
      out := [];
      if k.id in battles && battles[k.id].tier in ServerPrompts {
        var b := battles[k.id];
        out := RoundStarts(b, k.round, PromptAt(ServerPrompts[b.tier], k.round - 1));
        InvAddTimer(battles, matching, pending, registered, claimed, scored, TimeoutDue(k));
        pending := pending + multiset{TimeoutDue(k)};
      }
    }

    /** endBattle: settle from the stored round scores (None when reading
        them fails, which skips settlement) and remove the battle either way. */
    method EndBattle(id: string, rows: Option<seq<ScoreRow>>) returns (out: seq<Outbound>)
      requires Valid() && EndBattleDue(id) in pending
      modifies this
      ensures Valid()
      ensures battles == old(battles) - {id} && pending == old(pending) - multiset{EndBattleDue(id)}
      ensures id in old(battles) && rows.Some? ==>
        users == SettledUsers(old(battles)[id], rows.value, old(users)) &&
        out == SettledNotices(old(battles)[id], rows.value)
      ensures !(id in old(battles) && rows.Some?) ==> users == old(users) && out == []
      ensures queue == old(queue) && matching == old(matching)
      ensures registered == old(registered) && claimed == old(claimed) && scored == old(scored)
    {
      var settled := users;
      out := [];
      if id in battles && rows.Some? {
        settled, out := Settle(battles[id], rows.value, users);
      }
      DropBattle(id);
      users := settled;
    }

    /** The end of endBattle: the timer is consumed and the battle deleted. */
    method DropBattle(id: string)
      requires Valid() && EndBattleDue(id) in pending
      modifies this
      ensures Valid()
      ensures battles == old(battles) - {id} && pending == old(pending) - multiset{EndBattleDue(id)}
      ensures queue == old(queue) && matching == old(matching) && users == old(users)
      ensures registered == old(registered) && claimed == old(claimed) && scored == old(scored)
    {
      InvDropTask(battles, matching, pending, registered, claimed, scored, EndBattleDue(id));
      InvDropBattles(battles, battles - {id}, matching, pending - multiset{EndBattleDue(id)}, registered, claimed, scored);
      battles, pending := battles - {id}, pending - multiset{EndBattleDue(id)};
    }

    /** disconnect: drop the connection's first queue entry, then for every
        battle it plays in, notify the opponent and delete the battle. */
    method Disconnect(sid: string) returns (notices: map<string, Outbound>)
      requires Valid()
      modifies this
      ensures Valid()
      ensures queue == RemoveSocket(old(queue), sid)
      ensures forall id :: id in battles <==> id in old(battles) && !HasSocket(old(battles)[id], sid)
      ensures forall id :: id in battles ==> battles[id] == old(battles)[id]
      ensures forall id :: id in notices <==> id in old(battles) && HasSocket(old(battles)[id], sid) &&
                                               OtherPlayer(old(battles)[id], sid).Some?
      ensures forall id :: id in notices ==>
        notices[id] == OpponentDisconnected(OtherPlayer(old(battles)[id], sid).value.socketId)
      ensures matching == old(matching) && pending == old(pending) && users == old(users)
      ensures registered == old(registered) && claimed == old(claimed) && scored == old(scored)
    {
      queue := RemoveSocket(queue, sid);
      var kept;
      kept, notices := DropPlayer(battles, sid);
      InvDropBattles(battles, kept, matching, pending, registered, claimed, scored);
      battles := kept;
    }
  }
}
