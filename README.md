# Roast battle engine — a Dafny model

This project models the battle engine of the roastfactory backend. Two players queue for a tier (Bronze, Silver, Gold or Diamond) and a mode. They are paired and play three rounds. In each round both submit a roast, an AI judge scores the roasts, and the players are told each round's outcome. At the end the stored round scores are totalled, the winner is chosen, the players' records are updated, and each player is told the result and the prize.

The model covers four source files:

- **`server.js`** is modelled as the class `Server.Engine`. It holds:
  - the matchmaking queue, a `seq`;
  - the registry of active battles, a `map`;
  - the pairings whose database insert is still in flight, a `map`;
  - the users table, a `map`;
  - the pending timers and suspended handlers, a `multiset` of tasks.
- **Handlers and tasks.** Each socket handler and each task is one atomic step, taken by one public method of `Server.Engine`. The methods `Consume`, `Claim`, `ScoreRound` and `DropBattle` are parts of these steps, called from them, not events of their own. Each timer callback is a task; the environment fires pending tasks in any order, each through its own method. Only two async functions are split at their first `await`:
  - `tryMatchmaking` is split at its insert. `JoinQueue`/`TryMatchmaking` is the first half. The pairing waits in the `matching` map, and `RegisterBattle` is the second half.
  - `submit_roast` is split at its update. `SubmitRoast` is the first half. It leaves a `SubmitResumes` task, and `ResumeSubmit` is the second half.
  - `startRound`, `scoreRound` and `endBattle` are not split: each runs whole, as one step.
- **Ghost history.** The engine keeps three ghost sets:
  - ids ever registered;
  - rounds whose `isScoring` flag was set ("claimed");
  - rounds for which `scoreRound` was called.

  The invariant `Server.Inv` relates these sets to the state. `ScoreRound` requires that its round was claimed and has not been scored. Every path that reaches it can prove this. So `scoreRound` runs at most once per (battle, round), over every interleaving of submissions, resubmissions, scoring timers, round timeouts and disconnects.
- **`src/services/aiJudge.js`** is modelled as `Judge`:
  - trimming with the ECMAScript white-space set;
  - the global regular-expression fence removal;
  - the tie-break.

  The model call and `JSON.parse` are function parameters.
- **`src/utils/helpers.js`** is modelled as `Helpers`: `calculatePrizes` and `getPromptForRound`, with JavaScript's `||` fallbacks and `undefined` lookups spelled out.
- **`src/config/constants.js`** is modelled as `Config`.

Where `server.js` keeps its own copy of a constant, the model follows the copy that `server.js` uses:

- The Diamond prompt list has "Roast your opponent's future" in server.js and "... future prospects" in constants.js. See `Server.ServerPromptsDiverge`.
- For an unknown tier, `endBattle` charges an entry fee of 100. `calculatePrizes` uses Bronze's 2000 instead. See `Settlement.UnknownTierFeeDiverges`.

Some behaviours of the source code, as written, are proved about the model:

- A connection that is not in a battle can submit to it under slot 0. That submission counts towards "both submitted" (`Battles.OutsiderCountsTowardsBoth`).
- Equal fallback scores are not tie-broken, so player 2 is labelled the winner (`Scoring.FallbackRound`).
- `currentRound` is never advanced, so `request_state` always re-sends round 1 (`Server.Engine.RequestState`).
- A round in which nobody submits has no round record. Its timeout therefore sends nothing and changes nothing but the pending tasks, so nothing schedules the next round unless a later submission completes a round (`Server.Engine.RoundTimeout`).
- A user paired with themselves is credited with two battles and two wins (`Settlement.SettledSelfPairing`).

The properties listed below are proved by the Dafny verifier.

## Model

| member | source | states |
|---|---|---|
| Config.PromptListsHaveRoundCount | src/config/constants.js:4-37 | every tier's prompt list has exactly ROUNDS_PER_BATTLE = 3 prompts |
| Config.SameTierKeys | src/config/constants.js:7-37 | the fee table and the prompt table have the same four tiers, Bronze, Silver, Gold and Diamond |
| Config.EntryFeesIncrease | src/config/constants.js:7-12 | entry fees are positive and strictly increase from Bronze to Diamond |
| Config.PromptsDistinct | src/config/constants.js:16-37 | no tier repeats a prompt |
| Config.PlatformCutIsWhole | src/config/constants.js:7-14 | the platform fee is 5/100, and 5% of every tier's pool is a whole number |
| Helpers.CalculatePrizes | src/utils/helpers.js:13-25 | a result exists exactly when the tier's fee or Bronze's fee is set; the pool is twice the fee; the prize plus the platform cut equals the pool; the cut is pool × fee rate |
| Helpers.EntryFee | src/utils/helpers.js:14 | the tier's own fee when it is set and not 0, otherwise Bronze's fee, and undefined exactly when neither exists |
| Helpers.UnknownTierPaysBronze | src/utils/helpers.js:14 | a tier that is missing or has a zero fee gets exactly Bronze's prizes |
| Helpers.BronzePrizes | src/utils/helpers.js:13-25 | with the configured table and 5%, Bronze gives fee 2000, pool 4000, cut 200 and prize 3800 |
| Helpers.TablePrizesAreWhole | src/utils/helpers.js:13-25 | for every table tier, the prize is exactly 95% of the pool and the cut exactly 5%, both whole numbers |
| Helpers.GetPromptForRound | src/utils/helpers.js:30-33 | a TypeError exactly when neither the tier's list nor Bronze's exists; undefined exactly when the chosen list is empty; otherwise an element of the chosen list |
| Helpers.PromptInRange | src/utils/helpers.js:32 | a round within the list, whose prompt is non-empty, gets `tierPrompts[round-1]` |
| Helpers.PromptOutOfRange | src/utils/helpers.js:32 | a round outside a non-empty list gets the list's first prompt |
| Helpers.UnknownTierUsesBronze | src/utils/helpers.js:31 | a tier without a list behaves exactly like Bronze |
| Helpers.ConfiguredPrompts | src/utils/helpers.js:30-33 | with the configured prompts, rounds 1 to 3 of every tier get that tier's prompts in order |
| Judge.TrimStart | src/services/aiJudge.js:48 | the result is a suffix of the input that does not start with white space, and only white space was removed |
| Judge.TrimEnd | src/services/aiJudge.js:48 | the result is a prefix of the input that does not end with white space, and only white space was removed |
| Judge.Trim | src/services/aiJudge.js:48 | the result is a slice of the input that neither starts nor ends with white space, and everything cut on either side is white space |
| Judge.RemoveFence | src/services/aiJudge.js:50-52 | the global replace never makes the text longer |
| Judge.StripFences | src/services/aiJudge.js:48-53 | the text given to the parser is never longer than the trimmed reply |
| Judge.UnfencedReplyUnchanged | src/services/aiJudge.js:48-53 | a trimmed reply that does not start with three backticks is passed on unchanged |
| Judge.RemoveFenceSkipsPlainText | src/services/aiJudge.js:50-52 | the replace keeps text without backticks as it is |
| Judge.TrimOfBoundedText | src/services/aiJudge.js:48 | a text that starts and ends with a non-space character trims to itself |
| Judge.ClosingFence | src/services/aiJudge.js:50-52 | a closing "\n```" survives the json-fence pass and becomes "\n" in the plain-fence pass |
| Judge.JsonFencedPayload | src/services/aiJudge.js:49-50 | stripping "```json\n" + p + "\n```", for a backtick-free p, gives p + "\n" |
| Judge.PlainFencedPayload | src/services/aiJudge.js:51-52 | stripping "```\n" + p + "\n```", for a backtick-free p, gives p + "\n" |
| Judge.BreakTie | src/services/aiJudge.js:57-62 | afterwards the two scores differ; only roast1_score can change; differing scores are left alone; a tie adds between 1 and 5 to roast1_score |
| Judge.ScoreRoasts | src/services/aiJudge.js:14-70 | a result exists exactly when the call and the parse succeed; it is the parsed reply of the stripped text after the tie-break, so its scores differ |
| Queue.Filter | server.js:300 | the filter is never longer than the queue |
| Queue.FindSocket | server.js:168 | `findIndex` gives -1 exactly when no entry has the socket, otherwise the first position that has it |
| Queue.FilterAppend | server.js:300 | filtering, and keeping the other keys' entries, both distribute over concatenation |
| Queue.SocketAppend | server.js:168-171 | splitting a queue by connection distributes over concatenation |
| Queue.RemoveMatchesFilter | server.js:300-309 | after taking out the first n entries for the key, the key's remaining entries are the rest of the filter, in order |
| Queue.RemoveMatchesOthers | server.js:300-309 | taking out entries for the key leaves every other key's entries, in order |
| Queue.RemoveMatchesMultiset | server.js:300-309 | the entries taken out are exactly the key's first n entries, and nothing else is lost |
| Queue.RemoveMatchesSkips | server.js:300-309 | a prefix without entries for the key is kept as it is |
| Queue.RemovePairBySplices | server.js:305-309 | the two splices at the first two matching positions take out exactly the key's first two entries |
| Queue.FilterOfOne | server.js:300 | filtering one entry keeps it exactly when it matches |
| Queue.FilterStep | server.js:300 | filtering one entry more appends that entry exactly when it matches |
| Queue.FindPair | server.js:300-309 | the scan finds a pair exactly when at least two entries match; the positions are those of the filter's first two entries, with no other match before the second |
| Queue.SocketOfOne | server.js:168-171 | splitting one entry by connection |
| Queue.SpliceSocket | server.js:168-171 | splicing out an entry of a connection leaves one entry of that connection fewer, and every other connection's entries as before |
| Queue.RemoveSocketEffect | server.js:167-173 | leaving takes out exactly the connection's first entry when there is one, keeps everything else in order, and changes nothing otherwise |
| Queue.RemoveSocket | server.js:168-170 | with no entry for the connection the queue is unchanged; otherwise the first such entry is cut out and the entries before and after it are kept in place |
| Battles.PlayerIndex | server.js:232 | `findIndex` gives 0 for player 1's connection, 1 for player 2's, and -1 for any other |
| Battles.OtherPlayer | server.js:219 | `find` gives player 1 when it is on another connection, else player 2 when it is, and nothing exactly when both players are on the given connection |
| Battles.Submit | server.js:228-236 | the round record exists afterwards; the submitter's slot holds the new roast and time; every other slot, the scoring flag, every other round and every other field of the battle are unchanged |
| Battles.Flag | server.js:249 | setting `isScoring` changes only that flag of that round |
| Battles.ResubmitOverwrites | server.js:228-239 | a resubmission by the same slot replaces the roast and adds no key |
| Battles.BothSubmittedMeaning | server.js:246 | the key count includes `isScoring`: unflagged, two keys means two slots submitted; flagged, one slot is enough |
| Battles.TwoPlayersCompleteRound | server.js:228-246 | the two players each submitting once to a fresh round leave exactly slots 1 and 2 filled, unflagged, and "both submitted" |
| Battles.OutsiderCountsTowardsBoth | server.js:232-246 | a connection outside the battle submits under slot 0, so it and player 1 together pass the "both submitted" test while slot 2 is empty |
| Scoring.RoastText | server.js:435-436 | the placeholder stands in exactly when the slot is missing or its roast is empty (or is the placeholder text); otherwise the roast is used |
| Scoring.Request | server.js:435-445 | the default prompt is used exactly when the stored prompt is missing or empty; any other prompt in the request is the stored one, and a non-empty stored prompt is always passed on; the roasts are those of slots 1 and 2 |
| Scoring.WinnerLabel | server.js:515-517 | player 1 (index 0) is `you` exactly when score1 > score2; player 2 (index 1) is `you` exactly when score1 <= score2 |
| Scoring.Judged | server.js:430-492 | a judged round has a round record and two different scores; with a record, the scores are the AI judge's for the request built from that record and the stored prompt |
| Scoring.RoundOutcome | server.js:430-549 | two `battle:round_scored` notices, to player 1 then player 2, for this round; they carry the judged scores and commentary, or, when judging threw, the fallback scores, no breakdowns and the "unavailable" commentary |
| Scoring.LabelsOpposite | server.js:515-517 | the two players always get opposite labels; player 1 is `you` exactly when score1 > score2 |
| Scoring.Notices | server.js:507-519 | one notice per player, in player order: scores and breakdowns are swapped into "yours" and "the opponent's"; the labels are opposite |
| Scoring.JudgedRoundHasOneWinner | server.js:479-519 | a judged round tells the players the judge's scores; they differ after the tie-break, and the label `you` goes to the higher score |
| Scoring.FallbackRound | server.js:531-549 | when judging throws, scores are in [50,100), there are no breakdowns, and the commentary is fixed; equal fallback scores label player 2 the winner |
| Scoring.MissingRoastIsPlaceholder | server.js:435-436 | a slot that never submitted, or submitted an empty roast, is judged as "No roast submitted" |
| Scoring.NextTask | server.js:521-529 | the battle ends exactly when the round number reaches ROUNDS_PER_BATTLE; otherwise the next round is started |
| Scoring.ThreeRoundsThenEnd | server.js:521-529 | from round 1 the battle goes through rounds 2 and 3 and then ends |
| Settlement.TotalAppend | server.js:577-580 | the total of two row lists is the sum of their totals |
| Settlement.Total | server.js:577-580 | a missing score counts as 0: rows with no scores total 0, and non-negative scores give a non-negative total |
| Settlement.TotalReorder | server.js:568-580 | the totals do not depend on the order the rows come back in |
| Settlement.SumTotals | server.js:574-580 | the accumulator loop computes each player's total of stored scores, a missing score counting as 0 |
| Settlement.WinnerId | server.js:582-584 | the winner is one of the two players; for distinct users, player 1 exactly when its total is strictly greater |
| Settlement.Upsert | server.js:599-622 | the user's battles go up by one and their wins by one only for the winner; a missing record is created with 1 battle and 0 or 1 wins; earnings are untouched; no other record changes |
| Settlement.UpdateStats | server.js:595-623 | the loop applies create-or-increment to player 1, then to player 2 |
| Settlement.SettledDistinct | server.js:595-623 | for two distinct users, each gets one battle more, only the winner one win more, earnings unchanged, and no other record changes |
| Settlement.SettledSelfPairing | server.js:582-623 | a user paired with themselves gets two battles and two wins |
| Settlement.EndedNotices | server.js:625-648 | one result notice per player, in player order |
| Settlement.Settle | server.js:568-648 | settlement from the rows: the users table after both players' updates for the winner chosen from the totals, and the two result notices |
| Settlement.SettlementOutcome | server.js:582-648 | for distinct users exactly one wins, player 1 exactly on a strictly greater total; the winner earns 1.9 × fee (the pool less 5%), the loser −fee; the pool is 2 × fee |
| Settlement.ServerEntryFees | server.js:631-638 | table tiers pay their table fee; any other tier pays 100 |
| Settlement.ServerEntryFee | server.js:638 | the fee is positive; a tier outside endBattle's own table pays 100, a table tier pays its table entry |
| Settlement.WinnerPrize | server.js:639-641 | the winner gets 95% of the pool of two fees (1.9 × the fee), the prize plus the 5% cut is the pool, and a fee that is a multiple of 10 gives a whole-number prize |
| Settlement.UnknownTierFeeDiverges | server.js:638 | an unknown tier pays 100 in `endBattle` but Bronze's 2000 in `calculatePrizes` |
| Server.ServerPromptsDiverge | server.js:48-71 | the server's prompt table has the same tiers and list lengths as the configuration, and the same prompts except Diamond's second |
| Server.PromptAt | server.js:196-197 | indexing a list gives its element inside the list and undefined outside |
| Server.RoundStarts | server.js:403-410 | one `battle:round_start` to each player, in player order, each with the battle id, the round, the same prompt and the 30-second duration |
| Server.InvDropBattles | server.js:283-292 | deleting battles keeps the engine invariant |
| Server.InvDropTask | server.js:413-422 | a fired task leaves the invariant intact |
| Server.InvAddTimer | server.js:521-529 | arming a round-start, timeout or end timer keeps the invariant |
| Server.InvScore | server.js:426-428 | calling scoreRound for a claimed round with no scoring timer due keeps the invariant |
| Server.InvClaim | server.js:246-249 | setting an unset flag claims a round that was neither claimed nor scored before |
| Server.InvAddScoreDue | server.js:252-254 | arming the scoring timer of a claimed, unscored round that has none keeps the invariant |
| Server.InvSubmit | server.js:228-236 | creating or updating a round record keeps the invariant: a new record starts unflagged and unclaimed |
| Server.InvRegister | server.js:344-354 | registering a fresh battle keeps the invariant |
| Server.DropPlayer | server.js:283-292 | the kept battles are exactly those without the connection; each other battle yields a notice to its opponent |
| Server.Engine.constructor | server.js:44-45 | the engine starts with an empty queue, registry, pairing map, task multiset and users table, and an empty ghost history, so every id is fresh |
| Server.Engine.JoinQueue | server.js:149-164 | the entry is appended; when at least two entries match, the first two are taken out and paired under the fresh id, otherwise the queue is the appended one |
| Server.Engine.TryMatchmaking | server.js:297-309 | with at least two matching entries, the first two are taken out (all others keep their order) and paired as players[0] and players[1]; otherwise nothing changes |
| Server.Engine.RegisterBattle | server.js:344-376 | the battle is filed under its id with currentRound 1 and no rounds; both players are told their opponent; round 1 is scheduled |
| Server.Engine.LeaveQueue | server.js:167-173 | the queue loses the connection's first entry, if any; nothing else changes |
| Server.Engine.RequestState | server.js:176-205 | nothing is sent for a missing battle, a non-player or an unknown tier; otherwise the player gets round 1 with the tier's first prompt |
| Server.Engine.SubmitRoast | server.js:208-241 | for a missing battle nothing changes; otherwise the opponent gets the roast, the roast is stored under the submitter's slot, and the rest of the handler is suspended |
| Server.Engine.ResumeSubmit | server.js:243-256 | a round with exactly two keys and no flag is flagged, claimed and scheduled for scoring; otherwise only the task is consumed |
| Server.Engine.Claim | server.js:249 | setting `isScoring` on an existing, unflagged round record claims that round: it was not claimed before, it has not been scored and no scoring is pending for it; only that flag changes |
| Server.Engine.ScoreRound | server.js:426-557 | called only for a claimed round that was never scored; tells the players the outcome and schedules the next round or the end; records the round as scored |
| Server.Engine.ScoreWhenDue | server.js:252-254 | the scoring timer scores a round that was not scored before |
| Server.Engine.RoundTimeout | server.js:413-422 | an existing, unflagged round record is flagged and scored once; a missing battle, a missing record or a flagged round means nothing happens |
| Server.Engine.StartRound | server.js:379-423 | a live battle of a known tier announces the round to both players and arms the timeout; otherwise nothing happens; the round record is not created |
| Server.Engine.EndBattle | server.js:560-659 | the battle is removed in every case; with readable rows, the users table is settled and the players are told the result |
| Server.Engine.DropBattle | server.js:658 | the battle is deleted and its end timer consumed; the invariant holds and nothing else changes |
| Server.Engine.Disconnect | server.js:275-293 | the connection's first queue entry goes; exactly the battles it plays in are deleted, each with a notice to the opponent; other battles are untouched |

## Left out

- HTTP endpoints (`/health`, `/test-db`, `/test-redis`, `/test-openai`) and `httpServer.listen`: these are diagnostics and I/O.
- The socket.io transport. Messages are returned by each step in order. Disconnect's notices are a map from battle id to notice, so the order of `Map.forEach` is not modelled.
- The emoji broadcast (`battle:emoji_reaction`): it reads the registry and changes no state.
- Supabase. Writes to the battles and rounds tables are not modelled. The stored prompt and the rows read by `endBattle` are inputs; None means the read failed or threw. The users table is a map. Null counters count as 0 and are modelled as 0.
- The OpenAI call and `JSON.parse`: both are function parameters (the model call may fail). A reply whose scores are not numbers, or whose fields are missing, is not modelled.
- `setTimeout` delays (1000, 3000, 5000, 8000, 35000 ms): they become pending tasks, and their relative timing is not modelled (any order is allowed). `Date.now` is a parameter.
- `Math.random` and `crypto.randomUUID`: they are parameters constrained to their ranges. The id is trusted to be fresh.
- The gaps between the `await`s inside `startRound`, `scoreRound` and `endBattle`: each of these functions runs as one step. These interleavings of the source are therefore not modelled:
  - A disconnect during `endBattle`'s database calls: the source sends `battle:opponent_disconnected` and later also settles the battle and sends `battle:ended`.
  - A disconnect during `scoreRound`'s judge call: the source sends `battle:round_scored` after `battle:opponent_disconnected`.
  - Two `endBattle` timers for one battle: a client can choose a round number of 3 or more, and when that round is scored next to round 3, both timers are armed. In the source the second `endBattle` can start before the first deletes the battle, and then both settle it. In the model the first one deletes the battle and the second finds nothing.
- Server.Engine.ResumeSubmit: a battle deleted while its submission was being written is treated as gone. The source still flags its detached record and arms a scoring timer, but that timer finds no battle and sends nothing.
- Server.Engine.StartRound: an unknown tier makes the source throw inside an async function. The model treats this as "nothing happens" and does not model the unhandled rejection that would stop the Node process.
- Server.Engine.RequestState: the `request_state` handler is synchronous. For an unknown tier it throws a TypeError inside the socket event listener. The model treats this as "nothing happens" and does not model the thrown exception.
- Settlement.WinnerPrize: the fee is computed in exact rational arithmetic, not IEEE doubles. With the table values the results are whole numbers either way.
- Helpers.CalculatePrizes: the fee and the prize are computed in exact rational arithmetic, not IEEE doubles. With the table values the results are whole numbers either way.
- Ill-typed client payloads: the client's `round` is an integer and its `roast` a string. In the source a string `round` makes `roundNumber + 1` concatenate (server.js:521-529), and a missing `roast` is stored as `undefined`; neither is modelled.
- Inherited object keys (`tierPrizes["constructor"]` and the like): tier names are only looked up among the tables' own keys.
- The Redis client (unused), console logging, `generateBattleId` and `src/services/database.js`.
