/** The pure lookup helpers of src/utils/helpers.js. JavaScript's `a || b`
    falls back to `b` when `a` is undefined or falsy (0 for a number, "" for
    a string); both cases are spelled out here. */
module Helpers {
  import opened Wrappers
  import Config

  datatype Prizes = Prizes(entryFee: int, totalPool: int, platformFee: real, winnerPrize: real)

  /** `tierPrizes[tier] || tierPrizes.Bronze`; None is JavaScript's undefined. */
  function EntryFee(tier: string, tierPrizes: map<string, int>): (r: Option<int>)
    ensures r.None? <==> (tier !in tierPrizes || tierPrizes[tier] == 0) && "Bronze" !in tierPrizes
    ensures tier in tierPrizes && tierPrizes[tier] != 0 ==> r == Some(tierPrizes[tier])
    ensures (tier !in tierPrizes || tierPrizes[tier] == 0) && "Bronze" in tierPrizes ==> r == Some(tierPrizes["Bronze"])
  {
    if tier in tierPrizes && tierPrizes[tier] != 0 then Some(tierPrizes[tier])
    else if "Bronze" in tierPrizes then Some(tierPrizes["Bronze"])
    else None
  }

  /** The prize split of a battle in `tier`. None: no fee could be found, so
      the source would compute with undefined (NaN amounts). The fee's
      product is exact rational arithmetic here. */
  function CalculatePrizes(tier: string, tierPrizes: map<string, int>, platformFee: real): (r: Option<Prizes>)
    ensures r.Some? <==> (tier in tierPrizes && tierPrizes[tier] != 0) || "Bronze" in tierPrizes
    ensures r.Some? ==> r.value.totalPool == 2 * r.value.entryFee
    ensures r.Some? ==> r.value.winnerPrize + r.value.platformFee == r.value.totalPool as real
    ensures r.Some? ==> r.value.platformFee == r.value.totalPool as real * platformFee
    ensures r.Some? ==>
      r.value.entryFee == (if tier in tierPrizes && tierPrizes[tier] != 0 then tierPrizes[tier] else tierPrizes["Bronze"])
  {
    var entryFee := EntryFee(tier, tierPrizes);
    if entryFee.None? then None
    else
      var totalPool := entryFee.value * 2;
      var fee := totalPool as real * platformFee;
      Some(Prizes(entryFee.value, totalPool, fee, totalPool as real - fee))
  }

  /** A tier missing from the table, or one whose fee is 0, is priced like Bronze. */
  lemma UnknownTierPaysBronze(tier: string, tierPrizes: map<string, int>, platformFee: real)
    requires tier !in tierPrizes || tierPrizes[tier] == 0
    ensures CalculatePrizes(tier, tierPrizes, platformFee) == CalculatePrizes("Bronze", tierPrizes, platformFee)
  {
    var fee := EntryFee(tier, tierPrizes);
    assert fee == EntryFee("Bronze", tierPrizes);
    if fee.Some? {
      var pool := (2 * fee.value) as real;
      assert CalculatePrizes(tier, tierPrizes, platformFee).value.platformFee == pool * platformFee;
      assert CalculatePrizes("Bronze", tierPrizes, platformFee).value.platformFee == pool * platformFee;
    }
  }

  /** With the configured table and 5% fee: Bronze's pool is 4000, the cut 200, the prize 3800. */
  lemma BronzePrizes()
    ensures CalculatePrizes("Bronze", Config.TierPrizes, Config.PlatformFee) == Some(Prizes(2000, 4000, 200.0, 3800.0))
  {
  }

  /** For every configured tier the prize is a whole amount, 95% of the pool. */
  lemma TablePrizesAreWhole(tier: string)
    requires tier in Config.TierPrizes
    ensures var p := CalculatePrizes(tier, Config.TierPrizes, Config.PlatformFee);
      p.Some? && (p.value.totalPool * 95) % 100 == 0 &&
      p.value.winnerPrize == (p.value.totalPool * 95 / 100) as real &&
      p.value.platformFee == (p.value.totalPool * 5 / 100) as real
  {
    var fee := Config.TierPrizes[tier];
    assert fee in {2000, 6000, 8000, 10000};
  }

  /** What a JavaScript lookup can produce: a string, undefined, or a
      TypeError when indexing an undefined list. */
  datatype Lookup = Value(text: string) | Undefined | TypeError

  /** `prompts[tier] || prompts.Bronze`: any list (even an empty one) is truthy. */
  function PromptList(tier: string, prompts: map<string, seq<string>>): Option<seq<string>>
  {
    if tier in prompts then Some(prompts[tier])
    else if "Bronze" in prompts then Some(prompts["Bronze"])
    else None
  }

  /** `list[i]` in JavaScript: undefined outside the list. */
  function At(list: seq<string>, i: int): Lookup
  {
    if 0 <= i < |list| then Value(list[i]) else Undefined
  }

  /** A lookup is truthy when it is a non-empty string. */
  predicate Truthy(l: Lookup)
  {
    l.Value? && l.text != ""
  }

  /** `tierPrompts[roundNumber - 1] || tierPrompts[0]`. */
  function GetPromptForRound(tier: string, roundNumber: int, prompts: map<string, seq<string>>): (r: Lookup)
    ensures r.TypeError? <==> PromptList(tier, prompts).None?
    ensures r.Value? ==> r.text in PromptList(tier, prompts).value
    ensures r.Undefined? <==> PromptList(tier, prompts) == Some([])
  {
    match PromptList(tier, prompts)
    case None => TypeError
    case Some(tierPrompts) =>
      var l := At(tierPrompts, roundNumber - 1);
      if Truthy(l) then l else At(tierPrompts, 0)
  }

  /** A round inside the list whose prompt is non-empty gets that prompt. */
  lemma PromptInRange(tier: string, roundNumber: int, prompts: map<string, seq<string>>)
    requires PromptList(tier, prompts).Some?
    requires var list := PromptList(tier, prompts).value;
      1 <= roundNumber <= |list| && list[roundNumber - 1] != ""
    ensures GetPromptForRound(tier, roundNumber, prompts) == Value(PromptList(tier, prompts).value[roundNumber - 1])
  {
  }

  /** A round outside the list gets the list's first prompt. */
  lemma PromptOutOfRange(tier: string, roundNumber: int, prompts: map<string, seq<string>>)
    requires PromptList(tier, prompts).Some?
    requires var list := PromptList(tier, prompts).value;
      |list| > 0 && !(1 <= roundNumber <= |list|)
    ensures GetPromptForRound(tier, roundNumber, prompts) == Value(PromptList(tier, prompts).value[0])
  {
  }

  /** A tier without a list uses Bronze's list. */
  lemma UnknownTierUsesBronze(tier: string, roundNumber: int, prompts: map<string, seq<string>>)
    requires tier !in prompts
    ensures GetPromptForRound(tier, roundNumber, prompts) == GetPromptForRound("Bronze", roundNumber, prompts)
  {
  }

  /** With the configured prompts, rounds 1 to 3 of every tier get that tier's prompts in order. */
  lemma ConfiguredPrompts(tier: string, roundNumber: int)
    requires tier in Config.RoastPrompts && 1 <= roundNumber <= Config.RoundsPerBattle
    ensures GetPromptForRound(tier, roundNumber, Config.RoastPrompts) == Value(Config.RoastPrompts[tier][roundNumber - 1])
  {
    assert tier in {"Bronze", "Silver", "Gold", "Diamond"};
  }
}
