/** The static battle configuration of src/config/constants.js: round count,
    round length, per-tier entry fees, the platform fee and the per-tier
    prompt lists. */
module Config {

  const RoundDuration: int := 30000
  const RoundsPerBattle: int := 3
  const MatchmakingTimeout: int := 60000

  /** The four tiers, from the cheapest to the most expensive. */
  const Tiers: seq<string> := ["Bronze", "Silver", "Gold", "Diamond"]

  /** Entry fee per tier (`TIER_PRIZES`). */
  const TierPrizes: map<string, int> :=
    map["Bronze" := 2000, "Silver" := 6000, "Gold" := 8000, "Diamond" := 10000]

  /** The platform's share of the prize pool, 5%. */
  const PlatformFee: real := 0.05

  const RoastPrompts: map<string, seq<string>> :=
    map[
      "Bronze" := [
        "Roast your opponent's fashion sense",
        "Roast your opponent's gaming skills",
        "Roast your opponent's cooking abilities"],
      "Silver" := [
        "Roast your opponent's music taste",
        "Roast your opponent's social media posts",
        "Roast your opponent's selfie game"],
      "Gold" := [
        "Roast your opponent's dance moves",
        "Roast your opponent's pickup lines",
        "Roast your opponent's life choices"],
      "Diamond" := [
        "Roast your opponent's entire existence",
        "Roast your opponent's future prospects",
        "Roast your opponent's past mistakes"]
    ]

  /** Every tier has exactly one prompt per round. */
  lemma PromptListsHaveRoundCount()
    ensures forall t :: t in RoastPrompts ==> |RoastPrompts[t]| == RoundsPerBattle
  {
  }

  /** The fee table and the prompt table cover the same four tiers. */
  lemma SameTierKeys()
    ensures TierPrizes.Keys == RoastPrompts.Keys
    ensures TierPrizes.Keys == set t | t in Tiers
  {
  }

  /** Entry fees are positive and strictly increase from Bronze to Diamond. */
  lemma EntryFeesIncrease()
    ensures forall i :: 0 <= i < |Tiers| ==> Tiers[i] in TierPrizes && 0 < TierPrizes[Tiers[i]]
    ensures forall i, j :: 0 <= i < j < |Tiers| ==> TierPrizes[Tiers[i]] < TierPrizes[Tiers[j]]
  {
  }

  /** No tier repeats a prompt. */
  lemma PromptsDistinct()
    ensures forall t, i, j :: t in RoastPrompts && 0 <= i < j < |RoastPrompts[t]| ==>
      RoastPrompts[t][i] != RoastPrompts[t][j]
  {
  }

  /** The fee is 5/100, and 5% of every tier's pool (twice its fee) is a whole number. */
  lemma PlatformCutIsWhole()
    ensures PlatformFee == 5.0 / 100.0
    ensures forall t :: t in TierPrizes ==> (2 * TierPrizes[t] * 5) % 100 == 0
  {
  }
}
