/** The judging client of src/services/aiJudge.js (and its copy inside
    server.js's scoreRound): strip code fences from the model's reply, parse
    it, and break a tie in player 1's favour by a random bonus. The model
    call and the JSON parser are parameters: `complete` returns None when
    the call fails, `parse` returns None when the text is not valid JSON. */
module Judge {
  import opened Wrappers

  /** What the judge is asked: the round's prompt and the two roasts. */
  datatype JudgeRequest = JudgeRequest(prompt: string, roast1: string, roast2: string)

  /** The parsed reply. */
  datatype ScoreCard = ScoreCard(
    roast1Score: int, roast2Score: int,
    roast1Breakdown: string, roast2Breakdown: string,
    commentary: string)

  /** The characters `String.prototype.trim` removes: ECMAScript white space
      (tab, vertical tab, form feed, space, no-break space, byte order mark
      and the Unicode space separators) and line terminators. */
  predicate IsJsSpace(c: char)
  {
    c == '\t' || c == '\n' || c == '\U{000B}' || c == '\U{000C}' || c == '\r' || c == ' ' ||
    c == '\U{00A0}' || c == '\U{1680}' || ('\U{2000}' <= c <= '\U{200A}') ||
    c == '\U{2028}' || c == '\U{2029}' || c == '\U{202F}' || c == '\U{205F}' ||
    c == '\U{3000}' || c == '\U{FEFF}'
  }

  function TrimStart(s: string): (r: string)
    ensures |r| <= |s| && r == s[|s| - |r|..]
    ensures r != [] ==> !IsJsSpace(r[0])
    ensures forall i :: 0 <= i < |s| - |r| ==> IsJsSpace(s[i])
  {
    if s != [] && IsJsSpace(s[0]) then TrimStart(s[1..]) else s
  }

  function TrimEnd(s: string): (r: string)
    ensures |r| <= |s| && r == s[..|r|]
    ensures r != [] ==> !IsJsSpace(r[|r| - 1])
    ensures forall i :: |r| <= i < |s| ==> IsJsSpace(s[i])
  {
    if s != [] && IsJsSpace(s[|s| - 1]) then TrimEnd(s[..|s| - 1]) else s
  }

  /** `trim()`: the input with its leading white space cut (leaving
      `TrimStart(s)`, a suffix of `s`) and then its trailing white space cut. */
  function Trim(s: string): (r: string)
    ensures r != [] ==> !IsJsSpace(r[0]) && !IsJsSpace(r[|r| - 1])
    ensures var i := |s| - |TrimStart(s)|; 0 <= i <= |s| && |r| <= |s| - i && r == s[i..][..|r|]
    ensures forall k :: 0 <= k < |s| - |TrimStart(s)| ==> IsJsSpace(s[k])
    ensures forall k :: |r| <= k < |TrimStart(s)| ==> IsJsSpace(TrimStart(s)[k])
  {
    TrimEnd(TrimStart(s))
  }

  predicate StartsWith(s: string, prefix: string)
  {
    |prefix| <= |s| && s[..|prefix|] == prefix
  }

  const JsonFence: string := "```json"
  const Fence: string := "```"

  /** `s.replace(/<fence>\n?/g, '')`: scanning left to right, every
      occurrence of `fence`, together with one newline right after it, is
      deleted; the scan resumes after each deletion. */
  function RemoveFence(s: string, fence: string): (r: string)
    requires |fence| > 0
    ensures |r| <= |s|
    decreases |s|
  {
    if s == [] then s
    else if StartsWith(s, fence + "\n") then RemoveFence(s[|fence| + 1..], fence)
    else if StartsWith(s, fence) then RemoveFence(s[|fence|..], fence)
    else [s[0]] + RemoveFence(s[1..], fence)
  }

  /** The text handed to `JSON.parse`. */
  function StripFences(response: string): (r: string)
    ensures |r| <= |Trim(response)|
  {
    var jsonStr := Trim(response);
    if StartsWith(jsonStr, JsonFence) then RemoveFence(RemoveFence(jsonStr, JsonFence), Fence)
    else if StartsWith(jsonStr, Fence) then RemoveFence(jsonStr, Fence)
    else jsonStr
  }

  /** A reply that opens with the json fence opens with the plain fence. */
  lemma JsonFenceOpensFence(s: string)
    ensures StartsWith(s, JsonFence) ==> StartsWith(s, Fence)
  {
    if StartsWith(s, JsonFence) {
      assert s[..|Fence|] == s[..|JsonFence|][..|Fence|] == JsonFence[..|Fence|] == Fence;
    }
  }

  /** A trimmed reply that does not open with a fence is parsed as it is. */
  lemma UnfencedReplyUnchanged(response: string)
    requires !StartsWith(Trim(response), Fence)
    ensures StripFences(response) == Trim(response)
  {
    JsonFenceOpensFence(Trim(response));
  }

  /** Text without backticks passes through the fence removal untouched. */
  lemma {:induction false} RemoveFenceSkipsPlainText(p: string, rest: string, fence: string)
    requires |fence| > 0 && fence[0] == '`'
    requires '`' !in p
    ensures RemoveFence(p + rest, fence) == p + RemoveFence(rest, fence)
  {
    if p != [] {
      var s := p + rest;
      assert s[0] == p[0] != '`';
      assert !StartsWith(s, fence + "\n") && !StartsWith(s, fence);
      assert s[1..] == p[1..] + rest;
      RemoveFenceSkipsPlainText(p[1..], rest, fence);
    } else {
      assert p + rest == rest;
    }
  }

  /** A string whose first and last characters are not white space is its own trim. */
  lemma TrimOfBoundedText(s: string)
    requires s != [] && !IsJsSpace(s[0]) && !IsJsSpace(s[|s| - 1])
    ensures Trim(s) == s
  {
  }

  /** The closing fence, seen by each of the two removals. */
  lemma ClosingFence()
    ensures RemoveFence("\n```", JsonFence) == "\n```"
    ensures RemoveFence("\n```", Fence) == "\n"
  {
    var close := "\n```";
    assert close[0] == '\n' && Fence[0] == '`' && JsonFence[0] == '`';
    assert !StartsWith(close, JsonFence + "\n") && !StartsWith(close, JsonFence);
    assert !StartsWith(close, Fence + "\n") && !StartsWith(close, Fence);
    assert close[1..] == Fence;
    assert !StartsWith(Fence, JsonFence + "\n") && !StartsWith(Fence, JsonFence);
    assert Fence[1..] == "``" && "``"[1..] == "`" && "`"[1..] == [];
    assert RemoveFence("`", JsonFence) == "`";
    assert RemoveFence("``", JsonFence) == "``";
    assert RemoveFence(Fence, JsonFence) == Fence;
    assert StartsWith(Fence, Fence) && !StartsWith(Fence, Fence + "\n");
    assert RemoveFence(Fence, Fence) == [];
  }

  /** A reply fenced as ```json ... ``` yields the payload and the newline before the closing fence. */
  lemma JsonFencedPayload(p: string)
    requires '`' !in p
    ensures StripFences("```json\n" + p + "\n```") == p + "\n"
  {
    var s := "```json\n" + p + "\n```";
    TrimOfBoundedText(s);
    assert s[..7] == JsonFence;
    assert s[..8] == JsonFence + "\n";
    assert s[8..] == p + "\n```";
    ClosingFence();
    RemoveFenceSkipsPlainText(p, "\n```", JsonFence);
    assert RemoveFence(s, JsonFence) == p + "\n```";
    RemoveFenceSkipsPlainText(p, "\n```", Fence);
  }

  /** A reply fenced as ``` ... ``` yields the payload and the newline before the closing fence. */
  lemma PlainFencedPayload(p: string)
    requires '`' !in p
    ensures StripFences("```\n" + p + "\n```") == p + "\n"
  {
    var s := "```\n" + p + "\n```";
    TrimOfBoundedText(s);
    assert s[3] == '\n' != JsonFence[3];
    assert !StartsWith(s, JsonFence);
    assert s[..4] == Fence + "\n";
    assert s[4..] == p + "\n```";
    assert RemoveFence(s, Fence) == RemoveFence(p + "\n```", Fence);
    ClosingFence();
    RemoveFenceSkipsPlainText(p, "\n```", Fence);
    assert StripFences(s) == RemoveFence(s, Fence);
  }

  /** The tie-break on the freshly parsed reply: equal scores get a bonus
      (a random whole number from 1 to 5) added to player 1's score. */
  function BreakTie(s: ScoreCard, bonus: int): (r: ScoreCard)
    requires 1 <= bonus <= 5
    ensures r.roast1Score != r.roast2Score
    ensures r == s.(roast1Score := r.roast1Score)
    ensures s.roast1Score != s.roast2Score ==> r == s
    ensures s.roast1Score == s.roast2Score ==> s.roast1Score + 1 <= r.roast1Score <= s.roast1Score + 5
  {
    if s.roast1Score == s.roast2Score then s.(roast1Score := s.roast1Score + bonus) else s
  }

  /** `scoreRoasts`: ask the judge, strip the fences, parse, break a tie.
      None is the exception the source rethrows (failed call or bad JSON). */
  function ScoreRoasts(req: JudgeRequest, complete: JudgeRequest -> Option<string>,
                       parse: string -> Option<ScoreCard>, bonus: int): (r: Option<ScoreCard>)
    requires 1 <= bonus <= 5
    ensures r.Some? <==> complete(req).Some? && parse(StripFences(complete(req).value)).Some?
    ensures r.Some? ==> r.value.roast1Score != r.value.roast2Score
    ensures r.Some? ==> r.value == BreakTie(parse(StripFences(complete(req).value)).value, bonus)
  {
    match complete(req)
    case None => None
    case Some(aiResponse) =>
      match parse(StripFences(aiResponse))
      case None => None
      case Some(scores) => Some(BreakTie(scores, bonus))
  }
}
