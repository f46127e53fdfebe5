/**
 * Reading a JSON value out of a model reply: the local attempts of
 * `_parse_simple_json_response`, and the last resort of asking the model
 * to repair its own reply (`_repair_json_with_ai`).
 */
module JsonReply {
  import opened Wrappers
  import opened Text
  import opened Json
  import opened ResponseText
  import opened Oracle

  /**
   * What `_repair_json_with_ai` makes of the model's answer: the answer
   * with its fences removed, as JSON; nothing without an answer or when
   * it still does not parse.
   */
  function RepairedValue(reply: Option<string>, loads: string -> Option<Json>): Option<Json> {
    if Usable(reply) then loads(StripFences(reply.value)) else None
  }

  /** Sends at most the first 2000 characters of the malformed text and parses the answer. */
  method RepairJsonWithAi(provider: Provider, malformed: string, loads: string -> Option<Json>)
    returns (r: Option<Json>)
    modifies provider
    ensures r == RepairedValue(Next(old(provider.replies)), loads)
    ensures provider.replies == Rest(old(provider.replies))
    ensures provider.sent == old(provider.sent) + [RepairPrompt(TruncateForRepair(malformed))]
  {
    var truncated := TruncateForRepair(malformed);
    var reply := provider.Query(RepairPrompt(truncated));
    if !Usable(reply) {
      return None;
    }
    return loads(StripFences(reply.value));
  }

  /**
   * `_parse_simple_json_response` over the script: the local parse when it
   * succeeds, whatever value it gives; otherwise one repair request, whose
   * value is kept only when it is truthy.
   */
  function ParseRun(response: string, replies: Replies, loads: string -> Option<Json>): Run<Option<Json>> {
    var local := ParseLocally(response, loads);
    if local.Some? then Run(local, replies, [])
    else
      var repaired := RepairedValue(Next(replies), loads);
      Run(if repaired.Some? && Truthy(repaired.value) then repaired else None,
          Rest(replies),
          [RepairPrompt(TruncateForRepair(StripFences(response)))])
  }

  method ParseSimpleJsonResponse(provider: Provider, response: string, loads: string -> Option<Json>)
    returns (r: Option<Json>)
    modifies provider
    ensures var run := ParseRun(response, old(provider.replies), loads);
      r == run.result && provider.replies == run.rest && provider.sent == old(provider.sent) + run.prompts
  {
    var local := ParseLocally(response, loads);
    if local.Some? {
      return local;
    }
    ghost var before := provider.replies;
    assert ParseRun(response, before, loads).rest == Rest(before);
    var repaired := RepairJsonWithAi(provider, StripFences(response), loads);
    if repaired.Some? && Truthy(repaired.value) {
      return repaired;
    }
    return None;
  }

  /**
   * A parse asks the model at most once, and only when the local attempts
   * fail; what it sends is a prefix of the cleaned reply of at most 2000
   * characters.
   */
  lemma ParseRunRequests(response: string, replies: Replies, loads: string -> Option<Json>)
    ensures var run := ParseRun(response, replies, loads);
      && (run.prompts == [] <==> ParseLocally(response, loads).Some?)
      && (run.prompts == [] ==> run.rest == replies)
      && (run.prompts != [] ==> run.rest == Rest(replies) && |run.prompts| == 1)
      && (run.prompts != [] ==>
            run.prompts[0].RepairPrompt? && |run.prompts[0].text| <= RepairLimit &&
            run.prompts[0].text == StripFences(response)[..|run.prompts[0].text|])
  {
  }

  /** A parse consumes one reply exactly when it asks for a repair. */
  lemma ParseRunConsumes(response: string, replies: Replies, loads: string -> Option<Json>)
    ensures var run := ParseRun(response, replies, loads);
      && (run.prompts == [] ==> run.rest == replies)
      && (run.prompts != [] ==> run.rest == Rest(replies) && |run.prompts| == 1)
  {
  }

  /**
   * The result is the local parse, or a truthy repaired value; a falsy
   * value is returned only when it was parsed locally.
   */
  lemma ParseRunResult(response: string, replies: Replies, loads: string -> Option<Json>)
    ensures var run := ParseRun(response, replies, loads);
      run.result.Some? ==>
        run.result == ParseLocally(response, loads) ||
        (Usable(Next(replies)) && Truthy(run.result.value) &&
         run.result == loads(StripFences(Next(replies).value)))
    ensures var run := ParseRun(response, replies, loads);
      run.result.Some? && !Truthy(run.result.value) ==> run.result == ParseLocally(response, loads)
  {
  }

  /**
   * A reply that is a well-formed value inside a ```json fence is read
   * without asking the model again.
   */
  lemma FencedReplyParsesLocally(w1: string, v: string, w2: string, replies: Replies, loads: string -> Option<Json>)
    requires AllSpace(w1) && AllSpace(w2) && Bracketed(v) && loads(v).Some?
    ensures ParseRun(JsonFence + w1 + v + w2 + Fence, replies, loads) == Run(loads(v), replies, [])
  {
    ParseFencedAsUnfenced(w1, v, w2, loads);
  }

  /**
   * An answer the model returns fenced is read as the fenced text: a
   * repaired `[...]` reaches `loads` without the fence.
   */
  lemma RepairReadsFencedAnswer(body: string, loads: string -> Option<Json>)
    requires body != [] && body[0] != '`'
    ensures RepairedValue(Some(JsonFence + body + Fence), loads) == loads(Trim(body))
  {
    StripFencesOfFenced(body);
  }
}
