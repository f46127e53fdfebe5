/**
 * The language model behind `query_ai`, as a scripted provider: each
 * query consumes the next reply of a fixed script, and a ghost log keeps
 * what each query asked for. A reply is `None` when the provider gives
 * none (it is misconfigured, or the request failed); the script running
 * out counts as no reply.
 *
 * Callers test a reply with `if not response`, so an empty reply is as
 * good as none.
 */
module Oracle {
  import opened Wrappers
  import opened Json
  import opened Shopping

  type Replies = seq<Option<string>>

  /** What each request asks the model for; the wording of the prompts is not modelled. */
  datatype Prompt =
    | SingleDayPrompt(mealsPerDay: int)
    | BatchPrompt(count: int, day: int, types: seq<string>, avoid: seq<string>)
    | FallbackPrompt(count: int, primary: string, day: int)
    | RecipePrompt(name: Json, mealType: Json, calories: Json)
    | RepairPrompt(text: string)
    | ShoppingPrompt(context: MealsContext, sevenDays: bool)

  /** The reply the next query receives. */
  function Next(replies: Replies): Option<string> {
    if replies == [] then None else replies[0]
  }

  /** The script after one query. */
  function Rest(replies: Replies): (rest: Replies)
    ensures |rest| == if replies == [] then 0 else |replies| - 1
    ensures replies != [] ==> replies == [replies[0]] + rest
  {
    if replies == [] then [] else replies[1..]
  }

  /** The script after `n` queries. */
  function Skip(replies: Replies, n: nat): (rest: Replies)
    ensures n <= |replies| ==> rest == replies[n..]
    ensures n > |replies| ==> rest == []
  {
    if n <= |replies| then replies[n..] else []
  }

  /** Queries one after the other consume the script one reply each. */
  lemma SkipSteps(replies: Replies, a: nat, b: nat)
    ensures Skip(Skip(replies, a), b) == Skip(replies, a + b)
    ensures Skip(replies, 0) == replies
    ensures Skip(replies, 1) == Rest(replies)
  {
  }

  lemma SkipOnce(replies: Replies)
    ensures Skip(replies, 1) == Rest(replies)
  {
  }

  lemma SkipTwice(replies: Replies)
    ensures Skip(replies, 2) == Rest(Rest(replies))
  {
  }

  /** The log of a query sequence read as one block of prompts. */
  lemma SentGrouped(sent: seq<Prompt>, a: seq<Prompt>, b: seq<Prompt>)
    ensures sent + a + b == sent + (a + b)
  {
  }

  /** A piece of the pipeline that sends nothing leaves the log as it was. */
  lemma SentNothing(sent: seq<Prompt>)
    ensures sent + [] == sent
  {
  }

  /** `if not response`: no reply, or an empty one, stops the caller. */
  predicate Usable(reply: Option<string>) {
    reply.Some? && reply.value != []
  }

  /** What a piece of the pipeline returns, the replies it leaves, and the prompts it sent. */
  datatype Run<T> = Run(result: T, rest: Replies, prompts: seq<Prompt>)

  class Provider {
    var replies: Replies
    ghost var sent: seq<Prompt>

    constructor(script: Replies)
      ensures replies == script && sent == []
    {
      replies := script;
      sent := [];
    }

    /** `query_ai(prompt)`: the next reply of the script. */
    method Query(p: Prompt) returns (r: Option<string>)
      modifies this
      ensures r == Next(old(replies))
      ensures replies == Rest(old(replies))
      ensures sent == old(sent) + [p]
    {
      r := Next(replies);
      replies := Rest(replies);
      sent := sent + [p];
    }
  }
}
