/**
 * The text clean-up that `_parse_simple_json_response` and
 * `_repair_json_with_ai` apply to a model reply before handing it to the
 * JSON decoder: markdown fences, trailing commas, and the search for the
 * first array-shaped or object-shaped span.
 */
module ResponseText {
  import opened Wrappers
  import opened Text
  import opened Json

  const JsonFence: string := "```json"
  const Fence: string := "```"

  /** How much of a malformed reply is shown to the model for repair. */
  const RepairLimit: nat := 2000

  /** The closing brackets the trailing-comma repair looks for. */
  const Closers: set<char> := {']', '}'}

  /** `t[len(p):]` when `t.startswith(p)`, else `t`. */
  function DropPrefix(t: string, p: string): (r: string)
    ensures StartsWith(t, p) ==> t == p + r
    ensures !StartsWith(t, p) ==> r == t
  {
    if StartsWith(t, p) then
      assert t == t[..|p|] + t[|p|..];
      t[|p|..]
    else t
  }

  /** `t[:-len(p)]` when `t.endswith(p)`, else `t`. */
  function DropSuffix(t: string, p: string): (r: string)
    ensures EndsWith(t, p) ==> t == r + p
    ensures !EndsWith(t, p) ==> r == t
  {
    if EndsWith(t, p) then
      assert t == t[..|t| - |p|] + t[|t| - |p|..];
      t[..|t| - |p|]
    else t
  }

  /**
   * Strip, drop a leading "```json", then a leading "```", then a trailing
   * "```", and strip again.
   */
  function StripFences(s: string): (r: string)
    ensures |r| <= |s|
    ensures r == [] || (!IsSpace(r[0]) && !IsSpace(r[|r| - 1]))
  {
    var t := Trim(s);
    var t1 := DropPrefix(t, JsonFence);
    var t2 := DropPrefix(t1, Fence);
    var t3 := DropSuffix(t2, Fence);
    assert |t3| <= |t2| <= |t1| <= |t|;
    Trim(t3)
  }

  /** Every "```json" fence is also a "```" fence. */
  lemma {:induction false} FencePrefix(t: string)
    requires !StartsWith(t, Fence)
    ensures !StartsWith(t, JsonFence)
  {
    if |JsonFence| <= |t| {
      assert t[..|Fence|] == t[..|JsonFence|][..|Fence|];
      assert JsonFence[..|Fence|] == Fence;
    }
  }

  /** A reply with no fence is only stripped of surrounding whitespace. */
  lemma {:induction false} StripFencesUnfenced(s: string)
    requires !StartsWith(Trim(s), Fence) && !EndsWith(Trim(s), Fence)
    ensures StripFences(s) == Trim(s)
  {
    var t := Trim(s);
    FencePrefix(t);
    assert DropSuffix(DropPrefix(DropPrefix(t, JsonFence), Fence), Fence) == t;
    TrimUnpadded(t);
  }

  /** Text that begins like a JSON array or object and ends like one. */
  predicate Bracketed(v: string) {
    |v| > 0 && (v[0] == '[' || v[0] == '{') && (v[|v| - 1] == ']' || v[|v| - 1] == '}')
  }

  /** A bracketed text is neither padded nor fenced. */
  lemma {:induction false} BracketedUnfenced(v: string)
    requires Bracketed(v)
    ensures !IsSpace(v[0]) && !IsSpace(v[|v| - 1])
    ensures !StartsWith(v, Fence) && !EndsWith(v, Fence)
  {
    assert |Fence| <= |v| ==> v[..|Fence|][0] == v[0];
    assert |Fence| <= |v| ==> v[|v| - |Fence|..][|Fence| - 1] == v[|v| - 1];
  }

  /**
   * Wrapping a JSON array or object in a "```json" fence, with any
   * whitespace inside the fence, does not change what the clean-up yields.
   */
  lemma {:induction false} StripFencesRoundTrip(w1: string, v: string, w2: string)
    requires AllSpace(w1) && AllSpace(w2) && Bracketed(v)
    ensures StripFences(JsonFence + w1 + v + w2 + Fence) == v
    ensures StripFences(v) == v
  {
    BracketedUnfenced(v);
    var body := w1 + v + w2;
    assert body[0] != '`' by {
      if w1 != [] { assert body[0] == w1[0]; } else { assert body[0] == v[0]; }
    }
    assert JsonFence + w1 + v + w2 + Fence == JsonFence + body + Fence;
    StripFencesOfFenced(body);
    TrimPadded(w1, v, w2);
    TrimUnpadded(v);
    StripFencesUnfenced(v);
  }

  lemma {:induction false} StripFencesOfFenced(body: string)
    requires body != [] && body[0] != '`'
    ensures StripFences(JsonFence + body + Fence) == Trim(body)
  {
    FencedTrim(body);
    FencedSteps(body);
  }

  /** A fenced text has no surrounding whitespace. */
  lemma {:induction false} FencedTrim(body: string)
    ensures Trim(JsonFence + body + Fence) == JsonFence + body + Fence
  {
    var s := JsonFence + body + Fence;
    assert s[0] == '`' && s[|s| - 1] == '`';
    TrimUnpadded(s);
  }

  /** The three fence steps take "```json" + body + "```" to body, when body does not start with "```". */
  lemma {:induction false} FencedSteps(body: string)
    requires body != [] && body[0] != '`'
    ensures DropSuffix(DropPrefix(DropPrefix(JsonFence + body + Fence, JsonFence), Fence), Fence) == body
  {
    var s := JsonFence + body + Fence;
    assert s[..|JsonFence|] == JsonFence;
    var t1 := DropPrefix(s, JsonFence);
    assert t1 == body + Fence;
    assert t1[0] != '`';
    assert !StartsWith(t1, Fence);
    assert t1[|t1| - |Fence|..] == Fence;
  }

  /** The characters the comma repair must keep: all but commas and whitespace. */
  function Essential(s: string): (r: string)
    ensures |r| <= |s|
  {
    if s == [] then []
    else (if s[0] == ',' || IsSpace(s[0]) then [] else [s[0]]) + Essential(s[1..])
  }

  lemma {:induction false} EssentialAppend(a: string, b: string)
    ensures Essential(a + b) == Essential(a) + Essential(b)
    decreases |a|
  {
    if a == [] {
      assert a + b == b;
    } else {
      assert (a + b)[1..] == a[1..] + b;
      EssentialAppend(a[1..], b);
    }
  }

  lemma {:induction false} EssentialSpaces(w: string)
    requires AllSpace(w)
    ensures Essential(w) == []
    decreases |w|
  {
    if w != [] {
      EssentialSpaces(w[1..]);
    }
  }

  /** Length of the whitespace run at the head of `s` (what `\s*` consumes). */
  function SpaceRun(s: string): (k: nat)
    ensures k <= |s|
    ensures k < |s| ==> !IsSpace(s[k])
  {
    if s != [] && IsSpace(s[0]) then 1 + SpaceRun(s[1..]) else 0
  }

  /** What the run covers is whitespace. */
  lemma {:induction false} SpaceRunIsSpace(s: string)
    ensures AllSpace(s[..SpaceRun(s)])
    decreases |s|
  {
    if s != [] && IsSpace(s[0]) {
      var k := SpaceRun(s);
      SpaceRunIsSpace(s[1..]);
      assert s[..k] == [s[0]] + s[1..][..k - 1];
    }
  }

  lemma {:induction false} SpaceRunAppend(a: string, b: string)
    requires SpaceRun(a) < |a|
    ensures SpaceRun(a + b) == SpaceRun(a)
    decreases |a|
  {
    if IsSpace(a[0]) {
      assert (a + b)[1..] == a[1..] + b;
      SpaceRunAppend(a[1..], b);
    }
  }

  lemma {:induction false} SpaceRunSpaces(w: string, rest: string)
    requires AllSpace(w) && (rest == [] || !IsSpace(rest[0]))
    ensures SpaceRun(w + rest) == |w|
    decreases |w|
  {
    if w == [] {
      assert w + rest == rest;
    } else {
      assert (w + rest)[1..] == w[1..] + rest;
      SpaceRunSpaces(w[1..], rest);
    }
  }

  /** A match keeps exactly its closer among the essential characters. */
  lemma EssentialOfMatch(s: string, k: nat)
    requires 1 <= k < |s| && s[0] == ',' && AllSpace(s[1..k]) && s[k] in Closers
    ensures Essential(s[..k + 1]) == [s[k]]
    ensures Essential(s[1..k + 1]) == [s[k]]
  {
    assert s[..k + 1] == [','] + s[1..k] + [s[k]];
    assert s[1..k + 1] == s[1..k] + [s[k]];
    EssentialAppend([','] + s[1..k], [s[k]]);
    EssentialAppend([','], s[1..k]);
    EssentialAppend(s[1..k], [s[k]]);
    EssentialSpaces(s[1..k]);
  }

  /** The pattern `,\s*[closers]` matches at the head of `s`. */
  predicate CommaBefore(s: string, closers: set<char>) {
    |s| > 0 && s[0] == ',' && 1 + SpaceRun(s[1..]) < |s| && s[1 + SpaceRun(s[1..])] in closers
  }

  /**
   * One left-to-right pass of `re.sub` over the pattern `,\s*[closers]`:
   * each match is replaced by its whitespace and closer (`keepSpace`,
   * the `r'\1'` replacement) or by the closer alone.
   */
  function DropCommas(s: string, closers: set<char>, keepSpace: bool): (r: string)
    requires closers <= Closers
    ensures |r| <= |s|
    decreases |s|
  {
    if s == [] then []
    else if CommaBefore(s, closers) then
      var k := 1 + SpaceRun(s[1..]);
      (if keepSpace then s[1..k + 1] else [s[k]]) + DropCommas(s[k + 1..], closers, keepSpace)
    else [s[0]] + DropCommas(s[1..], closers, keepSpace)
  }

  /** A pass removes commas and whitespace only. */
  lemma {:induction false} DropCommasEssential(s: string, closers: set<char>, keepSpace: bool)
    requires closers <= Closers
    ensures Essential(DropCommas(s, closers, keepSpace)) == Essential(s)
    decreases |s|
  {
    if s == [] {
    } else if CommaBefore(s, closers) {
      var k := 1 + SpaceRun(s[1..]);
      SpaceRunIsSpace(s[1..]);
      assert s[1..k] == s[1..][..k - 1];
      var kept := if keepSpace then s[1..k + 1] else [s[k]];
      var rest := DropCommas(s[k + 1..], closers, keepSpace);
      DropCommasEssential(s[k + 1..], closers, keepSpace);
      EssentialOfMatch(s, k);
      assert s == s[..k + 1] + s[k + 1..];
      EssentialAppend(s[..k + 1], s[k + 1..]);
      EssentialAppend(kept, rest);
    } else {
      var rest := DropCommas(s[1..], closers, keepSpace);
      DropCommasEssential(s[1..], closers, keepSpace);
      EssentialAppend([s[0]], rest);
      assert s == [s[0]] + s[1..];
      EssentialAppend([s[0]], s[1..]);
    }
  }

  /**
   * The three substitutions of the parser: `,(\s*[}\]])` -> `\1`, then
   * `,\s*}` -> `}`, then `,\s*]` -> `]`.
   */
  function RepairTrailingCommas(s: string): (r: string)
    ensures |r| <= |s|
  {
    DropCommas(DropCommas(DropCommas(s, Closers, true), {'}'}, false), {']'}, false)
  }

  /** The repair removes commas and whitespace only: every other character survives, in order. */
  lemma {:induction false} RepairKeepsEssential(s: string)
    ensures Essential(RepairTrailingCommas(s)) == Essential(s)
  {
    var a := DropCommas(s, Closers, true);
    var b := DropCommas(a, {'}'}, false);
    DropCommasEssential(s, Closers, true);
    DropCommasEssential(a, {'}'}, false);
    DropCommasEssential(b, {']'}, false);
  }

  /**
   * Every comma is followed, after whitespace, by a character of `s` that
   * is not a closing bracket: the text has no trailing comma anywhere.
   */
  predicate SafeCommas(s: string) {
    forall i :: 0 <= i < |s| ==> SafeCommaAt(s, i)
  }

  predicate SafeCommaAt(s: string, i: nat)
    requires i < |s|
  {
    s[i] == ',' ==> i + 1 + SpaceRun(s[i + 1..]) < |s| && s[i + 1 + SpaceRun(s[i + 1..])] !in Closers
  }

  lemma SafeCommasTail(x: string)
    requires x != [] && SafeCommas(x)
    ensures SafeCommas(x[1..])
  {
    var t := x[1..];
    forall i | 0 <= i < |t| ensures SafeCommaAt(t, i) {
      assert SafeCommaAt(x, i + 1);
      assert t[i + 1..] == x[i + 2..];
    }
  }

  /** A comma that is not trailing in `x` stays so whatever follows `x`. */
  lemma {:induction false} SafeHeadNoMatch(x: string, y: string, closers: set<char>)
    requires closers <= Closers && x != [] && SafeCommaAt(x, 0)
    ensures !CommaBefore(x + y, closers)
  {
    var s := x + y;
    if x[0] == ',' {
      var k := SpaceRun(x[1..]);
      SpaceRunAppend(x[1..], y);
      assert s[1..] == x[1..] + y;
      assert s[1 + k] == x[1 + k];
    }
  }

  /** Where the pattern does not match, the pass copies one character. */
  lemma {:induction false} DropCommasCopies(s: string, closers: set<char>, keepSpace: bool)
    requires closers <= Closers && s != [] && !CommaBefore(s, closers)
    ensures DropCommas(s, closers, keepSpace) == [s[0]] + DropCommas(s[1..], closers, keepSpace)
  {
  }

  /** A pass leaves a prefix without trailing commas untouched. */
  lemma {:induction false} DropCommasSafePrefix(x: string, y: string, closers: set<char>, keepSpace: bool)
    requires closers <= Closers && SafeCommas(x)
    ensures DropCommas(x + y, closers, keepSpace) == x + DropCommas(y, closers, keepSpace)
    decreases |x|
  {
    if x == [] {
      assert x + y == y;
    } else {
      assert SafeCommaAt(x, 0);
      DropCommasSafeHead(x, y, closers, keepSpace);
      SafeCommasTail(x);
      DropCommasSafePrefix(x[1..], y, closers, keepSpace);
      assert x == [x[0]] + x[1..];
    }
  }

  /** The first character of a prefix whose head is no trailing comma is copied. */
  lemma DropCommasSafeHead(x: string, y: string, closers: set<char>, keepSpace: bool)
    requires closers <= Closers && x != [] && SafeCommaAt(x, 0)
    ensures DropCommas(x + y, closers, keepSpace) == [x[0]] + DropCommas(x[1..] + y, closers, keepSpace)
  {
    var s := x + y;
    SafeHeadNoMatch(x, y, closers);
    DropCommasCopies(s, closers, keepSpace);
    assert s[1..] == x[1..] + y;
  }

  /** Text without a trailing comma passes the repair unchanged. */
  lemma {:induction false} RepairKeepsSafeText(s: string)
    requires SafeCommas(s)
    ensures RepairTrailingCommas(s) == s
  {
    DropCommasSafePrefix(s, [], Closers, true);
    DropCommasSafePrefix(s, [], {'}'}, false);
    DropCommasSafePrefix(s, [], {']'}, false);
    assert s + [] == s;
  }

  lemma NoCommaIsSafe(s: string)
    requires ',' !in s
    ensures SafeCommas(s)
  {
  }

  lemma {:induction false} DropCommasAcrossGap(p: string, w: string, c: char, q: string, closers: set<char>, keepSpace: bool)
    requires closers <= Closers && SafeCommas(p) && SafeCommas(q) && AllSpace(w) && c in Closers
    ensures DropCommas(p + w + [c] + q, closers, keepSpace) == p + w + [c] + q
  {
    assert ',' !in w + [c];
    NoCommaIsSafe(w + [c]);
    DropCommasSafePrefix(q, [], closers, keepSpace);
    assert q + [] == q;
    DropCommasSafePrefix(w + [c], q, closers, keepSpace);
    assert p + w + [c] + q == p + (w + [c] + q);
    DropCommasSafePrefix(p, w + [c] + q, closers, keepSpace);
  }

  /**
   * A single trailing comma before a closing bracket is removed and nothing
   * else changes, when the text has no other trailing comma.
   */
  lemma {:induction false} RepairDropsTrailingComma(p: string, w: string, c: char, q: string)
    requires SafeCommas(p) && SafeCommas(q) && AllSpace(w) && c in Closers
    ensures RepairTrailingCommas(p + [','] + w + [c] + q) == p + w + [c] + q
  {
    FirstPassDropsComma(p, w, c, q);
    DropCommasAcrossGap(p, w, c, q, {'}'}, false);
    DropCommasAcrossGap(p, w, c, q, {']'}, false);
  }

  /** The first substitution removes the trailing comma and keeps its whitespace. */
  lemma FirstPassDropsComma(p: string, w: string, c: char, q: string)
    requires SafeCommas(p) && SafeCommas(q) && AllSpace(w) && c in Closers
    ensures DropCommas(p + [','] + w + [c] + q, Closers, true) == p + w + [c] + q
  {
    var tail := [','] + w + [c] + q;
    assert p + [','] + w + [c] + q == p + tail;
    DropCommasSafePrefix(p, tail, Closers, true);
    TrailingCommaMatch(w, c, q);
    assert p + (w + [c] + q) == p + w + [c] + q;
  }

  /** At a trailing comma, the first substitution keeps the whitespace and the closer. */
  lemma TrailingCommaMatch(w: string, c: char, q: string)
    requires SafeCommas(q) && AllSpace(w) && c in Closers
    ensures DropCommas([','] + w + [c] + q, Closers, true) == w + [c] + q
  {
    var tail := [','] + w + [c] + q;
    assert tail[1..] == w + ([c] + q);
    SpaceRunSpaces(w, [c] + q);
    assert CommaBefore(tail, Closers);
    var k := 1 + |w|;
    assert tail[1..k + 1] == w + [c];
    assert tail[k + 1..] == q;
    DropCommasSafePrefix(q, [], Closers, true);
    assert q + [] == q;
  }

  function FirstIndex(s: string, c: char): (r: Option<nat>)
    ensures r.None? <==> c !in s
    ensures r.Some? ==> r.value < |s| && s[r.value] == c
    ensures r.Some? ==> forall k :: 0 <= k < r.value ==> s[k] != c
  {
    if c in s then
      var i := IndexOf(s, c);
      assert forall k :: 0 <= k < i ==> s[k] == s[..i][k];
      Some(i)
    else None
  }

  function LastIndex(s: string, c: char): (r: Option<nat>)
    ensures r.None? <==> c !in s
    ensures r.Some? ==> r.value < |s| && s[r.value] == c
    ensures r.Some? ==> forall k :: r.value < k < |s| ==> s[k] != c
    decreases |s|
  {
    if s == [] then None
    else if s[|s| - 1] == c then Some(|s| - 1)
    else
      var r := LastIndex(s[..|s| - 1], c);
      if r.Some? then
        r
      else
        assert s == s[..|s| - 1] + [s[|s| - 1]];
        r
  }

  /**
   * `re.search(open + '.*' + close, s, re.DOTALL)`: from the first opening
   * character to the last closing one, greedily.
   */
  function GreedySpan(s: string, open: char, close: char): (r: Option<string>)
    ensures r.Some? ==> |r.value| >= 2 && r.value[0] == open && r.value[|r.value| - 1] == close
  {
    match (FirstIndex(s, open), LastIndex(s, close))
    case (Some(i), Some(j)) => if i < j then Some(s[i..j + 1]) else None
    case _ => None
  }

  /**
   * The search succeeds exactly when some opening character precedes some
   * closing one, and the span it returns contains every such pair.
   */
  lemma GreedySpanSpec(s: string, open: char, close: char)
    ensures GreedySpan(s, open, close).Some? <==>
      exists i, j :: 0 <= i < j < |s| && s[i] == open && s[j] == close
    ensures GreedySpan(s, open, close).Some? ==>
      exists a :: 0 <= a && a + |GreedySpan(s, open, close).value| <= |s| &&
        GreedySpan(s, open, close).value == s[a..a + |GreedySpan(s, open, close).value|] &&
        open !in s[..a] && close !in s[a + |GreedySpan(s, open, close).value|..]
  {
    if exists i, j :: 0 <= i < j < |s| && s[i] == open && s[j] == close {
      var i, j :| 0 <= i < j < |s| && s[i] == open && s[j] == close;
      var fi := FirstIndex(s, open).value;
      var lj := LastIndex(s, close).value;
      assert fi <= i && j <= lj;
    }
  }

  /** The part of a malformed reply that is sent to the model for repair. */
  function TruncateForRepair(s: string): (r: string)
    ensures |r| <= RepairLimit && |r| <= |s|
    ensures r == s[..|r|]
    ensures |s| <= RepairLimit ==> r == s
    ensures |s| > RepairLimit ==> |r| == RepairLimit
  {
    if |s| > RepairLimit then s[..RepairLimit] else s
  }

  /** Bracket-span extraction and comma repair, then decoding. */
  function ExtractAndLoad(text: string, open: char, close: char, loads: string -> Option<Json>): Option<Json> {
    match GreedySpan(text, open, close)
    case None => None
    case Some(span) => loads(RepairTrailingCommas(span))
  }

  /**
   * What `_parse_simple_json_response` obtains without the model: the
   * cleaned reply decoded directly, else the array span, else the object
   * span. `loads` is `json.loads`, `None` standing for JSONDecodeError.
   */
  function ParseLocally(response: string, loads: string -> Option<Json>): Option<Json> {
    var text := StripFences(response);
    if loads(text).Some? then loads(text)
    else if ExtractAndLoad(text, '[', ']', loads).Some? then ExtractAndLoad(text, '[', ']', loads)
    else ExtractAndLoad(text, '{', '}', loads)
  }

  /** A fenced array or object parses as it would unfenced. */
  lemma {:induction false} ParseFencedAsUnfenced(w1: string, v: string, w2: string, loads: string -> Option<Json>)
    requires AllSpace(w1) && AllSpace(w2) && Bracketed(v)
    ensures ParseLocally(JsonFence + w1 + v + w2 + Fence, loads) == ParseLocally(v, loads)
    ensures loads(v).Some? ==> ParseLocally(JsonFence + w1 + v + w2 + Fence, loads) == loads(v)
  {
    StripFencesRoundTrip(w1, v, w2);
    ParseLocallyByText(JsonFence + w1 + v + w2 + Fence, v, loads);
  }

  /** The local parse depends on the reply only through its cleaned text. */
  lemma {:induction false} ParseLocallyByText(a: string, b: string, loads: string -> Option<Json>)
    requires StripFences(a) == StripFences(b)
    ensures ParseLocally(a, loads) == ParseLocally(b, loads)
    ensures loads(StripFences(a)).Some? ==> ParseLocally(a, loads) == loads(StripFences(a))
  {
  }

  /**
   * An array that the decoder rejects only because of one trailing comma
   * parses to whatever the comma-free array decodes to.
   */
  lemma {:induction false} ParseToleratesTrailingComma(p: string, w: string, loads: string -> Option<Json>, v: Json)
    requires |p| > 0 && p[0] == '[' && SafeCommas(p) && AllSpace(w)
    requires loads(p + [','] + w + [']']).None?
    requires loads(p + w + [']']) == Some(v)
    ensures ParseLocally(p + [','] + w + [']'], loads) == Some(v)
  {
    var t := p + [','] + w + [']'];
    assert t[0] == '[' && t[|t| - 1] == ']';
    StripFencesBracketed(t);
    GreedySpanWhole(t, '[', ']');
    RepairDropsTrailingComma(p, w, ']', []);
    assert p + [','] + w + [']'] + [] == t;
    assert p + w + [']'] + [] == p + w + [']'];
  }

  /** A bracketed text is its own cleaned form. */
  lemma {:induction false} StripFencesBracketed(t: string)
    requires Bracketed(t)
    ensures StripFences(t) == t
  {
    BracketedUnfenced(t);
    TrimUnpadded(t);
    StripFencesUnfenced(t);
  }

  /** A text that opens and closes with the searched characters is matched whole. */
  lemma {:induction false} GreedySpanWhole(t: string, open: char, close: char)
    requires |t| >= 2 && t[0] == open && t[|t| - 1] == close
    ensures GreedySpan(t, open, close) == Some(t)
  {
    assert FirstIndex(t, open) == Some(0);
    assert LastIndex(t, close) == Some(|t| - 1);
    assert t[0..|t|] == t;
  }
}
