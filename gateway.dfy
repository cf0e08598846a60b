/**
 * The reasoning gateway (`Agent` in backend/agent.py): everything around the
 * calls to the remote reasoning service. Each remote call is given as its
 * outcome (`Remote<T>`): the decoded reply or the text of the exception. The
 * gateway never raises; every failure is folded into a fixed default.
 */
module Gateway {

  import opened Wrappers
  import opened Json
  import opened PyStr

  // ---------------------------------------------------------------------------
  // analyze_message
  // ---------------------------------------------------------------------------

  const MaxRetries: nat := 3
  const Backoff: nat := 2

  /** `{"priority": p, "summary": s, "action_required": False}`. */
  function Analysis(priority: int, summary: string): Json
  {
    JObject(map["priority" := JInt(priority), "summary" := JString(summary),
                "action_required" := JBool(false)])
  }

  const NoApiKey: Json := Analysis(0, "No API Key")
  const InvalidFormat: Json := Analysis(4, "Invalid analysis format")

  /** The default for a failed call, quoting the first 50 characters of the error. */
  function AnalysisFailed(error: string): Json
  {
    Analysis(4, "Analysis failed: " + Take(error, 50))
  }

  predicate IsRateLimit(error: string)
  {
    Contains(error, "429")
  }

  predicate RateLimited(outcome: Remote<Json>)
  {
    outcome.Err? && IsRateLimit(outcome.error)
  }

  function Pow(b: nat, e: nat): nat
  {
    if e == 0 then 1 else b * Pow(b, e - 1)
  }

  /** The shape check on a decoded reply: the first element of a non-empty
      list stands for the list, and anything but a dict is refused. */
  function NormalizeShape(data: Json): (r: Json)
    ensures r.JObject?
    ensures data.JObject? ==> r == data
    ensures data.JArray? && |data.items| > 0 && data.items[0].JObject? ==> r == data.items[0]
    ensures (!data.JObject? && !(data.JArray? && |data.items| > 0 && data.items[0].JObject?))
              ==> r == InvalidFormat
  {
    var d := if data.JArray? && |data.items| > 0 then data.items[0] else data;
    if d.JObject? then d else InvalidFormat
  }

  /** What one attempt returns when it ends the retry loop. */
  function AttemptResult(outcome: Remote<Json>): (r: Json)
    ensures r.JObject?
  {
    match outcome
    case Ok(data) => NormalizeShape(data)
    case Err(e) => AnalysisFailed(e)
  }

  /** The attempt that ends the retry loop: the first from `from` on that is not
      a rate-limit error, or the last allowed attempt. */
  function SettlingAttempt(outcomes: seq<Remote<Json>>, from: nat): (n: nat)
    requires from < MaxRetries <= |outcomes|
    ensures from <= n < MaxRetries
    ensures forall k :: from <= k < n ==> RateLimited(outcomes[k])
    ensures n == MaxRetries - 1 || !RateLimited(outcomes[n])
    decreases MaxRetries - from
  {
    if from == MaxRetries - 1 || !RateLimited(outcomes[from]) then from
    else SettlingAttempt(outcomes, from + 1)
  }

  /**
   * `analyze_message`. One outcome is given per possible attempt; `waits` are
   * the back-off sleeps performed, in seconds. Without an API key nothing is
   * called. Otherwise attempt n is retried, after sleeping 2^(n+1) seconds,
   * exactly when it failed with an error mentioning 429 and is not the last.
   */
  method AnalyzeMessage(hasApiKey: bool, outcomes: seq<Remote<Json>>)
    returns (result: Json, waits: seq<nat>)
    requires |outcomes| >= MaxRetries
    ensures result.JObject?
    ensures !hasApiKey ==> result == NoApiKey && waits == []
    ensures hasApiKey ==> |waits| == SettlingAttempt(outcomes, 0)
    ensures hasApiKey ==> result == AttemptResult(outcomes[|waits|])
    ensures |waits| < MaxRetries
    ensures forall k :: 0 <= k < |waits| ==> RateLimited(outcomes[k]) && waits[k] == Pow(Backoff, k + 1)
  {
    if !hasApiKey {
      return NoApiKey, [];
    }
    waits := [];
    for attempt := 0 to MaxRetries
      invariant attempt < MaxRetries
      invariant |waits| == attempt
      invariant forall k :: 0 <= k < attempt ==> RateLimited(outcomes[k]) && waits[k] == Pow(Backoff, k + 1)
    {
      match outcomes[attempt]
      case Ok(data) =>
        var shaped := if data.JArray? && |data.items| > 0 then data.items[0] else data;
        if !shaped.JObject? {
          return InvalidFormat, waits;
        }
        return shaped, waits;
      case Err(e) =>
        if IsRateLimit(e) && attempt < MaxRetries - 1 {
          waits := waits + [Pow(Backoff, attempt + 1)];
        } else {
          return AnalysisFailed(e), waits;
        }
    }
    // The final `return` of the source after its loop cannot be reached: the
    // last attempt never retries.
    assert false;
  }

  /** Every call that is retried to exhaustion waits 2 then 4 seconds and
      reports a priority-4 failure quoting the last error. */
  lemma {:induction false} ExhaustedRetries(outcomes: seq<Remote<Json>>)
    requires |outcomes| >= MaxRetries
    requires forall k :: 0 <= k < MaxRetries ==> RateLimited(outcomes[k])
    ensures SettlingAttempt(outcomes, 0) == 2
    ensures outcomes[2].Err? && AttemptResult(outcomes[2]) == AnalysisFailed(outcomes[2].error)
    ensures Pow(Backoff, 1) == 2 && Pow(Backoff, 2) == 4
  {
    assert RateLimited(outcomes[0]) && RateLimited(outcomes[1]);
  }

  /** A first attempt that does not hit the rate limit is the only one. */
  lemma FirstAttemptSettles(outcomes: seq<Remote<Json>>)
    requires |outcomes| >= MaxRetries && !RateLimited(outcomes[0])
    ensures SettlingAttempt(outcomes, 0) == 0
  {
  }

  // ---------------------------------------------------------------------------
  // summarize_discussions
  // ---------------------------------------------------------------------------

  const NothingToReport: string := "No meaningful discussions to report."
  const SummaryFailed: string := "Failed to generate summary."

  /** `summarize_discussions`: an empty buffer is answered without a call. */
  function SummarizeDiscussions(bufferText: string, reply: Remote<string>): (r: string)
    ensures bufferText == "" ==> r == NothingToReport
    ensures bufferText != "" && reply.Ok? ==> r == reply.value
    ensures bufferText != "" && reply.Err? ==> r == SummaryFailed
  {
    if bufferText == "" then NothingToReport
    else match reply
      case Ok(text) => text
      case Err(_) => SummaryFailed
  }

  // ---------------------------------------------------------------------------
  // analyze_context_batch / analyze_feedback_batch
  // ---------------------------------------------------------------------------

  /** `data.get(key, [])` inside a `try` whose handler returns `[]`: a reply
      that is not a dict makes `.get` raise, which the handler absorbs. */
  function ListField(reply: Remote<Json>, key: string): (r: Json)
    ensures reply.Ok? && reply.value.JObject? && key in reply.value.fields ==> r == reply.value.fields[key]
    ensures !(reply.Ok? && reply.value.JObject? && key in reply.value.fields) ==> r == JArray([])
  {
    match reply
    case Ok(data) => if data.JObject? then Get(data.fields, key, JArray([])) else JArray([])
    case Err(_) => JArray([])
  }

  /** `analyze_context_batch(history_text, user_name)`: the reply's "facts". */
  function AnalyzeContextBatch(historyText: string, userName: string, reply: Remote<Json>): (r: Json)
    ensures historyText == "" ==> r == JArray([])
    ensures historyText != "" ==> r == ListField(reply, "facts")
  {
    if historyText == "" then JArray([]) else ListField(reply, "facts")
  }

  /** `analyze_feedback_batch(feedback_text)`: the reply's "rules". */
  function AnalyzeFeedbackBatch(feedbackText: string, reply: Remote<Json>): (r: Json)
    ensures feedbackText == "" ==> r == JArray([])
    ensures feedbackText != "" ==> r == ListField(reply, "rules")
  {
    if feedbackText == "" then JArray([]) else ListField(reply, "rules")
  }

  /** Empty input is answered without consulting the remote service: the
      result is the same whatever the reply would have been. */
  lemma EmptyInputNeedsNoCall(text: string, userName: string, reply1: Remote<Json>, reply2: Remote<Json>,
                              answer1: Remote<string>, answer2: Remote<string>)
    requires text == ""
    ensures SummarizeDiscussions(text, answer1) == SummarizeDiscussions(text, answer2) == NothingToReport
    ensures AnalyzeContextBatch(text, userName, reply1) == AnalyzeContextBatch(text, userName, reply2) == JArray([])
    ensures AnalyzeFeedbackBatch(text, reply1) == AnalyzeFeedbackBatch(text, reply2) == JArray([])
  {
  }

  /** The batch analyses never fail: a failed call, a reply that is not a
      dict, or a dict without the expected key all give the empty list. */
  lemma BatchFailuresGiveNothing(text: string, userName: string, reply: Remote<Json>)
    requires reply.Err? || !reply.value.JObject? || ("facts" !in reply.value.fields && "rules" !in reply.value.fields)
    ensures AnalyzeContextBatch(text, userName, reply) == JArray([])
    ensures AnalyzeFeedbackBatch(text, reply) == JArray([])
  {
  }

  // ---------------------------------------------------------------------------
  // deduplicate_facts
  // ---------------------------------------------------------------------------

  function Elems(s: seq<string>): set<string>
  {
    set x | x in s
  }

  /** Insert `x` into a strictly sorted list unless it is already there. */
  function InsertSorted(x: string, s: seq<string>): (r: seq<string>)
    requires StrictlySorted(s)
    ensures StrictlySorted(r)
    ensures Elems(r) == Elems(s) + {x}
    decreases |s|
  {
    if |s| == 0 then [x]
    else if x == s[0] then s
    else if Less(x, s[0]) then
      assert forall j :: 0 <= j < |s| ==> Less(x, s[j]) by {
        forall j | 0 <= j < |s| ensures Less(x, s[j]) {
          if j > 0 { LessTransitive(x, s[0], s[j]); }
        }
      }
      [x] + s
    else
      LessTotal(x, s[0]);
      var tail := InsertSorted(x, s[1..]);
      assert Elems(s) == {s[0]} + Elems(s[1..]);
      assert Elems([s[0]] + tail) == {s[0]} + Elems(tail);
      assert forall y :: y in tail ==> Less(s[0], y) by {
        forall y | y in tail ensures Less(s[0], y) {
          assert y in Elems(tail);
        }
      }
      [s[0]] + tail
  }

  /** `sorted(list(set(facts)))`. */
  function SortedDistinct(facts: seq<string>): (r: seq<string>)
    ensures StrictlySorted(r)
    ensures Elems(r) == Elems(facts)
  {
    if |facts| == 0 then []
    else
      var init := facts[..|facts| - 1];
      assert Elems(facts) == Elems(init) + {facts[|facts| - 1]} by {
        assert facts == init + [facts[|facts| - 1]];
      }
      InsertSorted(facts[|facts| - 1], SortedDistinct(init))
  }

  /** A strictly sorted list is determined by its elements, so the shortcut
      returns THE sorted list of distinct inputs. */
  lemma {:induction false} StrictlySortedUnique(a: seq<string>, b: seq<string>)
    requires StrictlySorted(a) && StrictlySorted(b) && Elems(a) == Elems(b)
    ensures a == b
    decreases |a|
  {
    if |a| > 0 { assert a[0] in Elems(b); }
    if |b| > 0 { assert b[0] in Elems(a); }
    if |a| > 0 && |b| > 0 {
      assert a[0] == b[0] by {
        assert a[0] in Elems(b) && b[0] in Elems(a);
        LessTotal(a[0], b[0]);
        LessAsymmetric(a[0], b[0]);
      }
      assert Elems(a[1..]) == Elems(a) - {a[0]} by {
        forall y | y in a[1..] ensures y != a[0] {
          var k :| 0 <= k < |a[1..]| && a[1..][k] == y;
          assert Less(a[0], a[k + 1]);
          LessIrreflexive(a[0]);
        }
        assert a == [a[0]] + a[1..];
      }
      assert Elems(b[1..]) == Elems(b) - {b[0]} by {
        forall y | y in b[1..] ensures y != b[0] {
          var k :| 0 <= k < |b[1..]| && b[1..][k] == y;
          assert Less(b[0], b[k + 1]);
          LessIrreflexive(b[0]);
        }
        assert b == [b[0]] + b[1..];
      }
      StrictlySortedUnique(a[1..], b[1..]);
      assert a == [a[0]] + a[1..] && b == [b[0]] + b[1..];
    }
  }

  const ShortcutBelow: nat := 5

  /** `deduplicate_facts`: fewer than five facts are deduplicated and sorted
      locally; otherwise the reply's "consolidated_facts" are taken, and a
      failed call keeps the facts as they were. */
  function DeduplicateFacts(facts: seq<string>, reply: Remote<Json>): (r: Json)
    ensures |facts| == 0 ==> r == JArray([])
    ensures 0 < |facts| < ShortcutBelow ==> r == Strings(SortedDistinct(facts))
    ensures |facts| >= ShortcutBelow && reply.Ok? && reply.value.JObject? ==>
              r == Get(reply.value.fields, "consolidated_facts", JArray([]))
    ensures |facts| >= ShortcutBelow && !(reply.Ok? && reply.value.JObject?) ==> r == Strings(facts)
  {
    if |facts| == 0 then JArray([])
    else if |facts| < ShortcutBelow then Strings(SortedDistinct(facts))
    else match reply
      case Ok(data) =>
        if data.JObject? then Get(data.fields, "consolidated_facts", JArray([])) else Strings(facts)
      case Err(_) => Strings(facts)
  }

  /** Below the threshold the result does not depend on the remote reply at all
      (no call is made), and it is sorted, duplicate-free and loses no fact. */
  lemma DeduplicateShortcut(facts: seq<string>, reply1: Remote<Json>, reply2: Remote<Json>)
    requires |facts| < ShortcutBelow
    ensures DeduplicateFacts(facts, reply1) == DeduplicateFacts(facts, reply2)
    ensures exists r :: DeduplicateFacts(facts, reply1) == Strings(r) && StrictlySorted(r) && Elems(r) == Elems(facts)
  {
    if |facts| == 0 {
      assert DeduplicateFacts(facts, reply1) == Strings([]);
    } else {
      var r := SortedDistinct(facts);
      assert DeduplicateFacts(facts, reply1) == Strings(r);
    }
  }

  // ---------------------------------------------------------------------------
  // handle_session_turn / summarize_session
  // ---------------------------------------------------------------------------

  const SessionTurnFailed: Json :=
    JObject(map["reply" := JString("I've noted that down. (Error)"), "status" := JString("FINISH")])

  /** `handle_session_turn`: the decoded reply as is; on failure, close the session. */
  function HandleSessionTurn(reply: Remote<Json>): (r: Json)
    ensures reply.Ok? ==> r == reply.value
    ensures reply.Err? ==> r.JObject? && "status" in r.fields && r.fields["status"] == JString("FINISH")
  {
    match reply
    case Ok(data) => data
    case Err(_) => SessionTurnFailed
  }

  const SessionSummaryFailed: Json :=
    JObject(map["summary" := JString("Review conversation (Summary Failed)"), "priority" := JInt(3)])

  /** `summarize_session`: the decoded reply as is; on failure, a priority-3 review task. */
  function SummarizeSession(reply: Remote<Json>): (r: Json)
    ensures reply.Ok? ==> r == reply.value
    ensures reply.Err? ==> r.JObject? && "priority" in r.fields && r.fields["priority"] == JInt(3)
  {
    match reply
    case Ok(data) => data
    case Err(_) => SessionSummaryFailed
  }
}
