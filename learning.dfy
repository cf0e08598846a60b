/**
 * The incremental learning pipeline (`LearningService` in
 * backend/learning_service.py): it reads the audit log newer than a
 * string-timestamp checkpoint, asks the gateway for persistent facts, learns
 * rules from rejected tasks, and hands both to the knowledge store.
 *
 * The fetched audit log, the rejected tasks, the remote replies and the
 * current time are parameters. The knowledge store's own source
 * (backend/memory_manager.py) is not part of this model; `KnowledgeStore`
 * gives it the behaviour the service relies on: `add_memory` reports whether
 * the memory was new, repeats of an exact value are not stored twice.
 */
module Learning {

  import opened Wrappers
  import opened Json
  import opened PyStr
  import Gateway

  // ---------------------------------------------------------------------------
  // The knowledge store as the service sees it
  // ---------------------------------------------------------------------------

  /** No value occurs twice. */
  predicate Distinct(s: seq<Json>)
  {
    forall i, j :: 0 <= i < j < |s| ==> s[i] != s[j]
  }

  /** The memories after `add_memory` of each fact in turn. */
  function Inserted(memories: seq<Json>, facts: seq<Json>): (r: seq<Json>)
    ensures |memories| <= |r| <= |memories| + |facts|
    ensures r[..|memories|] == memories
    ensures forall k :: 0 <= k < |facts| ==> facts[k] in r
    ensures forall m :: m in r ==> m in memories || m in facts
  {
    if facts == [] then memories
    else
      var prev := Inserted(memories, facts[..|facts| - 1]);
      var fact := facts[|facts| - 1];
      assert forall k :: 0 <= k < |facts| - 1 ==> facts[k] == facts[..|facts| - 1][k];
      if fact in prev then prev else prev + [fact]
  }

  /** How many of those calls answered "new". */
  function NewCount(memories: seq<Json>, facts: seq<Json>): (n: nat)
    ensures n <= |facts|
    ensures |Inserted(memories, facts)| == |memories| + n
  {
    if facts == [] then 0
    else
      var prev := Inserted(memories, facts[..|facts| - 1]);
      NewCount(memories, facts[..|facts| - 1]) + (if facts[|facts| - 1] in prev then 0 else 1)
  }

  /** The store keeps no duplicates. */
  lemma {:induction false} InsertedDistinct(memories: seq<Json>, facts: seq<Json>)
    requires Distinct(memories)
    ensures Distinct(Inserted(memories, facts))
  {
    if facts != [] {
      InsertedDistinct(memories, facts[..|facts| - 1]);
    }
  }

  /** Facts already stored are not errors and add nothing; in particular a
      second insertion of the same facts adds none. */
  lemma {:induction false} InsertKnown(memories: seq<Json>, facts: seq<Json>)
    requires forall k :: 0 <= k < |facts| ==> facts[k] in memories
    ensures Inserted(memories, facts) == memories
    ensures NewCount(memories, facts) == 0
  {
    if facts != [] {
      var init := facts[..|facts| - 1];
      assert forall k :: 0 <= k < |init| ==> init[k] == facts[k];
      InsertKnown(memories, init);
    }
  }

  lemma InsertTwice(memories: seq<Json>, facts: seq<Json>)
    ensures Inserted(Inserted(memories, facts), facts) == Inserted(memories, facts)
    ensures NewCount(Inserted(memories, facts), facts) == 0
  {
    InsertKnown(Inserted(memories, facts), facts);
  }

  class KnowledgeStore {
    var memories: seq<Json>
    var consolidations: nat

    constructor ()
      ensures memories == [] && consolidations == 0
    {
      memories := [];
      consolidations := 0;
    }

    /** `add_memory(fact)`: true exactly when the fact was not yet stored. */
    method AddMemory(fact: Json) returns (added: bool)
      modifies this
      ensures added <==> fact !in old(memories)
      ensures memories == Inserted(old(memories), [fact])
      ensures consolidations == old(consolidations)
    {
      added := fact !in memories;
      if added {
        memories := memories + [fact];
      }
    }

    /** `consolidate_memories(agent)`: the store replaces its memories with a
        consolidated set computed by code that is not part of this model, so
        the new memories are left unconstrained; only the run is recorded. */
    method ConsolidateMemories()
      modifies this
      ensures consolidations == old(consolidations) + 1
    {
      consolidations := consolidations + 1;
    }
  }

  // ---------------------------------------------------------------------------
  // digest_context: selecting the batch
  // ---------------------------------------------------------------------------

  /** One audit-log record; the log arrives newest first. */
  datatype AuditEntry = AuditEntry(timestamp: string, sender: string, text: string)

  const DefaultBatchSize: int := 200

  /** `not self.last_ts` is false: a checkpoint that is neither None nor "". */
  predicate HasCheckpoint(lastTs: Option<string>)
  {
    lastTs.Some? && lastTs.value != ""
  }

  /** The entries whose timestamp is strictly greater than `ts`, in log order. */
  function NewerThan(log: seq<AuditEntry>, ts: string): (r: seq<AuditEntry>)
    ensures |r| <= |log|
    ensures forall e :: e in r ==> e in log && Less(ts, e.timestamp)
    ensures forall i :: 0 <= i < |log| && Less(ts, log[i].timestamp) ==> log[i] in r
    ensures r == [] <==> forall i :: 0 <= i < |log| ==> !Less(ts, log[i].timestamp)
  {
    if log == [] then []
    else
      var init := log[..|log| - 1];
      var last := log[|log| - 1];
      assert forall i :: 0 <= i < |log| - 1 ==> log[i] == init[i];
      NewerThan(init, ts) + (if Less(ts, last.timestamp) then [last] else [])
  }

  /** The head of the filtered list is the first entry newer than `ts`. */
  lemma {:induction false} NewerThanHead(log: seq<AuditEntry>, ts: string) returns (k: nat)
    requires NewerThan(log, ts) != []
    ensures k < |log| && NewerThan(log, ts)[0] == log[k] && Less(ts, log[k].timestamp)
    ensures forall j :: 0 <= j < k ==> !Less(ts, log[j].timestamp)
  {
    var init := log[..|log| - 1];
    var last := log[|log| - 1];
    assert NewerThan(log, ts) == NewerThan(init, ts) + (if Less(ts, last.timestamp) then [last] else []);
    assert forall j :: 0 <= j < |init| ==> log[j] == init[j];
    if NewerThan(init, ts) != [] {
      k := NewerThanHead(init, ts);
    } else {
      k := |log| - 1;
      assert forall j :: 0 <= j < |init| ==> !Less(ts, init[j].timestamp);
    }
  }

  /** The entries `digest_context` goes on with: the first `batchSize` when
      there is no checkpoint, otherwise every entry newer than it. */
  function Selected(log: seq<AuditEntry>, lastTs: Option<string>, batchSize: int): seq<AuditEntry>
  {
    if !HasCheckpoint(lastTs) then Take(log, batchSize) else NewerThan(log, lastTs.value)
  }

  /** The capped batch that is shown to the gateway. */
  function Batch(log: seq<AuditEntry>, lastTs: Option<string>, batchSize: int): seq<AuditEntry>
  {
    Take(Selected(log, lastTs, batchSize), batchSize)
  }

  /** The checkpoint after a run: the newest selected entry (before the cap),
      or the old checkpoint when nothing was selected. */
  function Advanced(log: seq<AuditEntry>, lastTs: Option<string>, batchSize: int): Option<string>
  {
    var selected := Selected(log, lastTs, batchSize);
    if selected == [] then lastTs else Some(selected[0].timestamp)
  }

  function EntryLine(e: AuditEntry): string
  {
    "[" + e.timestamp + "] " + e.sender + ": " + e.text
  }

  /** The history text: one line per batch entry. */
  function HistoryText(batch: seq<AuditEntry>): string
  {
    Join("\n", seq(|batch|, k requires 0 <= k < |batch| => EntryLine(batch[k])))
  }

  /** The one-character strings `for c in s` visits. */
  function Chars(s: string): (r: seq<Json>)
    ensures |r| == |s|
    ensures forall k :: 0 <= k < |s| ==> r[k] == JString([s[k]])
  {
    seq(|s|, k requires 0 <= k < |s| => JString([s[k]]))
  }

  /** What `if facts: for fact in facts` visits: nothing for a falsy value,
      a list's items, a string's characters as one-character strings. A truthy
      number or `True` is not iterable and raises TypeError. A dict's keys are
      visited in insertion order, which `JObject` does not record, so none is
      visited here. */
  function Items(facts: Json): (r: Result<seq<Json>>)
    ensures !Truthy(facts) ==> r == Ok([])
    ensures facts.JArray? ==> r == Ok(facts.items)
    ensures facts.JString? ==>
              && r.Ok? && |r.value| == |facts.s|
              && forall k :: 0 <= k < |facts.s| ==> r.value[k] == JString([facts.s[k]])
    ensures r.Err? <==> Truthy(facts) && (facts.JInt? || facts.JBool?)
    ensures r.Err? ==> r.error == "TypeError"
  {
    if !Truthy(facts) then Ok([])
    else match facts
      case JArray(items) => Ok(items)
      case JString(s) => Ok(Chars(s))
      case JObject(_) => Ok([])
      case _ => Err("TypeError")
  }

  /** With no checkpoint the batch is the first `batchSize` fetched entries. */
  lemma FirstRunBatch(log: seq<AuditEntry>, lastTs: Option<string>, batchSize: int)
    requires !HasCheckpoint(lastTs) && batchSize >= 0
    ensures Batch(log, lastTs, batchSize) == Take(log, batchSize)
  {
    var t := Take(log, batchSize);
    assert Take(t, batchSize) == t;
  }

  /** With a checkpoint the batch is the newer entries, in log order, capped. */
  lemma CheckpointBatch(log: seq<AuditEntry>, ts: string, batchSize: int)
    requires ts != ""
    ensures Batch(log, Some(ts), batchSize) == Take(NewerThan(log, ts), batchSize)
    ensures forall e :: e in Batch(log, Some(ts), batchSize) ==> e in log && Less(ts, e.timestamp)
  {
  }

  /** An empty log, or one with nothing newer than the checkpoint, leaves the
      checkpoint where it is. */
  lemma NothingNewKeepsCheckpoint(log: seq<AuditEntry>, ts: string, batchSize: int)
    requires ts != ""
    requires forall i :: 0 <= i < |log| ==> !Less(ts, log[i].timestamp)
    ensures Selected(log, Some(ts), batchSize) == []
    ensures Advanced(log, Some(ts), batchSize) == Some(ts)
  {
  }

  /** The checkpoint only moves forward. */
  lemma CheckpointMonotone(log: seq<AuditEntry>, ts: string, batchSize: int)
    requires ts != ""
    requires Advanced(log, Some(ts), batchSize) != Some(ts)
    ensures Advanced(log, Some(ts), batchSize).Some?
    ensures Less(ts, Advanced(log, Some(ts), batchSize).value)
  {
    var s := NewerThan(log, ts);
    assert s[0] in s;
  }

  /** Newest first: no entry is newer than an earlier one. */
  predicate NewestFirst(log: seq<AuditEntry>)
  {
    forall i, j :: 0 <= i < j < |log| ==> !Less(log[i].timestamp, log[j].timestamp)
  }

  /** Nothing in a newest-first log is newer than the entry at `k` when no
      entry before `k` is newer than `ts` and `log[k]` is. */
  lemma NoneNewerThanHead(log: seq<AuditEntry>, ts: string, k: nat)
    requires NewestFirst(log) && k < |log|
    requires Less(ts, log[k].timestamp)
    requires forall j :: 0 <= j < k ==> !Less(ts, log[j].timestamp)
    ensures forall i :: 0 <= i < |log| ==> !Less(log[k].timestamp, log[i].timestamp)
  {
    forall i | 0 <= i < |log| ensures !Less(log[k].timestamp, log[i].timestamp) {
      if i == k {
        LessIrreflexive(log[k].timestamp);
      } else if i < k && Less(log[k].timestamp, log[i].timestamp) {
        LessTransitive(ts, log[k].timestamp, log[i].timestamp);
      }
    }
  }

  /** Digesting the same newest-first log again selects nothing: the second
      run is a no-op. (Timestamps are never empty: an empty one would read as
      no checkpoint at all.) */
  lemma SecondRunSelectsNothing(log: seq<AuditEntry>, lastTs: Option<string>, batchSize: int)
    requires NewestFirst(log)
    requires forall i :: 0 <= i < |log| ==> log[i].timestamp != ""
    ensures Selected(log, Advanced(log, lastTs, batchSize), batchSize) == []
  {
    var selected := Selected(log, lastTs, batchSize);
    if selected != [] {
      var k: nat;
      if HasCheckpoint(lastTs) {
        k := NewerThanHead(log, lastTs.value);
        NoneNewerThanHead(log, lastTs.value, k);
      } else {
        k := 0;
        forall i | 0 <= i < |log| ensures !Less(log[0].timestamp, log[i].timestamp) {
          if i == 0 { LessIrreflexive(log[0].timestamp); }
        }
      }
      assert selected[0] == log[k];
      NothingNewKeepsCheckpoint(log, log[k].timestamp, batchSize);
    }
  }

  // ---------------------------------------------------------------------------
  // learn_from_feedback: the feedback text
  // ---------------------------------------------------------------------------

  /** A rejected task with the owner's comments. */
  datatype RejectedTask = RejectedTask(summary: string, comments: seq<string>)

  function FeedbackLine(t: RejectedTask): string
  {
    "- Task: " + t.summary + "\n  Comments: " + Join(", ", t.comments) + "\n"
  }

  /** The lines of all tasks, in order. */
  function FeedbackText(tasks: seq<RejectedTask>): string
  {
    if tasks == [] then "" else FeedbackText(tasks[..|tasks| - 1]) + FeedbackLine(tasks[|tasks| - 1])
  }

  /** The feedback text is empty only for no tasks, so the emptiness test
      after the loop never returns. */
  lemma FeedbackTextEmpty(tasks: seq<RejectedTask>)
    ensures FeedbackText(tasks) == "" <==> tasks == []
  {
    if tasks != [] {
      assert |FeedbackLine(tasks[|tasks| - 1])| > 0;
    }
  }

  /** Each task's line follows the previous ones. */
  lemma {:induction false} FeedbackTextConcat(a: seq<RejectedTask>, b: seq<RejectedTask>)
    ensures FeedbackText(a + b) == FeedbackText(a) + FeedbackText(b)
    decreases |b|
  {
    if b == [] {
      assert a + b == a;
    } else {
      var init := b[..|b| - 1];
      var line := FeedbackLine(b[|b| - 1]);
      assert (a + b)[..|a + b| - 1] == a + init && (a + b)[|a + b| - 1] == b[|b| - 1];
      assert FeedbackText(a + b) == FeedbackText(a + init) + line;
      assert FeedbackText(b) == FeedbackText(init) + line;
      FeedbackTextConcat(a, init);
    }
  }

  // ---------------------------------------------------------------------------
  // The service
  // ---------------------------------------------------------------------------

  class LearningService {
    /** The audit-log checkpoint, `last_ts`. */
    var lastTs: Option<string>
    /** When feedback was last processed, `last_feedback_ts`. */
    var lastFeedbackTs: Option<string>
    const store: KnowledgeStore

    /** A fresh service; the saved state on disk is not part of this model. */
    constructor (store: KnowledgeStore)
      ensures this.store == store
      ensures lastTs == None && lastFeedbackTs == None
    {
      this.store := store;
      lastTs := None;
      lastFeedbackTs := None;
    }

    /** The filtering step of `digest_context`. */
    method SelectBatch(log: seq<AuditEntry>, batchSize: int := DefaultBatchSize) returns (newLogs: seq<AuditEntry>)
      ensures newLogs == Selected(log, lastTs, batchSize)
    {
      if lastTs.None? || lastTs.value == "" {
        newLogs := Take(log, batchSize);
      } else {
        var ts := lastTs.value;
        newLogs := [];
        for i := 0 to |log|
          invariant newLogs == NewerThan(log[..i], ts)
        {
          assert log[..i + 1][..i] == log[..i];
          if Less(ts, log[i].timestamp) {
            newLogs := newLogs + [log[i]];
          }
        }
        assert log[..|log|] == log;
      }
    }

    /** Hands each fact to the store and counts the new ones. */
    method Remember(facts: seq<Json>) returns (added: nat)
      modifies store
      ensures store.memories == Inserted(old(store.memories), facts)
      ensures added == NewCount(old(store.memories), facts)
      ensures store.consolidations == old(store.consolidations)
    {
      added := 0;
      for i := 0 to |facts|
        invariant store.memories == Inserted(old(store.memories), facts[..i])
        invariant added == NewCount(old(store.memories), facts[..i])
        invariant store.consolidations == old(store.consolidations)
      {
        assert facts[..i + 1][..i] == facts[..i];
        var isNew := store.AddMemory(facts[i]);
        if isNew {
          added := added + 1;
        }
      }
      assert facts[..|facts|] == facts;
    }

    /**
     * `digest_context`, with the owner's name passed on to the gateway as its
     * signature requires. `reply` is the outcome of the remote call;
     * `asked` is the history text the gateway was consulted with, `None` when
     * the run stopped early; `raised` is the exception that leaves the method
     * when the gateway's facts cannot be iterated.
     */
    method DigestContext(log: seq<AuditEntry>, userName: string, reply: Remote<Json>, batchSize: int := DefaultBatchSize)
      returns (asked: Option<string>, raised: Option<string>, added: nat)
      modifies this, store
      ensures var selected := Selected(log, old(lastTs), batchSize);
              if selected == [] then
                && asked == None && raised == None && added == 0
                && store.memories == old(store.memories)
                && lastTs == old(lastTs)
              else
                var text := HistoryText(Batch(log, old(lastTs), batchSize));
                var facts := Items(Gateway.AnalyzeContextBatch(text, userName, reply));
                && asked == Some(text)
                && (facts.Err? ==>
                      && raised == Some("TypeError") && added == 0
                      && store.memories == old(store.memories)
                      && lastTs == old(lastTs))
                && (facts.Ok? ==>
                      && raised == None
                      && store.memories == Inserted(old(store.memories), facts.value)
                      && added == NewCount(old(store.memories), facts.value)
                      && lastTs == Advanced(log, old(lastTs), batchSize))
      ensures lastFeedbackTs == old(lastFeedbackTs)
      ensures store.consolidations == old(store.consolidations)
    {
      asked, raised, added := None, None, 0;
      if log == [] {
        return;
      }
      var newLogs := SelectBatch(log, batchSize);
      if newLogs == [] {
        return;
      }
      var mostRecentTs := newLogs[0].timestamp;
      newLogs := Take(newLogs, batchSize);
      var historyText := HistoryText(newLogs);
      asked := Some(historyText);
      var facts := Gateway.AnalyzeContextBatch(historyText, userName, reply);
      if Truthy(facts) {
        var items := Items(facts);
        if items.Err? {
          raised := Some(items.error);
          return;
        }
        added := Remember(items.value);
      }
      lastTs := Some(mostRecentTs);
    }

    /**
     * `digest_context` as written: the gateway is called without the owner's
     * name, which the call rejects with a TypeError before the checkpoint is
     * written. `raised` is the exception that leaves the method.
     */
    method DigestContextAsWritten(log: seq<AuditEntry>, batchSize: int := DefaultBatchSize) returns (raised: Option<string>)
      modifies this, store
      ensures raised == (if Selected(log, old(lastTs), batchSize) == [] then None else Some("TypeError"))
      ensures lastTs == old(lastTs)
      ensures lastFeedbackTs == old(lastFeedbackTs)
      ensures store.memories == old(store.memories)
      ensures store.consolidations == old(store.consolidations)
    {
      raised := None;
      if log == [] {
        return;
      }
      var newLogs := SelectBatch(log, batchSize);
      if newLogs == [] {
        return;
      }
      raised := Some("TypeError");
    }

    /**
     * `learn_from_feedback`. `rejected` is the task manager's answer, `reply`
     * the outcome of the remote call and `nowIso` the current time in ISO
     * format. Returns how many tasks were processed, how many rules were new
     * to the store, and the exception that leaves the method when the rules
     * cannot be iterated; `stored` is what the store held just before
     * consolidation rewrote it.
     */
    method LearnFromFeedback(rejected: seq<RejectedTask>, reply: Remote<Json>, nowIso: string)
      returns (count: nat, added: nat, raised: Option<string>, ghost stored: seq<Json>)
      modifies this, store
      ensures rejected == [] ==>
                && count == 0 && added == 0 && raised == None
                && lastFeedbackTs == old(lastFeedbackTs)
                && store.memories == old(store.memories) && stored == old(store.memories)
                && store.consolidations == old(store.consolidations)
      ensures rejected != [] ==>
                var rules := Items(Gateway.AnalyzeFeedbackBatch(FeedbackText(rejected), reply));
                && count == |rejected|
                && (rules.Err? ==>
                      && raised == Some("TypeError") && added == 0
                      && lastFeedbackTs == old(lastFeedbackTs)
                      && store.memories == old(store.memories) && stored == old(store.memories)
                      && store.consolidations == old(store.consolidations))
                && (rules.Ok? ==>
                      && raised == None
                      && added == NewCount(old(store.memories), rules.value)
                      && stored == Inserted(old(store.memories), rules.value)
                      && lastFeedbackTs == Some(nowIso)
                      && store.consolidations == old(store.consolidations) + 1)
      ensures lastTs == old(lastTs)
    {
      count, added, raised := 0, 0, None;
      stored := store.memories;
      if rejected == [] {
        return;
      }
      var feedbackText := "";
      for i := 0 to |rejected|
        invariant feedbackText == FeedbackText(rejected[..i])
        invariant count == i
      {
        assert rejected[..i + 1][..i] == rejected[..i];
        feedbackText := feedbackText + FeedbackLine(rejected[i]);
        count := count + 1;
      }
      assert rejected[..|rejected|] == rejected;
      FeedbackTextEmpty(rejected);
      if feedbackText == "" {
        assert false;
      }
      var rules := Gateway.AnalyzeFeedbackBatch(feedbackText, reply);
      if Truthy(rules) {
        var items := Items(rules);
        if items.Err? {
          raised := Some(items.error);
          return;
        }
        added := Remember(items.value);
      }
      stored := store.memories;
      lastFeedbackTs := Some(nowIso);
      store.ConsolidateMemories();
    }
  }

  // ---------------------------------------------------------------------------
  // The checkpoint across runs
  // ---------------------------------------------------------------------------

  /** A first run on a one-entry log. The whole log is selected, so the
      service as written raises and keeps no checkpoint: the next run selects
      the same entry again, and so on for as long as the log is unchanged.
      Passing the owner's name on, the checkpoint moves to the entry and the
      next run selects nothing. */
  lemma FirstRunCounterexample()
    ensures var log := [AuditEntry("2024-05-01T10:00:00", "Me", "Works on v2 project")];
            && Selected(log, None, DefaultBatchSize) == log
            && Batch(log, None, DefaultBatchSize) == log
            && Advanced(log, None, DefaultBatchSize) == Some("2024-05-01T10:00:00")
            && Selected(log, Some("2024-05-01T10:00:00"), DefaultBatchSize) == []
  {
    LessIrreflexive("2024-05-01T10:00:00");
  }
}
