/**
 * The reply policy and the per-message orchestration (`MessageProcessor` in
 * backend/message_processor.py): whether to send an autonomous reply, the
 * context handed to the gateway, and the second normalisation of its answer.
 */
module MessageProcessor {

  import opened Wrappers
  import opened Json
  import opened PyStr

  // ---------------------------------------------------------------------------
  // should_reply
  // ---------------------------------------------------------------------------

  /** The conditions under which the assistant replies on the owner's behalf. */
  predicate Approves(analysis: map<string, Json>, autoReplyEnabled: bool, workingHours: bool, isSelf: bool)
  {
    var replyText := Get(analysis, "reply_text", JNull);
    var priority := IntOf(Get(analysis, "priority", JInt(4)));
    && autoReplyEnabled
    && !workingHours
    && !isSelf
    && replyText.JString? && |replyText.s| > 2
    && priority.Ok? && priority.value <= 3
    && !Contains(Lower(replyText.s), "task added")
    && Strip(Lower(replyText.s)) != "okay"
  }

  /**
   * `should_reply`. `reply_text`, `priority` and `action_required` are read
   * first (the `int(...)` of the priority can raise), then the conditions are
   * tested left to right with short-circuiting; `len` raises on a reply that
   * has no length and `.lower()` on one that is not a string.
   */
  function ShouldReply(analysis: map<string, Json>, autoReplyEnabled: bool, workingHours: bool, isSelf: bool)
    : (r: Result<bool>)
    ensures r == Ok(true) <==> Approves(analysis, autoReplyEnabled, workingHours, isSelf)
    ensures r.Err? <==>
      (var replyText := Get(analysis, "reply_text", JNull);
       var priority := IntOf(Get(analysis, "priority", JInt(4)));
       || priority.Err?
       || (autoReplyEnabled && Truthy(replyText)
           && (Len(replyText).Err?
               || (!replyText.JString? && Len(replyText).value > 2 && priority.value <= 3 && !isSelf))))
  {
    var replyText := Get(analysis, "reply_text", JNull);
    var priority := IntOf(Get(analysis, "priority", JInt(4)));
    var _ := Get(analysis, "action_required", JBool(false));
    if priority.Err? then Err(priority.error)
    else if !autoReplyEnabled || !Truthy(replyText) then Ok(false)
    else match Len(replyText)
      case Err(e) => Err(e)
      case Ok(n) =>
        if !(n > 2) || !(priority.value <= 3) || isSelf then Ok(false)
        else if !replyText.JString? then Err("AttributeError")
        else
          var low := Lower(replyText.s);
          Ok(!Contains(low, "task added") && "okay" != Strip(low) && !workingHours)
  }

  /** Disabled auto-reply, a message of the owner's own, or working hours:
      never a reply. */
  lemma NeverWhenSuppressed(analysis: map<string, Json>, autoReplyEnabled: bool, workingHours: bool, isSelf: bool)
    requires !autoReplyEnabled || isSelf || workingHours
    ensures ShouldReply(analysis, autoReplyEnabled, workingHours, isSelf) != Ok(true)
  {
  }

  /** A missing, empty or too short reply text, or a priority above 3 (a
      missing priority counts as 4): never a reply. */
  lemma NeverForWeakAnalyses(analysis: map<string, Json>, autoReplyEnabled: bool, workingHours: bool, isSelf: bool)
    requires || "reply_text" !in analysis
             || (analysis["reply_text"].JString? && |analysis["reply_text"].s| <= 2)
             || "priority" !in analysis
             || (analysis["priority"].JInt? && analysis["priority"].i > 3)
    ensures ShouldReply(analysis, autoReplyEnabled, workingHours, isSelf) != Ok(true)
  {
  }

  /** Acknowledgement-like replies are never sent. */
  lemma NeverForAcknowledgements(analysis: map<string, Json>, autoReplyEnabled: bool, workingHours: bool, isSelf: bool)
    requires "reply_text" in analysis && analysis["reply_text"].JString?
    requires var low := Lower(analysis["reply_text"].s); Contains(low, "task added") || Strip(low) == "okay"
    ensures ShouldReply(analysis, autoReplyEnabled, workingHours, isSelf) != Ok(true)
  {
  }

  /** `action_required` never changes the decision. */
  lemma ActionRequiredIgnored(analysis: map<string, Json>, v: Json, autoReplyEnabled: bool, workingHours: bool, isSelf: bool)
    ensures ShouldReply(analysis["action_required" := v], autoReplyEnabled, workingHours, isSelf)
         == ShouldReply(analysis, autoReplyEnabled, workingHours, isSelf)
  {
    var a' := analysis["action_required" := v];
    assert Get(a', "reply_text", JNull) == Get(analysis, "reply_text", JNull);
    assert Get(a', "priority", JInt(4)) == Get(analysis, "priority", JInt(4));
  }

  /** The happy path of the unit tests: a P2 reply outside working hours. */
  lemma HappyPathReplies()
    ensures ShouldReply(map["reply_text" := JString("Sure, I will do that."), "priority" := JInt(2),
                            "action_required" := JBool(true)], true, false, false) == Ok(true)
  {
    var analysis := map["reply_text" := JString("Sure, I will do that."), "priority" := JInt(2),
                        "action_required" := JBool(true)];
    assert Get(analysis, "reply_text", JNull) == JString("Sure, I will do that.");
    assert Get(analysis, "priority", JInt(4)) == JInt(2);
    PoliteReplyText();
    assert Approves(analysis, true, false, false);
  }

  /** The reply text of the happy path is neither an acknowledgement nor a task notice. */
  lemma PoliteReplyText()
    ensures !Contains(Lower("Sure, I will do that."), "task added")
    ensures Strip(Lower("Sure, I will do that.")) != "okay"
  {
    var text := "Sure, I will do that.";
    var low := Lower(text);
    assert 'k' !in text && 'K' !in text;
    assert 'k' !in low by {
      forall i | 0 <= i < |low| ensures low[i] != 'k' {
        assert text[i] != 'k' && text[i] != 'K';
      }
    }
    assert 'k' in "task added";
    NotContainsMissingChar(low, "task added", 'k');
    assert low[0] == 's' && low[|low| - 1] == '.';
    StripNoSpace(low);
    assert |Strip(low)| != |"okay"|;
  }

  /** The same analysis in working hours, and a P4 analysis: no reply. */
  lemma TestedRefusals()
    ensures ShouldReply(map["reply_text" := JString("Sure."), "priority" := JInt(2),
                            "action_required" := JBool(true)], true, true, false) == Ok(false)
    ensures ShouldReply(map["reply_text" := JString("Interesting."), "priority" := JInt(4),
                            "action_required" := JBool(false)], true, false, false) == Ok(false)
  {
  }

  // ---------------------------------------------------------------------------
  // process_message: context assembly and normalisation
  // ---------------------------------------------------------------------------

  datatype DoneTask = DoneTask(summary: string)

  datatype PrefExample = PrefExample(priority: int, summary: string, sender: string, comments: seq<string>)

  /** `user_preferences`: a dict of example lists under "accepted" and "rejected". */
  type Preferences = map<string, seq<PrefExample>>

  function RecentLine(t: DoneTask): string
  {
    "- " + t.summary
  }

  function PrefLine(t: PrefExample): string
  {
    "- [P" + IntToString(t.priority) + "] " + t.summary + " (from " + t.sender + ") "
    + (if t.comments != [] then "| Note: " + Join(", ", t.comments) else "")
  }

  function RecentSection(recentTasks: Option<seq<DoneTask>>): string
  {
    if recentTasks.Some? && recentTasks.value != [] then
      RecentHeader
      + Join("\n", seq(|recentTasks.value|, k requires 0 <= k < |recentTasks.value| => RecentLine(recentTasks.value[k])))
    else ""
  }

  function PrefLines(examples: seq<PrefExample>): string
  {
    Join("\n", seq(|examples|, k requires 0 <= k < |examples| => PrefLine(examples[k])))
  }

  const RecentHeader: string := "Recent Finished Tasks:\n"
  const PrefsHeader: string := "\n\nUser Preferences (Learning):\n"
  const AcceptedHeader: string := "ACCEPTED Tasks:\n"
  const RejectedHeader: string := "\nREJECTED Tasks:\n"
  const MemorySeparator: string := "\n\n"

  /** The examples stored under `key`, none if the key is absent. */
  function Examples(prefs: Preferences, key: string): seq<PrefExample>
  {
    if key in prefs then prefs[key] else []
  }

  function PreferencesSection(prefs: Option<Preferences>): string
  {
    if prefs.Some? && prefs.value != map[] then
      PrefsHeader + AcceptedHeader + PrefLines(Examples(prefs.value, "accepted"))
      + RejectedHeader + PrefLines(Examples(prefs.value, "rejected"))
    else ""
  }

  /** The knowledge store's text, when a store is configured. */
  function MemorySection(memories: Option<string>): string
  {
    if memories.Some? then MemorySeparator + memories.value else ""
  }

  /** The context built step by step: recent work, then preferences, then
      long-term memory. `memories` is the knowledge store's text, `None` when
      no store is configured. */
  method BuildContext(recentTasks: Option<seq<DoneTask>>, prefs: Option<Preferences>, memories: Option<string>)
    returns (memoryText: string)
    ensures memoryText == RecentSection(recentTasks) + PreferencesSection(prefs) + MemorySection(memories)
  {
    memoryText := "";
    if recentTasks.Some? && recentTasks.value != [] {
      memoryText := memoryText + RecentSection(recentTasks);
    }
    ghost var recent := memoryText;
    assert recent == RecentSection(recentTasks);
    if prefs.Some? && prefs.value != map[] {
      var accepted := PrefLines(Examples(prefs.value, "accepted"));
      var rejected := PrefLines(Examples(prefs.value, "rejected"));
      memoryText := memoryText + PrefsHeader;
      memoryText := memoryText + AcceptedHeader + accepted;
      memoryText := memoryText + RejectedHeader + rejected;
      Associate(recent, PrefsHeader, AcceptedHeader, accepted, RejectedHeader, rejected);
      assert memoryText == recent + PreferencesSection(prefs);
    }
    assert memoryText == recent + PreferencesSection(prefs);
    if memories.Some? {
      ghost var before := memoryText;
      memoryText := memoryText + MemorySeparator + memories.value;
      assert memoryText == before + MemorySection(memories);
    }
  }

  lemma Associate(a: string, b: string, c: string, d: string, e: string, f: string)
    ensures a + b + c + d + e + f == a + (b + c + d + e + f)
  {
  }

  /** The knowledge-store text reaches the gateway, as its last part; the
      recent work comes first, and the accepted examples before the rejected. */
  lemma ContextOrder(recentTasks: Option<seq<DoneTask>>, prefs: Option<Preferences>, memories: string)
    ensures var ctx := RecentSection(recentTasks) + PreferencesSection(prefs) + MemorySection(Some(memories));
            && Contains(ctx, memories)
            && ctx[|ctx| - |memories|..] == memories
            && ctx[..|RecentSection(recentTasks)|] == RecentSection(recentTasks)
  {
    Layout(RecentSection(recentTasks), PreferencesSection(prefs), memories);
  }

  lemma Layout(recent: string, prefs: string, memories: string)
    ensures var ctx := recent + prefs + (MemorySeparator + memories);
            && Contains(ctx, memories)
            && ctx[|ctx| - |memories|..] == memories
            && ctx[..|recent|] == recent
  {
    var pre := recent + prefs + MemorySeparator;
    var ctx := recent + prefs + (MemorySeparator + memories);
    assert ctx == pre + memories;
    ContainsAt(ctx, memories, |pre|);
  }

  /** The message-processing test: the store text "MemoryContext" is passed
      on, and the gateway's dict comes back as it was. */
  lemma MemoryReachesGateway()
    ensures Contains(RecentSection(None) + PreferencesSection(None) + MemorySection(Some("MemoryContext")), "MemoryContext")
    ensures var answer := JObject(map["summary" := JString("Task"), "priority" := JInt(1)]);
            NormalizeAnalysis(answer).fields["summary"] == JString("Task")
  {
    ContextOrder(None, None, "MemoryContext");
  }

  const FormatError: Json :=
    JObject(map["priority" := JInt(4), "summary" := JString("Analysis format error"),
                "action_required" := JBool(false)])

  /** The second normalisation: anything but a dict becomes the format-error record. */
  function NormalizeAnalysis(analysis: Json): (r: Json)
    ensures r.JObject?
    ensures analysis.JObject? ==> r == analysis
    ensures !analysis.JObject? ==> r == FormatError
  {
    if analysis.JObject? then analysis else FormatError
  }

  /** `process_message`: the context passed to `analyze_message` as its fourth
      argument, and the normalised analysis it answered with. */
  method ProcessMessage(recentTasks: Option<seq<DoneTask>>, prefs: Option<Preferences>, memories: Option<string>,
                        agentAnswer: Json)
    returns (context: string, analysis: Json)
    ensures context == RecentSection(recentTasks) + PreferencesSection(prefs) + MemorySection(memories)
    ensures analysis == NormalizeAnalysis(agentAnswer)
  {
    context := BuildContext(recentTasks, prefs, memories);
    analysis := agentAnswer;
    if !analysis.JObject? {
      analysis := FormatError;
    }
  }
}
