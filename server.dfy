/**
 * Two request handlers of the local HTTP API (backend/server.py): the
 * allowed-keys merge of `POST /api/config` and the validation of
 * `POST /api/priority/{task_id}`. Files and the task manager are parameters:
 * the stored configuration as already decoded, and the task manager's answer.
 */
module Server {

  import opened Wrappers
  import opened Json

  /** An HTTP answer: its status code and JSON body. */
  datatype Reply = Reply(status: int, body: Json)

  // ---------------------------------------------------------------------------
  // update_config
  // ---------------------------------------------------------------------------

  /** The only settings a request may change. */
  const AllowedKeys: seq<string> :=
    ["ENABLE_AUTO_REPLY", "WORKING_HOURS_START", "WORKING_HOURS_END",
     "ENABLE_LONG_TERM_MEMORY", "GROUP_TRIGGER_KEYWORDS", "CATCH_UP_SECONDS"]

  const ConfigSaved: Json :=
    JObject(map["status" := JString("success"),
                "message" := JString("Settings updated. Restart may be required for some changes.")])

  /** `current` with every key of `keys` that the request carries overwritten
      by the request's value. */
  function Merge(current: map<string, Json>, request: map<string, Json>, keys: seq<string>): map<string, Json>
  {
    map k | k in current.Keys + (request.Keys * (set x | x in keys)) ::
      if k in request && k in keys then request[k] else current[k]
  }

  /** The text of the `TypeError` raised by `current[key] = value` when the
      stored configuration is not a dict. */
  function ItemAssignmentError(v: Json): string
    requires !v.JObject?
  {
    match v
    case JArray(_) => "list indices must be integers or slices, not str"
    case JNull => "'NoneType' object does not support item assignment"
    case JBool(_) => "'bool' object does not support item assignment"
    case JInt(_) => "'int' object does not support item assignment"
    case JString(_) => "'str' object does not support item assignment"
  }

  /**
   * `update_config`. `stored` is the decoded configuration file, `None` when
   * there is none; `saved` is what is written back, `None` when the handler
   * fails before writing.
   */
  method UpdateConfig(stored: Option<Json>, newConfig: map<string, Json>) returns (reply: Reply, saved: Option<Json>)
    ensures var current := if stored.Some? then stored.value else JObject(map[]);
            if current.JObject? then
              && saved == Some(JObject(Merge(current.fields, newConfig, AllowedKeys)))
              && reply == Reply(200, ConfigSaved)
            else if exists i :: 0 <= i < |AllowedKeys| && AllowedKeys[i] in newConfig then
              && saved == None
              && reply == Reply(500, JObject(map["error" := JString(ItemAssignmentError(current))]))
            else
              && saved == Some(current)
              && reply == Reply(200, ConfigSaved)
  {
    var current := JObject(map[]);
    if stored.Some? {
      current := stored.value;
    }
    ghost var initial := current;
    for i := 0 to |AllowedKeys|
      invariant initial.JObject? ==> current.JObject? && current.fields == Merge(initial.fields, newConfig, AllowedKeys[..i])
      invariant !initial.JObject? ==> current == initial && forall j :: 0 <= j < i ==> AllowedKeys[j] !in newConfig
    {
      var key := AllowedKeys[i];
      assert AllowedKeys[..i + 1] == AllowedKeys[..i] + [key];
      if key in newConfig {
        if !current.JObject? {
          reply := Reply(500, JObject(map["error" := JString(ItemAssignmentError(current))]));
          saved := None;
          return;
        }
        current := JObject(current.fields[key := newConfig[key]]);
        MergeStep(initial.fields, newConfig, AllowedKeys[..i], key);
      } else if current.JObject? {
        MergeSkip(initial.fields, newConfig, AllowedKeys[..i], key);
      }
    }
    assert AllowedKeys[..|AllowedKeys|] == AllowedKeys;
    saved := Some(current);
    reply := Reply(200, ConfigSaved);
  }

  /** One more allowed key that the request carries. */
  lemma MergeStep(current: map<string, Json>, request: map<string, Json>, keys: seq<string>, key: string)
    requires key in request
    ensures Merge(current, request, keys + [key]) == Merge(current, request, keys)[key := request[key]]
  {
    var lhs := Merge(current, request, keys + [key]);
    var rhs := Merge(current, request, keys)[key := request[key]];
    assert lhs.Keys == rhs.Keys;
    forall k | k in lhs.Keys ensures lhs[k] == rhs[k] {
      if k != key {
        assert (k in keys + [key]) <==> (k in keys);
      }
    }
  }

  /** One more allowed key that the request does not carry. */
  lemma MergeSkip(current: map<string, Json>, request: map<string, Json>, keys: seq<string>, key: string)
    requires key !in request
    ensures Merge(current, request, keys + [key]) == Merge(current, request, keys)
  {
    var lhs := Merge(current, request, keys + [key]);
    var rhs := Merge(current, request, keys);
    assert lhs.Keys == rhs.Keys;
    forall k | k in lhs.Keys ensures lhs[k] == rhs[k] {
      assert (k in keys + [key]) <==> (k in keys || k == key);
    }
  }

  /** The merged configuration differs from the stored one only at allowed
      keys; an allowed key in the request takes its value; every other key,
      disallowed keys of the request included, keeps what was stored. */
  lemma MergeChangesOnlyAllowed(current: map<string, Json>, request: map<string, Json>)
    ensures var merged := Merge(current, request, AllowedKeys);
            && (forall k :: k in AllowedKeys && k in request ==> k in merged && merged[k] == request[k])
            && (forall k :: k !in AllowedKeys || k !in request ==>
                  (k in merged <==> k in current) && (k in current ==> merged[k] == current[k]))
  {
  }

  /** Sending the same request twice leaves what one sending left. */
  lemma {:induction false} MergeIdempotent(current: map<string, Json>, request: map<string, Json>)
    ensures var once := Merge(current, request, AllowedKeys);
            Merge(once, request, AllowedKeys) == once
  {
    var once := Merge(current, request, AllowedKeys);
    var twice := Merge(once, request, AllowedKeys);
    assert twice.Keys == once.Keys;
    forall k | k in twice.Keys ensures twice[k] == once[k] {
      if k in request && k in AllowedKeys {
        assert twice[k] == request[k];
      }
    }
  }

  /** Without a stored file the result holds exactly the allowed keys the
      request carries. */
  lemma MergeFromNothing(request: map<string, Json>)
    ensures var merged := Merge(map[], request, AllowedKeys);
            && (forall k :: k in merged <==> k in request && k in AllowedKeys)
            && (forall k :: k in merged ==> merged[k] == request[k])
  {
  }

  // ---------------------------------------------------------------------------
  // update_priority
  // ---------------------------------------------------------------------------

  function ErrorReply(status: int, message: string): Reply
  {
    Reply(status, JObject(map["error" := JString(message)]))
  }

  /**
   * `update_priority`. `managerReady` says whether a task manager is
   * configured and `updated` is its answer; `called` says whether it was
   * asked to change the task.
   */
  method UpdatePriority(taskId: string, request: map<string, Json>, managerReady: bool, updated: bool)
    returns (reply: Reply, called: bool)
    ensures !managerReady ==> reply == ErrorReply(500, "TaskManager not initialized") && !called
    ensures managerReady && Get(request, "priority", JNull).JNull? ==>
              reply == ErrorReply(400, "Priority missing") && !called
    ensures managerReady && !Get(request, "priority", JNull).JNull? ==>
              && called
              && reply == if updated then
                            Reply(200, JObject(map["status" := JString("success"), "task" := JString(taskId),
                                                   "priority" := request["priority"]]))
                          else ErrorReply(500, "Failed to update priority")
    ensures reply.status == 200 ==> called && updated
  {
    called := false;
    if !managerReady {
      return ErrorReply(500, "TaskManager not initialized"), called;
    }
    var priority := Get(request, "priority", JNull);
    if priority.JNull? {
      return ErrorReply(400, "Priority missing"), called;
    }
    called := true;
    if updated {
      reply := Reply(200, JObject(map["status" := JString("success"), "task" := JString(taskId),
                                      "priority" := priority]));
    } else {
      reply := ErrorReply(500, "Failed to update priority");
    }
  }
}
