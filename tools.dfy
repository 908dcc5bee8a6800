/** The eleven tools (harvest-mcp-server.py:39-213). Each tool turns its
    arguments into one request for the gateway (a path relative to the API
    root, a parameter map or none, and an HTTP method), hands it to
    `harvest_request`, and renders the payload with `json.dumps`.

    The tools that fill a `params` dictionary key by key are methods that do
    the same with a local map; the tools that only format a path are
    functions. `RunTool` is the tail every tool shares. */
module Tools {
  import opened Wrappers
  import opened Encoding
  import opened Gateway

  /** The request a tool asks the gateway for: `harvest_request(path, params, method)`. */
  datatype Call = Call(path: string, params: Option<Params>, verb: string)

  /** What a tool's caller sees: the rendered payload or the exception, and the
      requests that went out on its behalf. */
  datatype ToolOutcome = ToolOutcome(result: Result<string, Error>, sent: seq<HttpRequest>)

  /** What a tool runs against: the credentials read at start-up, the HTTP
      transport, and `json.dumps(_, indent=2)`, which the model does not interpret. */
  datatype Env = Env(creds: Credentials, send: HttpRequest -> Response, dump: Payload -> string)

  /** `per_page` when the caller of `list_users` gives none: the JSON integer 200, not a string. */
  const DefaultPerPage: int := 200

  // ---------------------------------------------------------------------------
  // How an argument appears in a parameter map

  /** A boolean sent as the text "true" or "false". */
  predicate FlagParam(p: Params, key: string, b: bool) {
    key in p && p[key] == Str(BoolText(b))
  }

  /** An id or count sent as its decimal text, `str(n)`. */
  predicate IdParam(p: Params, key: string, n: int) {
    key in p && p[key] == Str(IntToString(n))
  }

  /** An optional boolean: the key is there exactly when the argument is not None. */
  predicate OptionalFlag(p: Params, key: string, arg: Option<bool>) {
    (key in p <==> arg.Some?) && (arg.Some? ==> FlagParam(p, key, arg.value))
  }

  /** An optional id: the key is there exactly when the argument is not None. */
  predicate OptionalId(p: Params, key: string, arg: Option<int>) {
    (key in p <==> arg.Some?) && (arg.Some? ==> IdParam(p, key, arg.value))
  }

  /** An optional string tested with `is not None`: even "" is sent. */
  predicate OptionalText(p: Params, key: string, arg: Option<string>) {
    (key in p <==> arg.Some?) && (arg.Some? ==> p[key] == Str(arg.value))
  }

  /** Python truthiness of an optional string (`if notes:`): given and not empty. */
  predicate Truthy(s: Option<string>) {
    s.Some? && s.value != ""
  }

  /** The boolean the API reads from a parameter, if it holds "true" or "false". */
  function ReadFlag(p: Params, key: string): (r: Option<bool>)
    ensures r.Some? ==> key in p
  {
    if key in p && p[key].Str? then ParseBool(p[key].s) else None
  }

  /** The integer the API reads from a parameter holding decimal text. */
  function ReadId(p: Params, key: string): (r: Option<int>)
    ensures r.Some? ==> key in p
  {
    if key in p && p[key].Str? then ParseInt(p[key].s) else None
  }

  /** An optional boolean filter reaches the API as the caller gave it: absent stays absent. */
  lemma OptionalFlagReadsBack(p: Params, key: string, arg: Option<bool>)
    requires OptionalFlag(p, key, arg)
    ensures ReadFlag(p, key) == arg
  {
    if arg.Some? {
      BoolRoundTrip(arg.value);
    }
  }

  /** An optional id filter reaches the API as the caller gave it: absent stays absent. */
  lemma OptionalIdReadsBack(p: Params, key: string, arg: Option<int>)
    requires OptionalId(p, key, arg)
    ensures ReadId(p, key) == arg
  {
    if arg.Some? {
      IntRoundTrip(arg.value);
    }
  }

  // ---------------------------------------------------------------------------
  // Tools that build a parameter map

  /** `list_users`: `is_active` is always sent ("true" unless the caller passes
      false), `per_page` is always sent (the integer 200 by default, else the
      caller's value as text), `page` only when given. */
  method ListUsers(isActive: Option<bool>, page: Option<int>, perPage: Option<int>) returns (call: Call)
    ensures call.verb == "GET" && call.path == "users" && call.params.Some?
    ensures call.params.value.Keys == {"is_active", "per_page"} + (if page.Some? then {"page"} else {})
    ensures FlagParam(call.params.value, "is_active", isActive != Some(false))
    ensures OptionalId(call.params.value, "page", page)
    ensures perPage.None? ==> call.params.value["per_page"] == Int(DefaultPerPage)
    ensures perPage.Some? ==> IdParam(call.params.value, "per_page", perPage.value)
  {
    var params: Params := map[];
    if isActive.Some? {
      params := params["is_active" := Str(BoolText(isActive.value))];
    } else {
      params := params["is_active" := Str("true")];
    }
    if page.Some? {
      params := params["page" := Str(IntToString(page.value))];
    }
    if perPage.Some? {
      params := params["per_page" := Str(IntToString(perPage.value))];
    } else {
      params := params["per_page" := Int(DefaultPerPage)];
    }
    call := Call("users", Some(params), "GET");
  }

  /** `list_time_entries`: each filter is sent only when given; `from_date` and
      `to_date` go under the keys `from` and `to`, and are sent even when empty. */
  method ListTimeEntries(userId: Option<int>, fromDate: Option<string>, toDate: Option<string>, isRunning: Option<bool>)
    returns (call: Call)
    ensures call.verb == "GET" && call.path == "time_entries" && call.params.Some?
    ensures call.params.value.Keys <= {"user_id", "from", "to", "is_running"}
    ensures OptionalId(call.params.value, "user_id", userId)
    ensures OptionalText(call.params.value, "from", fromDate)
    ensures OptionalText(call.params.value, "to", toDate)
    ensures OptionalFlag(call.params.value, "is_running", isRunning)
  {
    var params: Params := map[];
    if userId.Some? {
      params := params["user_id" := Str(IntToString(userId.value))];
    }
    if fromDate.Some? {
      params := params["from" := Str(fromDate.value)];
    }
    if toDate.Some? {
      params := params["to" := Str(toDate.value)];
    }
    if isRunning.Some? {
      params := params["is_running" := Str(BoolText(isRunning.value))];
    }
    call := Call("time_entries", Some(params), "GET");
  }

  /** `create_time_entry`: a POST body with exactly the four required fields as
      given (ids as JSON integers, hours passed through), plus `notes` only when
      it is a non-empty string. */
  method CreateTimeEntry(projectId: int, taskId: int, spentDate: string, hours: Hours, notes: Option<string>)
    returns (call: Call)
    ensures call.verb == "POST" && call.path == "time_entries" && call.params.Some?
    ensures call.params.value.Keys
         == {"project_id", "task_id", "spent_date", "hours"} + (if Truthy(notes) then {"notes"} else {})
    ensures call.params.value["project_id"] == Int(projectId)
    ensures call.params.value["task_id"] == Int(taskId)
    ensures call.params.value["spent_date"] == Str(spentDate)
    ensures call.params.value["hours"] == Num(hours)
    ensures Truthy(notes) ==> call.params.value["notes"] == Str(notes.value)
  {
    var params: Params := map[
      "project_id" := Int(projectId),
      "task_id" := Int(taskId),
      "spent_date" := Str(spentDate),
      "hours" := Num(hours)
    ];
    if notes.Some? && notes.value != "" {
      params := params["notes" := Str(notes.value)];
    }
    call := Call("time_entries", Some(params), "POST");
  }

  /** `start_timer`: a POST body with exactly `project_id` and `task_id`, plus
      `notes` only when it is a non-empty string. */
  method StartTimer(projectId: int, taskId: int, notes: Option<string>) returns (call: Call)
    ensures call.verb == "POST" && call.path == "time_entries" && call.params.Some?
    ensures call.params.value.Keys == {"project_id", "task_id"} + (if Truthy(notes) then {"notes"} else {})
    ensures call.params.value["project_id"] == Int(projectId)
    ensures call.params.value["task_id"] == Int(taskId)
    ensures Truthy(notes) ==> call.params.value["notes"] == Str(notes.value)
  {
    var params: Params := map["project_id" := Int(projectId), "task_id" := Int(taskId)];
    if notes.Some? && notes.value != "" {
      params := params["notes" := Str(notes.value)];
    }
    call := Call("time_entries", Some(params), "POST");
  }

  /** `list_projects`: `client_id` and `is_active` are sent only when given. */
  method ListProjects(clientId: Option<int>, isActive: Option<bool>) returns (call: Call)
    ensures call.verb == "GET" && call.path == "projects" && call.params.Some?
    ensures call.params.value.Keys <= {"client_id", "is_active"}
    ensures OptionalId(call.params.value, "client_id", clientId)
    ensures OptionalFlag(call.params.value, "is_active", isActive)
  {
    var params: Params := map[];
    if clientId.Some? {
      params := params["client_id" := Str(IntToString(clientId.value))];
    }
    if isActive.Some? {
      params := params["is_active" := Str(BoolText(isActive.value))];
    }
    call := Call("projects", Some(params), "GET");
  }

  /** `list_clients`: `is_active` is sent only when given. */
  method ListClients(isActive: Option<bool>) returns (call: Call)
    ensures call.verb == "GET" && call.path == "clients" && call.params.Some?
    ensures call.params.value.Keys <= {"is_active"}
    ensures OptionalFlag(call.params.value, "is_active", isActive)
  {
    var params: Params := map[];
    if isActive.Some? {
      params := params["is_active" := Str(BoolText(isActive.value))];
    }
    call := Call("clients", Some(params), "GET");
  }

  /** `list_tasks`: `is_active` is sent only when given. */
  method ListTasks(isActive: Option<bool>) returns (call: Call)
    ensures call.verb == "GET" && call.path == "tasks" && call.params.Some?
    ensures call.params.value.Keys <= {"is_active"}
    ensures OptionalFlag(call.params.value, "is_active", isActive)
  {
    var params: Params := map[];
    if isActive.Some? {
      params := params["is_active" := Str(BoolText(isActive.value))];
    }
    call := Call("tasks", Some(params), "GET");
  }

  // ---------------------------------------------------------------------------
  // Tools that only format a path

  /** The id embedded in `path` between `prefix` and `suffix`, read back as an integer. */
  function PathId(prefix: string, suffix: string, path: string): (r: Option<int>)
  {
    if |prefix| + |suffix| <= |path| && prefix <= path && path[|path| - |suffix|..] == suffix then
      ParseInt(path[|prefix|..|path| - |suffix|])
    else
      None
  }

  /** Formatting an id into a path template loses nothing: the id reads back. */
  lemma PathIdRoundTrip(prefix: string, suffix: string, id: int)
    ensures PathId(prefix, suffix, prefix + IntToString(id) + suffix) == Some(id)
  {
    var digits := IntToString(id);
    var path := prefix + digits + suffix;
    assert path[|path| - |suffix|..] == suffix;
    assert path[|prefix|..|path| - |suffix|] == digits;
    IntRoundTrip(id);
  }

  /** The id read back from a path fixes the path: it is the template with
      `str(id)` in its place, and no other text (no leading zeros, no "-0"). */
  lemma PathIdExact(prefix: string, suffix: string, path: string, id: int)
    ensures PathId(prefix, suffix, path) == Some(id) <==> path == prefix + IntToString(id) + suffix
  {
    PathIdRoundTrip(prefix, suffix, id);
    if PathId(prefix, suffix, path) == Some(id) {
      var middle := path[|prefix|..|path| - |suffix|];
      ParseIntExact(middle, id);
      assert path == path[..|prefix|] + middle + path[|path| - |suffix|..];
    }
  }

  /** `get_user_details`: GET `users/{user_id}` with no parameters. */
  function GetUserDetails(userId: int): (call: Call)
    ensures call.verb == "GET" && call.params == None
    ensures PathId("users/", "", call.path) == Some(userId)
  {
    var path := "users/" + IntToString(userId);
    PathIdRoundTrip("users/", "", userId);
    assert path == "users/" + IntToString(userId) + "";
    Call(path, None, "GET")
  }

  /** `stop_timer`: PATCH `time_entries/{time_entry_id}/stop` with no parameters. */
  function StopTimer(timeEntryId: int): (call: Call)
    ensures call.verb == "PATCH" && call.params == None
    ensures PathId("time_entries/", "/stop", call.path) == Some(timeEntryId)
  {
    PathIdRoundTrip("time_entries/", "/stop", timeEntryId);
    Call("time_entries/" + IntToString(timeEntryId) + "/stop", None, "PATCH")
  }

  /** `get_project_details`: GET `projects/{project_id}` with no parameters. */
  function GetProjectDetails(projectId: int): (call: Call)
    ensures call.verb == "GET" && call.params == None
    ensures PathId("projects/", "", call.path) == Some(projectId)
  {
    var path := "projects/" + IntToString(projectId);
    PathIdRoundTrip("projects/", "", projectId);
    assert path == "projects/" + IntToString(projectId) + "";
    Call(path, None, "GET")
  }

  /** `get_client_details`: GET `clients/{client_id}` with no parameters. */
  function GetClientDetails(clientId: int): (call: Call)
    ensures call.verb == "GET" && call.params == None
    ensures PathId("clients/", "", call.path) == Some(clientId)
  {
    var path := "clients/" + IntToString(clientId);
    PathIdRoundTrip("clients/", "", clientId);
    assert path == "clients/" + IntToString(clientId) + "";
    Call(path, None, "GET")
  }

  // ---------------------------------------------------------------------------
  // The tail every tool shares

  /** `response = await harvest_request(...)` followed by `json.dumps(response, indent=2)`:
      a gateway error propagates unchanged, a payload is rendered by `dump`. */
  function RunTool(env: Env, call: Call): (o: ToolOutcome)
    ensures !Configured(env.creds) ==> o == ToolOutcome(Err(ConfigError), [])
    ensures Configured(env.creds) ==>
      && |o.sent| == 1
      && o.sent[0].verb == call.verb
      && o.sent[0].url == Url(call.path)
      && o.sent[0].headers == Headers(env.creds.accountId.value, env.creds.apiKey.value)
      && (call.verb == "GET" ==> o.sent[0].query == call.params && o.sent[0].body == None)
      && (call.verb != "GET" ==> o.sent[0].body == call.params && o.sent[0].query == None)
    ensures o.result.Ok? <==> Configured(env.creds) && env.send(o.sent[0]).status == 200
    ensures o.result.Ok? ==> o.result.value == env.dump(env.send(o.sent[0]).payload)
    ensures Configured(env.creds) && o.result.Err? ==>
      o.result.error == Upstream(env.send(o.sent[0]).status, env.send(o.sent[0]).text)
  {
    var x := HarvestRequest(env.creds, env.send, call.path, call.params, call.verb);
    match x.result
    case Ok(payload) => ToolOutcome(Ok(env.dump(payload)), x.sent)
    case Err(e) => ToolOutcome(Err(e), x.sent)
  }

  // ---------------------------------------------------------------------------
  // What callers can conclude from the contracts alone

  /** Example calls, derived from the tools' contracts: `list_users()` sends
      `is_active=true` and `per_page=200`; `list_users(is_active=False, per_page=50)`
      sends exactly `is_active=false` and `per_page=50`; `create_time_entry` without
      notes and `start_timer` with empty notes send no `notes` key. */
  method ExampleCalls(hours: Hours) {
    var defaults := ListUsers(None, None, None);
    var p := defaults.params.value;
    assert p.Keys == {"is_active", "per_page"};
    assert p["is_active"] == Str("true") && p["per_page"] == Int(200);
    assert p == map["is_active" := Str("true"), "per_page" := Int(200)];

    var inactive := ListUsers(Some(false), None, Some(50));
    assert IntToString(50) == "50";
    p := inactive.params.value;
    assert p.Keys == {"is_active", "per_page"};
    assert p["is_active"] == Str("false") && p["per_page"] == Str("50");
    assert p == map["is_active" := Str("false"), "per_page" := Str("50")];

    var entry := CreateTimeEntry(1, 2, "2024-01-01", hours, None);
    assert "notes" !in entry.params.value;
    assert entry.params.value.Keys == {"project_id", "task_id", "spent_date", "hours"};

    var blank := StartTimer(1, 2, Some(""));
    assert "notes" !in blank.params.value;
  }
}
