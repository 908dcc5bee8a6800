# Harvest MCP server: request construction, modelled in Dafny

The Harvest MCP server exposes the Harvest time-tracking API as eleven tools.
Each tool turns its arguments into one HTTP request against
`https://api.harvestapp.com/v2/`, and the single helper `harvest_request` sends it.
This project models that request-construction layer and proves what it
promises:

- which keys each tool puts in its parameter map, with what defaults and encodings;
- which method and path each tool uses;
- how `harvest_request` refuses to run without credentials;
- the headers and URL it builds;
- where it places the parameters (query for GET, JSON body otherwise);
- how it classifies the response by status.

Modules:

- `Wrappers` (`wrappers.dfy`): `Option` for arguments that may be `None`, and `Result` for a value or a raised exception.
- `Encoding` (`encoding.dfy`): Python's `str()` on an integer, and the `"true"`/`"false"` text of a boolean. Each has a parser that reads it back, and round-trip lemmas prove nothing is lost.
- `Gateway` (`gateway.dfy`): `harvest_request`. The HTTP client is the function parameter `send` (request to response). Every result records the requests handed to `send`, so "no request is made" and "exactly one request is made" are statements about that record.
- `Tools` (`tools.dfy`): the eleven tools.
  - The tools that fill `params` key by key are methods that build a local map the same way.
  - The tools that only format a path are functions.
  - Each returns the `Call` it hands to `harvest_request` (path, parameter map or none, HTTP method). `RunTool` is the tail all tools share: `harvest_request` and then `json.dumps`.
  - So the tool `list_users(a, b, c)` corresponds to `RunTool(env, ListUsers(a, b, c))`.

The HTTP method is a string (`verb`), as in the source, which compares it with `"GET"`.
Decoded JSON payloads and float `hours` are opaque types. `json.dumps` is the function parameter `dump` of `Env`.

Facts about the code that the model keeps:

- There are eleven tools.
- Every request carries four headers, `User-Agent` included.
- `from_date` and `to_date` of `list_time_entries` are tested with `is not None`, so an empty string is sent. Only `notes` uses truthiness.
- Checking required arguments is left to the host framework (see below).

## Model

| member | source | states |
|---|---|---|
| `Encoding.IntRoundTrip` | harvest-mcp-server.py:53-56 | `IntToString` models `str()`; `str()` of any integer (ids, `page`, `per_page`) reads back as that integer, so the API receives the number the caller gave |
| `Encoding.IntToStringInjective` | harvest-mcp-server.py:84-85 | two ids are sent as the same text exactly when they are equal |
| `Encoding.IntToStringChars` | harvest-mcp-server.py:127 | the decimal text of an id is non-empty and holds only digits after an optional leading '-'; it holds no '/' or space |
| `Encoding.NatToStringDigits` | harvest-mcp-server.py:54 | the decimal text of a natural number is a non-empty run of digits that denotes that number |
| `Encoding.ParseIntExact` | harvest-mcp-server.py:85 | a text reads back as an integer exactly when it is `str()` of that integer: leading zeros and "-0" are not read |
| `Encoding.CanonicalIsNatToString` | harvest-mcp-server.py:160 | digits without a leading zero (or "0" alone) are `str()` of the number they denote |
| `Encoding.BoolRoundTrip` | harvest-mcp-server.py:50 | `BoolText` models `"true" if b else "false"`; the "true"/"false" text of a boolean reads back as that boolean |
| `Gateway.Headers` | harvest-mcp-server.py:19-24 | exactly the four headers `Harvest-Account-Id`, `Authorization`, `User-Agent`, `Content-Type`. The account id is carried as given. The key can be read back from `Authorization` under the Bearer scheme (section 2.1 of RFC 6750). The agent is "Harvest MCP Server" and the content type is JSON |
| `Gateway.Url` | harvest-mcp-server.py:26 | the URL is the fixed API root followed by the relative path, which reads back unchanged after the root |
| `Gateway.BuildRequest` | harvest-mcp-server.py:16-32 | fails with the configuration error exactly when either credential is unset or empty. Otherwise the request has the given method, the URL of the path and the four headers. For GET the parameters are the query and there is no body; for any other method they are the body and there is no query |
| `Gateway.Classify` | harvest-mcp-server.py:34-37 | success exactly when the status is 200, with the payload unchanged. Every other status, other 2xx included, is an upstream error carrying that status and the raw body text |
| `Gateway.HarvestRequest` | harvest-mcp-server.py:15-37 | without credentials: the configuration error, and no request sent. With them: exactly one request is sent, the one `BuildRequest` gives, and the result classifies its response |
| `Gateway.NoCredentialsNoRequest` | harvest-mcp-server.py:16-17 | a corollary of `HarvestRequest`'s contract: without credentials the outcome does not depend on the transport at all, and nothing is sent |
| `Gateway.ErrorMessageRoundTrip` | harvest-mcp-server.py:17-35 | `ErrorMessage` models the two exception texts; the exception text "Harvest API Error: <status> <text>" keeps the status and the raw body verbatim: both read back from it. The missing-credentials message never reads as an upstream error |
| `Tools.OptionalIdReadsBack` | harvest-mcp-server.py:84-85 | an optional id filter reaches the API as the caller gave it: absent stays absent, and a given id reads back from its text |
| `Tools.OptionalFlagReadsBack` | harvest-mcp-server.py:90-91 | an optional boolean filter reaches the API as the caller gave it: absent stays absent |
| `Tools.PathIdRoundTrip` | harvest-mcp-server.py:70 | formatting an id into a path template loses nothing: the id reads back from between the template's fixed parts |
| `Tools.PathIdExact` | harvest-mcp-server.py:198 | the id read back from a path fixes it: the path is exactly the template with `str(id)` in its place |
| `Tools.ListUsers` | harvest-mcp-server.py:48-60 | GET `users` with exactly the keys `is_active` and `per_page`, plus `page` when given. `is_active` is "true" unless the caller passes false. `per_page` is the integer 200 by default, otherwise the caller's value as decimal text. `page` is decimal text |
| `Tools.ListTimeEntries` | harvest-mcp-server.py:83-93 | GET `time_entries`. Only the keys `user_id`, `from`, `to`, `is_running` can appear, each exactly when its argument is given. The id is sent as decimal text, the dates verbatim under the renamed keys, the flag as "true"/"false" |
| `Tools.CreateTimeEntry` | harvest-mcp-server.py:107-117 | POST `time_entries` whose body has exactly `project_id`, `task_id`, `spent_date`, `hours` as given. `notes` is added exactly when it is a non-empty string |
| `Tools.StartTimer` | harvest-mcp-server.py:139-147 | POST `time_entries` whose body has exactly `project_id` and `task_id` as given. `notes` is added exactly when it is a non-empty string |
| `Tools.ListProjects` | harvest-mcp-server.py:158-164 | GET `projects`. Only `client_id` and `is_active` can appear, each exactly when given, as decimal text and "true"/"false" |
| `Tools.ListClients` | harvest-mcp-server.py:184-188 | GET `clients`. Only `is_active` can appear, exactly when given, as "true"/"false" |
| `Tools.ListTasks` | harvest-mcp-server.py:208-212 | GET `tasks`. Only `is_active` can appear, exactly when given, as "true"/"false" |
| `Tools.GetUserDetails` | harvest-mcp-server.py:70 | GET with no parameter map, on a `users/` path from which the user id reads back, which by `PathIdExact` is exactly `users/` + `str(user_id)` |
| `Tools.StopTimer` | harvest-mcp-server.py:127 | PATCH with no parameter map, on a `time_entries/…/stop` path from which the time entry id reads back, which by `PathIdExact` is exactly `time_entries/` + `str(time_entry_id)` + `/stop` |
| `Tools.GetProjectDetails` | harvest-mcp-server.py:174 | GET with no parameter map, on a `projects/` path from which the project id reads back, which by `PathIdExact` is exactly `projects/` + `str(project_id)` |
| `Tools.GetClientDetails` | harvest-mcp-server.py:198 | GET with no parameter map, on a `clients/` path from which the client id reads back, which by `PathIdExact` is exactly `clients/` + `str(client_id)` |
| `Tools.RunTool` | harvest-mcp-server.py:60-61 | A tool's outcome. Without credentials: the configuration error and nothing sent. Otherwise one request, with the call's method, its URL and the four headers; the parameters are in the query for GET and in the body otherwise. Success exactly on status 200, and the result is then `json.dumps` of the payload. Any other status gives the upstream error with that status and text |

`Tools.ExampleCalls` is a client of the tool methods. From their contracts alone it derives these example calls:

- `list_users()` sends `is_active=true, per_page=200`;
- `list_users(is_active=False, per_page=50)` sends exactly `is_active=false, per_page=50`;
- `create_time_entry` without notes, and `start_timer` with empty notes, send no `notes` key.

## Left out

- The `httpx.AsyncClient` round trip, `async`/`await` and transport failures (DNS, TLS, timeouts): network I/O and concurrency. The transport is the total function `send`, so a failed connection is not represented.
- `response.json()` failing on a 200 response whose body is not JSON. The decoded payload is part of the modelled response.
- FastMCP: server creation, `@mcp.tool()` registration, its checking of required arguments and argument types, and `mcp.run(transport='stdio')`. These belong to the host framework, whose code is not part of this model. Tool arguments arrive already typed, and a missing required argument never reaches the tools.
- Reading `HARVEST_ACCOUNT_ID` and `HARVEST_API_KEY` from the environment: the credentials are a parameter holding what `os.environ.get` returned.
- `json.dumps(response, indent=2)`: an uninterpreted function parameter `dump`; its text is not modelled.
- Floating-point `hours`: an opaque value passed through unchanged.
- The unused `datetime` import.
