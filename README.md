# Alert relay: a verified model of the `POST /notify/fire` handler

The system relays alerts to chat admins. An HTTP caller posts a JSON alert
`{from, theme, text}` to `/notify/fire`. The handler `fire_handler` then sends the
markdown-escaped `text` through the Telegram bot API to every admin chat id in
the configured list. It goes in list order, one send at a time, and stops at the
first failed send. It answers `200 "Alert done"` only when every send succeeded.
Any handler error becomes `500 "Something went wrong!"`, and the error's detail
is written to the log only. The admin list comes from the bot configuration
(`Config`, held by `MelatoninBotState`). It is copied once at startup into the
`MainClient` that the HTTP router serves with.

The model has five modules:

- `Prelude` (`prelude.dfy`): `Result`, the chat id type (`i64` as a bounded
  `newtype`) and request bytes.
- `Configuration` (`config.dfy`, src/config.rs): `Config`, its derived default,
  and `MelatoninBotState` with its constructor and three accessors. All of them
  are functions of immutable values. None of them can change the state, and
  repeated calls give identical results.
- `Clients` (`main_client.dfy`, src/main_client.rs): the shared API handle `Api`. It is a reference,
  like the `Arc` it stands for. Also `MainClient`, with `New` and `GetAdmins`.
- `Server` (`server.dfy`, the handler part of src/main.rs):
  - `GetRequestBody`, generic in the decoded type.
  - `server_error_handler` and the router's error mapping (`Respond`).
  - the loop of `fire_handler`, specified by the recursive function `Notify`.
  - `fire_handler` itself as the method `FireHandler`. It has a `for` loop with
    an early return, and it is proved equal to the pure function `Fire`.
  - a whole request as `Handle`.
- `Startup` (`startup.dfy`, the wiring in `main` at src/main.rs:97-107): builds
  the `MainClient` from the bot state.

The collaborators outside the model become parameters:

- `read: Result<Bytes, string>` is the outcome of collecting the request body
  (`hyper::body::to_bytes`).
- `decode: Bytes -> Result<AlertRequest, string>` is the JSON decoder
  (`serde_json::from_slice`).
- `escape: string -> string` is `mobot::api::escape_md`.
- `network: (nat, SendRequest) -> SendOutcome` is the bot API's answer to the
  `n`-th `send_message` call of one handler run, counting from 0.

The messages a run sends come back as the output sequence `sent`. This sequence
stands for the outbound `send_message` calls in the order they were made. Log
writes come back as `LogRecord`s: the `info!` success line and the `error!` line
of the error handler.

The broadcast is a loop inside `fire_handler`. `MainClient` only exposes the
admin list and the handle. The loop is therefore modelled where the code has it.

## Model

| member | source | states |
|---|---|---|
| `Configuration.DefaultConfig` | src/config.rs:6-14 | the derived default configuration has an empty token, no admins and an empty bind address |
| `Configuration.MelatoninBotState.New` | src/config.rs:24-28 | the new state holds exactly the given configuration |
| `Configuration.AccessorsOfNew` | src/config.rs:29-38 | after `New(config)`, `get_telegram_bot_token`, `get_admins` and `get_server_addr` return exactly the configured token, the admin list (equal as a sequence, so same order, length and duplicates) and the address |
| `Configuration.DefaultStateIsEmpty` | src/config.rs:17-21 | the derived default bot state reads back an empty token, an empty admin list and an empty address |
| `Clients.Api.constructor` | src/main.rs:101 | the API handle is created from the token it is given |
| `Clients.MainClient.New` | src/main_client.rs:12-20 | `MainClient::new(api, admins)` keeps the very same API handle, and `get_admins` on it returns exactly `admins`, order and duplicates preserved |
| `Server.Display` | src/main.rs:42-54 | the printed text of a handler error keeps the underlying error's text in full, behind `"internal_server_error: "` for a read failure and `"failed to parse request body: "` for a parse failure; a send error prints as the library's own text |
| `Server.GetRequestBody` | src/main.rs:42-54 | the body decodes successfully exactly when it was read and the decoder accepted it, and the value is then the decoder's result; a read failure carries the read error's detail and a parse failure the decoder's error |
| `Server.ServerErrorHandler` | src/main.rs:34-40 | for every handler error, the answer is status 500 with body `"Something went wrong!"`, and the error's full text goes to the log |
| `Server.Respond` | src/main.rs:77-82 | the router passes a handler's response through unchanged with nothing logged, and hands every handler error to `server_error_handler`: a 500 `"Something went wrong!"` and the error's printed text in the log |
| `Server.Notify` | src/main.rs:61-69 | the broadcast from admin `i` sends at most one message per remaining admin; it succeeds only after a send to every remaining admin; a failed broadcast ends with the send that failed, and that send's error is the outcome |
| `Server.NotifySent` | src/main.rs:61-68 | the messages sent go, in order, to a prefix of the admin list (from `i` on), and each carries the same text |
| `Server.NotifyDelivered` | src/main.rs:61-68 | every message sent was delivered, except a failing last one |
| `Server.NotifyAllDelivered` | src/main.rs:60-69 | when every send succeeds, each admin gets exactly one message, in list order, duplicates giving duplicate messages, and the broadcast succeeds |
| `Server.NotifyFailFast` | src/main.rs:61-68 | when the send to admin `k` is the first to fail, admins before `k` get exactly one message each, then the failed send to `k`, nobody after `k` is contacted, and the outcome is that send's error |
| `Server.NotifySucceedsIff` | src/main.rs:61-69 | the broadcast succeeds if and only if every send to every admin succeeds |
| `Server.InformedMessage` | src/main.rs:70-73 | the success log line is `"Admins were informed. From: "`, then the alert's sender, then `" / Theme: "`, then the alert's theme |
| `Server.FireHandler` | src/main.rs:56-75 | the handler's result, the messages it sends and its log are exactly those `Fire` gives; the loop sends in list order and returns at the first failed send |
| `Server.FireFromBroadcast` | src/main.rs:57-74 | once the alert is decoded, the handler's outcome is fixed by the broadcast: a failed send gives that send's error with no success line, and a full broadcast gives "Alert done" plus the "Admins were informed" line |
| `Server.FireBadBodySendsNothing` | src/main.rs:42-57 | a body that cannot be read or decoded ends the handler with a read or parse error before any send is made and with nothing logged as informed |
| `Server.Handle` | src/main.rs:77-82 | one request through the router: the messages are those `fire_handler` sends; on success its response and log are kept; on error the response is the generic 500 and the error's printed text is appended to the log |
| `Server.HandleLogsErrorDetail` | src/main.rs:34-54 | a failed request logs its detail: `"internal_server_error: "` plus the read error, `"failed to parse request body: "` plus the decoder's error, or the failed send's error text |
| `Server.FireAllDelivered` | src/main.rs:60-74 | with every send succeeding, each admin gets `escape(text)` exactly once in list order, the handler answers `200 "Alert done"`, and it logs the alert's `from` and `theme` |
| `Server.FireFailFast` | src/main.rs:61-68 | when the send to admin `k` is the first to fail, the messages sent are exactly those to admins `0..k`, nothing is logged as informed, and the handler returns that send's error |
| `Server.FireSucceedsIff` | src/main.rs:56-75 | the handler succeeds if and only if the body reads and decodes and every send succeeds, and the success line is logged if and only if it succeeds |
| `Server.FireSendsEscapedTextToAdminPrefix` | src/main.rs:60-68 | every message carries `escape(alert.text)`, and the messages go, in order, to a prefix of the client's admin list |
| `Server.FireIgnoresFromAndTheme` | src/main.rs:64-67 | `from` and `theme` are never sent: two alerts with the same text lead to the same messages and the same result |
| `Server.FireNoAdmins` | src/main.rs:60-74 | with an empty admin list, no message is sent and the handler still succeeds |
| `Server.HandleResponses` | src/main.rs:34-40 | the caller gets `200 "Alert done"` exactly when the body decodes and every send succeeds, and otherwise `500 "Something went wrong!"` whatever the error; the error detail goes only to the log |
| `Server.ScenarioBothDelivered` | src/main.rs:60-74 | with admins `[111, 222]` and both sends succeeding: a message to 111, then one to 222, both with the escaped `"load high"`, and `200 "Alert done"` |
| `Server.ScenarioFirstSendFails` | src/main.rs:61-68 | with admins `[111, 222]` and the send to 111 failing: exactly one message (to 111), none to 222, and `500 "Something went wrong!"` |
| `Server.ScenarioDuplicateAdmin` | src/main.rs:61-68 | an admin listed twice gets the alert twice |
| `Startup.NewMainClient` | src/main.rs:97-107 | the client the router serves with holds exactly the bot state's admin list and a fresh API handle made from the bot state's token |
| `Startup.BroadcastTargetsConfiguredAdmins` | src/main.rs:97-107 | for any client holding the bot state's admins (as `NewMainClient` builds it), the messages always go, in order, to a prefix of the configured admin list, whatever the body; when the alert decodes they carry its escaped text, and when every send also succeeds they go to exactly that list |

## Left out

- HTTP transport and routing are not modelled: binding the socket, `routerify` path and method matching, and the not-found fallback. The model starts at the handler's inputs.
- The handler's `req.data::<MainClient>().unwrap()` (src/main.rs:58) is replaced by passing the client as a parameter. The router is always built with that data (src/main.rs:79), so the unwrap cannot fail.
- The `tokio` runtime, `tokio::spawn` of the server task and `router.start()` are not modelled. This includes the independence of the two loops and the interleaving of concurrent requests, which are about concurrency.
- The bot update loop and its `error_handler` (src/main.rs:30-32, 101-104, 122) are not modelled. That loop belongs to the bot library, and the hook only logs.
- `escape_md`, `send_message` and `serde_json::from_slice` are parameters with no internals. So are collecting the body bytes and what the API returns on success, which the handler discards.
- The network oracle numbers calls within one handler run. Any dependence of a send's outcome on other requests sharing the same API handle is folded into the oracle.
- `bot_init::init_app` is not part of this model. Neither is the `SocketAddr` parse with `unwrap` (src/main.rs:95-98): loading the configuration and parsing the address are startup I/O.
- `Startup.NewMainClient`: the API handle is created from the bot state's token in one step. In the source, it is reached through `mobot::Client::new` and the bot router (src/main.rs:101-107), which are not part of this model.
- Log records are values in the model. How `log` writes them, and the `debug!` and `eprintln!` output, are not modelled.
- The `RequestInfo` argument of `server_error_handler` is unused by the source, so the model leaves it out.
