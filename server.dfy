/** The alert endpoint of src/main.rs: reading and decoding the request body,
    the broadcast to every admin in `fire_handler`, and the mapping of handler
    errors to the generic 500 response. */
module Server {
  import opened Prelude
  import opened Clients

  /** The decoded JSON body of `POST /notify/fire`. */
  datatype AlertRequest = AlertRequest(from: string, theme: string, text: string)

  /** `SendMessageRequest::new(chat_id, text)`: one outbound message. */
  datatype SendRequest = SendRequest(chatId: ChatId, text: string)

  /** An HTTP response: status code and body text. */
  datatype Response = Response(status: nat, body: string)

  /** A record written to the server log. */
  datatype LogRecord = Info(message: string) | Error(message: string)

  /** The `anyhow::Error` a handler can fail with, one case per origin. */
  datatype HandlerError =
    | BodyReadFailed(detail: string)
    | BodyParseFailed(detail: string)
    | SendFailed(detail: string)

  /** The answer to one `send_message` call: delivered, or the library's error. */
  datatype SendOutcome = Delivered | Failed(detail: string)

  /** How the bot API answers the outbound calls of one handler run: the answer to
      the `n`-th `send_message` call (counting from 0) with request `r` is
      `network(n, r)`. */
  type Network = (nat, SendRequest) -> SendOutcome

  const StatusOk: nat := 200
  const StatusInternalServerError: nat := 500
  const AlertDone: string := "Alert done"
  const SomethingWentWrong: string := "Something went wrong!"

  /** The text `{}` prints for a handler error: a marker of the failed step
      followed by the underlying error's text, kept in full. */
  function Display(e: HandlerError): (s: string)
    ensures |e.detail| <= |s| && s[|s| - |e.detail|..] == e.detail
    ensures e.BodyReadFailed? ==> s[..|s| - |e.detail|] == "internal_server_error: "
    ensures e.BodyParseFailed? ==> s[..|s| - |e.detail|] == "failed to parse request body: "
    ensures e.SendFailed? ==> s == e.detail
  {
    match e
    case BodyReadFailed(d) => "internal_server_error: " + d
    case BodyParseFailed(d) => "failed to parse request body: " + d
    case SendFailed(d) => d
  }

  /** `get_request_body`: `read` is the outcome of collecting the body's bytes and
      `decode` the JSON decoder. The body is decoded only when it was read, and a
      failure of either step becomes an error naming that step. */
  function GetRequestBody<T>(read: Result<Bytes, string>, decode: Bytes -> Result<T, string>): (r: Result<T, HandlerError>)
    ensures r.Ok? <==> read.Ok? && decode(read.value).Ok?
    ensures r.Ok? ==> read.Ok? && r.value == decode(read.value).value
    ensures read.Err? ==> r == Err(BodyReadFailed(read.error))
    ensures read.Ok? && decode(read.value).Err? ==> r == Err(BodyParseFailed(decode(read.value).error))
  {
    match read
    case Ok(bytes) => (
      match decode(bytes)
      case Ok(body) => Ok(body)
      case Err(e) => Err(BodyParseFailed(e)))
    case Err(e) => Err(BodyReadFailed(e))
  }

  /** A response together with the log records written while producing it. */
  datatype Handled = Handled(response: Response, log: seq<LogRecord>)

  /** `server_error_handler`: logs the error in full and answers with a generic 500
      whose body says nothing about the error. */
  function ServerErrorHandler(err: HandlerError): (h: Handled)
    ensures h.response.status == StatusInternalServerError
    ensures h.response.body == SomethingWentWrong
    ensures h.log == [Error(Display(err))]
  {
    Handled(Response(StatusInternalServerError, SomethingWentWrong), [Error(Display(err))])
  }

  /** The router's treatment of a handler result: a response is passed through,
      an error goes to `server_error_handler`. */
  function Respond(r: Result<Response, HandlerError>): (h: Handled)
    ensures r.Ok? ==> h.response == r.value && h.log == []
    ensures r.Err? ==> h.response == Response(StatusInternalServerError, SomethingWentWrong)
                       && h.log == [Error(Display(r.error))]
  {
    match r
    case Ok(response) => Handled(response, [])
    case Err(e) => ServerErrorHandler(e)
  }

  /** One message per admin, in the order of the list, all with the same text. */
  function Requests(admins: seq<ChatId>, text: string): seq<SendRequest>
  {
    seq(|admins|, j requires 0 <= j < |admins| => SendRequest(admins[j], text))
  }

  /** What a broadcast did: the messages it sent, in order, and how it ended. */
  datatype Broadcast = Broadcast(sent: seq<SendRequest>, outcome: SendOutcome)

  /** The loop of `fire_handler` from admin `i` on: send `text` to each admin in
      turn and stop at the first failing send, whose outcome is the outcome.
      Its contract: at most one message per remaining admin; the broadcast
      succeeds only after sending to every remaining admin; and a failed broadcast
      ends with the send that failed. `NotifySent` says what the messages are. */
  function Notify(admins: seq<ChatId>, text: string, network: Network, i: nat): (b: Broadcast)
    requires i <= |admins|
    ensures |b.sent| <= |admins| - i
    ensures b.outcome.Delivered? ==> |b.sent| == |admins| - i
    ensures b.outcome.Failed? ==> |b.sent| > 0 && network(i + |b.sent| - 1, b.sent[|b.sent| - 1]) == b.outcome
    decreases |admins| - i
  {
    if i == |admins| then
      Broadcast([], Delivered)
    else
      var request := SendRequest(admins[i], text);
      match network(i, request)
      case Failed(e) => Broadcast([request], Failed(e))
      case Delivered =>
        var rest := Notify(admins, text, network, i + 1);
        Broadcast([request] + rest.sent, rest.outcome)
  }

  /** The messages a broadcast from admin `i` sends go to the next admins of the
      list, in order, each with `text`. */
  lemma {:induction false} NotifySent(admins: seq<ChatId>, text: string, network: Network, i: nat)
    requires i <= |admins|
    ensures var b := Notify(admins, text, network, i);
            b.sent == Requests(admins[i..i + |b.sent|], text)
    decreases |admins| - i
  {
    if i < |admins| {
      var request := SendRequest(admins[i], text);
      if network(i, request).Delivered? {
        NotifySent(admins, text, network, i + 1);
        var n := |Notify(admins, text, network, i + 1).sent|;
        assert admins[i..i + 1 + n] == [admins[i]] + admins[i + 1..i + 1 + n];
        assert Requests(admins[i..i + 1 + n], text) == [request] + Requests(admins[i + 1..i + 1 + n], text);
      } else {
        assert Requests(admins[i..i + 1], text) == [request];
      }
    }
  }

  /** Every message a broadcast from admin `i` sends was delivered, except a
      failing last one. */
  lemma {:induction false} NotifyDelivered(admins: seq<ChatId>, text: string, network: Network, i: nat)
    requires i <= |admins|
    ensures forall j :: 0 <= j < |Notify(admins, text, network, i).sent|
                       && (Notify(admins, text, network, i).outcome.Delivered? || j < |Notify(admins, text, network, i).sent| - 1)
                       ==> network(i + j, Notify(admins, text, network, i).sent[j]).Delivered?
    decreases |admins| - i
  {
    if i < |admins| && network(i, SendRequest(admins[i], text)).Delivered? {
      NotifyDelivered(admins, text, network, i + 1);
      var b, rest := Notify(admins, text, network, i), Notify(admins, text, network, i + 1);
      assert b.sent == [SendRequest(admins[i], text)] + rest.sent && b.outcome == rest.outcome;
      forall j | 0 <= j < |b.sent| && (b.outcome.Delivered? || j < |b.sent| - 1)
        ensures network(i + j, b.sent[j]).Delivered?
      {
        if j > 0 {
          assert b.sent[j] == rest.sent[j - 1];
          assert rest.outcome.Delivered? || j - 1 < |rest.sent| - 1;
          assert network(i + 1 + (j - 1), rest.sent[j - 1]).Delivered?;
        }
      }
    }
  }

  /** Every send to `admins` with `text` succeeds. */
  ghost predicate AllDelivered(admins: seq<ChatId>, text: string, network: Network)
  {
    forall j :: 0 <= j < |admins| ==> network(j, SendRequest(admins[j], text)).Delivered?
  }

  /** The first failing send to `admins` with `text` is the one to admin `k`, and it
      fails with `e`. */
  ghost predicate FirstFailure(admins: seq<ChatId>, text: string, network: Network, k: nat, e: string)
  {
    && k < |admins|
    && (forall j :: 0 <= j < k ==> network(j, SendRequest(admins[j], text)).Delivered?)
    && network(k, SendRequest(admins[k], text)) == Failed(e)
  }

  /** When every send from admin `i` on succeeds, each of those admins gets exactly
      one message, in list order, duplicates included, and the broadcast succeeds. */
  lemma {:induction false} NotifyAllDelivered(admins: seq<ChatId>, text: string, network: Network, i: nat)
    requires i <= |admins|
    requires forall j :: i <= j < |admins| ==> network(j, SendRequest(admins[j], text)).Delivered?
    ensures Notify(admins, text, network, i) == Broadcast(Requests(admins[i..], text), Delivered)
    decreases |admins| - i
  {
    if i < |admins| {
      NotifyAllDelivered(admins, text, network, i + 1);
      assert Requests(admins[i..], text) == [SendRequest(admins[i], text)] + Requests(admins[i + 1..], text);
    }
  }

  /** Fail-fast: when the send to admin `k` is the first to fail, admins from `i` to
      `k - 1` got one message each, admin `k` got the failed one, nobody after `k`
      is contacted, and the broadcast ends with that send's error. */
  lemma {:induction false} NotifyFailFast(admins: seq<ChatId>, text: string, network: Network, i: nat, k: nat, e: string)
    requires i <= k
    requires FirstFailure(admins, text, network, k, e)
    ensures Notify(admins, text, network, i) == Broadcast(Requests(admins[i..k + 1], text), Failed(e))
    decreases k - i
  {
    if i < k {
      assert network(i, SendRequest(admins[i], text)).Delivered?;
      NotifyFailFast(admins, text, network, i + 1, k, e);
      assert Requests(admins[i..k + 1], text) == [SendRequest(admins[i], text)] + Requests(admins[i + 1..k + 1], text);
    } else {
      assert Requests(admins[i..k + 1], text) == [SendRequest(admins[k], text)];
    }
  }

  /** The broadcast succeeds exactly when every send succeeds. */
  lemma NotifySucceedsIff(admins: seq<ChatId>, text: string, network: Network)
    ensures Notify(admins, text, network, 0).outcome.Delivered? <==> AllDelivered(admins, text, network)
  {
    var b := Notify(admins, text, network, 0);
    if AllDelivered(admins, text, network) {
      NotifyAllDelivered(admins, text, network, 0);
    } else if b.outcome.Delivered? {
      NotifySent(admins, text, network, 0);
      NotifyDelivered(admins, text, network, 0);
      forall j | 0 <= j < |admins|
        ensures network(j, SendRequest(admins[j], text)).Delivered?
      {
        assert b.sent[j] == SendRequest(admins[j], text);
      }
      assert false;
    }
  }

  /** What one run of `fire_handler` does: its result, the messages it sent, in
      order, and the records it logged. */
  datatype FireRun = FireRun(result: Result<Response, HandlerError>, sent: seq<SendRequest>, log: seq<LogRecord>)

  /** The log line written once every admin was informed: a fixed lead-in, the
      alert's sender, a separator, and the alert's theme at the end. */
  function InformedMessage(alert: AlertRequest): (s: string)
    ensures |s| == 28 + |alert.from| + 10 + |alert.theme|
    ensures s[..28] == "Admins were informed. From: "
    ensures s[28..28 + |alert.from|] == alert.from
    ensures s[28 + |alert.from|..28 + |alert.from| + 10] == " / Theme: "
    ensures s[|s| - |alert.theme|..] == alert.theme
  {
    "Admins were informed. From: " + alert.from + " / Theme: " + alert.theme
  }

  /** `fire_handler` as a function of its inputs: decode the body, broadcast the
      escaped text to the client's admins, and answer "Alert done" with a log line
      only if every send succeeded. */
  function Fire(read: Result<Bytes, string>, decode: Bytes -> Result<AlertRequest, string>,
                escape: string -> string, client: MainClient, network: Network): FireRun
  {
    match GetRequestBody(read, decode)
    case Err(e) => FireRun(Err(e), [], [])
    case Ok(alert) =>
      var b := Notify(client.GetAdmins(), escape(alert.text), network, 0);
      match b.outcome
      case Failed(e) => FireRun(Err(SendFailed(e)), b.sent, [])
      case Delivered => FireRun(Ok(Response(StatusOk, AlertDone)), b.sent, [Info(InformedMessage(alert))])
  }

  /** `fire_handler`: decode the alert, then send its escaped text to each admin in
      turn, returning at the first failed send. Its results are exactly those of
      `Fire`, whose properties the lemmas below state. */
  method FireHandler(read: Result<Bytes, string>, decode: Bytes -> Result<AlertRequest, string>,
                     escape: string -> string, client: MainClient, network: Network)
    returns (result: Result<Response, HandlerError>, sent: seq<SendRequest>, log: seq<LogRecord>)
    ensures FireRun(result, sent, log) == Fire(read, decode, escape, client, network)
  {
    var body := GetRequestBody(read, decode);
    if body.Err? {
      return Err(body.error), [], [];
    }
    var alert := body.value;
    var admins := client.GetAdmins();
    ghost var payload := escape(alert.text);
    ghost var whole := Notify(admins, payload, network, 0);
    sent := [];
    for i := 0 to |admins|
      invariant whole.sent == sent + Notify(admins, payload, network, i).sent
      invariant whole.outcome == Notify(admins, payload, network, i).outcome
    {
      var request := SendRequest(admins[i], escape(alert.text));
      var outcome := network(i, request);
      sent := sent + [request];
      if outcome.Failed? {
        assert whole == Broadcast(sent, outcome) by {
          assert Notify(admins, payload, network, i) == Broadcast([request], outcome);
        }
        FireFromBroadcast(read, decode, escape, client, network, alert, whole);
        return Err(SendFailed(outcome.detail)), sent, [];
      }
      assert Notify(admins, payload, network, i).sent == [request] + Notify(admins, payload, network, i + 1).sent;
    }
    assert whole == Broadcast(sent, Delivered);
    FireFromBroadcast(read, decode, escape, client, network, alert, whole);
    log := [Info(InformedMessage(alert))];
    result := Ok(Response(StatusOk, AlertDone));
  }

  /** Once the alert is decoded, `Fire` is decided by the broadcast of its escaped
      text to the client's admins. */
  lemma FireFromBroadcast(read: Result<Bytes, string>, decode: Bytes -> Result<AlertRequest, string>,
                          escape: string -> string, client: MainClient, network: Network,
                          alert: AlertRequest, b: Broadcast)
    requires GetRequestBody(read, decode) == Ok(alert)
    requires b == Notify(client.GetAdmins(), escape(alert.text), network, 0)
    ensures Fire(read, decode, escape, client, network)
         == if b.outcome.Failed? then FireRun(Err(SendFailed(b.outcome.detail)), b.sent, [])
            else FireRun(Ok(Response(StatusOk, AlertDone)), b.sent, [Info(InformedMessage(alert))])
  {
  }

  /** The full exchange for one request: the HTTP response, the messages sent and
      everything logged. */
  datatype Exchange = Exchange(response: Response, sent: seq<SendRequest>, log: seq<LogRecord>)

  /** One `POST /notify/fire` request: `fire_handler`, then the router's error
      mapping. */
  function Handle(read: Result<Bytes, string>, decode: Bytes -> Result<AlertRequest, string>,
                  escape: string -> string, client: MainClient, network: Network): (x: Exchange)
    ensures x.sent == Fire(read, decode, escape, client, network).sent
    ensures var run := Fire(read, decode, escape, client, network);
            run.result.Ok? ==> x.response == run.result.value && x.log == run.log
    ensures var run := Fire(read, decode, escape, client, network);
            run.result.Err? ==> x.response == Response(StatusInternalServerError, SomethingWentWrong)
                                && x.log == run.log + [Error(Display(run.result.error))]
  {
    var run := Fire(read, decode, escape, client, network);
    var handled := Respond(run.result);
    Exchange(handled.response, run.sent, run.log + handled.log)
  }

  /** A body that cannot be read or decoded ends the handler with an error of that
      step before any message is sent or the success line is logged. */
  lemma FireBadBodySendsNothing(read: Result<Bytes, string>, decode: Bytes -> Result<AlertRequest, string>,
                                escape: string -> string, client: MainClient, network: Network)
    requires read.Err? || decode(read.value).Err?
    ensures Fire(read, decode, escape, client, network).sent == []
    ensures Fire(read, decode, escape, client, network).log == []
    ensures Fire(read, decode, escape, client, network).result.Err?
    ensures !Fire(read, decode, escape, client, network).result.error.SendFailed?
  {
  }

  /** A failed request logs the detail of what went wrong: the body read error or
      the decoder's error behind its marker, or the failed send's error text. */
  lemma HandleLogsErrorDetail(read: Result<Bytes, string>, decode: Bytes -> Result<AlertRequest, string>,
                              escape: string -> string, client: MainClient, network: Network)
    ensures read.Err? ==>
              Handle(read, decode, escape, client, network).log == [Error("internal_server_error: " + read.error)]
    ensures read.Ok? && decode(read.value).Err? ==>
              Handle(read, decode, escape, client, network).log
              == [Error("failed to parse request body: " + decode(read.value).error)]
    ensures var run := Fire(read, decode, escape, client, network);
            run.result.Err? && run.result.error.SendFailed? ==>
              Handle(read, decode, escape, client, network).log == [Error(run.result.error.detail)]
  {
  }

  /** With every send succeeding, each admin of the client gets the escaped alert
      text exactly once, in list order, and the handler answers "Alert done" after
      logging the alert's sender and theme. */
  lemma FireAllDelivered(read: Result<Bytes, string>, decode: Bytes -> Result<AlertRequest, string>,
                         escape: string -> string, client: MainClient, network: Network, alert: AlertRequest)
    requires read.Ok? && decode(read.value) == Ok(alert)
    requires AllDelivered(client.GetAdmins(), escape(alert.text), network)
    ensures Fire(read, decode, escape, client, network)
         == FireRun(Ok(Response(StatusOk, AlertDone)), Requests(client.GetAdmins(), escape(alert.text)),
                    [Info(InformedMessage(alert))])
  {
    NotifyAllDelivered(client.GetAdmins(), escape(alert.text), network, 0);
    assert client.GetAdmins()[0..] == client.GetAdmins();
  }

  /** Fail-fast at the handler level: when the send to admin `k` is the first to
      fail, admins `0..k` got one message each, later admins none, nothing is
      logged as informed, and the handler returns that send's error. */
  lemma FireFailFast(read: Result<Bytes, string>, decode: Bytes -> Result<AlertRequest, string>,
                     escape: string -> string, client: MainClient, network: Network,
                     alert: AlertRequest, k: nat, e: string)
    requires read.Ok? && decode(read.value) == Ok(alert)
    requires FirstFailure(client.GetAdmins(), escape(alert.text), network, k, e)
    ensures Fire(read, decode, escape, client, network)
         == FireRun(Err(SendFailed(e)), Requests(client.GetAdmins()[..k + 1], escape(alert.text)), [])
  {
    NotifyFailFast(client.GetAdmins(), escape(alert.text), network, 0, k, e);
    assert client.GetAdmins()[0..k + 1] == client.GetAdmins()[..k + 1];
  }

  /** The handler succeeds exactly when the body decodes and every send succeeds,
      and the success line is logged exactly when it succeeds. */
  lemma FireSucceedsIff(read: Result<Bytes, string>, decode: Bytes -> Result<AlertRequest, string>,
                        escape: string -> string, client: MainClient, network: Network)
    ensures Fire(read, decode, escape, client, network).result.Ok?
        <==> read.Ok? && decode(read.value).Ok?
             && AllDelivered(client.GetAdmins(), escape(decode(read.value).value.text), network)
    ensures Fire(read, decode, escape, client, network).result.Ok?
        <==> Fire(read, decode, escape, client, network).log != []
  {
    if read.Ok? && decode(read.value).Ok? {
      NotifySucceedsIff(client.GetAdmins(), escape(decode(read.value).value.text), network);
    }
  }

  /** Every message sent carries the escaped alert text and goes to the admins of
      the client, in order, as a prefix of the list. */
  lemma FireSendsEscapedTextToAdminPrefix(read: Result<Bytes, string>, decode: Bytes -> Result<AlertRequest, string>,
                                          escape: string -> string, client: MainClient, network: Network,
                                          alert: AlertRequest)
    requires read.Ok? && decode(read.value) == Ok(alert)
    ensures var sent := Fire(read, decode, escape, client, network).sent;
            |sent| <= |client.GetAdmins()| && sent == Requests(client.GetAdmins()[..|sent|], escape(alert.text))
  {
    NotifySent(client.GetAdmins(), escape(alert.text), network, 0);
    var sent := Fire(read, decode, escape, client, network).sent;
    assert client.GetAdmins()[0..|sent|] == client.GetAdmins()[..|sent|];
  }

  /** The alert's `from` and `theme` are never sent: two alerts with the same text
      lead to the same messages and the same result. */
  lemma FireIgnoresFromAndTheme(read1: Result<Bytes, string>, decode1: Bytes -> Result<AlertRequest, string>,
                                read2: Result<Bytes, string>, decode2: Bytes -> Result<AlertRequest, string>,
                                escape: string -> string, client: MainClient, network: Network)
    requires read1.Ok? && decode1(read1.value).Ok?
    requires read2.Ok? && decode2(read2.value).Ok?
    requires decode1(read1.value).value.text == decode2(read2.value).value.text
    ensures Fire(read1, decode1, escape, client, network).sent == Fire(read2, decode2, escape, client, network).sent
    ensures Fire(read1, decode1, escape, client, network).result == Fire(read2, decode2, escape, client, network).result
  {
  }

  /** With no admins, no message is sent and the handler still succeeds. */
  lemma FireNoAdmins(read: Result<Bytes, string>, decode: Bytes -> Result<AlertRequest, string>,
                     escape: string -> string, client: MainClient, network: Network)
    requires read.Ok? && decode(read.value).Ok?
    requires client.GetAdmins() == []
    ensures Fire(read, decode, escape, client, network).sent == []
    ensures Fire(read, decode, escape, client, network).result == Ok(Response(StatusOk, AlertDone))
  {
  }

  /** The caller sees 200 "Alert done" when the body decodes and every send succeeds,
      and otherwise 500 "Something went wrong!", whatever went wrong; the error's
      detail goes only to the log. */
  lemma HandleResponses(read: Result<Bytes, string>, decode: Bytes -> Result<AlertRequest, string>,
                        escape: string -> string, client: MainClient, network: Network)
    ensures var x := Handle(read, decode, escape, client, network);
            if read.Ok? && decode(read.value).Ok?
               && AllDelivered(client.GetAdmins(), escape(decode(read.value).value.text), network)
            then x.response == Response(StatusOk, AlertDone)
            else x.response == Response(StatusInternalServerError, SomethingWentWrong)
    ensures var run := Fire(read, decode, escape, client, network);
            run.result.Err? ==> Handle(read, decode, escape, client, network).log == [Error(Display(run.result.error))]
  {
    FireSucceedsIff(read, decode, escape, client, network);
  }

  /** Two admins, both sends succeeding: a message to 111, then one to 222, each with
      the escaped text, and a 200 "Alert done". */
  lemma ScenarioBothDelivered(read: Result<Bytes, string>, decode: Bytes -> Result<AlertRequest, string>,
                              escape: string -> string, api: Api, network: Network)
    requires read.Ok? && decode(read.value) == Ok(AlertRequest("sensor-1", "cpu", "load high"))
    requires forall n: nat, r: SendRequest :: network(n, r) == Delivered
    ensures var x := Handle(read, decode, escape, MainClient.New(api, [111, 222]), network);
            x.sent == [SendRequest(111, escape("load high")), SendRequest(222, escape("load high"))]
            && x.response == Response(200, "Alert done")
  {
  }

  /** Two admins, the send to 111 failing: exactly one message, to 111, none to 222,
      and a 500 "Something went wrong!". */
  lemma ScenarioFirstSendFails(read: Result<Bytes, string>, decode: Bytes -> Result<AlertRequest, string>,
                               escape: string -> string, api: Api, network: Network, e: string)
    requires read.Ok? && decode(read.value) == Ok(AlertRequest("sensor-1", "cpu", "load high"))
    requires network(0, SendRequest(111, escape("load high"))) == Failed(e)
    ensures var x := Handle(read, decode, escape, MainClient.New(api, [111, 222]), network);
            x.sent == [SendRequest(111, escape("load high"))]
            && x.response == Response(500, "Something went wrong!")
  {
  }

  /** A duplicated admin gets the alert twice. */
  lemma ScenarioDuplicateAdmin(read: Result<Bytes, string>, decode: Bytes -> Result<AlertRequest, string>,
                               escape: string -> string, api: Api, network: Network, alert: AlertRequest)
    requires read.Ok? && decode(read.value) == Ok(alert)
    requires forall n: nat, r: SendRequest :: network(n, r) == Delivered
    ensures Handle(read, decode, escape, MainClient.New(api, [7, 7]), network).sent
         == [SendRequest(7, escape(alert.text)), SendRequest(7, escape(alert.text))]
  {
  }
}
