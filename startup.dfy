/** The wiring in `main` of src/main.rs that hands the configured admins to the
    HTTP side. */
module Startup {
  import opened Prelude
  import opened Configuration
  import opened Clients
  import opened Server

  /** Builds the client the HTTP router serves with: the admins are copied from the
      bot state, and the API handle is created from the bot state's token. */
  method NewMainClient(state: MelatoninBotState) returns (client: MainClient)
    ensures fresh(client.tgApi)
    ensures client.tgApi.token == state.config.telegramBotToken
    ensures client.GetAdmins() == state.config.admins
  {
    var admins := state.GetAdmins();
    var api := new Api(state.GetTelegramBotToken());
    client := MainClient.New(api, admins);
  }

  /** The broadcast goes to exactly the configured admin list: for a client that
      holds the bot state's admins, as `NewMainClient` builds it, the messages sent
      always go to a prefix of the configured list, in order, whatever the body;
      when the alert decodes they all carry its escaped text, and when also every
      send succeeds there is one message to each configured admin, in order. */
  lemma BroadcastTargetsConfiguredAdmins(state: MelatoninBotState, client: MainClient, read: Result<Bytes, string>,
                                         decode: Bytes -> Result<AlertRequest, string>, escape: string -> string,
                                         network: Network, alert: AlertRequest)
    requires client.GetAdmins() == state.GetAdmins()
    ensures var sent := Fire(read, decode, escape, client, network).sent;
            |sent| <= |state.config.admins|
            && (forall j :: 0 <= j < |sent| ==> sent[j].chatId == state.config.admins[j])
            && (read.Ok? && decode(read.value) == Ok(alert) ==>
                  sent == Requests(state.config.admins[..|sent|], escape(alert.text)))
    ensures read.Ok? && decode(read.value) == Ok(alert) && AllDelivered(state.config.admins, escape(alert.text), network) ==>
              Fire(read, decode, escape, client, network).sent == Requests(state.config.admins, escape(alert.text))
  {
    if read.Ok? && decode(read.value) == Ok(alert) {
      FireSendsEscapedTextToAdminPrefix(read, decode, escape, client, network, alert);
      if AllDelivered(state.config.admins, escape(alert.text), network) {
        FireAllDelivered(read, decode, escape, client, network, alert);
      }
    } else if read.Ok? && decode(read.value).Ok? {
      FireSendsEscapedTextToAdminPrefix(read, decode, escape, client, network, decode(read.value).value);
    }
  }
}
