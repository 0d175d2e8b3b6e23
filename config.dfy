/** The configuration holder of src/config.rs: a bundle of secrets and settings
    that is built once and only read afterwards. */
module Configuration {
  import opened Prelude

  /** `Config`: bot token, admin chat ids in stored order, bind address. */
  datatype Config = Config(telegramBotToken: string, admins: seq<ChatId>, serverAddr: string)

  /** The derived `Config::default()`: every field at its own default. */
  function DefaultConfig(): (c: Config)
    ensures c.telegramBotToken == "" && c.admins == [] && c.serverAddr == ""
  {
    Config("", [], "")
  }

  /** `MelatoninBotState`: the bot state, holding the configuration and nothing else.
      All accessors take the state by shared reference, so none of them changes it;
      here they are functions of an immutable value. */
  datatype MelatoninBotState = MelatoninBotState(config: Config)
  {
    /** `MelatoninBotState::new`: keeps the given configuration as it is. */
    static function New(config: Config): (s: MelatoninBotState)
      ensures s.config == config
    {
      MelatoninBotState(config)
    }

    /** `get_telegram_bot_token`: a copy of the token. */
    function GetTelegramBotToken(): string
    {
      config.telegramBotToken
    }

    /** `get_admins`: a view of the admin list. */
    function GetAdmins(): seq<ChatId>
    {
      config.admins
    }

    /** `get_server_addr`: a copy of the bind address. */
    function GetServerAddr(): string
    {
      config.serverAddr
    }
  }

  /** The derived `MelatoninBotState::default()`. */
  function DefaultState(): MelatoninBotState
  {
    MelatoninBotState(DefaultConfig())
  }

  /** Building the state and reading it back gives exactly the configured values,
      the admin list with its order, length and duplicates. */
  lemma AccessorsOfNew(config: Config)
    ensures MelatoninBotState.New(config).GetTelegramBotToken() == config.telegramBotToken
    ensures MelatoninBotState.New(config).GetAdmins() == config.admins
    ensures MelatoninBotState.New(config).GetServerAddr() == config.serverAddr
  {
  }

  /** The default state has an empty token, no admins and an empty address. */
  lemma DefaultStateIsEmpty()
    ensures DefaultState().GetTelegramBotToken() == ""
    ensures DefaultState().GetAdmins() == []
    ensures DefaultState().GetServerAddr() == ""
  {
  }
}
