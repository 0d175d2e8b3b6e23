/** The messaging client wrapper of src/main_client.rs. */
module Clients {
  import opened Prelude

  /** The shared handle to the bot library's API (`Arc<mobot::API>`). Cloning the
      `Arc` shares the same object, so the handle is a reference; the model keeps
      only the token the API was created with. */
  class Api {
    const token: string

    constructor (token: string)
      ensures this.token == token
    {
      this.token := token;
    }
  }

  /** `MainClient`: the API handle and the admin list; no field is ever updated. */
  datatype MainClient = MainClient(tgApi: Api, admins: seq<ChatId>)
  {
    /** `MainClient::new`: stores the handle and the admin list unchanged. */
    static function New(mobotClient: Api, admins: seq<ChatId>): (c: MainClient)
      ensures c.tgApi == mobotClient
      ensures c.GetAdmins() == admins
    {
      MainClient(mobotClient, admins)
    }

    /** `get_admins`: a read-only view of the stored admin list. */
    function GetAdmins(): seq<ChatId>
    {
      admins
    }
  }
}
