/**
 * The JSON file `app/data/mockData.json` the API routes read and rewrite,
 * and the HTTP replies they send.
 */
module MockData {
  import opened Wrappers
  import opened Json

  /** The three collections of the file; a missing collection reads as `[]`. */
  datatype Db = Db(hotels: seq<Record>, bookings: seq<Record>, users: seq<Record>)

  /** A route's reply: status code, JSON body and an optional `Set-Cookie` header. */
  datatype Reply = Reply(status: int, body: Json, setCookie: Option<string>)

  /** `NextResponse.json({ message }, { status })`. */
  function Message(status: int, message: string): (r: Reply)
    ensures r.status == status && r.setCookie.None?
    ensures r.body == JObject(map["message" := JStr(message)])
  {
    Reply(status, JObject(map["message" := JStr(message)]), None)
  }

  /** The data file together with the `.bak` copy a write leaves beside it. */
  class JsonFile {
    var data: Db
    var backup: Option<Db>

    constructor (initial: Db)
      ensures data == initial && backup.None?
    {
      data := initial;
      backup := None;
    }

    /** Write the previous contents to the `.bak` file, then the new contents to the data file. */
    method Commit(next: Db)
      modifies this
      ensures backup == Some(old(data))
      ensures data == next
    {
      backup := Some(data);
      data := next;
    }
  }
}
