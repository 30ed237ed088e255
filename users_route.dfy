/** `POST /api/users` (`app/api/users/route.ts`). */
module UsersRoute {
  import opened Wrappers
  import opened Strings
  import opened Json
  import opened MockData

  /** The generated id `user_<ms>`. */
  function UserId(nowMs: nat): string
  {
    "user_" + NatToString(nowMs)
  }

  /** `user_` followed by the decimal digits of the clock reading. */
  lemma UserIdDigits(nowMs: nat)
    ensures var id := UserId(nowMs);
      |id| > 5 && id[..5] == "user_" && (forall i :: 5 <= i < |id| ==> '0' <= id[i] <= '9')
      && DigitsValue(id[5..]) == nowMs
  {
    var digits := NatToString(nowMs);
    assert ("user_" + digits)[5..] == digits;
  }

  /** Two different clock readings give two different ids. */
  lemma UserIdInjective(m: nat, n: nat)
    requires UserId(m) == UserId(n)
    ensures m == n
  {
    UserIdDigits(m);
    UserIdDigits(n);
  }


  /** The fields copied from the body, each falling back to its default when the body's value is falsy. */
  const BodyKeys: set<string> := {"fullName", "email", "phone", "username", "password", "role", "gender",
                                  "age", "birthday", "idCard", "twoFactorEnabled", "status"}

  /** The default of each field of `BodyKeys`. */
  function UserDefault(k: string): Json
  {
    if k == "role" then JStr("client")
    else if k == "age" then JNum(0)
    else if k == "idCard" then JStr("000000000000")
    else if k == "twoFactorEnabled" then JBool(false)
    else if k == "status" then JStr("active")
    else JStr("")
  }

  /** The fields of `BodyKeys`, each from the body or its default. */
  function BodyFields(body: Record): (f: Record)
    ensures f.Keys == BodyKeys
    ensures forall k :: k in BodyKeys ==> f[k] == Or(Get(body, k), UserDefault(k))
  {
    map k | k in BodyKeys :: Or(Get(body, k), UserDefault(k))
  }

  /** The generated fields and `address` are not among `BodyKeys`. */
  lemma GeneratedKeysApart()
    ensures "_id" !in BodyKeys && "createdAt" !in BodyKeys && "address" !in BodyKeys
  {
  }

  /**
   * The stored user: the generated `id` as `_id`, a `createdAt`, the fields of
   * `BodyKeys`, and `address` only when the body has one; every other field
   * of the body (its `_id` included) is dropped.
   */
  function NewUserRecord(body: Record, id: string, isoNow: string): (r: Record)
    ensures r.Keys == BodyKeys + {"_id", "createdAt"} + (if "address" in body then {"address"} else {})
    ensures r["_id"] == JStr(id) && r["createdAt"] == JStr(isoNow)
    ensures "address" in body ==> r["address"] == body["address"]
  {
    GeneratedKeysApart();
    var stamped := BodyFields(body)["_id" := JStr(id)]["createdAt" := JStr(isoNow)];
    if "address" in body then stamped["address" := body["address"]] else stamped
  }

  /** Each field of `BodyKeys` is the body's value when truthy, else its default. */
  lemma NewUserRecordFields(body: Record, id: string, isoNow: string)
    ensures forall k :: k in BodyKeys ==> NewUserRecord(body, id, isoNow)[k] == Or(Get(body, k), UserDefault(k))
  {
    GeneratedKeysApart();
  }

  /** A registration that names a role gets it: nothing stops a caller from creating an admin. */
  lemma PostUserKeepsRequestedRole(body: Record, id: string, isoNow: string)
    requires Get(body, "role") == Some(JStr("admin"))
    ensures NewUserRecord(body, id, isoNow)["role"] == JStr("admin")
  {
    NewUserRecordFields(body, id, isoNow);
    assert "role" in BodyKeys;
  }

  /** A body without the optional fields gets the documented defaults. */
  lemma NewUserDefaults(body: Record, id: string, isoNow: string)
    requires forall k :: k in BodyKeys ==> k !in body
    ensures var r := NewUserRecord(body, id, isoNow);
      r["role"] == JStr("client") && r["status"] == JStr("active") && r["age"] == JNum(0)
      && r["idCard"] == JStr("000000000000") && r["twoFactorEnabled"] == JBool(false)
      && r["email"] == JStr("")
  {
    NewUserRecordFields(body, id, isoNow);
    assert {"role", "status", "age", "idCard", "twoFactorEnabled", "email"} <= BodyKeys;
  }

  /** `POST /api/users`: append the new user, keep a backup, reply `{ success: true, data }`. */
  method PostUser(file: JsonFile, body: Record, nowMs: nat, isoNow: string) returns (reply: Reply)
    modifies file
    ensures file.backup == Some(old(file.data))
    ensures file.data == old(file.data).(users := old(file.data.users) + [NewUserRecord(body, UserId(nowMs), isoNow)])
    ensures reply == Reply(200, JObject(map["success" := JBool(true), "data" := JObject(NewUserRecord(body, UserId(nowMs), isoNow))]), None)
  {
    var created := NewUserRecord(body, UserId(nowMs), isoNow);
    file.Commit(file.data.(users := file.data.users + [created]));
    reply := Reply(200, JObject(map["success" := JBool(true), "data" := JObject(created)]), None);
  }
}
