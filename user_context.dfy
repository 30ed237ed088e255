/** The client-side user store and its provider operations. */
module UserContext {
  import opened Wrappers
  import opened Seqs
  import opened Types

  datatype UserState = UserState(users: seq<User>)

  datatype UserAction =
    | AddUser(user: User)
    | UpdateUser(user: User)
    | DeleteUser(id: string)

  /** `Partial<User>`. */
  datatype UserPatch = UserPatch(
    id: Option<string>,
    fullName: Option<string>,
    gender: Option<string>,
    age: Option<int>,
    birthday: Option<string>,
    idCard: Option<string>,
    email: Option<string>,
    phone: Option<string>,
    username: Option<string>,
    password: Option<string>,
    role: Option<UserRole>,
    twoFactorEnabled: Option<bool>,
    status: Option<UserStatus>,
    createdAt: Option<string>,
    businessLicense: Option<Option<string>>,
    address: Option<Option<string>>,
    businessType: Option<Option<string>>,
    taxCode: Option<Option<string>>)

  const NoUserChanges := UserPatch(None, None, None, None, None, None, None, None, None, None,
                                   None, None, None, None, None, None, None, None)

  /** `{ ...user, ...updates }`. */
  function MergeUser(u: User, p: UserPatch): User
  {
    User(Override(u.id, p.id), Override(u.fullName, p.fullName), Override(u.gender, p.gender),
         Override(u.age, p.age), Override(u.birthday, p.birthday), Override(u.idCard, p.idCard),
         Override(u.email, p.email), Override(u.phone, p.phone), Override(u.username, p.username),
         Override(u.password, p.password), Override(u.role, p.role),
         Override(u.twoFactorEnabled, p.twoFactorEnabled), Override(u.status, p.status),
         Override(u.createdAt, p.createdAt), Override(u.businessLicense, p.businessLicense),
         Override(u.address, p.address), Override(u.businessType, p.businessType),
         Override(u.taxCode, p.taxCode))
  }

  /** An empty updates object leaves the user as it was; merging is idempotent. */
  lemma MergeUserProperties(u: User, p: UserPatch)
    ensures MergeUser(u, NoUserChanges) == u
    ensures MergeUser(MergeUser(u, p), p) == MergeUser(u, p)
  {
  }

  /** `users.map(u => u._id === updated._id ? updated : u)`. */
  function ReplaceUser(users: seq<User>, updated: User): (r: seq<User>)
    ensures |r| == |users|
    ensures forall i :: 0 <= i < |r| ==> r[i].id == users[i].id
    ensures forall i :: 0 <= i < |r| && users[i].id != updated.id ==> r[i] == users[i]
    ensures forall i :: 0 <= i < |r| && users[i].id == updated.id ==> r[i] == updated
  {
    seq(|users|, i requires 0 <= i < |users| => if users[i].id == updated.id then updated else users[i])
  }

  /** `userReducer`. */
  function Reduce(s: UserState, a: UserAction): UserState
  {
    match a
    case AddUser(u) => UserState(s.users + [u])
    case UpdateUser(u) => UserState(ReplaceUser(s.users, u))
    case DeleteUser(id) => UserState(Filter(s.users, (u: User) => u.id != id))
  }

  /** `ADD_USER` appends exactly one user; `DELETE_USER` removes every user with the id, keeping the rest in order. */
  lemma ReduceAddDeleteUser(s: UserState, u: User, id: string)
    ensures Reduce(s, AddUser(u)).users == s.users + [u]
    ensures IsSubseq(Reduce(s, DeleteUser(id)).users, s.users)
    ensures forall x :: x in Reduce(s, DeleteUser(id)).users <==> x in s.users && x.id != id
  {
  }

  /** `getUserById`: the first user with the id. */
  function UserById(s: UserState, id: string): (r: Option<User>)
    ensures r.None? <==> forall u :: u in s.users ==> u.id != id
    ensures r.Some? ==> exists i :: (0 <= i < |s.users| && s.users[i] == r.value && r.value.id == id
      && forall j :: 0 <= j < i ==> s.users[j].id != id)
  {
    Find(s.users, (u: User) => u.id == id)
  }

  /** The `UserProvider` component. */
  class UserProvider {
    var state: UserState

    constructor (mockUsers: seq<User>)
      ensures state == UserState(mockUsers)
    {
      state := UserState(mockUsers);
    }

    method AddUser(u: User)
      modifies this
      ensures state.users == old(state.users) + [u]
    {
      state := Reduce(state, UserAction.AddUser(u));
    }

    /** `updateUser`: merge into the first user with the id; an unknown id changes nothing. */
    method UpdateUser(id: string, updates: UserPatch)
      modifies this
      ensures UserById(old(state), id).None? ==> state == old(state)
      ensures UserById(old(state), id).Some? ==>
        state == Reduce(old(state), UserAction.UpdateUser(MergeUser(UserById(old(state), id).value, updates)))
    {
      var found := UserById(state, id);
      if found.Some? {
        state := Reduce(state, UserAction.UpdateUser(MergeUser(found.value, updates)));
      }
    }

    method DeleteUser(id: string)
      modifies this
      ensures state == Reduce(old(state), UserAction.DeleteUser(id))
    {
      state := Reduce(state, UserAction.DeleteUser(id));
    }
  }
}
