/** The two persisted record types, their defaults, and the store that holds
    them with its integrity constraints (primary keys, the unique login
    e-mail, and the client-to-owner foreign key). */
module Models {
  import opened Wrappers
  import opened Cipher

  type UserId = int
  type ClientId = int
  /** A calendar date; the core only compares dates for equality. */
  type Date = int
  /** An instant read from the UTC clock. */
  type Timestamp = int

  /** An account. The `smtp*` relay fields are NULL until the settings form is
      first saved; `smtpTls` defaults to true and `smtpVerified` to false. */
  datatype User = User(
    id: UserId,
    email: string,
    passwordHash: string,
    smtpEmail: Option<string>,
    smtpHost: Option<string>,
    smtpPort: Option<int>,
    smtpPassword: Option<Token>,
    smtpTls: bool,
    smtpVerified: bool)

  /** A contact of one user, with the state of its single follow-up e-mail.
      `sentAt` and `lastError` stay NULL until the scheduler writes them. */
  datatype Client = Client(
    id: ClientId,
    userId: UserId,
    name: string,
    email: string,
    followupDate: Date,
    sent: bool,
    sentAt: Option<Timestamp>,
    attemptCount: int,
    lastError: Option<string>)

  /** A user row as inserted at sign-up: only the column defaults apply. */
  function NewUser(id: UserId, email: string, passwordHash: string): User {
    User(id, email, passwordHash, None, None, None, None, true, false)
  }

  /** A client row as inserted by the add form: only the column defaults apply. */
  function NewClient(id: ClientId, owner: UserId, name: string, email: string, date: Date): Client {
    Client(id, owner, name, email, date, false, None, 0, None)
  }

  predicate HasUser(users: seq<User>, id: UserId) {
    exists j :: 0 <= j < |users| && users[j].id == id
  }

  predicate UniqueUserIds(users: seq<User>) {
    forall i, j :: 0 <= i < j < |users| ==> users[i].id != users[j].id
  }

  predicate UniqueEmails(users: seq<User>) {
    forall i, j :: 0 <= i < j < |users| ==> users[i].email != users[j].email
  }

  predicate UniqueClientIds(clients: seq<Client>) {
    forall i, j :: 0 <= i < j < |clients| ==> clients[i].id != clients[j].id
  }

  /** The store's integrity constraints. */
  predicate Consistent(users: seq<User>, clients: seq<Client>) {
    && UniqueUserIds(users)
    && UniqueEmails(users)
    && UniqueClientIds(clients)
    && forall i :: 0 <= i < |clients| ==> HasUser(users, clients[i].userId)
  }

  /** Where the user with primary key `id` is stored, if anywhere. */
  function UserIndex(users: seq<User>, id: UserId): (r: Option<nat>)
    ensures r.Some? ==> r.value < |users| && users[r.value].id == id
    ensures r.None? <==> !HasUser(users, id)
  {
    if users == [] then None
    else if users[0].id == id then Some(0)
    else match UserIndex(users[1..], id)
      case None => None
      case Some(k) => Some(k + 1)
  }

  /** The first user whose login e-mail is `email`, if any. */
  function EmailIndex(users: seq<User>, email: string): (r: Option<nat>)
    ensures r.Some? ==> r.value < |users| && users[r.value].email == email
    ensures r.Some? ==> forall j :: 0 <= j < r.value ==> users[j].email != email
    ensures r.None? ==> forall j :: 0 <= j < |users| ==> users[j].email != email
  {
    if users == [] then None
    else if users[0].email == email then Some(0)
    else match EmailIndex(users[1..], email)
      case None => None
      case Some(k) => Some(k + 1)
  }

  /** The next value of an autoincrement primary key: above every key in use. */
  function NextId(ids: seq<int>): (id: int)
    ensures forall j :: 0 <= j < |ids| ==> ids[j] < id
  {
    if ids == [] then 1
    else
      var rest := NextId(ids[1..]);
      if ids[0] < rest then rest else ids[0] + 1
  }

  /** The primary-key column of the user table. */
  function UserIds(users: seq<User>): seq<UserId> {
    seq(|users|, j requires 0 <= j < |users| => users[j].id)
  }

  /** The primary-key column of the client table. */
  function ClientIds(clients: seq<Client>): seq<ClientId> {
    seq(|clients|, j requires 0 <= j < |clients| => clients[j].id)
  }

  /** Replacing a user by a record with the same keys keeps the constraints. */
  lemma ReplaceUserKeepsConsistent(users: seq<User>, clients: seq<Client>, k: nat, v: User)
    requires Consistent(users, clients)
    requires k < |users| && v.id == users[k].id && v.email == users[k].email
    ensures Consistent(users[k := v], clients)
  {
    var users' := users[k := v];
    forall i | 0 <= i < |clients|
      ensures HasUser(users', clients[i].userId)
    {
      var j :| 0 <= j < |users| && users[j].id == clients[i].userId;
      assert users'[j].id == clients[i].userId;
    }
  }

  /** The database: the user table and the client table. Handlers and the
      scheduler change rows in place, so the tables are fields that they
      reassign. */
  class Store {
    var users: seq<User>
    var clients: seq<Client>

    ghost predicate Valid()
      reads this
    {
      Consistent(users, clients)
    }

    constructor ()
      ensures Valid() && users == [] && clients == []
    {
      users := [];
      clients := [];
    }
  }
}
