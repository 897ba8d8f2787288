/** The web handlers, reduced to what they do to the records: sign-up,
    log-in, the dashboard's owner filter, adding a client, saving the relay
    settings, and the relay test send.

    The handlers act for the logged-in user `uid`; routing, templates,
    redirects and the session cookie are not modelled. */
module App {
  import opened Wrappers
  import opened Cipher
  import opened Models
  import opened Emailer

  const TEST_SUCCESS_REPLY := "Test email sent successfully. SMTP verified."
  const TEST_FAILURE_PREFIX := "Test email failed: "

  // ---------------- log-in and dashboard ----------------

  /** Log-in: the first user registered with `email`, provided the password
      check (the hashing library, passed in) accepts `password` against that
      user's stored hash. */
  function Login(users: seq<User>, email: string, password: string, checkPassword: (string, string) -> bool): (r: Option<UserId>)
    ensures r.Some? ==>
      exists j :: 0 <= j < |users| && users[j].id == r.value && users[j].email == email
        && checkPassword(users[j].passwordHash, password)
  {
    match EmailIndex(users, email)
    case None => None
    case Some(k) => if checkPassword(users[k].passwordHash, password) then Some(users[k].id) else None
  }

  /** Since e-mails are unique, log-in succeeds exactly when some user has the
      submitted e-mail and the password check passes for that user. */
  lemma LoginIff(users: seq<User>, email: string, password: string, checkPassword: (string, string) -> bool)
    requires UniqueEmails(users)
    ensures Login(users, email, password, checkPassword).Some? <==>
      exists j :: 0 <= j < |users| && users[j].email == email && checkPassword(users[j].passwordHash, password)
  {
    if j :| 0 <= j < |users| && users[j].email == email && checkPassword(users[j].passwordHash, password) {
      var k := EmailIndex(users, email).value;
      assert users[k].email == users[j].email;
    }
  }

  /** The clients listed on the dashboard of user `owner`, in table order. */
  function Dashboard(clients: seq<Client>, owner: UserId): (r: seq<Client>)
    ensures forall c :: c in r <==> c in clients && c.userId == owner
    ensures |r| <= |clients|
  {
    if clients == [] then []
    else
      var n := |clients| - 1;
      Dashboard(clients[..n], owner) + if clients[n].userId == owner then [clients[n]] else []
  }

  // ---------------- relay settings and the verified flag ----------------

  /** The relay settings form as submitted. A missing field is `None`;
      `smtpPort` is `None` also when the submitted text is not an integer. */
  datatype SettingsForm = SettingsForm(
    smtpEmail: Option<string>,
    smtpHost: Option<string>,
    smtpPort: Option<int>,
    smtpTls: Option<string>,
    smtpPassword: Option<string>)

  /** Why saving the settings raised: the port did not parse, or there was no
      password to encrypt. Nothing is stored then. */
  datatype SettingsError = InvalidPort | MissingPassword

  /** The user record after saving the relay settings form. */
  function ApplySettings(u: User, form: SettingsForm, key: Key): (r: Result<User, SettingsError>)
    ensures form.smtpPort.None? ==> r == Failure(InvalidPort)
    ensures form.smtpPort.Some? && form.smtpPassword.None? ==> r == Failure(MissingPassword)
    ensures r.Success? <==> form.smtpPort.Some? && form.smtpPassword.Some?
    ensures r.Success? ==>
      && !r.value.smtpVerified
      && (r.value.smtpTls <==> form.smtpTls.Some? && form.smtpTls.value != "")
      && Decrypt(key, r.value.smtpPassword) == Success(form.smtpPassword.value)
      && r.value.smtpEmail == form.smtpEmail && r.value.smtpHost == form.smtpHost
      && r.value.smtpPort == form.smtpPort
      && r.value.id == u.id && r.value.email == u.email && r.value.passwordHash == u.passwordHash
  {
    if form.smtpPort.None? then Failure(InvalidPort)
    else if form.smtpPassword.None? then Failure(MissingPassword)
    else Success(u.(
      smtpEmail := form.smtpEmail,
      smtpHost := form.smtpHost,
      smtpPort := form.smtpPort,
      smtpTls := form.smtpTls.Some? && form.smtpTls.value != "",
      smtpPassword := Some(Encrypt(key, form.smtpPassword.value)),
      smtpVerified := false))
  }

  /** How the relay test send of user `u` ends. */
  function TestOutcome(key: Key, u: User, net: Network): Outcome {
    Transcript(key, u, TestMessage(u), net).1
  }

  /** The two requests that touch a user's relay state. */
  datatype RelayEvent =
    | SaveSettings(form: SettingsForm, key: Key)
    | TestSend(key: Key, net: Network)

  /** The user record after one relay request. */
  function RelayStep(u: User, e: RelayEvent): (v: User)
    ensures v.id == u.id && v.email == u.email && v.passwordHash == u.passwordHash
  {
    match e
    case SaveSettings(form, key) =>
      (match ApplySettings(u, form, key)
       case Success(saved) => saved
       case Failure(_) => u)
    case TestSend(key, net) =>
      if TestOutcome(key, u, net) == Sent then u.(smtpVerified := true) else u
  }

  /** The user record after a sequence of relay requests. */
  function Replay(u: User, es: seq<RelayEvent>): User {
    if es == [] then u else RelayStep(Replay(u, es[..|es| - 1]), es[|es| - 1])
  }

  /** `e` is a settings save that was stored. */
  predicate Saved(u: User, e: RelayEvent) {
    e.SaveSettings? && ApplySettings(u, e.form, e.key).Success?
  }

  /** `e` is a test send that went through. */
  predicate Confirmed(u: User, e: RelayEvent) {
    e.TestSend? && TestOutcome(e.key, u, e.net) == Sent
  }

  /** No request of `es` from position `from` on stores new settings. */
  predicate NoSaveFrom(u: User, es: seq<RelayEvent>, from: nat) {
    forall j :: from <= j < |es| ==> !Saved(Replay(u, es[..j]), es[j])
  }

  /** Request `i` of `es` is a test send that went through, and no settings
      were stored after it. */
  predicate ConfirmedSinceSave(u: User, es: seq<RelayEvent>, i: nat)
    requires i < |es|
  {
    Confirmed(Replay(u, es[..i]), es[i]) && NoSaveFrom(u, es, i + 1)
  }

  /** The relay is verified exactly when a test send has gone through since
      the settings were last stored (or it was verified to begin with and no
      settings have been stored since). */
  lemma {:induction false} VerifiedIffConfirmedSinceLastSave(u: User, es: seq<RelayEvent>)
    ensures Replay(u, es).smtpVerified <==>
      || (u.smtpVerified && NoSaveFrom(u, es, 0))
      || exists i :: 0 <= i < |es| && ConfirmedSinceSave(u, es, i)
  {
    if es != [] {
      var n := |es| - 1;
      var p := es[..n];
      var e := es[n];
      assert es == p + [e];
      var before := Replay(u, p);
      VerifiedIffConfirmedSinceLastSave(u, p);
      NoSaveFromExtend(u, p, e, 0);
      forall i | 0 <= i < n
        ensures ConfirmedSinceSave(u, es, i) <==> ConfirmedSinceSave(u, p, i) && !Saved(before, e)
      {
        assert es[..i] == p[..i];
        NoSaveFromExtend(u, p, e, i + 1);
      }
      assert ConfirmedSinceSave(u, es, n) <==> Confirmed(before, e);
      StepVerified(before, e);
      if !Saved(before, e) && !Confirmed(before, e) {
        if i :| 0 <= i < |p| && ConfirmedSinceSave(u, p, i) {
          assert ConfirmedSinceSave(u, es, i);
        }
      }
    }
  }

  /** One request: a stored save clears the flag, a test send that went
      through sets it, anything else leaves it as it was. */
  lemma StepVerified(u: User, e: RelayEvent)
    ensures RelayStep(u, e).smtpVerified <==> Confirmed(u, e) || (!Saved(u, e) && u.smtpVerified)
  {
  }

  /** Appending a request that stores nothing keeps every "no save from here
      on" fact; appending one that stores settings breaks all of them. */
  lemma NoSaveFromExtend(u: User, p: seq<RelayEvent>, e: RelayEvent, from: nat)
    requires from <= |p|
    ensures NoSaveFrom(u, p + [e], from) <==> NoSaveFrom(u, p, from) && !Saved(Replay(u, p), e)
  {
    var es := p + [e];
    assert es[..|p|] == p;
    forall j | from <= j < |p|
      ensures es[..j] == p[..j] && es[j] == p[j]
    {
    }
    if !NoSaveFrom(u, p, from) {
      var j :| from <= j < |p| && Saved(Replay(u, p[..j]), p[j]);
      assert Saved(Replay(u, es[..j]), es[j]);
    }
    if Saved(Replay(u, p), e) {
      assert Saved(Replay(u, es[..|p|]), es[|p|]);
    }
  }

  /** A user who signed up has a verified relay only once a test send has gone
      through since the settings were last stored. */
  lemma NewUserVerifiedOnlyByTest(id: UserId, email: string, passwordHash: string, es: seq<RelayEvent>)
    ensures var u := NewUser(id, email, passwordHash);
      Replay(u, es).smtpVerified <==> exists i :: 0 <= i < |es| && ConfirmedSinceSave(u, es, i)
  {
    VerifiedIffConfirmedSinceLastSave(NewUser(id, email, passwordHash), es);
  }

  /** The text the test handler answers with. */
  function TestReply(outcome: Outcome): string {
    match outcome
    case Sent => TEST_SUCCESS_REPLY
    case Failed(text) => TEST_FAILURE_PREFIX + text
  }

  /** The reply tells success from failure, and a failure's reply gives its
      error text back. */
  lemma TestReplyReportsOutcome(a: Outcome, b: Outcome)
    ensures TestReply(a) == TestReply(b) <==> a == b
  {
    if a.Sent? && b.Failed? {
      assert TestReply(a)[12] != TestReply(b)[12];
    } else if a.Failed? && b.Sent? {
      assert TestReply(a)[12] != TestReply(b)[12];
    } else if a.Failed? && b.Failed? && TestReply(a) == TestReply(b) {
      var n := |TEST_FAILURE_PREFIX|;
      assert a.message == TestReply(a)[n..];
      assert b.message == TestReply(b)[n..];
    }
  }

  // ---------------- handlers ----------------

  datatype SignupError = DuplicateEmail

  /** Sign-up: insert a user with the given (already hashed) password. The
      unique constraint on the e-mail rejects a second account. */
  method Signup(db: Store, email: string, passwordHash: string) returns (r: Result<UserId, SignupError>)
    requires db.Valid()
    modifies db
    ensures db.Valid() && db.clients == old(db.clients)
    ensures EmailIndex(old(db.users), email).Some? ==> r == Failure(DuplicateEmail) && db.users == old(db.users)
    ensures EmailIndex(old(db.users), email).None? ==>
      && r.Success? && !HasUser(old(db.users), r.value)
      && db.users == old(db.users) + [NewUser(r.value, email, passwordHash)]
  {
    if EmailIndex(db.users, email).Some? {
      return Failure(DuplicateEmail);
    }
    ghost var users0 := db.users;
    var id := NextId(UserIds(db.users));
    assert forall j :: 0 <= j < |db.users| ==> UserIds(db.users)[j] == db.users[j].id;
    db.users := db.users + [NewUser(id, email, passwordHash)];
    r := Success(id);
    assert forall i :: 0 <= i < |db.clients| ==> HasUser(db.users, db.clients[i].userId) by {
      forall i | 0 <= i < |db.clients| ensures HasUser(db.users, db.clients[i].userId) {
        assert HasUser(users0, db.clients[i].userId);
        var j :| 0 <= j < |users0| && users0[j].id == db.clients[i].userId;
        assert db.users[j] == users0[j];
      }
    }
  }

  /** Add a client for the logged-in user `uid`. */
  method AddClient(db: Store, uid: UserId, name: string, email: string, date: Date) returns (id: ClientId)
    requires db.Valid() && HasUser(db.users, uid)
    modifies db
    ensures db.Valid() && db.users == old(db.users)
    ensures forall j :: 0 <= j < |old(db.clients)| ==> old(db.clients)[j].id != id
    ensures db.clients == old(db.clients) + [NewClient(id, uid, name, email, date)]
    ensures Dashboard(db.clients, uid) == Dashboard(old(db.clients), uid) + [NewClient(id, uid, name, email, date)]
    ensures forall other :: other != uid ==> Dashboard(db.clients, other) == Dashboard(old(db.clients), other)
  {
    id := NextId(ClientIds(db.clients));
    assert forall j :: 0 <= j < |db.clients| ==> ClientIds(db.clients)[j] == db.clients[j].id;
    var client := NewClient(id, uid, name, email, date);
    ghost var before := db.clients;
    db.clients := db.clients + [client];
    assert db.clients[..|before|] == before;
  }

  /** Save the relay settings form of the logged-in user `uid`. */
  method EmailSettings(db: Store, uid: UserId, form: SettingsForm, key: Key) returns (r: Result<User, SettingsError>)
    requires db.Valid() && HasUser(db.users, uid)
    modifies db
    ensures db.Valid() && db.clients == old(db.clients)
    ensures UserIndex(old(db.users), uid).Some?
    ensures var k := UserIndex(old(db.users), uid).value;
      && r == ApplySettings(old(db.users)[k], form, key)
      && db.users == old(db.users)[k := RelayStep(old(db.users)[k], SaveSettings(form, key))]
  {
    var k := UserIndex(db.users, uid).value;
    r := ApplySettings(db.users[k], form, key);
    if r.Success? {
      ReplaceUserKeepsConsistent(db.users, db.clients, k, r.value);
      db.users := db.users[k := r.value];
    }
  }

  /** Send the relay test message of the logged-in user `uid`; only a send
      that goes through marks the relay verified. */
  method TestEmail(db: Store, uid: UserId, key: Key, net: Network) returns (reply: string)
    requires db.Valid() && HasUser(db.users, uid)
    modifies db
    ensures db.Valid() && db.clients == old(db.clients)
    ensures UserIndex(old(db.users), uid).Some?
    ensures var k := UserIndex(old(db.users), uid).value;
      && reply == TestReply(TestOutcome(key, old(db.users)[k], net))
      && db.users == old(db.users)[k := RelayStep(old(db.users)[k], TestSend(key, net))]
  {
    var k := UserIndex(db.users, uid).value;
    var u := db.users[k];
    var _, outcome := SendTestEmail(key, u, net);
    if outcome == Sent {
      ReplaceUserKeepsConsistent(db.users, db.clients, k, u.(smtpVerified := true));
      db.users := db.users[k := u.(smtpVerified := true)];
    }
    reply := TestReply(outcome);
  }
}
