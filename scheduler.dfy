/** The daily follow-up job: select the clients due today and send each one
    its follow-up, recording the outcome client by client.

    The clock is a parameter: `today` is the date read once when the job
    starts, and `clock(i)` the instant read when client `i` (its position in
    the client table) is marked sent. */
module Scheduler {
  import opened Wrappers
  import opened Cipher
  import opened Models
  import opened Emailer

  /** The owner of client `c` exists and has a verified relay. */
  predicate OwnerVerified(users: seq<User>, c: Client) {
    match UserIndex(users, c.userId)
    case Some(k) => users[k].smtpVerified
    case None => false
  }

  /** The selection criterion of the job: follow-up due today, not yet sent,
      owner's relay verified. */
  predicate Due(c: Client, users: seq<User>, today: Date) {
    c.followupDate == today && !c.sent && OwnerVerified(users, c)
  }

  /** The owner record of a due client. */
  function Owner(users: seq<User>, c: Client, today: Date): (u: User)
    requires Due(c, users, today)
    ensures u in users && u.id == c.userId && u.smtpVerified
  {
    users[UserIndex(users, c.userId).value]
  }

  /** With unique user ids, a client is due exactly when its date is today,
      it is unsent, and some user with its `userId` has a verified relay:
      the join of the selection query. */
  lemma DueIff(c: Client, users: seq<User>, today: Date)
    requires UniqueUserIds(users)
    ensures Due(c, users, today) <==>
      && c.followupDate == today
      && !c.sent
      && exists j :: 0 <= j < |users| && users[j].id == c.userId && users[j].smtpVerified
  {
    if j :| 0 <= j < |users| && users[j].id == c.userId && users[j].smtpVerified {
      var k := UserIndex(users, c.userId).value;
      assert users[k].id == users[j].id;
    }
  }

  /** Positions, in table order, of the clients the job selects. */
  function Selected(clients: seq<Client>, users: seq<User>, today: Date): (r: seq<nat>)
    ensures forall k :: 0 <= k < |r| ==> r[k] < |clients|
    ensures forall j, k :: 0 <= j < k < |r| ==> r[j] < r[k]
    ensures forall i: nat :: i in r <==> i < |clients| && Due(clients[i], users, today)
    ensures forall k :: 0 <= k < |r| ==> Due(clients[r[k]], users, today)
  {
    if clients == [] then []
    else
      var n := |clients| - 1;
      Selected(clients[..n], users, today) + if Due(clients[n], users, today) then [n] else []
  }

  /** The relay session of due client `c`'s follow-up over its own network,
      and how it ends. */
  function FollowupSession(c: Client, users: seq<User>, today: Date, key: Key, net: Network): (seq<SmtpCommand>, Outcome)
    requires Due(c, users, today)
  {
    var u := Owner(users, c, today);
    Transcript(key, u, FollowupMessage(u, c), net)
  }

  /** How the follow-up of due client `c` ends. */
  function FollowupOutcome(c: Client, users: seq<User>, today: Date, key: Key, net: Network): Outcome
    requires Due(c, users, today)
  {
    FollowupSession(c, users, today, key, net).1
  }

  /** The record of one attempt: a sent follow-up is flagged and stamped, a
      failed one counts the attempt and keeps the error text. */
  function Record(c: Client, outcome: Outcome, at: Timestamp): (r: Client)
    ensures r.id == c.id && r.userId == c.userId && r.name == c.name
    ensures r.email == c.email && r.followupDate == c.followupDate
    ensures outcome == Sent ==>
      && r.sent && r.sentAt == Some(at)
      && r.attemptCount == c.attemptCount && r.lastError == c.lastError
    ensures outcome.Failed? ==>
      && r.sent == c.sent && r.sentAt == c.sentAt
      && r.attemptCount == c.attemptCount + 1 && r.lastError == Some(outcome.message)
  {
    match outcome
    case Sent => c.(sent := true, sentAt := Some(at))
    case Failed(text) => c.(attemptCount := c.attemptCount + 1, lastError := Some(text))
  }

  /** Client `c` after the job: attempted if due, untouched otherwise. */
  function Settle(c: Client, users: seq<User>, today: Date, at: Timestamp, key: Key, net: Network): Client {
    if Due(c, users, today) then Record(c, FollowupOutcome(c, users, today, key, net), at) else c
  }

  /** The client table after one run of the job. */
  function AfterPass(clients: seq<Client>, users: seq<User>, today: Date, clock: nat -> Timestamp, key: Key, nets: nat -> Network): (r: seq<Client>)
    ensures |r| == |clients|
    ensures forall i :: 0 <= i < |clients| ==> r[i] == Settle(clients[i], users, today, clock(i), key, nets(i))
  {
    if clients == [] then []
    else
      var n := |clients| - 1;
      AfterPass(clients[..n], users, today, clock, key, nets) + [Settle(clients[n], users, today, clock(n), key, nets(n))]
  }

  /** Run the job over the store. Returns the positions attempted, in order,
      and the relay session of each attempt. */
  method RunScheduler(db: Store, today: Date, clock: nat -> Timestamp, key: Key, nets: nat -> Network)
      returns (attempted: seq<nat>, sessions: seq<seq<SmtpCommand>>)
    requires db.Valid()
    modifies db`clients
    ensures db.Valid()
    ensures attempted == Selected(old(db.clients), db.users, today)
    ensures |sessions| == |attempted|
    ensures forall k :: 0 <= k < |attempted| ==>
      sessions[k] == FollowupSession(old(db.clients)[attempted[k]], db.users, today, key, nets(attempted[k])).0
    ensures db.clients == AfterPass(old(db.clients), db.users, today, clock, key, nets)
    ensures forall i :: 0 <= i < |db.clients| && i !in attempted ==> db.clients[i] == old(db.clients[i])
  {
    attempted := Selected(db.clients, db.users, today);
    ghost var before := db.clients;
    sessions := SendEach(db, attempted, today, clock, key, nets);
    assert db.clients == AfterPass(before, db.users, today, clock, key, nets);
    PassKeepsConsistent(before, db.clients, db.users);
  }

  /** The loop of the job over the selected positions `due`, in order; client
      `i` is sent through network `nets(i)` and stamped at `clock(i)`. */
  method SendEach(db: Store, due: seq<nat>, today: Date, clock: nat -> Timestamp, key: Key, nets: nat -> Network)
      returns (sessions: seq<seq<SmtpCommand>>)
    requires forall k :: 0 <= k < |due| ==> due[k] < |db.clients| && Due(db.clients[due[k]], db.users, today)
    requires forall j, k :: 0 <= j < k < |due| ==> due[j] < due[k]
    modifies db`clients
    ensures |sessions| == |due|
    ensures forall k :: 0 <= k < |due| ==>
      sessions[k] == FollowupSession(old(db.clients)[due[k]], db.users, today, key, nets(due[k])).0
    ensures |db.clients| == |old(db.clients)|
    ensures forall i :: 0 <= i < |db.clients| ==>
      db.clients[i] == if i in due then Settle(old(db.clients[i]), db.users, today, clock(i), key, nets(i)) else old(db.clients[i])
  {
    ghost var before := db.clients;
    sessions := [];
    var k := 0;
    while k < |due|
      invariant 0 <= k <= |due|
      invariant |db.clients| == |before|
      invariant |sessions| == k
      invariant forall j :: 0 <= j < k ==>
        sessions[j] == FollowupSession(before[due[j]], db.users, today, key, nets(due[j])).0
      invariant forall i :: 0 <= i < |before| ==>
        db.clients[i] == if i in due[..k] then Settle(before[i], db.users, today, clock(i), key, nets(i)) else before[i]
    {
      var i := due[k];
      assert i !in due[..k];
      assert due[..k + 1] == due[..k] + [i];
      var owner := Owner(db.users, db.clients[i], today);
      var trace, outcome := Attempt(db, i, owner, clock(i), key, nets(i));
      sessions := sessions + [trace];
      k := k + 1;
    }
    assert due[..k] == due;
  }

  /** One iteration of the job: send the follow-up of client `i` through the
      relay of its owner and record how it went. A failure is recorded, not
      raised. */
  method Attempt(db: Store, i: nat, owner: User, at: Timestamp, key: Key, net: Network)
      returns (trace: seq<SmtpCommand>, outcome: Outcome)
    requires i < |db.clients|
    modifies db`clients
    ensures (trace, outcome) == Transcript(key, owner, FollowupMessage(owner, old(db.clients[i])), net)
    ensures db.clients == old(db.clients)[i := Record(old(db.clients[i]), outcome, at)]
  {
    var c := db.clients[i];
    trace, outcome := SendFollowup(key, owner, c, net);
    db.clients := db.clients[i := Record(c, outcome, at)];
  }

  /** The job changes no key, so the store's constraints still hold after it. */
  lemma PassKeepsConsistent(before: seq<Client>, after: seq<Client>, users: seq<User>)
    requires Consistent(users, before) && |after| == |before|
    requires forall i :: 0 <= i < |before| ==> after[i].id == before[i].id && after[i].userId == before[i].userId
    ensures Consistent(users, after)
  {
    assert forall i :: 0 <= i < |after| ==> HasUser(users, after[i].userId) by {
      forall i | 0 <= i < |after| ensures HasUser(users, after[i].userId) {
        assert HasUser(users, before[i].userId);
      }
    }
  }

  /** Number of due clients whose follow-up fails. */
  function Failures(clients: seq<Client>, users: seq<User>, today: Date, key: Key, nets: nat -> Network): nat {
    if clients == [] then 0
    else
      var n := |clients| - 1;
      var c := clients[n];
      Failures(clients[..n], users, today, key, nets)
        + if Due(c, users, today) && FollowupOutcome(c, users, today, key, nets(n)).Failed? then 1 else 0
  }

  /** Number of clients that went from unsent to sent. */
  function NewlySent(before: seq<Client>, after: seq<Client>): nat
    requires |before| == |after|
  {
    if before == [] then 0
    else
      var n := |before| - 1;
      NewlySent(before[..n], after[..n]) + if !before[n].sent && after[n].sent then 1 else 0
  }

  /** Number of clients whose attempt counter went up by one and that now carry an error text. */
  function Retried(before: seq<Client>, after: seq<Client>): nat
    requires |before| == |after|
  {
    if before == [] then 0
    else
      var n := |before| - 1;
      Retried(before[..n], after[..n])
        + if after[n].attemptCount == before[n].attemptCount + 1 && after[n].lastError.Some? then 1 else 0
  }

  /** With N clients selected and M of their follow-ups failing, the job marks
      exactly N - M clients sent and bumps the attempt counter of exactly M. */
  lemma {:induction false} PassTally(clients: seq<Client>, users: seq<User>, today: Date, clock: nat -> Timestamp, key: Key, nets: nat -> Network)
    ensures var after := AfterPass(clients, users, today, clock, key, nets);
      && NewlySent(clients, after) + Failures(clients, users, today, key, nets) == |Selected(clients, users, today)|
      && Retried(clients, after) == Failures(clients, users, today, key, nets)
  {
    if clients != [] {
      var n := |clients| - 1;
      var after := AfterPass(clients, users, today, clock, key, nets);
      assert after[..n] == AfterPass(clients[..n], users, today, clock, key, nets);
      PassTally(clients[..n], users, today, clock, key, nets);
      SettleTally(clients[n], users, today, clock(n), key, nets(n));
    }
  }

  /** One client's share of the tally: a due client is either newly sent or
      retried, according to its outcome; any other client is neither. */
  lemma SettleTally(c: Client, users: seq<User>, today: Date, at: Timestamp, key: Key, net: Network)
    ensures var a := Settle(c, users, today, at, key, net);
      var failed := Due(c, users, today) && FollowupOutcome(c, users, today, key, net).Failed?;
      && (if !c.sent && a.sent then 1 else 0) + (if failed then 1 else 0) == (if Due(c, users, today) then 1 else 0)
      && (a.attemptCount == c.attemptCount + 1 && a.lastError.Some? <==> failed)
  {
  }

  /** A same-day rerun selects exactly the clients whose follow-up failed:
      a client the job marked sent is never selected again. */
  lemma RerunSelectsFailures(clients: seq<Client>, users: seq<User>, today: Date, clock: nat -> Timestamp, key: Key, nets: nat -> Network, i: nat)
    ensures i in Selected(AfterPass(clients, users, today, clock, key, nets), users, today) <==>
      i in Selected(clients, users, today) && FollowupOutcome(clients[i], users, today, key, nets(i)).Failed?
  {
  }

  /** When no follow-up failed, every due client received one. */
  lemma {:induction false} NoFailuresAllSent(clients: seq<Client>, users: seq<User>, today: Date, key: Key, nets: nat -> Network)
    requires Failures(clients, users, today, key, nets) == 0
    ensures forall i :: 0 <= i < |clients| && Due(clients[i], users, today) ==>
      FollowupOutcome(clients[i], users, today, key, nets(i)) == Sent
  {
    if clients != [] {
      NoFailuresAllSent(clients[..|clients| - 1], users, today, key, nets);
    }
  }

  /** Two tables whose clients are due alike give the same selection. */
  lemma {:induction false} SelectedAlike(a: seq<Client>, b: seq<Client>, users: seq<User>, today: Date)
    requires |a| == |b|
    requires forall i :: 0 <= i < |a| ==> Due(a[i], users, today) == Due(b[i], users, today)
    ensures Selected(a, users, today) == Selected(b, users, today)
  {
    if a != [] {
      var n := |a| - 1;
      SelectedAlike(a[..n], b[..n], users, today);
    }
  }

  lemma {:induction false} NothingDueSelectsNothing(clients: seq<Client>, users: seq<User>, today: Date)
    requires forall i :: 0 <= i < |clients| ==> !Due(clients[i], users, today)
    ensures Selected(clients, users, today) == []
  {
    if clients != [] {
      NothingDueSelectsNothing(clients[..|clients| - 1], users, today);
    }
  }

  /** After a run in which every follow-up went out, a rerun on the same day
      selects nothing: no client is sent its follow-up twice. */
  lemma CleanRerunSelectsNothing(clients: seq<Client>, users: seq<User>, today: Date, clock: nat -> Timestamp, key: Key, nets: nat -> Network)
    requires Failures(clients, users, today, key, nets) == 0
    ensures Selected(AfterPass(clients, users, today, clock, key, nets), users, today) == []
  {
    var after := AfterPass(clients, users, today, clock, key, nets);
    NoFailuresAllSent(clients, users, today, key, nets);
    NothingDueSelectsNothing(after, users, today);
  }

  /** A run touches only clients due on its own date, so it changes nothing
      about which clients any other date selects; in particular a client whose
      follow-up failed is not retried on a later day. */
  lemma OtherDaysUnaffected(clients: seq<Client>, users: seq<User>, today: Date, other: Date, clock: nat -> Timestamp, key: Key, nets: nat -> Network)
    requires other != today
    ensures Selected(AfterPass(clients, users, today, clock, key, nets), users, other) == Selected(clients, users, other)
  {
    SelectedAlike(AfterPass(clients, users, today, clock, key, nets), clients, users, other);
  }
}
