/** The mail sender: composing the test and follow-up messages, and one relay
    session per message.

    The relay is not modelled: a session is the list of commands the sender
    issues (open, optional STARTTLS upgrade, login, send, quit), and a
    `Network` says, for each command, whether it succeeds or raises with some
    error text. A session stops at the first command that raises. */
module Emailer {
  import opened Wrappers
  import opened Cipher
  import opened Models

  /** The port on which the relay speaks TLS from the first byte. */
  const IMPLICIT_TLS_PORT: int := 465
  /** Seconds a relay connection may block. */
  const TIMEOUT_SECONDS: int := 10

  const TEST_SUBJECT := "SMTP Test Successful"
  const TEST_BODY := "Your email settings are working correctly."
  const FOLLOWUP_SUBJECT := "Quick follow-up"

  datatype TlsMode = ImplicitTls | StartTls

  /** A plain-text message; `from` and `to` are NULL when the address column is. */
  datatype Message = Message(from: Option<string>, to: Option<string>, subject: string, body: string)

  datatype SmtpCommand =
    | Open(host: Option<string>, port: Option<int>, mode: TlsMode, timeout: int)
    | UpgradeTls
    | Login(username: Option<string>, password: string)
    | Transmit(msg: Message)
    | Quit

  /** What the relay does with a command: `None` if it succeeds,
      `Some(text)` if it raises an exception whose text is `text`. */
  type Network = SmtpCommand -> Option<string>

  datatype Outcome = Sent | Failed(message: string)

  /** How a value is rendered when interpolated into text (NULL prints as "None"). */
  function Shown(s: Option<string>): string {
    match s
    case Some(t) => t
    case None => "None"
  }

  function ModeFor(port: Option<int>): TlsMode {
    if port == Some(IMPLICIT_TLS_PORT) then ImplicitTls else StartTls
  }

  /** The commands that open an authenticated session as user `u`, with the
      already decrypted `password`: connect, upgrade unless the port is the
      implicit-TLS one, log in. */
  function ConnectPlan(u: User, password: string): seq<SmtpCommand> {
    var mode := ModeFor(u.smtpPort);
    [Open(u.smtpHost, u.smtpPort, mode, TIMEOUT_SECONDS)]
      + (if mode == StartTls then [UpgradeTls] else [])
      + [Login(u.smtpEmail, password)]
  }

  /** The commands of one session that sends `msg`: open it, transmit the
      message, quit. */
  function Plan(u: User, password: string, msg: Message): (p: seq<SmtpCommand>)
    ensures |p| >= 4 && p[0].Open? && p[0].host == u.smtpHost && p[0].port == u.smtpPort
    ensures p[0].timeout == TIMEOUT_SECONDS
    ensures p[0].mode == ImplicitTls <==> u.smtpPort == Some(IMPLICIT_TLS_PORT)
    ensures UpgradeTls in p <==> u.smtpPort != Some(IMPLICIT_TLS_PORT)
    ensures UpgradeTls in p ==> p[1] == UpgradeTls
    ensures p[|p| - 3..] == [Login(u.smtpEmail, password), Transmit(msg), Quit]
    ensures forall k :: 0 <= k < |p| && p[k].Transmit? ==> k == |p| - 2
    ensures forall k :: 0 <= k < |p| && p[k].Open? ==> k == 0
  {
    ConnectPlan(u, password) + [Transmit(msg), Quit]
  }

  /** Issue the commands of `plan` in order until one raises; returns the
      commands issued and how the session ended. */
  function Run(plan: seq<SmtpCommand>, net: Network): (r: (seq<SmtpCommand>, Outcome))
    ensures r.0 <= plan
    ensures r.1 == Sent <==> forall k :: 0 <= k < |plan| ==> net(plan[k]).None?
    ensures r.1 == Sent ==> r.0 == plan
    ensures r.1.Failed? ==> |r.0| > 0 && net(r.0[|r.0| - 1]) == Some(r.1.message)
    ensures forall k :: 0 <= k < |r.0| - 1 ==> net(r.0[k]).None?
  {
    if plan == [] then ([], Sent)
    else match net(plan[0])
      case Some(e) => ([plan[0]], Failed(e))
      case None =>
        var rest := Run(plan[1..], net);
        ([plan[0]] + rest.0, rest.1)
  }

  /** One full send: decrypt the stored password, then run the session. */
  function Transcript(key: Key, u: User, msg: Message, net: Network): (r: (seq<SmtpCommand>, Outcome))
    ensures Decrypt(key, u.smtpPassword).Failure? ==> r.0 == [] && r.1.Failed?
    ensures Decrypt(key, u.smtpPassword).Success? ==> r.0 != [] && r.0 <= Plan(u, Decrypt(key, u.smtpPassword).value, msg)
    ensures r.1 == Sent ==> r.0 == Plan(u, Decrypt(key, u.smtpPassword).value, msg)
  {
    match Decrypt(key, u.smtpPassword)
    case Failure(e) => ([], Failed(ErrorText(e)))
    case Success(password) => Run(Plan(u, password, msg), net)
  }

  /** Decrypt the relay password, then connect, upgrade and log in, step by
      step. `err` is the text of the first error raised, if any. */
  method ConnectSmtp(key: Key, u: User, net: Network) returns (trace: seq<SmtpCommand>, err: Option<string>)
    ensures Decrypt(key, u.smtpPassword).Failure? ==>
      trace == [] && err == Some(ErrorText(Decrypt(key, u.smtpPassword).error))
    ensures Decrypt(key, u.smtpPassword).Success? ==>
      Run(ConnectPlan(u, Decrypt(key, u.smtpPassword).value), net)
        == (trace, if err.Some? then Failed(err.value) else Sent)
  {
    var password := Decrypt(key, u.smtpPassword);
    if password.Failure? {
      return [], Some(ErrorText(password.error));
    }
    // `trace` is the part of the plan issued so far, every command of it
    // having succeeded; Fails and RunAfter say how the plan goes on.
    ghost var plan := ConnectPlan(u, password.value);
    var mode := ModeFor(u.smtpPort);
    var open := Open(u.smtpHost, u.smtpPort, mode, TIMEOUT_SECONDS);
    err := net(open);
    if err.Some? {
      Fails([], plan, net);
      return [open], err;
    }
    trace := [open];
    if mode == StartTls {
      err := net(UpgradeTls);
      if err.Some? {
        Fails(trace, plan[1..], net);
        return trace + [UpgradeTls], err;
      }
      trace := trace + [UpgradeTls];
    }
    var login := Login(u.smtpEmail, password.value);
    assert plan == trace + [login];
    err := net(login);
    if err.Some? {
      Fails(trace, [login], net);
      return trace + [login], err;
    }
    trace := trace + [login];
    RunAfter(trace, [], net);
  }

  /** Open an authenticated session, transmit `msg` over it and quit. */
  method Deliver(key: Key, u: User, msg: Message, net: Network) returns (trace: seq<SmtpCommand>, outcome: Outcome)
    ensures (trace, outcome) == Transcript(key, u, msg, net)
  {
    var err;
    trace, err := ConnectSmtp(key, u, net);
    ghost var password := Decrypt(key, u.smtpPassword);
    if err.Some? {
      if password.Success? {
        RunFailedPrefix(ConnectPlan(u, password.value), [Transmit(msg), Quit], net);
      }
      return trace, Failed(err.value);
    }
    ghost var rest := [Transmit(msg), Quit];
    assert Plan(u, password.value, msg) == trace + rest;
    err := net(Transmit(msg));
    if err.Some? {
      Fails(trace, rest, net);
      return trace + [Transmit(msg)], Failed(err.value);
    }
    assert Plan(u, password.value, msg) == (trace + [Transmit(msg)]) + rest[1..];
    trace := trace + [Transmit(msg)];
    err := net(Quit);
    if err.Some? {
      Fails(trace, rest[1..], net);
      return trace + [Quit], Failed(err.value);
    }
    trace := trace + [Quit];
    RunAfter(trace, [], net);
    outcome := Sent;
  }

  /** A session that fails within `a` fails the same way whatever follows `a`. */
  lemma {:induction false} RunFailedPrefix(a: seq<SmtpCommand>, b: seq<SmtpCommand>, net: Network)
    requires Run(a, net).1.Failed?
    ensures Run(a + b, net) == Run(a, net)
  {
    assert a != [];
    assert (a + b)[0] == a[0] && (a + b)[1..] == a[1..] + b;
    if net(a[0]).None? {
      RunFailedPrefix(a[1..], b, net);
    }
  }

  /** If the commands of `done` succeed and the next one raises, the session
      issues exactly those and fails with that command's error text. */
  lemma Fails(done: seq<SmtpCommand>, rest: seq<SmtpCommand>, net: Network)
    requires forall k :: 0 <= k < |done| ==> net(done[k]).None?
    requires rest != [] && net(rest[0]).Some?
    ensures Run(done + rest, net) == (done + [rest[0]], Failed(net(rest[0]).value))
  {
    RunAfter(done, rest, net);
  }

  /** Running `done + rest`, when every command of `done` succeeds, issues
      `done` and then goes on as running `rest` would. */
  lemma {:induction false} RunAfter(done: seq<SmtpCommand>, rest: seq<SmtpCommand>, net: Network)
    requires forall k :: 0 <= k < |done| ==> net(done[k]).None?
    ensures Run(done + rest, net) == (done + Run(rest, net).0, Run(rest, net).1)
  {
    if done != [] {
      var whole := done + rest;
      assert whole[0] == done[0] && whole[1..] == done[1..] + rest;
      RunAfter(done[1..], rest, net);
      var tail := Run(whole[1..], net);
      assert Run(whole, net) == ([done[0]] + tail.0, tail.1);
      assert [done[0]] + (done[1..] + Run(rest, net).0) == done + Run(rest, net).0;
    } else {
      assert done + rest == rest && done + Run(rest, net).0 == Run(rest, net).0;
    }
  }

  /** The message sent to check the relay settings: from the relay address to itself. */
  function TestMessage(u: User): Message {
    Message(u.smtpEmail, u.smtpEmail, TEST_SUBJECT, TEST_BODY)
  }

  /** The follow-up text: a greeting by name, one fixed line, and a
      signature with the sender's relay address. */
  function FollowupBody(name: string, sender: Option<string>): (body: string)
    ensures "Hi " + name <= body
    ensures var n := |Shown(sender)| + 1; n <= |body| && body[|body| - n..] == Shown(sender) + "\n"
  {
    "Hi " + name + ",\n\nJust following up on my previous message.\n\nBest regards,\n" + Shown(sender) + "\n"
  }

  function FollowupMessage(u: User, c: Client): Message {
    Message(u.smtpEmail, Some(c.email), FOLLOWUP_SUBJECT, FollowupBody(c.name, u.smtpEmail))
  }

  /** Send the relay-check message of user `u`. */
  method SendTestEmail(key: Key, u: User, net: Network) returns (trace: seq<SmtpCommand>, outcome: Outcome)
    ensures (trace, outcome) == Transcript(key, u, TestMessage(u), net)
    ensures forall k :: 0 <= k < |trace| && trace[k].Transmit? ==>
      trace[k].msg.from == u.smtpEmail && trace[k].msg.to == u.smtpEmail && trace[k].msg.subject == TEST_SUBJECT
  {
    var msg := TestMessage(u);
    trace, outcome := Deliver(key, u, msg, net);
    OnlyMessageSent(key, u, msg, net);
  }

  /** Send the follow-up of client `c` through the relay of its owner `u`. */
  method SendFollowup(key: Key, u: User, c: Client, net: Network) returns (trace: seq<SmtpCommand>, outcome: Outcome)
    ensures (trace, outcome) == Transcript(key, u, FollowupMessage(u, c), net)
    ensures forall k :: 0 <= k < |trace| && trace[k].Transmit? ==>
      && trace[k].msg.from == u.smtpEmail && trace[k].msg.to == Some(c.email)
      && trace[k].msg.subject == FOLLOWUP_SUBJECT && "Hi " + c.name <= trace[k].msg.body
  {
    var msg := FollowupMessage(u, c);
    trace, outcome := Deliver(key, u, msg, net);
    OnlyMessageSent(key, u, msg, net);
  }

  /** The only message a session transmits is the one it was asked to send,
      and it transmits it at most once. */
  lemma OnlyMessageSent(key: Key, u: User, msg: Message, net: Network)
    ensures var trace := Transcript(key, u, msg, net).0;
      && (forall k :: 0 <= k < |trace| && trace[k].Transmit? ==> trace[k].msg == msg)
      && (forall j, k :: 0 <= j < k < |trace| ==> !(trace[j].Transmit? && trace[k].Transmit?))
  {
    var trace := Transcript(key, u, msg, net).0;
    if Decrypt(key, u.smtpPassword).Success? {
      var p := Plan(u, Decrypt(key, u.smtpPassword).value, msg);
      assert forall k :: 0 <= k < |trace| ==> trace[k] == p[k];
    }
  }

  /** The connection mode, and the whole session, ignore the `smtpTls` flag. */
  lemma TlsFlagIgnored(key: Key, u: User, flag: bool, msg: Message, net: Network)
    ensures Transcript(key, u.(smtpTls := flag), msg, net) == Transcript(key, u, msg, net)
  {
  }

  /** A session that delivered its message but failed to quit still ends in
      failure, so the caller records the send as failed. */
  lemma {:induction false} QuitFailureHidesDelivery(key: Key, u: User, msg: Message, net: Network)
    requires Decrypt(key, u.smtpPassword).Success?
    requires forall cmd :: cmd != Quit ==> net(cmd).None?
    requires net(Quit).Some?
    ensures var r := Transcript(key, u, msg, net);
      Transmit(msg) in r.0 && r.1 == Failed(net(Quit).value)
  {
    var p := Plan(u, Decrypt(key, u.smtpPassword).value, msg);
    assert net(p[|p| - 1]).Some?;
    var r := Transcript(key, u, msg, net);
    assert r.1.Failed?;
    assert net(r.0[|r.0| - 1]) == Some(r.1.message);
    assert r.0[|r.0| - 1] == Quit;
    assert |r.0| == |p|;
    assert r.0[|p| - 2] == Transmit(msg);
  }
}
