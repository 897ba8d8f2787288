# Follow-up mailer: a Dafny model

This project models a small web service that sends one follow-up e-mail per
client. A user signs up and logs in. They add clients, each with a follow-up
date. They store the settings of their own SMTP relay: address, host, port and
password, with the password kept encrypted at rest. A test send marks the
relay verified. Once a day a scheduler job picks every client whose follow-up
is due today, is not yet sent, and whose owner has a verified relay. It sends
each one a fixed follow-up message through the owner's relay. It then records
the client as sent, or counts the failed attempt and keeps the error text.

Modules, one per file:

- `wrappers.dfy`: `Option` and `Result`.
- `cipher.dfy`: the credential cipher, as a symbolic authenticated cipher.
- `models.dfy`: the `User` and `Client` records with their column defaults.
  Also the lookups by id and by e-mail, and the store's integrity constraints
  (unique ids, unique login e-mail, every client owned by an existing user).
  The `Store` class holds the two tables as sequences.
- `emailer.dfy`: the relay session as a plan of SMTP commands run against a
  network oracle, with the test message and the follow-up message.
- `scheduler.dfy`: the selection, the per-client update, the job's loop and
  the properties of a whole run.
- `app.dfy`: the log-in and dashboard queries, sign-up, adding a client,
  saving the relay settings, the test send, and the verified flag as a state
  machine.

The environment is passed in as parameters:

- **Network.** A function from SMTP command to `None` (the command succeeded)
  or `Some(text)` (it raised an exception whose `str` is `text`). Each relay
  session has its own network: the job sends client `i` through `nets(i)`, so
  one client's connection can time out while the next one's goes through.
- **Clock.** `today` for the date the job reads once. `clock(i)` for the UTC
  instant read when client `i` is marked sent.
- **Cipher key.** A `Key`.
- **Password check.** A function over (stored hash, submitted password).

## Model

| member | source | states |
|---|---|---|
| Cipher.DecryptIff | crypto.py:7-11 | decrypting under a key gives `text` exactly when the token is the encryption of `text` under that key: a round trip, and no other plaintext ever comes out |
| Cipher.WrongKeyFails | crypto.py:5-11 | a token made under one key fails as an invalid token under any other key |
| Models.UserIndex | models.py:7-8 | the lookup by primary key finds a position holding that id, and finds none exactly when no user has the id |
| Models.EmailIndex | app.py:57 | the lookup by e-mail returns the first user with that e-mail, or none when no user has it |
| Models.NextId | models.py:8 | a newly assigned primary key (of the user table, or of the client table at models.py:21) is above, so differs from, every key in use |
| Models.ReplaceUserKeepsConsistent | models.py:7-23 | rewriting a user's row while keeping its id and e-mail preserves the primary keys, the unique e-mail and the client-to-owner foreign key |
| Emailer.Plan | emailer.py:6-16 | a session opens the relay at the user's host and port with a 10-second timeout. It uses implicit TLS exactly when the port is 465 and otherwise upgrades with STARTTLS right after opening. It logs in with the relay address and the decrypted password, then sends the message once and quits |
| Emailer.Run | emailer.py:26-28 | the commands run in order, and the first one that raises ends the session. The session succeeds exactly when every command succeeds, and a failure carries the raising command's error text |
| Emailer.Transcript | emailer.py:6-16 | a password that does not decrypt fails before any command is issued; otherwise the commands issued are a prefix of the session plan, the whole plan when the send succeeds |
| Emailer.ConnectSmtp | emailer.py:6-16 | decrypts, opens, optionally upgrades and logs in, stopping at the first exception; the commands issued and the error are those of running the connection plan |
| Emailer.Deliver | emailer.py:26-28 | connecting, sending and quitting issue exactly the commands, and end with exactly the outcome, of the session transcript |
| Emailer.FollowupBody | emailer.py:36-42 | the body opens with "Hi " and the client's name, and ends with the relay address on a line of its own |
| Emailer.SendTestEmail | emailer.py:18-28 | follows the session transcript for the test message; every message transmitted goes from the relay address to the relay address, with subject "SMTP Test Successful" |
| Emailer.SendFollowup | emailer.py:30-47 | follows the session transcript for the follow-up; every message transmitted goes from the relay address to the client's e-mail, with subject "Quick follow-up" and a body greeting the client by name |
| Emailer.OnlyMessageSent | emailer.py:45-47 | a session transmits at most once, and only the message it was given |
| Emailer.TlsFlagIgnored | emailer.py:9-13 | the stored TLS flag has no effect on a session: the port alone picks implicit TLS or STARTTLS |
| Emailer.QuitFailureHidesDelivery | emailer.py:45-47 | when only the final QUIT raises, the message has already been transmitted and the send is nevertheless reported as failed |
| Scheduler.Owner | scheduler.py:11-19 | a due client's owner is a stored user with the client's `userId` and a verified relay |
| Scheduler.DueIff | scheduler.py:11-15 | with unique user ids, the selection is the join: follow-up date today, not sent, and the owning user's relay verified |
| Scheduler.Selected | scheduler.py:11-15 | the selected positions are in range and strictly increasing, and a position is selected exactly when its client is due |
| Scheduler.Record | scheduler.py:19-28 | a sent follow-up sets `sent` and stamps `sentAt` and leaves the attempt counter and error alone. A failed one leaves `sent`/`sentAt` alone, adds one to the counter and stores the error text. Neither changes id, owner, name, e-mail or date |
| Scheduler.AfterPass | scheduler.py:17-28 | after a run every client is settled on its own: recorded with its send's outcome if due, unchanged otherwise |
| Scheduler.RunScheduler | scheduler.py:7-28 | the k-th relay session the job opens is the follow-up session of the k-th selected client, over that client's own network. The client table becomes `AfterPass` of the old one, and clients not attempted are unchanged. The users are unchanged and the store's constraints still hold |
| Scheduler.SendEach | scheduler.py:17-28 | the loop over the selection runs, in order, exactly one follow-up session per selected client. It leaves each selected client settled and every other client unchanged |
| Scheduler.Attempt | scheduler.py:18-28 | one iteration sends the client's follow-up through its owner's relay, with exactly the commands and outcome of that session's transcript. It records the outcome at that client only; an exception is recorded, not raised |
| Scheduler.PassKeepsConsistent | scheduler.py:17-28 | a run changes no key, so every client still belongs to an existing user |
| Scheduler.PassTally | scheduler.py:17-28 | of the N clients selected, with M failed sends, exactly N - M become sent and exactly M have their counter raised with an error stored |
| Scheduler.SettleTally | scheduler.py:19-28 | a due client is counted as newly sent or as retried, never both, according to its outcome; a client not due is neither |
| Scheduler.RerunSelectsFailures | scheduler.py:11-28 | a second run on the same day selects exactly the clients whose send failed; no sent client is selected again |
| Scheduler.NoFailuresAllSent | scheduler.py:19-23 | with no failed send, every due client's follow-up went out |
| Scheduler.CleanRerunSelectsNothing | scheduler.py:11-23 | after a run with no failure, a same-day rerun selects nobody: no client gets its follow-up twice |
| Scheduler.OtherDaysUnaffected | scheduler.py:11-15 | a run changes no other date's selection, so a failed client is not retried on a later day |
| App.Login | app.py:55-60 | a log-in succeeds only as a stored user with that e-mail whose password check passes |
| App.LoginIff | app.py:57-58 | with unique e-mails, log-in succeeds exactly when some user has the e-mail and the password check passes for them |
| App.Dashboard | app.py:87-91 | the dashboard lists exactly the clients of the logged-in user |
| App.ApplySettings | app.py:120-126 | an unparsable port fails first, then a missing password; otherwise the save succeeds. On success: the submitted address, host and port are stored; TLS is on exactly when the field is present and non-empty; the stored token decrypts to the submitted password; the relay is no longer verified; the account fields are unchanged |
| App.RelayStep | app.py:117-148 | a settings save or a test send changes no account field (id, e-mail, password hash) |
| App.StepVerified | app.py:126-143 | after one request the relay is verified exactly when the request was a test send that went through, or it was verified before and the request stored no settings |
| App.VerifiedIffConfirmedSinceLastSave | app.py:117-148 | after any sequence of requests, the relay is verified exactly when a test send has gone through since settings were last stored, or it was verified at the start and no settings have been stored since |
| App.NewUserVerifiedOnlyByTest | models.py:17-18 | a new account's relay is verified exactly when a test send has gone through since the settings were last stored |
| App.TestReplyReportsOutcome | app.py:145-148 | the test reply tells success from failure, and a failure's reply carries its error text |
| App.Signup | app.py:64-75 | sign-up inserts a fresh user with the column defaults. An e-mail already registered is rejected and changes nothing |
| App.AddClient | app.py:96-110 | adding a client appends a fresh client with the column defaults to the logged-in user's dashboard. No other user's dashboard changes |
| App.EmailSettings | app.py:117-129 | saving the form updates the logged-in user exactly as `ApplySettings` says, or changes nothing when it raises |
| App.TestEmail | app.py:136-148 | the reply reports the test send's outcome. Only a send that went through marks the user's relay verified, and nothing else changes |

## Left out

- Routing, HTML templates, redirects, the session cookie and the `@login_required` guard are not modelled. The handlers take the logged-in user's id, and a GET returning a page is not modelled.
- The logout handler and the session user loader (`load_user`) are not modelled. They only manage the session.
- Configuration (secret key, database URL) and table creation are not modelled.
- The e-mail body's MIME structure is not modelled. A message is its sender, recipient, subject and plain-text body.
- SMTP is not modelled at the protocol level. Each library call (open, STARTTLS, login, send, quit) is one command, and the network decides only whether it raises and with what text.
- Fernet itself (AES, HMAC, timestamps, base64) is not modelled. A token records the key and the plaintext. The wording of the error for a missing token belongs to the cipher library and is a fixed constant here.
- Password hashing is not modelled. Sign-up receives the hash, and log-in is given the check as a function.
- Parsing is not modelled: the `%Y-%m-%d` date text and the port's `int()` text. A date is an integer, and the form carries the port already parsed or `None` when `int()` raises.
- Column length limits (`String(150)`, `String(100)`) and the database's integer width are not modelled: strings and integers are unbounded.
- Transactions are not modelled. Each commit is one step, and a handler that raises leaves the store unchanged, as the session rollback at the end of a failed request does.
- Concurrent requests and overlapping runs of the job are not modelled.
- The clock and the calendar date are parameters (`today`, `clock`). The job's instants are indexed by table position.
- The job's selection is modelled in table order. The query imposes no order, so any order would do, and the per-client updates are independent.
- App.Signup: the duplicate check stands for the unique constraint on `email`. The insert then fails with an integrity error, which the handler does not catch; the model returns an error and leaves the store unchanged.
- `Client.name`, `Client.email`, `Client.followupDate`, `Client.sent` and `Client.attemptCount` are plain values, though the columns are nullable. The add form always writes the first three, and the column defaults fill the other two. A row with a NULL `attempt_count` is therefore not modelled. For such a row, the counter update in the job's error branch would itself raise and abort the rest of the run.
- The source has no handler to edit or delete a client, so none is modelled.
- The relay login uses the stored relay address (`smtp_email`) as the user name, as the code does. There is no separate user-name field.
