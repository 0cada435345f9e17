# Call-signalling server: a verified model

`server.js` is the signalling server of a one-to-one WebRTC calling demo. A
client logs in under a user id of its own choosing. It can then call
another online user, who answers or rejects. The server relays the media
handshake (SDP offer and answer, ICE candidates) between the two parties.
When a connection drops, the server cleans up that user's calls. The server
keeps two tables:

- `onlineUsers`: socket id to user id;
- `calls`: call id to `{caller, callee, status}`.

This project models those two tables and the nine socket handlers
(`login`, `call`, `answer-call`, `reject-call`, `end-call`, `ice-candidate`,
`offer`, `answer`, `disconnect`). It proves what each handler does to the
tables and exactly which events it emits, to whom and in what order, for
string payloads. It also says when a handler throws instead. `calls` is a
plain object, so `calls[callId]` can find a value that `calls` does not hold
as a key. That value is one of:

- `Object.prototype` itself, through `__proto__`;
- one of its eleven built-in methods, such as `constructor`;
- the string that a handler wrote as `Object.prototype.status`.

The model tracks that property (`protoStatus`) and what each handler does
with such a value (`CallTable.LookUp`).

Layout:

- `types.dfy` (module `Types`): socket ids, user ids, statuses, and the
  emitted events. An event has a target (one socket, or a broadcast) and
  one constructor per event name.
- `registry.dfy` (module `Registry`): the `onlineUsers` table and its two
  lookups. The reverse lookup is `Object.keys(onlineUsers).find(...)`. The
  table is injective: no user id is bound to two sockets.
- `call_table.dfy` (module `CallTable`): call records and the call id format
  `caller-callee-timestamp`. It also holds the key order of `calls`, which
  `disconnect` scans with `Object.keys(calls).forEach`.
- `signaling.dfy` (module `Signaling`): class `SignalingServer`. Its fields
  are `onlineUsers`, `calls`, `callOrder` and `protoStatus`, the `status`
  written on `Object.prototype` through `calls.__proto__`. Each handler is a method that
  takes the sending socket and returns the events it emits, in emission
  order. The state-changing handlers keep the class invariant `Valid()`:
  - `onlineUsers` is injective;
  - every record has two different parties and a non-empty caller;
  - no key of `calls` is an inherited name;
  - `callOrder` lists each key of `calls` once.

  The relays have no `modifies` clause, so they provably change no state.
  `disconnect`'s scan is a `while` loop over the key order. Its emitted
  events are specified by `PeerOfflineNotices`, and lemmas describe that
  function: who is told, about which calls, and how many times.
- `scenario.dfy` (module `Scenario`): whole sessions from a fresh server.
  From the handlers' contracts alone, they derive every event of a login,
  call, answer, handshake and disconnect session, and the edge cases
  described below.

The code differs from a natural reading of its design in these places, and
the model follows the code:

- `answer-call` and `reject-call` never look at the status. They overwrite
  whatever status the record has, so a call that was hung up becomes active
  again if the callee answers before the delayed delete fires
  (`Scenario.AnswerAfterHangUp`). `end-call` likewise ends a call in any
  status.
- `ice-candidate` does not check that the sender is a party. A candidate
  from a non-party goes to the caller. It still never goes back to the
  sender, and it always reaches a party of the call.
- `disconnect` deletes the user's records; it does not mark them ended. It
  broadcasts the offline status before any `call-ended` notice.
- Call ids are not unique:
  - Two calls by the same pair in the same millisecond get the same id, and
    the second overwrites the first.
  - Because user ids may contain `-`, different pairs can also collide
    (`CallTable.CallIdsCollideAcrossPairs`).
- A socket bound to the empty user id counts as not logged in:
  - `call` from it answers "please log in first";
  - `disconnect` of it does nothing, so its binding stays in `onlineUsers`.
- Any client can make a handler throw a TypeError by naming a built-in
  method of `Object.prototype` (`constructor`, `toString`, …) as the call
  id. Reading `caller` on a built-in function throws
  (`Scenario.BuiltinNamesThrow`):
  - `end-call`, `ice-candidate` and `offer` throw for any sender, since
    they read `call.caller` straight away (server.js:164, 199, 216).
  - `answer-call`, `reject-call` and `answer` throw for a socket that never
    logged in, as soon as anyone is online. They read `call.caller` inside
    the `find` callback (server.js:115, 146, 238).

  Each handler reports this as its `threw` result and emits nothing before
  the throw.
- `__proto__` from a socket that never logged in passes the guards of
  `answer-call`, `reject-call` and `end-call`, because the value's parties
  and the socket's `userId` are all undefined. Nothing is emitted. The
  status is written on `Object.prototype` (`Scenario.AnswerInherited`).
  From then on `calls["status"]` is that string and passes the same guards
  (`Scenario.AnswerStatusAfterPrototypeWrite`). Writing `status` on the
  string is silently ignored in sloppy mode. The relays also emit nothing
  for these two names, because a party that is undefined has no socket.
- A socket that logs in a second time under a new, free id rebinds to that
  id silently. Its old id just stops being bound.

## Model

| member | source | states |
|---|---|---|
| Registry.UserOf | server.js:251 | Definition only, with no contract of its own: the forward lookup `onlineUsers[socket.id]`, which is also what `socket.userId` holds for a connected socket. It is none for an unbound socket. |
| Registry.SocketOf | server.js:33 | The reverse lookup finds a socket exactly when the user id is bound, and the socket it finds is bound to that id. In an injective table it is the only such socket, so the scan order of `find` is irrelevant. |
| Registry.BindFresh | server.js:33-41 | Binding a socket to an id nobody holds keeps the table injective, and the id is then found at that socket. |
| Registry.Unbind | server.js:257 | Removing a socket's binding keeps the table injective. The removed user id is then unbound, and every other id is found where it was. |
| CallTable.Other | server.js:271 | The other party is named by the record and differs from the given party. |
| CallTable.Decimal | server.js:76 | The timestamp in the template literal renders as a non-empty string of decimal digits with no leading zero. |
| CallTable.DecimalInjective | server.js:76 | Different timestamps render as different strings. |
| CallTable.CallIdsDifferInTime | server.js:76 | For one caller and callee, the call ids of two calls are equal if and only if the calls happen in the same millisecond. |
| CallTable.MakeCallId | server.js:76 | Definition only, with no contract of its own: the id is the caller, `-`, the callee, `-`, and the timestamp in decimal. Its properties are `CallIdsDifferInTime`, `CallIdsCollideAcrossPairs` and `CallIdsNeverInherited`. |
| CallTable.CallIdsNeverInherited | server.js:76-83 | A call id always holds a `-`, so it is never an inherited name. Looking it up therefore finds its own record or nothing, whatever has been written on the prototype. `calls[callId] = {...}` always creates an own key of `calls`, so the class invariant that no key is inherited holds. |
| CallTable.Inherited | server.js:104 | Definition only, with no contract of its own. These are the names `calls[id]` can find without `calls` holding the key: the eleven built-in methods of `Object.prototype` listed in `FunctionKeys`, plus `__proto__` and `status`. |
| CallTable.LookUp | server.js:104 | Definition only, with no contract of its own. It gives what `calls[id]` evaluates to, tried in this order: the own record; `Object.prototype` for `__proto__`; a built-in function; the string written as `Object.prototype.status`; otherwise undefined. The handlers at server.js:136, 162, 194, 214 and 233 use the same lookup. |
| CallTable.CalleeOf | server.js:106 | Definition only, with no contract of its own: `call.callee` of what the lookup found. Only an own record has one; for anything else it is undefined. |
| CallTable.CallerOf | server.js:164 | Definition only, with no contract of its own: `call.caller` of what the lookup found, defined for everything except a built-in function, where reading it throws. Only an own record has one. |
| CallTable.WriteStatus | server.js:112 | Definition only, with no contract of its own: `call.status = s` on an inherited value sets `Object.prototype.status` only when the value is `Object.prototype`. A write on a function lands outside both tables, and a write on a string is ignored. |
| CallTable.InheritedHasNoDash | server.js:76 | No inherited name contains `-`. |
| CallTable.Names | server.js:268 | Definition only, with no contract of its own: the record names the user as caller or callee (also the test at server.js:164). |
| Types.Live | server.js:270 | Definition only, with no contract of its own: the status is active or ringing. |
| Types.Truthy | server.js:57 | Definition only, with no contract of its own: JavaScript truthiness of a string, false only for the empty string (also the test at server.js:253). |
| CallTable.CallIdsCollideAcrossPairs | server.js:76 | Two different caller/callee pairs, joined through a `-` inside a user id, get the same call id in the same millisecond. |
| CallTable.Without | server.js:187 | Deleting a key removes exactly that id from the key order, keeps the other ids distinct, and changes nothing when the key is absent. The definition keeps the other ids in their order; the contract does not state it. |
| CallTable.StillIn | server.js:266-285 | The key order after deletions lists exactly the old ids that are still keys, each once. The definition keeps them in their old order; the contract does not state the order. |
| CallTable.WithoutParty | server.js:266-285 | Definition only, with no contract of its own: the closed form of the table after `disconnect` of a user, namely the records not naming that user. The loop of `ForgetCallsOf` is proved to produce it, and `Disconnect` proves that no remaining record names the user. |
| Types.Notify | server.js:148-152 | Definition only, with no contract of its own: the `if (socketId) io.to(socketId).emit(...)` pattern. It emits one event to the socket found, or nothing when the lookup found none. |
| Signaling.LoggedIn | server.js:57 | Definition only, with no contract of its own: the sender is bound to a truthy user id, which is the test `if (!callerId)` of `call`. |
| Signaling.IsCaller | server.js:216 | Definition only, with no contract of its own: the record exists as an own key and the sender's user id is its caller. This is the guard of `offer` for an own key. For an inherited value, the guard instead compares `CallerOf` of the lookup with `UserOf`. |
| Signaling.IsCallee | server.js:106 | Definition only, with no contract of its own: the record exists as an own key and the sender's user id is its callee. This is the guard of `answer-call`, `reject-call` and `answer` for an own key. For an inherited value, the guard instead compares `CalleeOf` of the lookup with `UserOf`. |
| Signaling.PeerOfflineNotice | server.js:268-280 | Definition only, with no contract of its own: for one record, a peer-offline `call-ended` to the other party's socket when the record names the user, is ringing or active, and the other party is online. Otherwise nothing. |
| Signaling.PeerOfflineNotices | server.js:266-285 | Definition only, with no contract of its own: the notices of `PeerOfflineNotice` for each key of the scan, in key order. The lemmas below state what they contain. |
| Signaling.PeerOfflineNoticesReachOtherParty | server.js:266-285 | Every notice of `disconnect` is a `call-ended` with the peer-offline reason. Its call was ringing or active and named the user, and it goes to the socket of that call's other party. |
| Signaling.PeerOfflineNoticesWhenIdle | server.js:268-270 | A user with no ringing or active call produces no `call-ended` notice at `disconnect`. |
| Signaling.PeerOfflineNoticeOnce | server.js:266-285 | The online other party of each ringing or active call of the user gets exactly one notice for that call. |
| Signaling.DropLast | server.js:266 | Splitting the last key off a distinct key order keeps the rest distinct, and says where a given id is. |
| Signaling.NoticesCount | server.js:266-285 | The number of times a notice occurs is its count over all keys but the last, plus its count for the last key. |
| Signaling.NoticesOmit | server.js:266-285 | No notice is sent for a call id that is not scanned. |
| Signaling.NoticesStep | server.js:266 | A helper for the loop invariant of `ForgetCallsOf`: visiting one more key appends that key's notices to those sent so far. It unfolds the definition of `PeerOfflineNotices` at the next prefix. |
| Signaling.ForgetStep | server.js:267-284 | Visiting the next key of the scan finds its record untouched, deletes it if it names the user, and keeps the scan invariant. |
| Signaling.ForgetDone | server.js:266-285 | When the scan is over, exactly the records naming the user are gone. |
| Signaling.SignalingServer.constructor | server.js:16-18 | Both tables start empty, which satisfies the invariant. |
| Signaling.SignalingServer.Login | server.js:31-50 | An id already bound is refused with `login-failed` and nothing changes. Otherwise the socket is bound to it, the table stays injective, and the sender gets `login-success`, then everyone gets `user-status` online. |
| Signaling.SignalingServer.Call | server.js:53-98 | The three failures, checked in order: not logged in, self-call, callee offline. Each sends `call-failed` to the sender and changes nothing. Otherwise a ringing record is stored under `caller-callee-now`, appended to the key order unless the id exists, and `incoming-call` goes to the callee's socket, then `call-initiated` to the sender. |
| Signaling.SignalingServer.AnswerCall | server.js:101-130 | `threw` holds exactly when the lookup finds a built-in function, the socket never logged in and someone is online. For a name that finds nothing, or any inherited value from a logged-in socket, the sender gets `call-error` and nothing changes. Any other inherited value, from a socket that never logged in, emits nothing, and only the prototype's `status` can change (to active, through `__proto__`). A sender who is not an own record's callee gets `call-error`, and nothing changes. Otherwise the record's status becomes active, whatever it was. If the caller is online, the caller gets `call-answered` and then the sender gets `call-connected`; if not, nothing is sent. |
| Signaling.SignalingServer.RejectCall | server.js:133-156 | `threw` holds exactly when the lookup finds a built-in function, the socket never logged in and someone is online. Inherited values emit nothing. Through `__proto__`, from a socket that never logged in, the prototype's `status` becomes rejected. A sender who is not an own record's callee is ignored. Otherwise the status becomes rejected, and the caller, if online, gets `call-rejected`. |
| Signaling.SignalingServer.EndCall | server.js:159-185 | `threw` holds exactly when the lookup finds a built-in function, for any sender. Other inherited values emit nothing. Through `__proto__`, from a socket that never logged in, the prototype's `status` becomes ended. A sender who is not a party of an own record is ignored. Otherwise the status becomes ended and `call-ended` goes to the other party only, if online. No event ever goes back to the sender. |
| Signaling.SignalingServer.Purge | server.js:186-188 | The delayed delete removes the record and its place in the key order, and does nothing when the record is already gone. |
| Signaling.SignalingServer.RelayIceCandidate | server.js:192-209 | `threw` holds exactly when the lookup finds a built-in function, for any sender. Any other id that is not an own key sends nothing. For an own record, the candidate goes to the callee's socket if the sender is the caller, and to the caller's socket otherwise, tagged with the sender's id. It never goes back to the sender and always reaches a party of the call. |
| Signaling.SignalingServer.RelayOffer | server.js:212-228 | `threw` holds exactly when the lookup finds a built-in function, for any sender. Otherwise only the caller of an own record has the offer forwarded, tagged with the caller's id, and only to the callee's socket. |
| Signaling.SignalingServer.RelayAnswer | server.js:231-247 | `threw` holds exactly when the lookup finds a built-in function, the socket never logged in and someone is online. Otherwise only the callee of an own record has the answer forwarded, tagged with the callee's id, and only to the caller's socket. |
| Signaling.SignalingServer.ForgetCall | server.js:267-284 | For one key, a record naming the user is deleted, with a peer-offline `call-ended` to the online other party if the record was ringing or active. Any other record is kept. |
| Signaling.SignalingServer.ForgetCallsOf | server.js:266-285 | The scan over the key order deletes exactly the records naming the user, keeps the invariant, and emits exactly the notices `PeerOfflineNotices` lists, in key order. |
| Signaling.SignalingServer.Disconnect | server.js:250-287 | A socket with no binding, or a falsy one, changes nothing and sends nothing. Otherwise its binding is removed and `user-status` offline is broadcast. Then every record of the user is deleted, in key order, with the notices of `PeerOfflineNotices`, and no remaining record names the user. |
| Scenario.TwoOnline | server.js:31-50 | Two logins under different ids both succeed, each with its success event and online broadcast. |
| Scenario.Connect | server.js:53-130 | A call to an online user followed by the callee's answer leaves one active record and emits `incoming-call`, `call-initiated`, `call-answered`, `call-connected` to the right sockets. |
| Scenario.Handshake | server.js:192-247 | Offer, answer and ICE candidate each reach the other party with the sender's id attached. |
| Scenario.DropCaller | server.js:250-287 | The caller's disconnect mid-call broadcasts offline, tells the callee `call-ended` with the peer-offline reason, and empties the call table. |
| Scenario.CallAndHangUpByDisconnect | server.js:31-287 | The whole session from a fresh server emits exactly the listed thirteen events, in order. |
| Scenario.AnswerAfterHangUp | server.js:101-112 | After the caller hangs up, the callee's answer still succeeds and makes the call active again. |
| Scenario.AnswerInherited | server.js:104-117 | For `__proto__`, a socket that never logged in gets no event, and a logged-in socket gets `call-error`. Neither throws. |
| Scenario.AnswerStatusAfterPrototypeWrite | server.js:104-112 | On a fresh server, `status` from a socket that never logged in gets `call-error`. That socket then answers `__proto__`, which writes the prototype's `status`. From then on `status` passes the guard for that socket, with no event, while a logged-in socket still gets `call-error`. |
| Scenario.BuiltinNamesThrow | server.js:164-216 | The no-throw case: `answer-call` naming `constructor` on an empty server is quiet. With anyone online, all four of these throw: `offer` naming `constructor`, `end-call` naming `toString`, `ice-candidate` naming `valueOf`, and `answer-call` naming `constructor` from a socket that never logged in. |
| Scenario.DuplicateLogin | server.js:31-37 | A second login under a taken id from another socket is refused, and the id stays bound to the first socket. |

## Left out

- The HTTP server, static files and socket.io setup (server.js:1-25) and `server.listen` (server.js:290-293): transport and I/O, outside the call logic.
- `console.log` output: it has no effect on state or on emitted events.
- Message texts: the human-readable strings of `login-failed`, `call-failed`, `call-error` and of the peer-offline reason are not modelled. `call-failed` carries which check failed instead.
- `Date.now()` is the `now` parameter of `Call`. The clock is outside the model.
- The 5-second `setTimeout` of `end-call` is the separate operation `Purge`. When and in what order timers fire, relative to other events, is left to the caller of the model.
- Event delivery: the events a handler returns are what it hands to socket.io. The model does not include delivery, connection setup or the timing of events from several sockets, and it treats handlers as running one at a time, as Node.js does.
- Payload shapes: `data` is assumed to be an object with the fields each handler reads, and user ids and call ids are strings. Inherited property names are covered; see `CallTable.LookUp`. A missing `data`, which makes the JavaScript handler throw, and non-string ids such as `undefined` are not modelled.
- Call records are values in the map, so the `call.status = ...` of `answer-call`, `reject-call` and `end-call` (server.js:112, 143, 169) is a replacement of the map entry. The source mutates a shared object, but nothing else holds a reference to it, so the effect is the same.
- `socket.userId` is modelled as the sender's entry in `onlineUsers`. The two are set together at login and agree for every connected socket. Events from a socket that has already disconnected are not modelled.
- The key order of `calls` is modelled as plain insertion order (`callOrder`), with an overwritten id keeping its first place. JavaScript lists integer-like keys first. A call id always contains `-` after a non-empty caller id, so it is never such a key, and the two orders agree.
- What happens after a handler throws is up to socket.io, which is not part of this model. Each affected handler reports that it threw and that it emitted nothing before the throw. A status written on a built-in function before the throw is not tracked, because nothing reads it back.
- `onlineUsers` is a plain object too. Its keys are socket ids, which socket.io generates and which never name an inherited property, so its lookups are modelled as plain map lookups.
