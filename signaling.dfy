/** The signalling handlers registered in `io.on('connection')`
    (server.js:27-288), over the two module-level tables. Each handler takes
    the sending socket and returns the events it emits, in emission order. */
module Signaling {
  import opened Types
  import opened Registry
  import opened CallTable

  /** `socket.userId` is set and truthy: the test `if (!callerId)` of `call`. */
  predicate LoggedIn(users: map<SocketId, UserId>, sender: SocketId) {
    sender in users && Truthy(users[sender])
  }

  /** The record exists and the sender is its caller (`call.caller === socket.userId`). */
  predicate IsCaller(users: map<SocketId, UserId>, calls: map<CallId, CallRecord>, sender: SocketId, callId: CallId) {
    callId in calls && UserOf(users, sender) == Some(calls[callId].caller)
  }

  /** The record exists and the sender is its callee (`call.callee === socket.userId`). */
  predicate IsCallee(users: map<SocketId, UserId>, calls: map<CallId, CallRecord>, sender: SocketId, callId: CallId) {
    callId in calls && UserOf(users, sender) == Some(calls[callId].callee)
  }

  // ---------------------------------------------------------------------
  // What `disconnect` tells the other parties

  /** The `call-ended{callId, reason}` that `disconnect` of `u` sends for one
      record (server.js:268-280): only for a live record naming `u`, and only
      when the other party is online. */
  function PeerOfflineNotice(id: CallId, c: CallRecord, users: map<SocketId, UserId>, u: UserId): seq<Event>
    requires Injective(users)
    requires c.caller != c.callee
  {
    if Names(c, u) && Live(c.status) then Notify(SocketOf(users, Other(c, u)), CallEnded(id, PeerOffline))
    else []
  }

  /** The notices of `disconnect` of `u`, for the records listed in `ids`, in order. */
  function PeerOfflineNotices(ids: seq<CallId>, calls: map<CallId, CallRecord>, users: map<SocketId, UserId>, u: UserId): seq<Event>
    requires Injective(users) && WellFormed(calls)
    requires forall id :: id in ids ==> id in calls
    decreases |ids|
  {
    if ids == [] then []
    else
      var n := |ids| - 1;
      PeerOfflineNotices(ids[..n], calls, users, u) + PeerOfflineNotice(ids[n], calls[ids[n]], users, u)
  }

  /** Every notice is a `call-ended` with the peer-offline reason, for a live
      record of `u` listed in `ids`, sent to the socket of that record's
      other party. */
  lemma {:induction false} PeerOfflineNoticesReachOtherParty(ids: seq<CallId>, calls: map<CallId, CallRecord>, users: map<SocketId, UserId>, u: UserId)
    requires Injective(users) && WellFormed(calls)
    requires forall id :: id in ids ==> id in calls
    ensures forall e :: e in PeerOfflineNotices(ids, calls, users, u) ==>
      && e.message.CallEnded? && e.message.reason == PeerOffline
      && e.message.callId in ids
      && Names(calls[e.message.callId], u) && Live(calls[e.message.callId].status)
      && e.target.To? && e.target.socket in users
      && users[e.target.socket] == Other(calls[e.message.callId], u)
    decreases |ids|
  {
    if ids != [] {
      var n := |ids| - 1;
      PeerOfflineNoticesReachOtherParty(ids[..n], calls, users, u);
      assert forall id :: id in ids[..n] ==> id in ids;
    }
  }

  /** A user with no ringing or active call produces no notice. */
  lemma {:induction false} PeerOfflineNoticesWhenIdle(ids: seq<CallId>, calls: map<CallId, CallRecord>, users: map<SocketId, UserId>, u: UserId)
    requires Injective(users) && WellFormed(calls)
    requires forall id :: id in ids ==> id in calls
    requires forall id :: id in ids ==> !(Names(calls[id], u) && Live(calls[id].status))
    ensures PeerOfflineNotices(ids, calls, users, u) == []
    decreases |ids|
  {
    if ids != [] {
      var n := |ids| - 1;
      assert ids[n] in ids;
      PeerOfflineNoticesWhenIdle(ids[..n], calls, users, u);
    }
  }

  /** Splitting off the last key of a distinct sequence. */
  lemma DropLast(ids: seq<CallId>, id: CallId)
    requires Distinct(ids) && ids != []
    ensures Distinct(ids[..|ids| - 1])
    ensures forall x :: x in ids[..|ids| - 1] ==> x in ids
    ensures ids[|ids| - 1] == id ==> id !in ids[..|ids| - 1]
    ensures ids[|ids| - 1] != id && id in ids ==> id in ids[..|ids| - 1]
  {
    var n := |ids| - 1;
    if id in ids && ids[n] != id {
      var k :| 0 <= k < |ids| && ids[k] == id;
      assert ids[..n][k] == id;
    }
  }

  /** The notices of `ids` are those of all keys but the last, then the last's. */
  lemma NoticesCount(ids: seq<CallId>, calls: map<CallId, CallRecord>, users: map<SocketId, UserId>, u: UserId, e: Event)
    requires Injective(users) && WellFormed(calls) && ids != []
    requires forall x :: x in ids ==> x in calls
    ensures forall x :: x in ids[..|ids| - 1] ==> x in calls
    ensures multiset(PeerOfflineNotices(ids, calls, users, u))[e] ==
      multiset(PeerOfflineNotices(ids[..|ids| - 1], calls, users, u))[e] +
      multiset(PeerOfflineNotice(ids[|ids| - 1], calls[ids[|ids| - 1]], users, u))[e]
  {
    var n := |ids| - 1;
    assert forall x :: x in ids[..n] ==> x in ids;
    var before := PeerOfflineNotices(ids[..n], calls, users, u);
    var last := PeerOfflineNotice(ids[n], calls[ids[n]], users, u);
    assert multiset(before + last) == multiset(before) + multiset(last);
  }

  /** No notice cites an id that is not listed. */
  lemma NoticesOmit(ids: seq<CallId>, calls: map<CallId, CallRecord>, users: map<SocketId, UserId>, u: UserId, e: Event)
    requires Injective(users) && WellFormed(calls)
    requires forall x :: x in ids ==> x in calls
    requires e.message.CallEnded? && e.message.callId !in ids
    ensures multiset(PeerOfflineNotices(ids, calls, users, u))[e] == 0
  {
    PeerOfflineNoticesReachOtherParty(ids, calls, users, u);
  }

  /** Over distinct ids, the other party of a live record of `u` who is
      online gets exactly one notice for it. */
  lemma {:induction false} PeerOfflineNoticeOnce(ids: seq<CallId>, calls: map<CallId, CallRecord>, users: map<SocketId, UserId>, u: UserId, id: CallId, s: SocketId)
    requires Injective(users) && WellFormed(calls)
    requires forall x :: x in ids ==> x in calls
    requires Distinct(ids)
    requires id in ids && Names(calls[id], u) && Live(calls[id].status)
    requires SocketOf(users, Other(calls[id], u)) == Some(s)
    ensures multiset(PeerOfflineNotices(ids, calls, users, u))[Event(To(s), CallEnded(id, PeerOffline))] == 1
    decreases |ids|
  {
    var e := Event(To(s), CallEnded(id, PeerOffline));
    var n := |ids| - 1;
    DropLast(ids, id);
    NoticesCount(ids, calls, users, u, e);
    if ids[n] == id {
      NoticesOmit(ids[..n], calls, users, u, e);
      assert PeerOfflineNotice(ids[n], calls[ids[n]], users, u) == [e];
    } else {
      PeerOfflineNoticeOnce(ids[..n], calls, users, u, id, s);
      assert multiset(PeerOfflineNotice(ids[n], calls[ids[n]], users, u))[e] == 0;
    }
  }

  /** One step of the `forEach` of `disconnect` on the emitted events. */
  lemma {:induction false} NoticesStep(ids: seq<CallId>, i: nat, calls: map<CallId, CallRecord>, users: map<SocketId, UserId>, u: UserId)
    requires Injective(users) && WellFormed(calls) && i < |ids|
    requires forall id :: id in ids ==> id in calls
    ensures PeerOfflineNotices(ids[..i + 1], calls, users, u) ==
      PeerOfflineNotices(ids[..i], calls, users, u) + PeerOfflineNotice(ids[i], calls[ids[i]], users, u)
  {
    assert ids[..i + 1][..i] == ids[..i];
  }

  /** Where the `forEach` of `disconnect` of `u` stands after visiting
      `ids[..i]`: the visited records naming `u` are gone, nothing else is. */
  ghost predicate ForgetInvariant(calls: map<CallId, CallRecord>, calls0: map<CallId, CallRecord>, ids: seq<CallId>, i: nat, u: UserId)
  {
    && i <= |ids|
    && (forall id :: id in ids[i..] ==> id in calls)
    && (forall id :: id in calls ==> id in calls0 && calls[id] == calls0[id])
    && (forall id :: id in calls0 && !Names(calls0[id], u) ==> id in calls)
    && (forall id :: id in calls && Names(calls0[id], u) ==> id in ids[i..])
  }

  /** Visiting the next key keeps `ForgetInvariant`. */
  lemma ForgetStep(calls: map<CallId, CallRecord>, calls0: map<CallId, CallRecord>, ids: seq<CallId>, i: nat, u: UserId)
    requires ForgetInvariant(calls, calls0, ids, i, u) && i < |ids| && Distinct(ids)
    ensures ids[i] in calls && calls[ids[i]] == calls0[ids[i]]
    ensures ForgetInvariant(if Names(calls0[ids[i]], u) then calls - {ids[i]} else calls, calls0, ids, i + 1, u)
  {
    assert ids[i..] == [ids[i]] + ids[i + 1..];
    assert ids[i] !in ids[i + 1..];
  }

  /** Once every key is visited, exactly the records naming `u` are gone. */
  lemma ForgetDone(calls: map<CallId, CallRecord>, calls0: map<CallId, CallRecord>, ids: seq<CallId>, u: UserId)
    requires ForgetInvariant(calls, calls0, ids, |ids|, u)
    ensures calls == WithoutParty(calls0, u)
  {
    assert ids[|ids|..] == [];
  }

  // ---------------------------------------------------------------------
  // The server

  class SignalingServer {
    /** `onlineUsers`: socket id to user id. */
    var onlineUsers: map<SocketId, UserId>
    /** `calls`: call id to record. */
    var calls: map<CallId, CallRecord>
    /** The order in which `Object.keys(calls)` lists the ids: insertion
        order, an overwritten id keeping its place. */
    var callOrder: seq<CallId>
    /** The `status` property written on `Object.prototype` by a handler
        that looked up `calls.__proto__`, if any. */
    var protoStatus: Option<Status>

    /** A user id is bound to at most one socket; every record has two
        different parties and a truthy caller; `callOrder` lists each key of
        `calls` exactly once. */
    ghost predicate Valid()
      reads this
    {
      && Injective(onlineUsers)
      && WellFormed(calls)
      && Distinct(callOrder)
      && (forall id :: id in callOrder <==> id in calls)
    }

    constructor ()
      ensures Valid()
      ensures onlineUsers == map[] && calls == map[] && callOrder == [] && protoStatus == None
    {
      protoStatus := None;
      onlineUsers := map[];
      calls := map[];
      callOrder := [];
    }

    /** `login` (server.js:31-50). */
    method Login(sender: SocketId, userId: UserId) returns (sent: seq<Event>)
      requires Valid()
      modifies this
      ensures protoStatus == old(protoStatus)
      ensures Valid()
      ensures calls == old(calls) && callOrder == old(callOrder)
      ensures userId in old(onlineUsers).Values ==>
        && onlineUsers == old(onlineUsers)
        && sent == [Event(To(sender), LoginFailed)]
      ensures userId !in old(onlineUsers).Values ==>
        && onlineUsers == old(onlineUsers)[sender := userId]
        && sent == [Event(To(sender), LoginSuccess(userId)), Event(Broadcast, UserStatus(userId, Online))]
    {
      var existingUser := SocketOf(onlineUsers, userId);
      if existingUser.Some? {
        sent := [Event(To(sender), LoginFailed)];
        return;
      }
      BindFresh(onlineUsers, sender, userId);
      onlineUsers := onlineUsers[sender := userId];
      sent := [Event(To(sender), LoginSuccess(userId)), Event(Broadcast, UserStatus(userId, Online))];
    }

    /** `call` (server.js:53-98); `now` stands for `Date.now()`. */
    method Call(sender: SocketId, calleeId: UserId, now: nat) returns (sent: seq<Event>)
      requires Valid()
      modifies this
      ensures protoStatus == old(protoStatus)
      ensures Valid()
      ensures onlineUsers == old(onlineUsers)
      ensures !LoggedIn(old(onlineUsers), sender) ==>
        && calls == old(calls) && callOrder == old(callOrder)
        && sent == [Event(To(sender), CallFailed(NotLoggedIn))]
      ensures LoggedIn(old(onlineUsers), sender) && old(onlineUsers)[sender] == calleeId ==>
        && calls == old(calls) && callOrder == old(callOrder)
        && sent == [Event(To(sender), CallFailed(SelfCall))]
      ensures LoggedIn(old(onlineUsers), sender) && old(onlineUsers)[sender] != calleeId
              && calleeId !in old(onlineUsers).Values ==>
        && calls == old(calls) && callOrder == old(callOrder)
        && sent == [Event(To(sender), CallFailed(CalleeOffline))]
      ensures LoggedIn(old(onlineUsers), sender) && old(onlineUsers)[sender] != calleeId
              && calleeId in old(onlineUsers).Values ==>
        var callerId := old(onlineUsers)[sender];
        var callId := MakeCallId(callerId, calleeId, now);
        && calls == old(calls)[callId := CallRecord(callerId, calleeId, Ringing)]
        && callOrder == (if callId in old(calls) then old(callOrder) else old(callOrder) + [callId])
        && sent == [Event(To(SocketOf(onlineUsers, calleeId).value), IncomingCall(callId, callerId)),
                    Event(To(sender), CallInitiated(callId, calleeId))]
    {
      var callerId := UserOf(onlineUsers, sender);
      if callerId.None? || !Truthy(callerId.value) {
        sent := [Event(To(sender), CallFailed(NotLoggedIn))];
        return;
      }
      if callerId.value == calleeId {
        sent := [Event(To(sender), CallFailed(SelfCall))];
        return;
      }
      var calleeSocketId := SocketOf(onlineUsers, calleeId);
      if calleeSocketId.None? {
        sent := [Event(To(sender), CallFailed(CalleeOffline))];
        return;
      }
      var callId := MakeCallId(callerId.value, calleeId, now);
      CallIdsNeverInherited(callerId.value, calleeId, now, calls, protoStatus);
      if callId !in calls {
        callOrder := callOrder + [callId];
      }
      calls := calls[callId := CallRecord(callerId.value, calleeId, Ringing)];
      sent := [Event(To(calleeSocketId.value), IncomingCall(callId, callerId.value)),
               Event(To(sender), CallInitiated(callId, calleeId))];
    }

    /** `answer-call` (server.js:101-130). The guard compares the looked-up
        value's `callee` with `socket.userId`, so an inherited value passes it
        for a socket that never logged in (undefined on both sides): the
        status write then lands per `WriteStatus`, and the `find` for the
        undefined caller finds no socket, unless the value is a built-in
        function, whose `caller` throws as soon as one socket is online. A
        record's status is set to active whatever it was before. */
    method AnswerCall(sender: SocketId, callId: CallId) returns (sent: seq<Event>, threw: bool)
      requires Valid()
      modifies this
      ensures Valid()
      ensures onlineUsers == old(onlineUsers) && callOrder == old(callOrder)
      ensures var found := LookUp(old(calls), old(protoStatus), callId);
        threw <==> found.BuiltinFunction? && sender !in onlineUsers && onlineUsers != map[]
      ensures var found := LookUp(old(calls), old(protoStatus), callId);
        !found.Own? ==>
          && calls == old(calls)
          && if found.Undefined? || sender in onlineUsers then
               protoStatus == old(protoStatus) && sent == [Event(To(sender), CallError)]
             else
               protoStatus == WriteStatus(old(protoStatus), found, Active) && sent == []
      ensures callId in old(calls) && !IsCallee(old(onlineUsers), old(calls), sender, callId) ==>
        calls == old(calls) && protoStatus == old(protoStatus) && sent == [Event(To(sender), CallError)]
      ensures IsCallee(old(onlineUsers), old(calls), sender, callId) ==>
        var c := old(calls)[callId];
        && calls == old(calls)[callId := c.(status := Active)]
        && protoStatus == old(protoStatus)
        && sent == match SocketOf(onlineUsers, c.caller)
                   case Some(s) => [Event(To(s), CallAnswered(callId)), Event(To(sender), CallConnected(callId))]
                   case None => []
    {
      var call := LookUp(calls, protoStatus, callId);
      if call.Undefined? || CalleeOf(call) != UserOf(onlineUsers, sender) {
        return [Event(To(sender), CallError)], false;
      }
      if !call.Own? {
        protoStatus := WriteStatus(protoStatus, call, Active);
        return [], call.BuiltinFunction? && onlineUsers != map[];
      }
      calls := calls[callId := call.record.(status := Active)];
      var callerSocketId := SocketOf(onlineUsers, call.record.caller);
      sent, threw := [], false;
      if callerSocketId.Some? {
        sent := [Event(To(callerSocketId.value), CallAnswered(callId)), Event(To(sender), CallConnected(callId))];
      }
    }

    /** `reject-call` (server.js:133-156). A sender who is not the callee is
        ignored; an inherited value passes the guard as in `AnswerCall`. A
        record's status is set to rejected whatever it was before. */
    method RejectCall(sender: SocketId, callId: CallId) returns (sent: seq<Event>, threw: bool)
      requires Valid()
      modifies this
      ensures Valid()
      ensures onlineUsers == old(onlineUsers) && callOrder == old(callOrder)
      ensures var found := LookUp(old(calls), old(protoStatus), callId);
        threw <==> found.BuiltinFunction? && sender !in onlineUsers && onlineUsers != map[]
      ensures var found := LookUp(old(calls), old(protoStatus), callId);
        !found.Own? ==>
          && calls == old(calls) && sent == []
          && protoStatus == if found.Undefined? || sender in onlineUsers then old(protoStatus)
                            else WriteStatus(old(protoStatus), found, Rejected)
      ensures callId in old(calls) && !IsCallee(old(onlineUsers), old(calls), sender, callId) ==>
        calls == old(calls) && protoStatus == old(protoStatus) && sent == []
      ensures IsCallee(old(onlineUsers), old(calls), sender, callId) ==>
        var c := old(calls)[callId];
        && calls == old(calls)[callId := c.(status := Rejected)]
        && protoStatus == old(protoStatus)
        && sent == Notify(SocketOf(onlineUsers, c.caller), CallRejected(callId))
    {
      var call := LookUp(calls, protoStatus, callId);
      if call.Undefined? || CalleeOf(call) != UserOf(onlineUsers, sender) {
        return [], false;
      }
      if !call.Own? {
        protoStatus := WriteStatus(protoStatus, call, Rejected);
        return [], call.BuiltinFunction? && onlineUsers != map[];
      }
      calls := calls[callId := call.record.(status := Rejected)];
      var callerSocketId := SocketOf(onlineUsers, call.record.caller);
      sent, threw := [], false;
      if callerSocketId.Some? {
        sent := [Event(To(callerSocketId.value), CallRejected(callId))];
      }
    }

    /** `end-call` (server.js:159-189), without the deferred delete, which is
        `Purge`. The code tells each online party except the sending socket;
        since the sender is one of the parties, that is exactly the other one.
        The guard reads `caller` first, so a built-in function throws for any
        sender; `__proto__` or `status` passes it for a socket that never
        logged in and then finds no socket for its undefined parties. */
    method EndCall(sender: SocketId, callId: CallId) returns (sent: seq<Event>, threw: bool)
      requires Valid()
      modifies this
      ensures Valid()
      ensures onlineUsers == old(onlineUsers) && callOrder == old(callOrder)
      ensures threw <==> LookUp(old(calls), old(protoStatus), callId).BuiltinFunction?
      ensures var found := LookUp(old(calls), old(protoStatus), callId);
        !found.Own? ==>
          && calls == old(calls) && sent == []
          && protoStatus == if found.Undefined? || found.BuiltinFunction? || sender in onlineUsers then old(protoStatus)
                            else WriteStatus(old(protoStatus), found, Ended)
      ensures callId in old(calls)
              && !IsCaller(old(onlineUsers), old(calls), sender, callId)
              && !IsCallee(old(onlineUsers), old(calls), sender, callId) ==>
        calls == old(calls) && protoStatus == old(protoStatus) && sent == []
      ensures IsCaller(old(onlineUsers), old(calls), sender, callId)
              || IsCallee(old(onlineUsers), old(calls), sender, callId) ==>
        var c := old(calls)[callId];
        && calls == old(calls)[callId := c.(status := Ended)]
        && protoStatus == old(protoStatus)
        && sent == Notify(SocketOf(onlineUsers, Other(c, onlineUsers[sender])), CallEnded(callId, HungUp))
      ensures forall e :: e in sent ==> e.target != To(sender)
    {
      var call := LookUp(calls, protoStatus, callId);
      if call.BuiltinFunction? {
        return [], true;
      }
      var userId := UserOf(onlineUsers, sender);
      if call.Undefined? || (CallerOf(call) != userId && CalleeOf(call) != userId) {
        return [], false;
      }
      if !call.Own? {
        protoStatus := WriteStatus(protoStatus, call, Ended);
        return [], false;
      }
      calls := calls[callId := call.record.(status := Ended)];
      var callerSocketId := SocketOf(onlineUsers, call.record.caller);
      var calleeSocketId := SocketOf(onlineUsers, call.record.callee);
      sent, threw := [], false;
      if callerSocketId.Some? && callerSocketId.value != sender {
        sent := sent + [Event(To(callerSocketId.value), CallEnded(callId, HungUp))];
      }
      if calleeSocketId.Some? && calleeSocketId.value != sender {
        sent := sent + [Event(To(calleeSocketId.value), CallEnded(callId, HungUp))];
      }
    }

    /** The timer of `end-call` firing (server.js:186-188): `delete calls[callId]`,
        which does nothing when the id is absent. */
    method Purge(callId: CallId)
      requires Valid()
      modifies this
      ensures protoStatus == old(protoStatus)
      ensures Valid()
      ensures onlineUsers == old(onlineUsers)
      ensures calls == old(calls) - {callId}
      ensures callOrder == Without(old(callOrder), callId)
    {
      calls := calls - {callId};
      callOrder := Without(callOrder, callId);
    }

    /** `ice-candidate` (server.js:192-209): sent to the callee when the sender
        is the caller, to the caller otherwise, with no check that the sender
        is a party. It never comes back to the sender and always reaches a
        party of the call. Choosing the target reads `caller`, so a built-in
        function throws; `__proto__` or `status` has only undefined parties,
        for whom no socket is found. */
    method RelayIceCandidate(sender: SocketId, callId: CallId, candidate: Blob) returns (sent: seq<Event>, threw: bool)
      requires Valid()
      ensures threw <==> LookUp(calls, protoStatus, callId).BuiltinFunction?
      ensures callId !in calls ==> sent == []
      ensures callId in calls ==>
        var c := calls[callId];
        var senderId := UserOf(onlineUsers, sender);
        sent == Notify(SocketOf(onlineUsers, if senderId == Some(c.caller) then c.callee else c.caller),
                       IceCandidate(callId, candidate, senderId))
      ensures forall e :: e in sent ==>
        && callId in calls && e.target.To? && e.target.socket != sender
        && e.target.socket in onlineUsers && Names(calls[callId], onlineUsers[e.target.socket])
    {
      var call := LookUp(calls, protoStatus, callId);
      if call.Undefined? {
        return [], false;
      }
      if call.BuiltinFunction? {
        return [], true;
      }
      if !call.Own? {
        return [], false;
      }
      var senderId := UserOf(onlineUsers, sender);
      var targetId := if senderId == Some(call.record.caller) then call.record.callee else call.record.caller;
      var targetSocketId := SocketOf(onlineUsers, targetId);
      sent, threw := [], false;
      if targetSocketId.Some? {
        sent := [Event(To(targetSocketId.value), IceCandidate(callId, candidate, senderId))];
      }
    }

    /** `offer` (server.js:212-228): only the caller's offer is forwarded,
        and only to the callee. The guard reads `caller`, so a built-in
        function throws; `__proto__` or `status` reaches no socket. */
    method RelayOffer(sender: SocketId, callId: CallId, offer: Blob) returns (sent: seq<Event>, threw: bool)
      requires Valid()
      ensures threw <==> LookUp(calls, protoStatus, callId).BuiltinFunction?
      ensures !IsCaller(onlineUsers, calls, sender, callId) ==> sent == []
      ensures IsCaller(onlineUsers, calls, sender, callId) ==>
        var c := calls[callId];
        sent == Notify(SocketOf(onlineUsers, c.callee), Offer(callId, offer, Some(c.caller)))
      ensures forall e :: e in sent ==>
        && callId in calls && e.target.To? && e.target.socket != sender
        && e.target.socket in onlineUsers && onlineUsers[e.target.socket] == calls[callId].callee
    {
      var call := LookUp(calls, protoStatus, callId);
      if call.BuiltinFunction? {
        return [], true;
      }
      if call.Undefined? || CallerOf(call) != UserOf(onlineUsers, sender) || !call.Own? {
        return [], false;
      }
      var calleeSocketId := SocketOf(onlineUsers, call.record.callee);
      sent, threw := [], false;
      if calleeSocketId.Some? {
        sent := [Event(To(calleeSocketId.value), Offer(callId, offer, UserOf(onlineUsers, sender)))];
      }
    }

    /** `answer` (server.js:231-247): only the callee's answer is forwarded,
        and only to the caller. An inherited value passes the guard for a
        socket that never logged in; the `find` for its caller then throws
        for a built-in function once one socket is online, and finds no
        socket otherwise. */
    method RelayAnswer(sender: SocketId, callId: CallId, answer: Blob) returns (sent: seq<Event>, threw: bool)
      requires Valid()
      ensures threw <==> LookUp(calls, protoStatus, callId).BuiltinFunction? && sender !in onlineUsers && onlineUsers != map[]
      ensures !IsCallee(onlineUsers, calls, sender, callId) ==> sent == []
      ensures IsCallee(onlineUsers, calls, sender, callId) ==>
        var c := calls[callId];
        sent == Notify(SocketOf(onlineUsers, c.caller), Answer(callId, answer, Some(c.callee)))
      ensures forall e :: e in sent ==>
        && callId in calls && e.target.To? && e.target.socket != sender
        && e.target.socket in onlineUsers && onlineUsers[e.target.socket] == calls[callId].caller
    {
      var call := LookUp(calls, protoStatus, callId);
      if call.Undefined? || CalleeOf(call) != UserOf(onlineUsers, sender) {
        return [], false;
      }
      if !call.Own? {
        return [], call.BuiltinFunction? && onlineUsers != map[];
      }
      var callerSocketId := SocketOf(onlineUsers, call.record.caller);
      sent, threw := [], false;
      if callerSocketId.Some? {
        sent := [Event(To(callerSocketId.value), Answer(callId, answer, UserOf(onlineUsers, sender)))];
      }
    }

    /** The `forEach` callback of `disconnect` (server.js:266-285) for one
        key, once the binding of `userId` is gone: a record naming `userId`
        is deleted, after a notice to its other party if it was live. The key
        order is brought up to date by `Disconnect` once the scan is over. */
    method ForgetCall(callId: CallId, userId: UserId) returns (sent: seq<Event>)
      requires Injective(onlineUsers) && WellFormed(calls) && callId in calls
      modifies this
      ensures protoStatus == old(protoStatus)
      ensures onlineUsers == old(onlineUsers) && callOrder == old(callOrder)
      ensures calls == if Names(old(calls)[callId], userId) then old(calls) - {callId} else old(calls)
      ensures sent == PeerOfflineNotice(callId, old(calls)[callId], onlineUsers, userId)
    {
      var call := calls[callId];
      sent := [];
      if call.caller == userId || call.callee == userId {
        if call.status == Active || call.status == Ringing {
          var otherUserId := if call.caller == userId then call.callee else call.caller;
          var otherSocketId := SocketOf(onlineUsers, otherUserId);
          if otherSocketId.Some? {
            sent := [Event(To(otherSocketId.value), CallEnded(callId, PeerOffline))];
          }
        }
        calls := calls - {callId};
      }
    }

    /** `Object.keys(calls).forEach(...)` of `disconnect` (server.js:266-285)
        for the user `userId`, whose binding is already gone: the keys are
        visited in order; every record naming `userId` is deleted, with a
        notice to the other party for the live ones. */
    method ForgetCallsOf(userId: UserId) returns (sent: seq<Event>)
      requires Valid()
      modifies this
      ensures protoStatus == old(protoStatus)
      ensures Valid()
      ensures onlineUsers == old(onlineUsers)
      ensures calls == WithoutParty(old(calls), userId)
      ensures callOrder == StillIn(old(callOrder), calls)
      ensures sent == PeerOfflineNotices(old(callOrder), old(calls), onlineUsers, userId)
    {
      ghost var calls0 := calls;
      var ids := callOrder;
      sent := [];
      var i := 0;
      while i < |ids|
        invariant 0 <= i <= |ids|
        invariant onlineUsers == old(onlineUsers) && Injective(onlineUsers) && protoStatus == old(protoStatus)
        invariant calls0 == old(calls) && ids == old(callOrder) && callOrder == ids
        invariant Distinct(ids) && WellFormed(calls0) && forall id :: id in ids <==> id in calls0
        invariant ForgetInvariant(calls, calls0, ids, i, userId)
        invariant sent == PeerOfflineNotices(ids[..i], calls0, onlineUsers, userId)
      {
        var callId := ids[i];
        ForgetStep(calls, calls0, ids, i, userId);
        NoticesStep(ids, i, calls0, onlineUsers, userId);
        var notice := ForgetCall(callId, userId);
        sent := sent + notice;
        i := i + 1;
      }
      assert ids[..i] == ids;
      ForgetDone(calls, calls0, ids, userId);
      callOrder := StillIn(ids, calls);
    }

    /** `disconnect` (server.js:250-287). A socket whose binding is missing or
        falsy changes nothing. Otherwise the binding goes first, then the
        offline broadcast, then every record naming the user is deleted, in
        key order, with a notice to the other party for the live ones. */
    method Disconnect(sender: SocketId) returns (sent: seq<Event>)
      requires Valid()
      modifies this
      ensures protoStatus == old(protoStatus)
      ensures Valid()
      ensures !LoggedIn(old(onlineUsers), sender) ==>
        && onlineUsers == old(onlineUsers) && calls == old(calls) && callOrder == old(callOrder)
        && sent == []
      ensures LoggedIn(old(onlineUsers), sender) ==>
        var userId := old(onlineUsers)[sender];
        && onlineUsers == old(onlineUsers) - {sender}
        && calls == WithoutParty(old(calls), userId)
        && callOrder == StillIn(old(callOrder), calls)
        && sent == [Event(Broadcast, UserStatus(userId, Offline))]
                   + PeerOfflineNotices(old(callOrder), old(calls), onlineUsers, userId)
      ensures LoggedIn(old(onlineUsers), sender) ==>
        forall id :: id in calls ==> !Names(calls[id], old(onlineUsers)[sender])
    {
      var userId := UserOf(onlineUsers, sender);
      if userId.None? || !Truthy(userId.value) {
        return [];
      }
      Unbind(onlineUsers, sender, userId.value);
      onlineUsers := onlineUsers - {sender};
      sent := [Event(Broadcast, UserStatus(userId.value, Offline))];
      var notices := ForgetCallsOf(userId.value);
      sent := sent + notices;
    }
  }
}
