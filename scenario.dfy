/** Whole sessions replayed against `SignalingServer`, from a fresh server:
    the events each handler emits follow from the handlers' contracts alone. */
module Scenario {
  import opened Types
  import opened Registry
  import opened CallTable
  import opened Signaling

  /** A fresh server with A logged in on socket "sa" and B on "sb". */
  method TwoOnline() returns (server: SignalingServer, sent: seq<Event>)
    ensures fresh(server) && server.Valid()
    ensures server.onlineUsers == map["sa" := "A", "sb" := "B"]
    ensures server.calls == map[] && server.callOrder == []
    ensures sent == [
      Event(To("sa"), LoginSuccess("A")), Event(Broadcast, UserStatus("A", Online)),
      Event(To("sb"), LoginSuccess("B")), Event(Broadcast, UserStatus("B", Online))]
  {
    server := new SignalingServer();
    var loginA := server.Login("sa", "A");
    var loginB := server.Login("sb", "B");
    sent := loginA + loginB;
  }

  /** A calls B and B answers. */
  method Connect(server: SignalingServer, now: nat) returns (sent: seq<Event>)
    requires server.Valid()
    requires server.onlineUsers == map["sa" := "A", "sb" := "B"]
    requires server.calls == map[] && server.callOrder == []
    modifies server
    ensures server.Valid() && server.onlineUsers == map["sa" := "A", "sb" := "B"]
    ensures var id := MakeCallId("A", "B", now);
      && server.calls == map[id := CallRecord("A", "B", Active)] && server.callOrder == [id]
      && sent == [
        Event(To("sb"), IncomingCall(id, "A")), Event(To("sa"), CallInitiated(id, "B")),
        Event(To("sa"), CallAnswered(id)), Event(To("sb"), CallConnected(id))]
  {
    assert SocketOf(server.onlineUsers, "B") == Some("sb");
    assert SocketOf(server.onlineUsers, "A") == Some("sa");
    var id := MakeCallId("A", "B", now);
    var call := server.Call("sa", "B", now);
    var answerCall, threw := server.AnswerCall("sb", id);
    sent := call + answerCall;
  }

  /** The media handshake between A and B over an active call. */
  method Handshake(server: SignalingServer, id: CallId) returns (sent: seq<Event>)
    requires server.Valid() && server.onlineUsers == map["sa" := "A", "sb" := "B"]
    requires id in server.calls && server.calls[id].caller == "A" && server.calls[id].callee == "B"
    ensures sent == [
      Event(To("sb"), Offer(id, "sdp1", Some("A"))),
      Event(To("sa"), Answer(id, "sdp2", Some("B"))),
      Event(To("sa"), IceCandidate(id, "cand", Some("B")))]
  {
    assert SocketOf(server.onlineUsers, "B") == Some("sb");
    assert SocketOf(server.onlineUsers, "A") == Some("sa");
    var offer, t1 := server.RelayOffer("sa", id, "sdp1");
    var answer, t2 := server.RelayAnswer("sb", id, "sdp2");
    var ice, t3 := server.RelayIceCandidate("sb", id, "cand");
    sent := offer + answer + ice;
  }

  /** A's socket drops during the call. */
  method DropCaller(server: SignalingServer, id: CallId) returns (sent: seq<Event>)
    requires server.Valid() && server.onlineUsers == map["sa" := "A", "sb" := "B"]
    requires server.calls == map[id := CallRecord("A", "B", Active)] && server.callOrder == [id]
    modifies server
    ensures server.onlineUsers == map["sb" := "B"] && server.calls == map[] && server.callOrder == []
    ensures sent == [Event(Broadcast, UserStatus("A", Offline)), Event(To("sb"), CallEnded(id, PeerOffline))]
  {
    ghost var before := server.calls;
    assert map["sa" := "A", "sb" := "B"] - {"sa"} == map["sb" := "B"];
    sent := server.Disconnect("sa");
    assert SocketOf(map["sb" := "B"], "B") == Some("sb");
    assert [id][..0] == [];
    assert PeerOfflineNotices([id], before, map["sb" := "B"], "A") == [Event(To("sb"), CallEnded(id, PeerOffline))];
    assert server.calls == map[];
  }

  /** A logs in on socket "sa", B on "sb"; A calls B, B answers; offer,
      answer and one ICE candidate are relayed; then A's socket drops. */
  method CallAndHangUpByDisconnect(now: nat) returns (log: seq<Event>)
    ensures var id := MakeCallId("A", "B", now);
      log == [
        Event(To("sa"), LoginSuccess("A")), Event(Broadcast, UserStatus("A", Online)),
        Event(To("sb"), LoginSuccess("B")), Event(Broadcast, UserStatus("B", Online)),
        Event(To("sb"), IncomingCall(id, "A")), Event(To("sa"), CallInitiated(id, "B")),
        Event(To("sa"), CallAnswered(id)), Event(To("sb"), CallConnected(id)),
        Event(To("sb"), Offer(id, "sdp1", Some("A"))),
        Event(To("sa"), Answer(id, "sdp2", Some("B"))),
        Event(To("sa"), IceCandidate(id, "cand", Some("B"))),
        Event(Broadcast, UserStatus("A", Offline)), Event(To("sb"), CallEnded(id, PeerOffline))
      ]
  {
    var server, logins := TwoOnline();
    var id := MakeCallId("A", "B", now);
    var connect := Connect(server, now);
    var handshake := Handshake(server, id);
    var drop := DropCaller(server, id);
    log := logins + connect + handshake + drop;
  }

  /** Nothing in `answer-call` looks at the status: after A hangs up, B can
      still answer, and the call becomes active again until the delete
      scheduled by `end-call` fires. */
  method AnswerAfterHangUp(now: nat) returns (status: Status, sent: seq<Event>)
    ensures var id := MakeCallId("A", "B", now);
      status == Active && sent == [Event(To("sa"), CallAnswered(id)), Event(To("sb"), CallConnected(id))]
  {
    var server := new SignalingServer();
    var loginA := server.Login("sa", "A");
    var loginB := server.Login("sb", "B");
    assert server.onlineUsers == map["sa" := "A", "sb" := "B"];
    assert SocketOf(server.onlineUsers, "B") == Some("sb");
    assert SocketOf(server.onlineUsers, "A") == Some("sa");
    var id := MakeCallId("A", "B", now);
    var call := server.Call("sa", "B", now);
    var hangUp, t1 := server.EndCall("sa", id);
    assert server.calls[id].status == Ended;
    var t2;
    sent, t2 := server.AnswerCall("sb", id);
    status := server.calls[id].status;
  }

  /** A second login under a taken id fails, wherever it comes from, and the
      first binding stays. */
  method DuplicateLogin() returns (sent: seq<Event>, holder: Option<SocketId>)
    ensures sent == [Event(To("sb"), LoginFailed)] && holder == Some("sa")
  {
    var server := new SignalingServer();
    var first := server.Login("sa", "A");
    assert server.onlineUsers == map["sa" := "A"];
    sent := server.Login("sb", "A");
    assert SocketOf(server.onlineUsers, "A") == Some("sa");
    holder := SocketOf(server.onlineUsers, "A");
  }

  /** `answer-call` naming `__proto__`: from a socket that never logged in it
      passes the guard, emits nothing and writes `status` on
      `Object.prototype`; from a logged-in socket it is refused with
      `call-error`. Neither changes the tables, and nothing throws. */
  method AnswerInherited() returns (anonymous: seq<Event>, loggedIn: seq<Event>, threw: bool)
    ensures anonymous == [] && loggedIn == [Event(To("sa"), CallError)] && !threw
  {
    var server := new SignalingServer();
    var t1, t2;
    anonymous, t1 := server.AnswerCall("sx", "__proto__");
    var login := server.Login("sa", "A");
    loggedIn, t2 := server.AnswerCall("sa", "__proto__");
    threw := t1 || t2;
  }

  /** Once `answer-call` has written `status` through `__proto__`, the name
      `status` is found too: a socket that never logged in passes the guard
      with it and gets nothing, a logged-in one gets `call-error`. */
  method AnswerStatusAfterPrototypeWrite() returns (first: seq<Event>, second: seq<Event>, third: seq<Event>)
    ensures first == [] && second == [] && third == [Event(To("sa"), CallError)]
  {
    var server := new SignalingServer();
    var before, t0 := server.AnswerCall("sx", "status");
    assert before == [Event(To("sx"), CallError)];
    var t1, t2, t3;
    first, t1 := server.AnswerCall("sx", "__proto__");
    second, t2 := server.AnswerCall("sx", "status");
    var login := server.Login("sa", "A");
    third, t3 := server.AnswerCall("sa", "status");
  }

  /** Naming a built-in method such as `constructor` or `toString` as the
      call id makes `offer`, `end-call` and `ice-candidate` throw for any
      sender, and `answer-call` throw for a socket that never logged in as
      soon as anyone is online; on an empty server the same `answer-call`
      passes quietly. */
  method BuiltinNamesThrow() returns (quiet: bool, offer: bool, endCall: bool, ice: bool, answerCall: bool)
    ensures !quiet
    ensures offer
    ensures endCall
    ensures ice
    ensures answerCall
  {
    var server := new SignalingServer();
    var s0, s1, s2, s3, s4;
    s0, quiet := server.AnswerCall("sx", "constructor");
    var login := server.Login("sa", "A");
    assert server.calls == map[] && server.onlineUsers == map["sa" := "A"];
    assert "constructor" in FunctionKeys && "toString" in FunctionKeys && "valueOf" in FunctionKeys;
    s1, offer := server.RelayOffer("sa", "constructor", "sdp");
    s2, endCall := server.EndCall("sa", "toString");
    s3, ice := server.RelayIceCandidate("sa", "valueOf", "cand");
    assert server.calls == map[] && "sa" in server.onlineUsers && "sx" !in server.onlineUsers;
    s4, answerCall := server.AnswerCall("sx", "constructor");
  }
}
