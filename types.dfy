/** Values shared by the registry, the call table and the signalling handlers. */
module Types {

  datatype Option<+T> = None | Some(value: T)

  /** A connection handle issued by socket.io. socket.io never issues an empty
      id, so every handle is truthy in JavaScript: a successful
      `Object.keys(...).find(...)` always passes the `if (socketId)` tests. */
  type SocketId = s: string | s != "" witness "socket"

  /** The identity a client chooses at login. */
  type UserId = string

  /** A call identifier: created by `call`, echoed back by clients. */
  type CallId = string

  /** An opaque handshake payload (ICE candidate, SDP offer or answer). */
  type Blob = string

  /** JavaScript truthiness of a string: only the empty string is falsy. */
  predicate Truthy(u: UserId) {
    u != ""
  }

  datatype Status = Ringing | Active | Rejected | Ended

  /** The statuses for which `disconnect` tells the other party. */
  predicate Live(s: Status) {
    s == Active || s == Ringing
  }

  datatype Presence = Online | Offline

  /** The three reasons `call` answers with `call-failed`. */
  datatype CallFailure = NotLoggedIn | SelfCall | CalleeOffline

  /** `call-ended` carries no reason after `end-call`, and the
      "peer went offline" reason after `disconnect`. */
  datatype EndReason = HungUp | PeerOffline

  /** `socket.emit` and `io.to(id).emit` address one socket; `io.emit` addresses everyone. */
  datatype Target = To(socket: SocketId) | Broadcast

  /** The events the server emits, one constructor per event name. The
      human-readable strings of `login-failed`, `call-failed` and `call-error`
      are not modelled; `call-failed` carries which check failed instead. */
  datatype Message =
    | LoginSuccess(userId: UserId)
    | LoginFailed
    | UserStatus(userId: UserId, presence: Presence)
    | CallFailed(failure: CallFailure)
    | IncomingCall(callId: CallId, callerId: UserId)
    | CallInitiated(callId: CallId, calleeId: UserId)
    | CallAnswered(callId: CallId)
    | CallConnected(callId: CallId)
    | CallError
    | CallRejected(callId: CallId)
    | CallEnded(callId: CallId, reason: EndReason)
    | IceCandidate(callId: CallId, candidate: Blob, senderId: Option<UserId>)
    | Offer(callId: CallId, offer: Blob, senderId: Option<UserId>)
    | Answer(callId: CallId, answer: Blob, senderId: Option<UserId>)

  datatype Event = Event(target: Target, message: Message)

  /** Emit `m` to the socket a reverse lookup found, or nothing when it found none. */
  function Notify(found: Option<SocketId>, m: Message): seq<Event> {
    match found
    case Some(s) => [Event(To(s), m)]
    case None => []
  }
}
