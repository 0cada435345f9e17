/** The `onlineUsers` table (server.js:16): socket id to user id, and the
    two lookups the handlers make in it. */
module Registry {
  import opened Types

  /** No user id is bound to two sockets. `login` refuses an id that is
      already bound, so every handler keeps this. */
  ghost predicate Injective(users: map<SocketId, UserId>) {
    forall s, t :: s in users && t in users && s != t ==> users[s] != users[t]
  }

  /** Forward lookup `onlineUsers[socket.id]`; for a connected socket it agrees
      with `socket.userId` (set beside it at login). */
  function UserOf(users: map<SocketId, UserId>, s: SocketId): Option<UserId> {
    if s in users then Some(users[s]) else None
  }

  /** Reverse lookup `Object.keys(onlineUsers).find(key => onlineUsers[key] === u)`.
      The scan returns the first key in insertion order; because the table is
      injective there is at most one such key, so the order does not matter. */
  function SocketOf(users: map<SocketId, UserId>, u: UserId): (r: Option<SocketId>)
    requires Injective(users)
    ensures r.None? <==> forall s: SocketId :: s in users ==> users[s] != u
    ensures r.Some? ==> r.value in users && users[r.value] == u
    ensures forall s: SocketId :: s in users && users[s] == u ==> r == Some(s)
  {
    if u in users.Values then
      var s :| s in users && users[s] == u; Some(s)
    else
      None
  }

  /** Binding a socket to an id nobody holds keeps the table injective, and
      afterwards the reverse lookup of that id finds exactly that socket. */
  lemma BindFresh(users: map<SocketId, UserId>, s: SocketId, u: UserId)
    requires Injective(users)
    requires forall t :: t in users ==> users[t] != u
    ensures Injective(users[s := u])
    ensures SocketOf(users[s := u], u) == Some(s)
  {
  }

  /** Removing a binding keeps the table injective; the removed id is then
      unbound and every other id is found where it was. */
  lemma Unbind(users: map<SocketId, UserId>, s: SocketId, v: UserId)
    requires Injective(users)
    requires s in users
    ensures Injective(users - {s})
    ensures SocketOf(users - {s}, users[s]) == None
    ensures v != users[s] ==> SocketOf(users - {s}, v) == SocketOf(users, v)
  {
  }
}
