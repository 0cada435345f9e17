/** The `calls` table (server.js:18): call id to `{caller, callee, status}`,
    the call id format `caller-callee-now` (server.js:76) and the key order
    in which `Object.keys(calls)` lists the ids. */
module CallTable {
  import opened Types

  datatype CallRecord = CallRecord(caller: UserId, callee: UserId, status: Status)

  /** `call.caller === u || call.callee === u` */
  predicate Names(c: CallRecord, u: UserId) {
    c.caller == u || c.callee == u
  }

  /** The party of `c` that is not `u` (server.js:271): the callee when `u`
      is the caller, the caller otherwise. */
  function Other(c: CallRecord, u: UserId): (r: UserId)
    requires c.caller != c.callee
    requires Names(c, u)
    ensures Names(c, r) && r != u
  {
    if c.caller == u then c.callee else c.caller
  }

  /** The built-in methods a plain object such as `calls = {}` inherits from
      `Object.prototype` in Node.js. Reading `.caller` on one of them hits the
      restricted accessor of `Function.prototype` and throws a TypeError;
      reading `.callee` gives undefined. */
  const FunctionKeys: set<string> := {
    "constructor", "hasOwnProperty", "isPrototypeOf", "propertyIsEnumerable",
    "toString", "toLocaleString", "valueOf",
    "__defineGetter__", "__defineSetter__", "__lookupGetter__", "__lookupSetter__"
  }

  /** The names `calls[id]` can find without `calls` having that key: the
      built-in methods, the accessor `__proto__` (which yields
      `Object.prototype` itself), and `status`, once a handler has written
      `status` on `Object.prototype` through `calls.__proto__`. */
  predicate Inherited(id: CallId) {
    id in FunctionKeys || id == "__proto__" || id == "status"
  }

  /** What `calls[id]` evaluates to: an own record; `Object.prototype`; a
      built-in function; the string written as `Object.prototype.status`; or
      undefined. Only an own record has a `caller` or a `callee`. */
  datatype Found = Own(record: CallRecord) | PrototypeObject | BuiltinFunction | StatusString(status: Status) | Undefined

  /** `calls[id]`, where `protoStatus` is the `status` property written on
      `Object.prototype`, if any. Own keys come first. */
  function LookUp(calls: map<CallId, CallRecord>, protoStatus: Option<Status>, id: CallId): Found {
    if id in calls then Own(calls[id])
    else if id == "__proto__" then PrototypeObject
    else if id in FunctionKeys then BuiltinFunction
    else if id == "status" && protoStatus.Some? then StatusString(protoStatus.value)
    else Undefined
  }

  /** `call.callee` of what the lookup found; `None` is undefined. */
  function CalleeOf(found: Found): Option<UserId> {
    if found.Own? then Some(found.record.callee) else None
  }

  /** `call.caller` of what the lookup found, for anything but a built-in
      function, where reading it throws; `None` is undefined. */
  function CallerOf(found: Found): Option<UserId>
    requires !found.BuiltinFunction?
  {
    if found.Own? then Some(found.record.caller) else None
  }

  /** `call.status = s` on what the lookup found: a record is updated, a write
      through `__proto__` lands on `Object.prototype`, a write on a function
      lands on that function (outside the model), and a write on a string is
      ignored in sloppy mode. */
  function WriteStatus(protoStatus: Option<Status>, found: Found, s: Status): Option<Status> {
    if found.PrototypeObject? then Some(s) else protoStatus
  }

  /** What `call` creates: caller and callee differ, the caller id is truthy,
      and the key is an own key, never an inherited name. */
  ghost predicate WellFormed(calls: map<CallId, CallRecord>) {
    forall id :: id in calls ==>
      calls[id].caller != calls[id].callee && Truthy(calls[id].caller) && !Inherited(id)
  }

  ghost predicate Distinct(ids: seq<CallId>) {
    forall i, j :: 0 <= i < j < |ids| ==> ids[i] != ids[j]
  }

  // ---------------------------------------------------------------------
  // Call ids

  function DigitChar(d: nat): (c: char)
    requires d < 10
  {
    ((('0' as int) + d) as char)
  }

  /** How a template literal renders the millisecond timestamp `Date.now()`:
      decimal digits, most significant first, no leading zero. */
  function Decimal(n: nat): (s: string)
    ensures |s| >= 1
    ensures n >= 10 ==> |s| >= 2
    ensures forall i :: 0 <= i < |s| ==> '0' <= s[i] <= '9'
    ensures s[0] == '0' ==> n == 0
    decreases n
  {
    if n < 10 then [DigitChar(n)] else Decimal(n / 10) + [DigitChar(n % 10)]
  }

  /** Different timestamps render differently. */
  lemma {:induction false} DecimalInjective(a: nat, b: nat)
    requires Decimal(a) == Decimal(b)
    ensures a == b
    decreases a
  {
    if a >= 10 && b >= 10 {
      var da, db := Decimal(a), Decimal(b);
      assert da[|da| - 1] == DigitChar(a % 10) && db[|db| - 1] == DigitChar(b % 10);
      assert a % 10 == b % 10;
      assert da[..|da| - 1] == Decimal(a / 10);
      assert db[..|db| - 1] == Decimal(b / 10);
      DecimalInjective(a / 10, b / 10);
    } else if a < 10 && b < 10 {
      assert Decimal(a)[0] == DigitChar(a) && Decimal(b)[0] == DigitChar(b);
    }
  }

  /** `${callerId}-${calleeId}-${Date.now()}` */
  function MakeCallId(caller: UserId, callee: UserId, now: nat): CallId {
    caller + "-" + callee + "-" + Decimal(now)
  }

  /** For one caller and callee, calls placed in different milliseconds get
      different ids; the same pair in the same millisecond gets the same id,
      and `call` then overwrites the earlier record. */
  lemma {:induction false} CallIdsDifferInTime(caller: UserId, callee: UserId, t1: nat, t2: nat)
    ensures MakeCallId(caller, callee, t1) == MakeCallId(caller, callee, t2) <==> t1 == t2
  {
    var p := caller + "-" + callee + "-";
    if MakeCallId(caller, callee, t1) == MakeCallId(caller, callee, t2) {
      assert (p + Decimal(t1))[|p|..] == Decimal(t1);
      assert (p + Decimal(t2))[|p|..] == Decimal(t2);
      DecimalInjective(t1, t2);
    }
  }

  /** A call id always holds a `-`, which no inherited name does, so
      `calls[callId] = ...` always creates an own key, and looking a call id
      up finds its record or nothing, whatever was written on the prototype. */
  lemma CallIdsNeverInherited(caller: UserId, callee: UserId, now: nat, calls: map<CallId, CallRecord>, protoStatus: Option<Status>)
    ensures !Inherited(MakeCallId(caller, callee, now))
    ensures LookUp(calls, protoStatus, MakeCallId(caller, callee, now)).Own? ||
            LookUp(calls, protoStatus, MakeCallId(caller, callee, now)).Undefined?
  {
    var id := MakeCallId(caller, callee, now);
    assert id[|caller|] == '-';
    if Inherited(id) {
      InheritedHasNoDash(id);
    }
  }

  /** No inherited name holds a `-`. */
  lemma InheritedHasNoDash(k: string)
    requires Inherited(k)
    ensures '-' !in k
  {
  }

  /** The id does not determine the pair: user ids may contain '-', so two
      different pairs calling in the same millisecond get the same id. */
  lemma CallIdsCollideAcrossPairs(x: UserId, y: UserId, z: UserId, now: nat)
    ensures MakeCallId(x + "-" + y, z, now) == MakeCallId(x, y + "-" + z, now)
    ensures (x + "-" + y, z) != (x, y + "-" + z)
  {
    assert |x + "-" + y| != |x|;
  }

  // ---------------------------------------------------------------------
  // Key order of `calls`

  /** `ids` without `id`: the key order after `delete calls[id]`. The
      definition keeps the other ids in their order; the contract states
      membership and distinctness. */
  function Without(ids: seq<CallId>, id: CallId): (r: seq<CallId>)
    ensures forall x :: x in r <==> x in ids && x != id
    ensures Distinct(ids) ==> Distinct(r)
    ensures id !in ids ==> r == ids
  {
    if ids == [] then []
    else
      var rest := Without(ids[1..], id);
      assert Distinct(ids) ==> Distinct(ids[1..]) && ids[0] !in ids[1..];
      (if ids[0] == id then [] else [ids[0]]) + rest
  }

  /** The ids of `ids` that are still keys of `calls`: the key order after
      some keys have been deleted. The definition keeps them in their order;
      the contract states membership and distinctness. */
  function StillIn(ids: seq<CallId>, calls: map<CallId, CallRecord>): (r: seq<CallId>)
    ensures forall x :: x in r <==> x in ids && x in calls
    ensures Distinct(ids) ==> Distinct(r)
    decreases |ids|
  {
    if ids == [] then []
    else
      var n := |ids| - 1;
      StillIn(ids[..n], calls) + (if ids[n] in calls then [ids[n]] else [])
  }

  /** The records of `calls` that do not name `u`: the closed form of what
      the scan of `disconnect` leaves, which `ForgetCallsOf` is proved to reach. */
  function WithoutParty(calls: map<CallId, CallRecord>, u: UserId): map<CallId, CallRecord>
  {
    map id | id in calls && !Names(calls[id], u) :: calls[id]
  }
}
