/** The presence registry of the realtime gateway: the process-wide map from user id to the id
    of that user's socket, written by the `connection` and `disconnect` handlers, read by
    `getReceiverSocketId`, and broadcast (as its key list) after every connect and disconnect. */
module Presence {
  import opened Js

  /** The literal a client sends as `userId` when it has no logged-in user. */
  const Sentinel: string := "undefined"

  /** `__proto__` is an accessor that every plain object inherits from `Object.prototype`.
      Assigning a string through it is ignored, so no entry with this key is ever created. */
  const ProtoKey: string := "__proto__"

  /** The names a plain object inherits from `Object.prototype`. Reading one of them from the
      map gives the inherited member (a function, or the prototype), which is truthy. */
  const PrototypeMembers: set<string> :=
    {"constructor", "hasOwnProperty", "isPrototypeOf", "propertyIsEnumerable", "toLocaleString",
     "toString", "valueOf", "__defineGetter__", "__defineSetter__", "__lookupGetter__",
     "__lookupSetter__", ProtoKey}

  /** A socket as the handlers see it: its own id and the `userId` query value of its
      handshake (None when the query has no `userId`). */
  datatype Connection = Connection(id: string, userId: Option<string>)

  /** The property key a handshake value becomes when it indexes a JS object: an absent
      value is coerced to the string "undefined". */
  function KeyOf(userId: Option<string>): string {
    match userId
    case Some(u) => u
    case None => Sentinel
  }

  /** The guard `userId != "undefined"`. The comparison is loose, so an absent value passes it
      (and is then stored under the key "undefined"). */
  predicate Registers(userId: Option<string>) {
    userId != Some(Sentinel)
  }

  predicate NoDuplicates(s: seq<string>) {
    forall i, j :: 0 <= i < j < |s| ==> s[i] != s[j]
  }

  /** The registry's value: the map from user id to socket id, and its keys in insertion
      order, which is the order `Object.keys` reports them in. */
  datatype Registry = Registry(sockets: map<string, string>, order: seq<string>)

  /** The key list holds every key of the map exactly once, and `__proto__` is never an own key. */
  predicate WellFormed(r: Registry) {
    NoDuplicates(r.order)
    && ProtoKey !in r.sockets
    && (forall u :: u in r.order ==> u in r.sockets)
    && (forall u :: u in r.sockets ==> u in r.order)
  }

  const Empty: Registry := Registry(map[], [])

  function Lookup(r: Registry, userId: string): Option<string> {
    if userId in r.sockets then Some(r.sockets[userId]) else None
  }

  /** `Object.keys(userSocketMap)`: the payload of every `getOnlineUsers` broadcast. */
  function OnlineUsers(r: Registry): (users: seq<string>)
    requires WellFormed(r)
    ensures NoDuplicates(users)
    ensures forall u :: u in users <==> u in r.sockets
  {
    r.order
  }

  /** `s` with every occurrence of `k` removed, the other elements kept in order. */
  function Without(s: seq<string>, k: string): (t: seq<string>)
    ensures forall x :: x in t <==> x in s && x != k
    ensures NoDuplicates(s) ==> NoDuplicates(t)
    ensures k !in s ==> t == s
    ensures NoDuplicates(s) && k in s ==> |t| == |s| - 1
  {
    if s == [] then []
    else if s[0] == k then Without(s[1..], k)
    else
      var t := Without(s[1..], k);
      assert NoDuplicates(s) ==> s[0] !in s[1..] && NoDuplicates(s[1..]);
      assert forall j :: 0 <= j < |t| ==> ([s[0]] + t)[j + 1] == t[j];
      [s[0]] + t
  }

  /** With no duplicates, removing a key takes out exactly the one position it holds. */
  lemma {:induction false} WithoutRemovesOnePosition(s: seq<string>, k: string, i: nat)
    requires NoDuplicates(s) && i < |s| && s[i] == k
    ensures Without(s, k) == s[..i] + s[i + 1..]
  {
    assert NoDuplicates(s[1..]);
    if i == 0 {
      assert k !in s[1..];
    } else {
      assert s[0] != k;
      WithoutRemovesOnePosition(s[1..], k, i - 1);
      assert s[1..][..i - 1] == s[1..i];
      assert s[1..][i..] == s[i + 1..];
      assert s[..i] == [s[0]] + s[1..i];
    }
  }

  /** A key list without duplicates has as many elements as the set it enumerates. */
  lemma {:induction false} DistinctCount(s: seq<string>)
    requires NoDuplicates(s)
    ensures |set x | x in s| == |s|
  {
    if s != [] {
      DistinctCount(s[1..]);
      assert (set x | x in s) == {s[0]} + (set x | x in s[1..]);
      assert s[0] !in s[1..];
    }
  }

  /** The broadcast list has exactly one element per registered user. */
  lemma OnlineUsersCount(r: Registry)
    requires WellFormed(r)
    ensures |OnlineUsers(r)| == |r.sockets|
  {
    DistinctCount(r.order);
    assert (set x | x in r.order) == r.sockets.Keys;
  }

  /** What a handler leaves behind: the new registry and the list it broadcasts. */
  datatype Step = Step(next: Registry, broadcast: seq<string>)

  /** `userSocketMap[userId] = socketId` on the registry value. A new key goes at the end of
      the key list and an existing one keeps its place; the key `__proto__` hits the inherited
      setter, which ignores a string, so nothing changes. */
  function Put(r: Registry, userId: string, socketId: string): (n: Registry)
    requires WellFormed(r)
    ensures WellFormed(n)
    ensures userId == ProtoKey ==> n == r
    ensures userId != ProtoKey ==> Lookup(n, userId) == Some(socketId)
    ensures forall u :: u != userId ==> Lookup(n, u) == Lookup(r, u)
    ensures |r.order| <= |n.order| && n.order[..|r.order|] == r.order
    ensures userId in r.sockets ==> n.order == r.order
  {
    if userId == ProtoKey then r
    else
      var order := if userId in r.sockets then r.order else r.order + [userId];
      assert order[..|r.order|] == r.order;
      Registry(r.sockets[userId := socketId], order)
  }

  /** The `connection` handler: register the socket under its user unless the handshake
      carried the sentinel (or named `__proto__`, which the assignment ignores), then broadcast
      the key list in either case. */
  function OnConnection(r: Registry, c: Connection): (s: Step)
    requires WellFormed(r)
    ensures WellFormed(s.next)
    ensures s.broadcast == OnlineUsers(s.next)
    ensures Registers(c.userId) && KeyOf(c.userId) != ProtoKey ==> Lookup(s.next, KeyOf(c.userId)) == Some(c.id)
    ensures !Registers(c.userId) || KeyOf(c.userId) == ProtoKey ==> s.next == r
    ensures forall u :: u != KeyOf(c.userId) ==> Lookup(s.next, u) == Lookup(r, u)
    // users already online keep their place in the broadcast list
    ensures |r.order| <= |s.next.order| && s.next.order[..|r.order|] == r.order
  {
    var next := if Registers(c.userId) then Put(r, KeyOf(c.userId), c.id) else r;
    Step(next, OnlineUsers(next))
  }

  /** The `disconnect` handler: delete the key of the user id the connection was opened
      with, whichever socket that key now maps to, then broadcast the key list. */
  function OnDisconnect(r: Registry, c: Connection): (s: Step)
    requires WellFormed(r)
    ensures WellFormed(s.next)
    ensures s.broadcast == OnlineUsers(s.next)
    ensures Lookup(s.next, KeyOf(c.userId)) == None
    ensures forall u :: u != KeyOf(c.userId) ==> Lookup(s.next, u) == Lookup(r, u)
    ensures s.next.order == Without(r.order, KeyOf(c.userId))
    ensures KeyOf(c.userId) !in r.sockets ==> s.next == r
  {
    var k := KeyOf(c.userId);
    var next := Registry(r.sockets - {k}, Without(r.order, k));
    assert k !in r.sockets ==> r.sockets - {k} == r.sockets;
    Step(next, OnlineUsers(next))
  }

  /** A second connection of the same user replaces the first one's socket id, and the user
      still occupies one place in the broadcast list, the place of the first connection. */
  lemma LastConnectionWins(r: Registry, first: Connection, second: Connection)
    requires WellFormed(r)
    requires first.userId == second.userId && Registers(first.userId) && KeyOf(first.userId) != ProtoKey
    ensures var once := OnConnection(r, first).next;
            var twice := OnConnection(once, second).next;
            Lookup(twice, KeyOf(second.userId)) == Some(second.id) && twice.order == once.order
  {
  }

  /** The disconnect of an old socket removes the registration a newer socket of the same user
      made: the handler deletes by user id, not by socket id. */
  lemma StaleDisconnectRemovesNewer(r: Registry, older: Connection, newer: Connection)
    requires WellFormed(r)
    requires older.userId == newer.userId && Registers(newer.userId) && KeyOf(newer.userId) != ProtoKey
    ensures var s1 := OnConnection(r, older).next;
            var s2 := OnConnection(s1, newer).next;
            Lookup(s2, KeyOf(newer.userId)) == Some(newer.id)
            && Lookup(OnDisconnect(s2, older).next, KeyOf(newer.userId)) == None
  {
  }

  /** A connection that sends no `userId` at all is registered, and broadcast, under the key
      "undefined"; the sentinel check only stops the literal string. */
  lemma AbsentUserIdRegistersSentinelKey(r: Registry, c: Connection)
    requires WellFormed(r) && c.userId == None
    ensures Lookup(OnConnection(r, c).next, Sentinel) == Some(c.id)
    ensures Sentinel in OnConnection(r, c).broadcast
  {
  }

  /** A handshake carrying the literal "undefined" registers nothing, yet its disconnect deletes
      the key "undefined": the entry a connection without any `userId` installed goes with it. */
  lemma SentinelDisconnectRemovesAnonymous(r: Registry, anonymous: Connection, literal: Connection)
    requires WellFormed(r) && anonymous.userId == None && literal.userId == Some(Sentinel)
    ensures var s1 := OnConnection(r, anonymous).next;
            var s2 := OnConnection(s1, literal).next;
            s2 == s1 && Lookup(s2, Sentinel) == Some(anonymous.id)
            && Lookup(OnDisconnect(s2, literal).next, Sentinel) == None
  {
  }

  /** A handshake naming the user `__proto__` passes the sentinel check but registers nothing:
      the map, the key list and so the broadcast stay as they were, and that user never
      appears online. */
  lemma ProtoUserIdIsNeverOnline(r: Registry, c: Connection)
    requires WellFormed(r) && c.userId == Some(ProtoKey)
    ensures Registers(c.userId)
    ensures OnConnection(r, c).next == r
    ensures ProtoKey !in OnConnection(r, c).broadcast
  {
  }

  /** What reading `userSocketMap[name]` yields: an own entry's socket id, a member inherited
      from `Object.prototype`, or `undefined`. */
  datatype Property = Own(socketId: string) | Inherited(name: string) | Undefined

  /** The registry itself: the module-level `userSocketMap` object, with the insertion order
      of its keys. */
  class Gateway {
    var userSocketMap: map<string, string>
    var keyOrder: seq<string>

    function Value(): Registry
      reads this
    {
      Registry(userSocketMap, keyOrder)
    }

    ghost predicate Valid()
      reads this
    {
      WellFormed(Value())
    }

    constructor ()
      ensures Valid() && Value() == Empty
    {
      userSocketMap := map[];
      keyOrder := [];
    }

    /** `getReceiverSocketId`: the socket id stored for the user; for a name the map does not
        hold, the member `Object.prototype` gives it under that name, else `undefined`. */
    method GetReceiverSocketId(recipientId: string) returns (socketId: Property)
      ensures socketId.Own? <==> recipientId in userSocketMap
      ensures socketId.Own? ==> socketId.socketId == userSocketMap[recipientId]
      ensures socketId.Inherited? <==> recipientId !in userSocketMap && recipientId in PrototypeMembers
      ensures socketId.Inherited? ==> socketId.name == recipientId
      ensures socketId.Undefined? <==> recipientId !in userSocketMap && recipientId !in PrototypeMembers
    {
      if recipientId in userSocketMap {
        socketId := Own(userSocketMap[recipientId]);
      } else if recipientId in PrototypeMembers {
        socketId := Inherited(recipientId);
      } else {
        socketId := Undefined;
      }
    }

    /** The `connection` handler; `online` is what `io.emit("getOnlineUsers", ..)` sends. */
    method Connect(c: Connection) returns (online: seq<string>)
      requires Valid()
      modifies this
      ensures Valid()
      ensures Value() == OnConnection(old(Value()), c).next
      ensures online == OnConnection(old(Value()), c).broadcast
    {
      if c.userId != Some(Sentinel) {
        var userId := KeyOf(c.userId);
        // a string assigned through the inherited `__proto__` setter is dropped
        if userId != ProtoKey {
          if userId !in userSocketMap {
            keyOrder := keyOrder + [userId];
          }
          userSocketMap := userSocketMap[userId := c.id];
        }
      }
      online := keyOrder;
    }

    /** The `disconnect` handler of connection `c`. */
    method Disconnect(c: Connection) returns (online: seq<string>)
      requires Valid()
      modifies this
      ensures Valid()
      ensures Value() == OnDisconnect(old(Value()), c).next
      ensures online == OnDisconnect(old(Value()), c).broadcast
    {
      var userId := KeyOf(c.userId);
      userSocketMap := userSocketMap - {userId};
      keyOrder := Without(keyOrder, userId);
      online := keyOrder;
    }
  }
}
