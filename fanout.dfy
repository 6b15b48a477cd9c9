/**
 * The event service: a registry of each user's open sockets, kept by the
 * connect and disconnect handlers, and the fan-out of every message of the
 * event channel to the sockets of the user it names.
 */
module EventFanout {
  import opened Wrappers
  import opened SharedTypes

  /** The socket event name every order event is emitted under. */
  const ORDER_UPDATE: string := "ORDER_UPDATE"

  /** One `io.to(socketId).emit(name, payload)`. */
  datatype Emit = Emit(socketId: string, name: string, payload: Json)

  /** No user is kept with an empty set of sockets. */
  predicate NoEmptySets(m: map<string, set<string>>)
  {
    forall u :: u in m ==> m[u] != {}
  }

  /** The sockets registered for a user; none when the user has no entry. */
  function SocketsOf(m: map<string, set<string>>, userId: string): set<string>
  {
    if userId in m then m[userId] else {}
  }

  /** The connection handler's update: the user's set, created if absent, gains the socket. */
  function Connected(m: map<string, set<string>>, userId: string, socketId: string): (r: map<string, set<string>>)
    ensures NoEmptySets(m) ==> NoEmptySets(r)
    ensures SocketsOf(r, userId) == SocketsOf(m, userId) + {socketId}
    ensures forall v :: v != userId ==> (v in r <==> v in m) && SocketsOf(r, v) == SocketsOf(m, v)
  {
    m[userId := SocketsOf(m, userId) + {socketId}]
  }

  /**
   * The disconnect handler's update: the socket leaves its own user's set,
   * and a set left empty takes its key with it; an unknown user changes nothing.
   */
  function Disconnected(m: map<string, set<string>>, userId: string, socketId: string): (r: map<string, set<string>>)
    ensures NoEmptySets(m) ==> NoEmptySets(r)
    ensures SocketsOf(r, userId) == SocketsOf(m, userId) - {socketId}
    ensures userId in r <==> SocketsOf(m, userId) - {socketId} != {}
    ensures userId !in m ==> r == m
    ensures forall v :: v != userId ==> (v in r <==> v in m) && SocketsOf(r, v) == SocketsOf(m, v)
  {
    if userId !in m then m
    else
      var rest := m[userId] - {socketId};
      if rest == {} then m - {userId} else m[userId := rest]
  }

  /** Which user a channel message is for: its `userId`, when it is an object with a string there. */
  function Addressee(message: Option<Json>): Option<string>
  {
    match message
    case Some(JObj(fields)) => if "userId" in fields && fields["userId"].JStr? then Some(fields["userId"].s) else None
    case _ => None
  }

  /** The sockets a channel message is emitted to. */
  function Recipients(m: map<string, set<string>>, message: Option<Json>): set<string>
  {
    match Addressee(message)
    case Some(userId) => SocketsOf(m, userId)
    case None => {}
  }

  class SessionRegistry {
    /** `userSockets`: user id to the ids of that user's open sockets. */
    var userSockets: map<string, set<string>>

    ghost predicate Valid()
      reads this
    {
      NoEmptySets(userSockets)
    }

    constructor ()
      ensures Valid() && userSockets == map[]
    {
      userSockets := map[];
    }

    /** `io.on('connection')`: registers the authenticated user's new socket. */
    method Connect(userId: string, socketId: string)
      requires Valid()
      modifies this
      ensures Valid()
      ensures userSockets == Connected(old(userSockets), userId, socketId)
      ensures socketId in userSockets[userId]
    {
      if userId !in userSockets {
        userSockets := userSockets[userId := {}];
      }
      userSockets := userSockets[userId := userSockets[userId] + {socketId}];
    }

    /** `socket.on('disconnect')`: unregisters the socket, dropping the user once no socket is left. */
    method Disconnect(userId: string, socketId: string)
      requires Valid()
      modifies this
      ensures Valid()
      ensures userSockets == Disconnected(old(userSockets), userId, socketId)
    {
      if userId in userSockets {
        var sockets := userSockets[userId] - {socketId};
        userSockets := userSockets[userId := sockets];
        if |sockets| == 0 {
          userSockets := userSockets - {userId};
        }
      }
    }

    /**
     * The `events:order:status` handler: the message (None when it is not
     * JSON) is emitted once to each socket of its user, to none when the user
     * has no entry or the message names no user.
     */
    method Broadcast(message: Option<Json>) returns (emits: seq<Emit>)
      ensures forall s :: s in Recipients(userSockets, message) <==> exists i :: 0 <= i < |emits| && emits[i].socketId == s
      ensures forall i, j :: 0 <= i < j < |emits| ==> emits[i].socketId != emits[j].socketId
      ensures |emits| == |Recipients(userSockets, message)|
      ensures forall i :: 0 <= i < |emits| ==> emits[i].name == ORDER_UPDATE && emits[i].payload == message.value
    {
      emits := [];
      var userId := Addressee(message);
      if userId.None? || userId.value !in userSockets {
        return;
      }
      var sockets := userSockets[userId.value];
      var remaining := sockets;
      while remaining != {}
        invariant remaining <= sockets
        invariant forall s :: s in sockets <==> s in remaining || exists i :: 0 <= i < |emits| && emits[i].socketId == s
        invariant forall i :: 0 <= i < |emits| ==> emits[i].socketId !in remaining
        invariant forall i, j :: 0 <= i < j < |emits| ==> emits[i].socketId != emits[j].socketId
        invariant |emits| + |remaining| == |sockets|
        invariant forall i :: 0 <= i < |emits| ==> emits[i].name == ORDER_UPDATE && emits[i].payload == message.value
        decreases |remaining|
      {
        var socketId :| socketId in remaining;
        ghost var before := emits;
        emits := emits + [Emit(socketId, ORDER_UPDATE, message.value)];
        remaining := remaining - {socketId};
        assert forall i :: 0 <= i < |before| ==> emits[i] == before[i];
        assert emits[|before|].socketId == socketId;
      }
    }
  }

  /** A connect followed by the same socket's disconnect restores the registry, if the socket was new. */
  lemma ConnectDisconnect(m: map<string, set<string>>, userId: string, socketId: string)
    requires NoEmptySets(m)
    requires socketId !in SocketsOf(m, userId)
    ensures Disconnected(Connected(m, userId, socketId), userId, socketId) == m
  {
    var r := Disconnected(Connected(m, userId, socketId), userId, socketId);
    forall v ensures v in r <==> v in m {
    }
    forall v | v in r ensures r[v] == m[v] {
      assert SocketsOf(r, v) == SocketsOf(m, v);
    }
  }

  /** A disconnect leaves the user's other sockets registered. */
  lemma OtherSocketsStay(m: map<string, set<string>>, userId: string, socketId: string, other: string)
    requires other in SocketsOf(m, userId) && other != socketId
    ensures other in SocketsOf(Disconnected(m, userId, socketId), userId)
  {
  }

  /** A message whose `userId` has no entry reaches nobody; one that is not JSON neither. */
  lemma UnaddressedReachesNobody(m: map<string, set<string>>, message: Option<Json>)
    requires Addressee(message).None? || Addressee(message).value !in m
    ensures Recipients(m, message) == {}
  {
  }
}
