/**
 * The WebSocket connection registry: an ordered list of live client
 * connections that grows on connect, loses the first occurrence of a
 * connection on disconnect, and drops exactly the connections a send
 * failed on after a broadcast. Which sends fail is an input: the set of
 * broken connections.
 */
module WebSocket {
  import opened Wrappers

  /** A client connection, compared by identity. */
  type Conn = nat

  /** A JSON value, as far as the messages need one. */
  datatype Value = Int(i: int) | Str(s: string) | Null | Obj(fields: seq<(string, Value)>)

  /** The three kinds of message the server pushes. */
  datatype Message =
    | RaffleUpdate(raffleId: nat, data: seq<(string, Value)>)
    | RaffleStarted(raffleId: nat, waitingUntil: string)
    | RaffleCompleted(raffleId: nat, winnerId: Option<nat>)

  function TypeTag(m: Message): string
  {
    match m
    case RaffleUpdate(_, _) => "raffle_update"
    case RaffleStarted(_, _) => "raffle_started"
    case RaffleCompleted(_, _) => "raffle_completed"
  }

  /** The JSON object a typed wrapper broadcasts: the type tag, the raffle id, then the kind's own field. */
  function ToJson(m: Message): (fields: seq<(string, Value)>)
    ensures |fields| == 3 && fields[0] == ("type", Str(TypeTag(m))) && fields[1] == ("raffle_id", Int(m.raffleId))
  {
    match m
    case RaffleUpdate(id, data) => [("type", Str(TypeTag(m))), ("raffle_id", Int(id)), ("data", Obj(data))]
    case RaffleStarted(id, w) => [("type", Str(TypeTag(m))), ("raffle_id", Int(id)), ("waiting_until", Str(w))]
    case RaffleCompleted(id, w) =>
      [("type", Str(TypeTag(m))), ("raffle_id", Int(id)), ("winner_id", if w.Some? then Int(w.value) else Null)]
  }

  /** A client can tell the kind of a message from its type tag alone, and read back its fields. */
  lemma ToJsonInjective(m1: Message, m2: Message)
    ensures ToJson(m1) == ToJson(m2) <==> m1 == m2
    ensures TypeTag(m1) == TypeTag(m2) <==> (m1.RaffleUpdate? && m2.RaffleUpdate?) ||
                                            (m1.RaffleStarted? && m2.RaffleStarted?) ||
                                            (m1.RaffleCompleted? && m2.RaffleCompleted?)
  {
    if ToJson(m1) == ToJson(m2) {
      assert ToJson(m1)[0] == ToJson(m2)[0] && ToJson(m1)[2] == ToJson(m2)[2];
      assert TypeTag(m1) == TypeTag(m2);
      assert "raffle_update"[7] != "raffle_started"[7] && "raffle_update"[7] != "raffle_completed"[7];
      assert "raffle_started"[7] != "raffle_completed"[7];
    }
  }

  /** list.remove after a membership test: the first occurrence of x goes, and an absent x changes nothing. */
  function RemoveFirst(s: seq<Conn>, x: Conn): (r: seq<Conn>)
    ensures x !in s ==> r == s
    ensures x in s ==> |r| == |s| - 1
  {
    if s == [] then []
    else if s[0] == x then s[1..]
    else
      assert x in s[1..] <==> x in s;
      [s[0]] + RemoveFirst(s[1..], x)
  }

  /** The position of the first occurrence of x. */
  function FirstIndex(s: seq<Conn>, x: Conn): (i: nat)
    requires x in s
    ensures i < |s| && s[i] == x
    ensures forall j :: 0 <= j < i ==> s[j] != x
  {
    if s[0] == x then 0
    else
      assert x in s[1..];
      1 + FirstIndex(s[1..], x)
  }

  /** Exactly the first occurrence goes: the list is cut around it. */
  lemma {:induction false} RemoveFirstAt(s: seq<Conn>, x: Conn)
    requires x in s
    ensures RemoveFirst(s, x) == s[..FirstIndex(s, x)] + s[FirstIndex(s, x) + 1..]
  {
    if s[0] != x {
      assert x in s[1..];
      RemoveFirstAt(s[1..], x);
      var i := FirstIndex(s[1..], x);
      assert s[..i + 1] == [s[0]] + s[1..][..i];
      assert s[i + 2..] == s[1..][i + 1..];
    }
  }

  /** Removing the first occurrence takes exactly one copy of x out of the list's contents. */
  lemma {:induction false} RemoveFirstCount(s: seq<Conn>, x: Conn)
    requires x in s
    ensures multiset(RemoveFirst(s, x)) == multiset(s) - multiset{x}
  {
    assert s == [s[0]] + s[1..];
    assert multiset(s) == multiset{s[0]} + multiset(s[1..]);
    if s[0] != x {
      assert x in s[1..];
      RemoveFirstCount(s[1..], x);
      assert RemoveFirst(s, x) == [s[0]] + RemoveFirst(s[1..], x);
    }
  }

  /** The connections a broadcast keeps: those whose send succeeds, in their order. */
  function Keep(s: seq<Conn>, broken: set<Conn>): (r: seq<Conn>)
    ensures |r| <= |s|
  {
    if s == [] then []
    else if s[0] in broken then Keep(s[1..], broken)
    else [s[0]] + Keep(s[1..], broken)
  }

  /** Keep holds exactly the connections of s that are not broken. */
  lemma {:induction false} KeepMembers(s: seq<Conn>, broken: set<Conn>)
    ensures forall c :: c in Keep(s, broken) <==> c in s && c !in broken
  {
    if s != [] {
      KeepMembers(s[1..], broken);
      assert s == [s[0]] + s[1..];
    }
  }

  /** The connections a broadcast collects as failed, in their order, once per occurrence. */
  function Failed(s: seq<Conn>, broken: set<Conn>): (r: seq<Conn>)
    ensures |r| + |Keep(s, broken)| == |s|
  {
    if s == [] then []
    else if s[0] in broken then [s[0]] + Failed(s[1..], broken)
    else Failed(s[1..], broken)
  }

  /** Every collected connection is a broken one. */
  lemma {:induction false} FailedBroken(s: seq<Conn>, broken: set<Conn>, k: nat)
    requires k < |Failed(s, broken)|
    ensures Failed(s, broken)[k] in broken
  {
    if s[0] in broken {
      if k > 0 {
        FailedBroken(s[1..], broken, k - 1);
      }
    } else {
      FailedBroken(s[1..], broken, k);
    }
  }

  /** s with its first k broken occurrences taken out: the list part-way through the removal loop. */
  function DropFailed(s: seq<Conn>, broken: set<Conn>, k: nat): seq<Conn>
  {
    if s == [] then []
    else if s[0] in broken && k > 0 then DropFailed(s[1..], broken, k - 1)
    else [s[0]] + DropFailed(s[1..], broken, k)
  }

  lemma {:induction false} KeepAppend(s: seq<Conn>, c: Conn, broken: set<Conn>)
    ensures Keep(s + [c], broken) == Keep(s, broken) + (if c in broken then [] else [c])
  {
    if s == [] {
      assert Keep([c], broken) == (if c in broken then [] else [c]) by {
        assert [c][1..] == [];
      }
    } else {
      var t := s + [c];
      assert t[0] == s[0] && t[1..] == s[1..] + [c];
      KeepAppend(s[1..], c, broken);
    }
  }

  lemma {:induction false} FailedAppend(s: seq<Conn>, c: Conn, broken: set<Conn>)
    ensures Failed(s + [c], broken) == Failed(s, broken) + (if c in broken then [c] else [])
  {
    if s == [] {
      assert Failed([c], broken) == (if c in broken then [c] else []) by {
        assert [c][1..] == [];
      }
    } else {
      var t := s + [c];
      assert t[0] == s[0] && t[1..] == s[1..] + [c];
      FailedAppend(s[1..], c, broken);
    }
  }

  lemma {:induction false} DropNone(s: seq<Conn>, broken: set<Conn>)
    ensures DropFailed(s, broken, 0) == s
  {
    if s != [] {
      DropNone(s[1..], broken);
    }
  }

  /** Removing the next failed connection advances the removal loop by one. */
  lemma {:induction false} DropStep(s: seq<Conn>, broken: set<Conn>, k: nat)
    requires k < |Failed(s, broken)|
    ensures RemoveFirst(DropFailed(s, broken, k), Failed(s, broken)[k]) == DropFailed(s, broken, k + 1)
  {
    var f := Failed(s, broken)[k];
    if s[0] in broken {
      if k > 0 {
        assert Failed(s, broken)[k] == Failed(s[1..], broken)[k - 1];
        DropStep(s[1..], broken, k - 1);
      } else {
        DropNone(s, broken);
        DropNone(s[1..], broken);
      }
    } else {
      FailedBroken(s, broken, k);
      assert f != s[0];
      DropStep(s[1..], broken, k);
    }
  }

  /** Once every failed connection is removed, what is left is exactly the kept ones. */
  lemma {:induction false} DropAll(s: seq<Conn>, broken: set<Conn>)
    ensures DropFailed(s, broken, |Failed(s, broken)|) == Keep(s, broken)
  {
    if s != [] {
      DropAll(s[1..], broken);
    }
  }

  /** Keeping twice keeps what keeping once keeps: a second broadcast to the same broken set drops nothing. */
  lemma {:induction false} KeepIdempotent(s: seq<Conn>, broken: set<Conn>)
    ensures Keep(Keep(s, broken), broken) == Keep(s, broken)
  {
    if s != [] {
      KeepIdempotent(s[1..], broken);
      if s[0] !in broken {
        assert ([s[0]] + Keep(s[1..], broken))[1..] == Keep(s[1..], broken);
      }
    }
  }

  /** ConnectionManager. */
  class ConnectionManager {
    var activeConnections: seq<Conn>

    constructor ()
      ensures activeConnections == []
    {
      activeConnections := [];
    }

    /** connect: the accepted connection goes at the end of the list. */
    method Connect(ws: Conn)
      modifies this
      ensures activeConnections == old(activeConnections) + [ws]
    {
      activeConnections := activeConnections + [ws];
    }

    /** disconnect: the first occurrence goes if there is one; otherwise nothing happens. */
    method Disconnect(ws: Conn)
      modifies this
      ensures activeConnections == RemoveFirst(old(activeConnections), ws)
    {
      if ws in activeConnections {
        activeConnections := RemoveFirst(activeConnections, ws);
      }
    }

    /** send_personal_message: a failed send disconnects that connection. */
    method SendPersonalMessage(message: Message, ws: Conn, broken: set<Conn>) returns (delivered: bool)
      modifies this
      ensures delivered <==> ws !in broken
      ensures activeConnections == if delivered then old(activeConnections)
                                   else RemoveFirst(old(activeConnections), ws)
    {
      delivered := ws !in broken;
      if !delivered {
        Disconnect(ws);
      }
    }

    /**
     * broadcast: every connection is attempted in list order; the ones
     * whose send failed are collected and then disconnected one by one,
     * which leaves exactly the others, in their original order.
     */
    method Broadcast(message: Message, broken: set<Conn>) returns (delivered: seq<Conn>)
      modifies this
      ensures delivered == Keep(old(activeConnections), broken)
      ensures activeConnections == Keep(old(activeConnections), broken)
    {
      var connections := activeConnections;
      var disconnected: seq<Conn> := [];
      delivered := [];
      var i := 0;
      while i < |connections|
        invariant 0 <= i <= |connections|
        invariant activeConnections == connections
        invariant disconnected == Failed(connections[..i], broken)
        invariant delivered == Keep(connections[..i], broken)
      {
        var c := connections[i];
        KeepAppend(connections[..i], c, broken);
        FailedAppend(connections[..i], c, broken);
        assert connections[..i + 1] == connections[..i] + [c];
        if c in broken {
          disconnected := disconnected + [c];
        } else {
          delivered := delivered + [c];
        }
        i := i + 1;
      }
      assert connections[..i] == connections;
      DropNone(connections, broken);
      var j := 0;
      while j < |disconnected|
        invariant 0 <= j <= |disconnected|
        invariant activeConnections == DropFailed(connections, broken, j)
      {
        DropStep(connections, broken, j);
        Disconnect(disconnected[j]);
        j := j + 1;
      }
      DropAll(connections, broken);
    }

    /** broadcast_raffle_update: a raffle_update message with the raffle's id and data. */
    method BroadcastRaffleUpdate(raffleId: nat, data: seq<(string, Value)>, broken: set<Conn>)
      returns (message: Message, delivered: seq<Conn>)
      modifies this
      ensures TypeTag(message) == "raffle_update" && message == RaffleUpdate(raffleId, data)
      ensures delivered == Keep(old(activeConnections), broken) && activeConnections == delivered
    {
      message := RaffleUpdate(raffleId, data);
      delivered := Broadcast(message, broken);
    }

    /** broadcast_raffle_started: a raffle_started message with the raffle's id and deadline. */
    method BroadcastRaffleStarted(raffleId: nat, waitingUntil: string, broken: set<Conn>)
      returns (message: Message, delivered: seq<Conn>)
      modifies this
      ensures TypeTag(message) == "raffle_started" && message == RaffleStarted(raffleId, waitingUntil)
      ensures delivered == Keep(old(activeConnections), broken) && activeConnections == delivered
    {
      message := RaffleStarted(raffleId, waitingUntil);
      delivered := Broadcast(message, broken);
    }

    /** broadcast_raffle_completed: a raffle_completed message with the raffle's id and winner. */
    method BroadcastRaffleCompleted(raffleId: nat, winnerId: Option<nat>, broken: set<Conn>)
      returns (message: Message, delivered: seq<Conn>)
      modifies this
      ensures TypeTag(message) == "raffle_completed" && message == RaffleCompleted(raffleId, winnerId)
      ensures delivered == Keep(old(activeConnections), broken) && activeConnections == delivered
    {
      message := RaffleCompleted(raffleId, winnerId);
      delivered := Broadcast(message, broken);
    }
  }
}
