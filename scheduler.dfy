/**
 * One tick of the draw scheduler: load the open raffles newest first, and
 * for each one that is WAITING with a deadline that has passed, draw it;
 * a draw that returns normally is announced to every WebSocket client
 * with the raffle's id and winner, and a draw that raises is logged and
 * the loop goes on with the next raffle.
 *
 * Each draw sees its own outside world: envs maps a raffle id to the
 * oracle, payout and insert outcome of that raffle's draw.
 */
module Scheduler {
  import opened Wrappers
  import opened Models
  import opened Config
  import opened Crud
  import opened RaffleService
  import opened WebSocket

  /** The ids of the loaded raffles, in the order the query returned them. */
  function Ids(raffles: seq<Raffle>): (ids: seq<nat>)
    ensures |ids| == |raffles| && forall i :: 0 <= i < |raffles| ==> ids[i] == raffles[i].id
  {
    seq(|raffles|, i requires 0 <= i < |raffles| => raffles[i].id)
  }

  /** The tables after the iterations so far, and the completion messages sent. */
  datatype Progress = Progress(tables: Tables, events: seq<Message>)

  /**
   * One iteration, on the raffle with this id as it stands now: skipped
   * unless it is WAITING with a deadline that has passed; otherwise drawn,
   * and announced only when the draw raised nothing.
   */
  function Step(t: Tables, cfg: Settings, id: nat, envs: nat -> DrawEnv, now: Time): Progress
  {
    match RaffleIndex(t.raffles, id)
    case None => Progress(t, [])
    case Some(ri) =>
      if !ReadyToDraw(t.raffles[ri], now) then Progress(t, [])
      else
        var o := Draw(t, cfg, id, envs(id), now);
        if o.error.Some? then Progress(o.after, [])
        else Progress(o.after, [RaffleCompleted(id, o.after.raffles[ri].winnerId)])
  }

  /** The loop: the iterations one after another, in the given order, each on what the previous left. */
  function Tick(t: Tables, cfg: Settings, ids: seq<nat>, envs: nat -> DrawEnv, now: Time): Progress
    decreases |ids|
  {
    if ids == [] then Progress(t, [])
    else
      var first := Step(t, cfg, ids[0], envs, now);
      var rest := Tick(first.tables, cfg, ids[1..], envs, now);
      Progress(rest.tables, first.events + rest.events)
  }

  /**
   * check_raffles_ready_to_draw. A failure of the query itself ends the
   * tick with nothing done. Otherwise the tables and the messages are
   * those of Tick over the open raffles, newest first; the registry keeps
   * the clients that did not fail, once anything was announced.
   */
  method CheckRafflesReadyToDraw(db: Database, ws: ConnectionManager, cfg: Settings, envs: nat -> DrawEnv,
                                 broken: set<Conn>, queryFails: bool, now: Time)
    returns (events: seq<Message>)
    requires db.Valid()
    modifies db`users, db`raffles, db`transactions, ws
    ensures db.Valid()
    ensures queryFails ==> events == [] && db.Snapshot() == old(db.Snapshot())
                           && ws.activeConnections == old(ws.activeConnections)
    ensures !queryFails ==>
      Progress(db.Snapshot(), events) == Tick(old(db.Snapshot()), cfg, Ids(GetAllActive(old(db.raffles))), envs, now)
    ensures ws.activeConnections == if events == [] then old(ws.activeConnections)
                                    else Keep(old(ws.activeConnections), broken)
  {
    events := [];
    if queryFails {
      return;
    }
    var ids := Ids(GetAllActive(db.raffles));
    events := RunTick(db, ws, cfg, ids, envs, broken, now);
  }

  /** The loop over the loaded ids, each iteration in its own try block. */
  method RunTick(db: Database, ws: ConnectionManager, cfg: Settings, ids: seq<nat>, envs: nat -> DrawEnv,
                 broken: set<Conn>, now: Time)
    returns (events: seq<Message>)
    requires db.Valid()
    modifies db`users, db`raffles, db`transactions, ws
    ensures db.Valid()
    ensures Progress(db.Snapshot(), events) == Tick(old(db.Snapshot()), cfg, ids, envs, now)
    ensures ws.activeConnections == if events == [] then old(ws.activeConnections)
                                    else Keep(old(ws.activeConnections), broken)
  {
    events := [];
    ghost var t0 := db.Snapshot();
    ghost var ws0 := ws.activeConnections;
    ghost var kept := Keep(ws0, broken);
    KeepIdempotent(ws0, broken);
    var i := 0;
    while i < |ids|
      invariant 0 <= i <= |ids|
      invariant db.Valid()
      invariant Progress(db.Snapshot(), events) == Tick(t0, cfg, ids[..i], envs, now)
      invariant events == [] ==> ws.activeConnections == ws0
      invariant events != [] ==> ws.activeConnections == kept
    {
      assert ids[..i + 1] == ids[..i] + [ids[i]];
      events := Iterate(db, ws, cfg, envs, broken, now, t0, ids[..i], ids[i], events);
      i := i + 1;
    }
    assert ids[..i] == ids;
  }

  /** One pass of the loop body: the iterations so far extended by the one on id. */
  method Iterate(db: Database, ws: ConnectionManager, cfg: Settings, envs: nat -> DrawEnv, broken: set<Conn>,
                 now: Time, ghost t0: Tables, ghost sofar: seq<nat>, id: nat, events: seq<Message>)
    returns (events': seq<Message>)
    requires db.Valid()
    requires Progress(db.Snapshot(), events) == Tick(t0, cfg, sofar, envs, now)
    modifies db`users, db`raffles, db`transactions, ws
    ensures db.Valid()
    ensures Progress(db.Snapshot(), events') == Tick(t0, cfg, sofar + [id], envs, now)
    ensures events <= events'
    ensures events' == events ==> ws.activeConnections == old(ws.activeConnections)
    ensures events' != events ==> ws.activeConnections == Keep(old(ws.activeConnections), broken)
  {
    TickSnoc(t0, cfg, sofar, id, envs, now);
    var announced := RunStep(db, ws, cfg, id, envs, broken, now);
    events' := events + announced;
    assert announced == [] <==> events' == events;
  }

  /** The loop's view of Tick: the iterations up to one more are those so far followed by that one. */
  lemma {:induction false} TickSnoc(t: Tables, cfg: Settings, ids: seq<nat>, id: nat, envs: nat -> DrawEnv, now: Time)
    ensures var sofar := Tick(t, cfg, ids, envs, now);
            var next := Step(sofar.tables, cfg, id, envs, now);
      Tick(t, cfg, ids + [id], envs, now) == Progress(next.tables, sofar.events + next.events)
    decreases |ids|
  {
    if ids == [] {
      assert [] + [id] == [id] && [id][1..] == [];
    } else {
      var first := Step(t, cfg, ids[0], envs, now);
      assert (ids + [id])[0] == ids[0] && (ids + [id])[1..] == ids[1..] + [id];
      TickSnoc(first.tables, cfg, ids[1..], id, envs, now);
    }
  }

  /** One iteration of the loop, with its try block: see Step. */
  method RunStep(db: Database, ws: ConnectionManager, cfg: Settings, id: nat, envs: nat -> DrawEnv,
                 broken: set<Conn>, now: Time) returns (announced: seq<Message>)
    requires db.Valid()
    modifies db`users, db`raffles, db`transactions, ws
    ensures db.Valid()
    ensures Progress(db.Snapshot(), announced) == Step(old(db.Snapshot()), cfg, id, envs, now)
    ensures ws.activeConnections == if announced == [] then old(ws.activeConnections)
                                    else Keep(old(ws.activeConnections), broken)
  {
    announced := [];
    var ri := RaffleIndex(db.raffles, id);
    if ri.None? || !ReadyToDraw(db.raffles[ri.value], now) {
      return;
    }
    var error := DrawRaffle(db, cfg, id, envs(id), now);
    if error.None? {
      var message, delivered := ws.BroadcastRaffleCompleted(id, db.raffles[ri.value].winnerId, broken);
      announced := [message];
    }
  }

  /** Autoincrement raffle ids. */
  predicate IdsArePositions(raffles: seq<Raffle>)
  {
    forall i :: 0 <= i < |raffles| ==> raffles[i].id == i + 1
  }

  /**
   * One iteration touches at most the raffle with its id, and only when
   * that raffle is due; it keeps the ids autoincrement and only appends.
   */
  lemma StepFrame(t: Tables, cfg: Settings, id: nat, envs: nat -> DrawEnv, now: Time)
    requires IdsArePositions(t.raffles)
    ensures var t' := Step(t, cfg, id, envs, now).tables;
      && IdsArePositions(t'.raffles)
      && |t.raffles| <= |t'.raffles|
      && (forall j :: 0 <= j < |t.raffles| && (t.raffles[j].id != id || !ReadyToDraw(t.raffles[j], now)) ==>
            t'.raffles[j] == t.raffles[j])
  {
    var ri := RaffleIndex(t.raffles, id);
    if ri.Some? && ReadyToDraw(t.raffles[ri.value], now) {
      DrawFrame(t, cfg, id, envs(id), now);
    }
  }

  /**
   * A raffle that is not due when the tick starts, or that the query did
   * not return, is left exactly as it was: ACTIVE raffles, DRAWING raffles
   * and WAITING raffles before their deadline are never drawn by a tick.
   */
  lemma {:induction false} TickFrame(t: Tables, cfg: Settings, ids: seq<nat>, envs: nat -> DrawEnv, now: Time)
    requires IdsArePositions(t.raffles)
    ensures var t' := Tick(t, cfg, ids, envs, now).tables;
      && IdsArePositions(t'.raffles)
      && |t.raffles| <= |t'.raffles|
      && (forall j :: 0 <= j < |t.raffles| && (t.raffles[j].id !in ids || !ReadyToDraw(t.raffles[j], now)) ==>
            t'.raffles[j] == t.raffles[j])
    decreases |ids|
  {
    if ids != [] {
      var first := Step(t, cfg, ids[0], envs, now);
      StepFrame(t, cfg, ids[0], envs, now);
      TickFrame(first.tables, cfg, ids[1..], envs, now);
      var t' := Tick(t, cfg, ids, envs, now).tables;
      forall j | 0 <= j < |t.raffles| && (t.raffles[j].id !in ids || !ReadyToDraw(t.raffles[j], now))
        ensures t'.raffles[j] == t.raffles[j]
      {
        assert t.raffles[j].id !in ids ==> t.raffles[j].id != ids[0] && t.raffles[j].id !in ids[1..];
        assert first.tables.raffles[j] == t.raffles[j];
      }
    }
  }

  /**
   * Every message a tick sends announces a completion: it names a raffle
   * the query returned, which the tick leaves COMPLETED with the winner the
   * message carries.
   */
  lemma {:induction false} TickAnnouncesCompletions(t: Tables, cfg: Settings, ids: seq<nat>, envs: nat -> DrawEnv,
                                                    now: Time)
    requires IdsArePositions(t.raffles)
    ensures var p := Tick(t, cfg, ids, envs, now);
      forall e :: e in p.events ==>
        && e.RaffleCompleted? && e.raffleId in ids
        && 1 <= e.raffleId <= |p.tables.raffles|
        && p.tables.raffles[e.raffleId - 1].status == Completed
        && p.tables.raffles[e.raffleId - 1].winnerId == e.winnerId
    decreases |ids|
  {
    if ids != [] {
      var first := Step(t, cfg, ids[0], envs, now);
      var p := Tick(t, cfg, ids, envs, now);
      StepFrame(t, cfg, ids[0], envs, now);
      TickAnnouncesCompletions(first.tables, cfg, ids[1..], envs, now);
      TickFrame(first.tables, cfg, ids[1..], envs, now);
      forall e | e in first.events
        ensures && e.RaffleCompleted? && e.raffleId in ids
                && 1 <= e.raffleId <= |p.tables.raffles|
                && p.tables.raffles[e.raffleId - 1].status == Completed
                && p.tables.raffles[e.raffleId - 1].winnerId == e.winnerId
      {
        var ri := RaffleIndex(t.raffles, ids[0]).value;
        assert ri == ids[0] - 1;
        DrawCompletes(t, cfg, ids[0], envs(ids[0]), now);
        assert first.tables.raffles[ri].status == Completed;
        assert !ReadyToDraw(first.tables.raffles[ri], now);
      }
    }
  }
}
