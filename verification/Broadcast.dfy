/**
 The edge trigger of the event stream (internal/api/api.go) and the loop that uses it (internal/api/sse.go): every
 interleaving of appends, fires and streams.
 */
module Broadcast {
  import EventTail

  // ---- the trigger ----

  /** A channel that carries no value: it is open, then closed. */
  class Channel {
    var closed: bool

    constructor ()
      ensures !closed
    {
      closed := false;
    }

    /** Closing a closed channel panics. */
    method Close()
      requires !closed
      modifies this
      ensures closed
    {
      closed := true;
    }
  }

  /** `fired` is history: the channels handed out before the current one, in order. */
  class Trigger {
    var next: Channel
    ghost var fired: seq<Channel>

    ghost predicate Valid()
      reads this, next, fired
    {
      && !next.closed
      && (forall i :: 0 <= i < |fired| ==> fired[i].closed)
      && (forall i, j :: 0 <= i < j < |fired| ==> fired[i] != fired[j])
    }

    constructor ()
      ensures Valid() && fresh(next) && fired == []
    {
      next := new Channel();
      fired := [];
    }

    method Fire()
      requires Valid()
      modifies this, next
      ensures Valid() && fresh(next) && old(next).closed && fired == old(fired) + [old(next)]
    {
      next.Close();
      fired := fired + [next];
      next := new Channel();
    }

    /** The trigger's channels stand for the protocol's: the `i`th handed out is channel `i`, closed iff it is not the
        current one. */
    ghost predicate StandsFor(w: World)
      reads this
    {
      w.next == |fired| && w.closings == seq(|fired|, i => i)
    }

    method FireIn(ghost w: World, limit: nat) returns (ghost w': World)
      requires Valid() && StandsFor(w)
      modifies this, next
      ensures w' == Apply(limit, w, Step.Fire) && Valid() && StandsFor(w')
      ensures forall c :: 0 <= c < |fired| ==> Closed(w', c) && fired[c].closed
    {
      Fire();
      w' := Apply(limit, w, Step.Fire);
      assert seq(|fired|, i => i) == seq(|fired| - 1, i => i) + [|fired| - 1];
      forall c | 0 <= c < |fired| ensures Closed(w', c) {
        assert w'.closings[c] == c;
      }
    }

    method Wait() returns (c: Channel)
      requires Valid()
      ensures c == next && !c.closed
    {
      c := next;
    }
  }

  // ---- the protocol ----

  type ChannelId = nat
  type StreamId = nat

  /** A stream takes the trigger's channel, drains the log in reads of at most `limit` rows, and blocks on the channel
      after a short read. */
  datatype Stream =
    | Idle(cursor: nat)
    | Draining(held: ChannelId, cursor: nat)
    | Blocked(held: ChannelId, cursor: nat)

  /** `rows` have been appended; the first `announced` of them before the last fire. `closings` is the history of
      closed channels. */
  datatype World = World(rows: nat, announced: nat, next: ChannelId, closings: seq<ChannelId>, streams: map<StreamId, Stream>)

  datatype Step =
    | Append
    | Fire
    | Connect(sid: StreamId, start: nat)
    | Wait(sid: StreamId)
    | Read(sid: StreamId)
    | Wake(sid: StreamId)
    | Poll(sid: StreamId)

  predicate Closed(w: World, c: ChannelId) { c in w.closings }

  function Set(w: World, sid: StreamId, s: Stream): World {
    w.(streams := w.streams[sid := s])
  }

  function Apply(limit: nat, w: World, st: Step): World {
    match st
    case Append => w.(rows := w.rows + 1)
    case Fire => w.(announced := w.rows, closings := w.closings + [w.next], next := w.next + 1)
    case Connect(sid, start) => if sid in w.streams then w else Set(w, sid, Idle(start))
    case Wait(sid) =>
      if sid in w.streams && w.streams[sid].Idle? then Set(w, sid, Draining(w.next, w.streams[sid].cursor)) else w
    case Read(sid) =>
      if sid in w.streams && w.streams[sid].Draining? then
        var Draining(held, cursor) := w.streams[sid];
        if cursor + limit <= w.rows then Set(w, sid, Draining(held, cursor + limit))
        else Set(w, sid, Blocked(held, if cursor < w.rows then w.rows else cursor))
      else w
    case Wake(sid) =>
      if sid in w.streams && w.streams[sid].Blocked? && Closed(w, w.streams[sid].held) then Set(w, sid, Idle(w.streams[sid].cursor)) else w
    case Poll(sid) =>
      if sid in w.streams && w.streams[sid].Blocked? then Set(w, sid, Idle(w.streams[sid].cursor)) else w
  }

  function Run(limit: nat, w: World, steps: seq<Step>): World {
    if steps == [] then w else Apply(limit, Run(limit, w, steps[..|steps| - 1]), steps[|steps| - 1])
  }

  predicate Initial(w: World) {
    w.announced <= w.rows && w.next == 0 && w.closings == [] && w.streams == map[]
  }

  /** A stream that holds an open channel took it after the last fire; once blocked it has passed every row announced
      by then. */
  predicate StreamOk(w: World, s: Stream) {
    match s
    case Idle(_) => true
    case Draining(held, _) => held <= w.next
    case Blocked(held, cursor) => held <= w.next && (held == w.next ==> cursor >= w.announced)
  }

  ghost predicate Inv(w: World) {
    && w.announced <= w.rows
    && (forall i :: 0 <= i < |w.closings| ==> w.closings[i] == i)
    && |w.closings| == w.next
    && (forall sid :: sid in w.streams ==> StreamOk(w, w.streams[sid]))
  }

  lemma StepKeeps(limit: nat, w: World, st: Step)
    requires Inv(w)
    ensures Inv(Apply(limit, w, st))
  {
  }

  lemma {:induction false} RunKeeps(limit: nat, w: World, steps: seq<Step>)
    requires Initial(w)
    ensures Inv(Run(limit, w, steps))
  {
    if steps != [] {
      RunKeeps(limit, w, steps[..|steps| - 1]);
      StepKeeps(limit, Run(limit, w, steps[..|steps| - 1]), steps[|steps| - 1]);
    }
  }

  /** No lost wake-up. In every interleaving the current channel is open, no channel is closed twice, and a stream that
      is blocked before a row whose append was followed by a fire holds a closed channel. */
  lemma NoLostWakeUp(limit: nat, w0: World, steps: seq<Step>)
    requires Initial(w0)
    ensures var w := Run(limit, w0, steps);
            && !Closed(w, w.next)
            && (forall i, j :: 0 <= i < j < |w.closings| ==> w.closings[i] != w.closings[j])
            && (forall sid :: sid in w.streams && w.streams[sid].Blocked? && w.streams[sid].cursor < w.announced ==>
                  Closed(w, w.streams[sid].held))
  {
    RunKeeps(limit, w0, steps);
    var w := Run(limit, w0, steps);
    forall sid | sid in w.streams && w.streams[sid].Blocked? && w.streams[sid].cursor < w.announced
      ensures Closed(w, w.streams[sid].held)
    {
      assert StreamOk(w, w.streams[sid]);
      assert w.closings[w.streams[sid].held] == w.streams[sid].held;
    }
  }

  /** Waking and draining again passes every row announced so far, in at most one read more than the rows it had left. */
  lemma {:induction false} DrainsAnnounced(limit: nat, w: World, sid: StreamId) returns (n: nat)
    requires limit > 0 && sid in w.streams && w.streams[sid].Draining?
    ensures var w' := Run(limit, w, seq(n, _ => Read(sid)));
            && sid in w'.streams && w'.streams[sid].Blocked? && w'.streams[sid].held == w.streams[sid].held
            && w'.streams[sid].cursor >= w.rows && w' == Set(w, sid, w'.streams[sid])
    ensures n <= 1 + (if w.streams[sid].cursor < w.rows then (w.rows - w.streams[sid].cursor) else 0)
    decreases if w.streams[sid].cursor < w.rows then w.rows - w.streams[sid].cursor else 0
  {
    var w1 := Apply(limit, w, Read(sid));
    if w1.streams[sid].Blocked? {
      n := 1;
      assert seq(1, _ => Read(sid))[..0] == [];
    } else {
      var more := DrainsAnnounced(limit, w1, sid);
      n := more + 1;
      RunCons(limit, w, Read(sid), seq(more, _ => Read(sid)));
      assert seq(n, _ => Read(sid)) == [Read(sid)] + seq(more, _ => Read(sid));
    }
  }

  /** A blocked stream goes on exactly when a fire has come since it took its channel: waking moves it to the next drain
      then, and leaves it blocked otherwise. A poll moves it on either way. */
  lemma WakesExactly(limit: nat, w0: World, steps: seq<Step>, sid: StreamId)
    requires Initial(w0) && sid in Run(limit, w0, steps).streams && Run(limit, w0, steps).streams[sid].Blocked?
    ensures var w := Run(limit, w0, steps);
            var Blocked(held, cursor) := w.streams[sid];
            && Apply(limit, w, Wake(sid)) == (if held < w.next then w.(streams := w.streams[sid := Idle(cursor)]) else w)
            && Apply(limit, w, Poll(sid)) == w.(streams := w.streams[sid := Idle(cursor)])
  {
    RunKeeps(limit, w0, steps);
    var w := Run(limit, w0, steps);
    assert StreamOk(w, w.streams[sid]);
    var held := w.streams[sid].held;
    if held < w.next { assert w.closings[held] == held; }
  }

  /** A stream blocked behind an announced row is served it: it wakes, takes the current channel and drains past every row
      there is. */
  lemma BlockedIsServed(limit: nat, w0: World, steps: seq<Step>, sid: StreamId) returns (n: nat)
    requires Initial(w0) && limit > 0
    requires var w := Run(limit, w0, steps); sid in w.streams && w.streams[sid].Blocked? && w.streams[sid].cursor < w.announced
    ensures var w := Run(limit, w0, steps);
            var w' := Run(limit, Apply(limit, Apply(limit, w, Wake(sid)), Wait(sid)), seq(n, _ => Read(sid)));
            sid in w'.streams && w'.streams[sid].Blocked? && w'.streams[sid].held == w.next && w'.streams[sid].cursor >= w.rows
    ensures n <= 1 + Run(limit, w0, steps).rows
  {
    var w := Run(limit, w0, steps);
    NoLostWakeUp(limit, w0, steps);
    n := DrainsAnnounced(limit, Apply(limit, Apply(limit, w, Wake(sid)), Wait(sid)), sid);
  }

  /** A stream moves by its own steps alone, and its cursor by its reads alone and only forward. */
  lemma OwnSteps(limit: nat, w: World, st: Step, sid: StreamId)
    requires sid in w.streams
    ensures var w' := Apply(limit, w, st);
            && sid in w'.streams
            && (st !in {Wait(sid), Read(sid), Wake(sid), Poll(sid)} ==> w'.streams[sid] == w.streams[sid])
            && (st != Read(sid) ==> w'.streams[sid].cursor == w.streams[sid].cursor)
            && w'.streams[sid].cursor >= w.streams[sid].cursor
            && (st.Append? <==> w'.rows == w.rows + 1) && (st.Fire? <==> w'.next == w.next + 1)
  {
  }

  lemma {:induction false} RunCons(limit: nat, w: World, st: Step, steps: seq<Step>)
    ensures Run(limit, w, [st] + steps) == Run(limit, Apply(limit, w, st), steps)
  {
    if steps == [] {
      assert [st] + steps == [st] && [st][..0] == [];
    } else {
      assert ([st] + steps)[..|steps|] == [st] + steps[..|steps| - 1];
      RunCons(limit, w, st, steps[..|steps| - 1]);
    }
  }

  // ---- the read is the tail's ----

  /** Where the tail's cursor stands after it has passed a batch. */
  function Passed(batch: seq<EventTail.Event>, cursor: int): int {
    if batch == [] then cursor else batch[|batch| - 1].seq_
  }

  /** A stream's cursor here counts the rows the tail's seq cursor has passed: one read of the tail over a log of `rows`
      rows moves that count, and blocks or goes on draining, as a Read does. */
  lemma ReadIsTailRead(log: seq<EventTail.Event>, cursor: int, limit: nat, w: World, sid: StreamId)
    requires EventTail.InLogOrder(log) && limit > 0 && w.rows == |log|
    requires sid in w.streams && w.streams[sid].Draining? && w.streams[sid].cursor == EventTail.Position(log, cursor)
    ensures var batch := EventTail.After(log, cursor, limit);
            var s' := Apply(limit, w, Read(sid)).streams[sid];
            && s'.cursor == EventTail.Position(log, Passed(batch, cursor)) && s'.held == w.streams[sid].held
            && (s'.Blocked? <==> |batch| < limit)
  {
    var n, batch := EventTail.Position(log, cursor), EventTail.After(log, cursor, limit);
    EventTail.PositionSplits(log, cursor);
    if batch != [] {
      EventTail.PositionIs(log, Passed(batch, cursor), n + |batch|);
    }
  }

  /** Rows appended later leave the count where it is. */
  lemma AppendKeepsPosition(log: seq<EventTail.Event>, whole: seq<EventTail.Event>, cursor: int)
    requires EventTail.InLogOrder(whole) && log <= whole && log != [] && cursor <= EventTail.Head(log)
    ensures EventTail.Position(whole, cursor) == EventTail.Position(log, cursor)
  {
    var n := EventTail.Position(log, cursor);
    EventTail.PositionInPrefix(log, whole, cursor);
    EventTail.PositionSplits(log, cursor);
    EventTail.PositionIs(whole, cursor, n);
  }

  // ---- why the channel is taken before the drain ----

  /** The loop turned round: an idle stream drains first, then takes the channel and blocks on it. */
  function ApplyLate(limit: nat, w: World, st: Step): World {
    match st
    case Read(sid) =>
      if sid in w.streams && w.streams[sid].Idle? then
        var cursor := w.streams[sid].cursor;
        if cursor + limit <= w.rows then Set(w, sid, Idle(cursor + limit))
        else Set(w, sid, Draining(w.next, if cursor < w.rows then w.rows else cursor))
      else w
    case Wait(sid) =>
      if sid in w.streams && w.streams[sid].Draining? then Set(w, sid, Blocked(w.next, w.streams[sid].cursor)) else w
    case _ => Apply(limit, w, st)
  }

  /** Then a wake-up can be lost: a row appended and fired between the drain and the wait leaves the stream blocked on
      an open channel before it. */
  lemma LateWaitLosesWakeUp(limit: nat, w0: World, sid: StreamId)
    requires Initial(w0) && limit > 0
    ensures var drained := ApplyLate(limit, ApplyLate(limit, w0, Connect(sid, w0.rows)), Read(sid));
            var w := ApplyLate(limit, ApplyLate(limit, ApplyLate(limit, drained, Append), Fire), Wait(sid));
            && sid in w.streams && w.streams[sid].Blocked? && w.streams[sid].cursor < w.announced
            && !Closed(w, w.streams[sid].held)
  {
    var drained := ApplyLate(limit, ApplyLate(limit, w0, Connect(sid, w0.rows)), Read(sid));
    assert drained.streams[sid] == Draining(0, w0.rows);
  }
}
