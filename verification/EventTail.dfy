/**
 The event stream (internal/api/sse.go): a cursor drained in batches over a log that grows between reads, what one
 connection delivers, and what a reconnect adds (section 9.2 of the WHATWG HTML standard).
 */
module EventTail {
  import opened Wrappers
  import opened Decimal
  import opened Ascending

  datatype Event = Event(seq_: nat, run: string, user: string, kind: string)

  /** `topics` is None on the unfiltered relay. */
  datatype Subscription = Subscription(caller: string, operator: bool, topics: Option<set<string>>, run: string)

  const TOPIC_RUN := "run"

  predicate InLogOrder(log: seq<Event>) {
    forall i, j :: 0 <= i < j < |log| ==> log[i].seq_ < log[j].seq_
  }

  // ---- visibility ----

  function Matches(sub: Subscription, e: Event, tags: seq<string>): bool
    requires sub.topics.Some?
  {
    if tags == [] then false
    else if tags[0] !in sub.topics.value then Matches(sub, e, tags[1..])
    else if tags[0] == TOPIC_RUN && e.run != sub.run then Matches(sub, e, tags[1..])
    else true
  }

  /** The owner scope always, the topic filter when there is one. */
  predicate Visible(sub: Subscription, e: Event, tags: seq<string>) {
    if !sub.operator && e.user != sub.caller then false
    else if sub.topics.None? then true
    else Matches(sub, e, tags)
  }

  /** The run topic shows one run; every other topic shows what carries its tag. */
  lemma {:induction false} VisibleExactly(sub: Subscription, e: Event, tags: seq<string>)
    ensures Visible(sub, e, tags) <==>
            && (sub.operator || e.user == sub.caller)
            && (sub.topics.Some? ==> exists t :: t in tags && t in sub.topics.value && (t == TOPIC_RUN ==> e.run == sub.run))
  {
    if sub.topics.Some? { MatchesExactly(sub, e, tags); }
  }

  lemma {:induction false} MatchesExactly(sub: Subscription, e: Event, tags: seq<string>)
    requires sub.topics.Some?
    ensures Matches(sub, e, tags) <==> exists t :: t in tags && t in sub.topics.value && (t == TOPIC_RUN ==> e.run == sub.run)
  {
    if tags != [] {
      MatchesExactly(sub, e, tags[1..]);
      assert tags == [tags[0]] + tags[1..];
    }
  }

  // ---- what a connection should deliver ----

  /** The rows of `log` after `lo` and up to `hi` that the subscription sees. */
  function Between(log: seq<Event>, lo: int, hi: int, sees: Event -> bool): seq<Event> {
    if log == [] then []
    else
      var e := log[|log| - 1];
      Between(log[..|log| - 1], lo, hi, sees) + if lo < e.seq_ <= hi && sees(e) then [e] else []
  }

  /** Each such row once, in ascending order, and no other. */
  lemma {:induction false} BetweenExactly(log: seq<Event>, lo: int, hi: int, sees: Event -> bool)
    requires InLogOrder(log)
    ensures var out := Between(log, lo, hi, sees);
            && InLogOrder(out)
            && (forall e :: e in out <==> e in log && lo < e.seq_ <= hi && sees(e))
  {
    if log != [] {
      var front, e := log[..|log| - 1], log[|log| - 1];
      assert log == front + [e];
      BetweenExactly(front, lo, hi, sees);
      forall x | x in front ensures x.seq_ < e.seq_ {
      }
      var before := Between(front, lo, hi, sees);
      forall i | 0 <= i < |before| ensures before[i].seq_ < e.seq_ {
        assert before[i] in front;
      }
    }
  }

  lemma {:induction false} BetweenSplits(log: seq<Event>, lo: int, mid: int, hi: int, sees: Event -> bool)
    requires InLogOrder(log) && lo <= mid <= hi
    ensures Between(log, lo, hi, sees) == Between(log, lo, mid, sees) + Between(log, mid, hi, sees)
  {
    if log != [] {
      var front, e := log[..|log| - 1], log[|log| - 1];
      BetweenSplits(front, lo, mid, hi, sees);
      if mid >= e.seq_ {
        BetweenEmpty(front, mid, hi, sees);
      }
    }
  }

  lemma {:induction false} BetweenEmpty(log: seq<Event>, lo: int, hi: int, sees: Event -> bool)
    requires forall e :: e in log && lo < e.seq_ <= hi ==> !sees(e)
    ensures Between(log, lo, hi, sees) == []
  {
    if log != [] {
      BetweenEmpty(log[..|log| - 1], lo, hi, sees);
    }
  }

  lemma {:induction false} BetweenAppends(log: seq<Event>, more: seq<Event>, lo: int, hi: int, sees: Event -> bool)
    ensures Between(log + more, lo, hi, sees) == Between(log, lo, hi, sees) + Between(more, lo, hi, sees)
  {
    if more == [] {
      assert log + more == log;
      assert Between(log, lo, hi, sees) + [] == Between(log, lo, hi, sees);
    } else {
      assert (log + more)[..|log + more| - 1] == log + more[..|more| - 1];
      BetweenAppends(log, more[..|more| - 1], lo, hi, sees);
    }
  }

  // ---- the log as the stream reads it ----

  /** The head: the highest seq, 0 when the log is empty. */
  function Head(log: seq<Event>): nat {
    if log == [] then 0 else log[|log| - 1].seq_
  }

  lemma HeadIsLast(log: seq<Event>)
    requires InLogOrder(log) && log != []
    ensures forall e :: e in log ==> e.seq_ <= Head(log)
    ensures exists e :: e in log && e.seq_ == Head(log)
  {
    assert log[|log| - 1] in log;
    forall e | e in log ensures e.seq_ <= Head(log) {
      var i :| 0 <= i < |log| && log[i] == e;
    }
  }

  /** How many rows are at or before `cursor`. */
  function Position(log: seq<Event>, cursor: int): (n: nat)
    ensures n <= |log|
  {
    if log == [] then 0
    else if log[|log| - 1].seq_ <= cursor then |log|
    else Position(log[..|log| - 1], cursor)
  }

  lemma {:induction false} PositionSplits(log: seq<Event>, cursor: int)
    requires InLogOrder(log)
    ensures forall i :: 0 <= i < |log| ==> (i < Position(log, cursor) <==> log[i].seq_ <= cursor)
  {
    if log != [] && log[|log| - 1].seq_ > cursor {
      PositionSplits(log[..|log| - 1], cursor);
    }
  }

  lemma PositionIs(log: seq<Event>, cursor: int, n: nat)
    requires InLogOrder(log) && n <= |log|
    requires n > 0 ==> log[n - 1].seq_ <= cursor
    requires n < |log| ==> log[n].seq_ > cursor
    ensures Position(log, cursor) == n
  {
    PositionSplits(log, cursor);
  }

  /** The rows of a snapshot that are not yet passed are the next rows of the whole log. */
  lemma PositionInPrefix(snap: seq<Event>, whole: seq<Event>, cursor: int)
    requires InLogOrder(whole) && snap <= whole
    ensures InLogOrder(snap)
    ensures Position(snap, cursor) == if Position(whole, cursor) <= |snap| then Position(whole, cursor) else |snap|
  {
    assert forall i :: 0 <= i < |snap| ==> snap[i] == whole[i];
    PositionSplits(whole, cursor);
    var n := Position(whole, cursor);
    PositionIs(snap, cursor, if n <= |snap| then n else |snap|);
  }

  /** One read: at most `limit` rows after the cursor. */
  function After(log: seq<Event>, cursor: int, limit: nat): seq<Event> {
    var n := Position(log, cursor);
    if n + limit < |log| then log[n..n + limit] else log[n..]
  }

  /** The log at each read: it only grows, and `whole` is what it has become by the end. */
  ghost predicate Grows(snaps: nat -> seq<Event>, whole: seq<Event>) {
    && InLogOrder(whole)
    && (forall i, j :: 0 <= i <= j ==> snaps(i) <= snaps(j))
    && (forall i :: snaps(i) <= whole)
  }

  // ---- a frame that cannot be written ----

  /** No visible row after `lo`, up to `hi`, has a frame that breaks. */
  ghost predicate NoneBreaks(whole: seq<Event>, lo: int, hi: int, sees: Event -> bool, breaks: Event -> bool) {
    forall e :: e in whole && lo < e.seq_ <= hi && sees(e) ==> !breaks(e)
  }

  /** The stream broke exactly if a visible row's frame in the range it passed breaks: then it is the last it passed. */
  ghost predicate BreakTold(whole: seq<Event>, lo: int, hi: int, broken: bool, sees: Event -> bool, breaks: Event -> bool) {
    if broken then NoneBreaks(whole, lo, hi - 1, sees, breaks) && exists e :: e in whole && e.seq_ == hi > lo && sees(e) && breaks(e)
    else NoneBreaks(whole, lo, hi, sees, breaks)
  }

  lemma BreakToldOn(whole: seq<Event>, lo: int, mid: int, hi: int, broken: bool, sees: Event -> bool, breaks: Event -> bool)
    requires lo <= mid <= hi && NoneBreaks(whole, lo, mid, sees, breaks) && BreakTold(whole, mid, hi, broken, sees, breaks)
    ensures BreakTold(whole, lo, hi, broken, sees, breaks)
  {
  }

  /** One range after another: what was due, and whether it broke. */
  lemma RangeOn(whole: seq<Event>, lo: int, mid: int, hi: int, broken: bool, sees: Event -> bool, breaks: Event -> bool)
    requires InLogOrder(whole) && lo <= mid <= hi && (broken ==> mid < hi)
    requires NoneBreaks(whole, lo, mid, sees, breaks) && BreakTold(whole, mid, hi, broken, sees, breaks)
    ensures BreakTold(whole, lo, hi, broken, sees, breaks)
    ensures var end := if broken then hi - 1 else hi;
            Between(whole, lo, end, sees) == Between(whole, lo, mid, sees) + Between(whole, mid, end, sees)
  {
    BreakToldOn(whole, lo, mid, hi, broken, sees, breaks);
    BetweenSplits(whole, lo, mid, if broken then hi - 1 else hi, sees);
  }

  lemma RowBreakTold(whole: seq<Event>, cursor: int, n: nat, sees: Event -> bool, breaks: Event -> bool)
    requires InLogOrder(whole) && Position(whole, cursor) == n < |whole|
    ensures cursor < whole[n].seq_
    ensures BreakTold(whole, cursor, whole[n].seq_, sees(whole[n]) && breaks(whole[n]), sees, breaks)
  {
    PositionSplits(whole, cursor);
    NoneInside(whole, cursor, n);
    assert whole[n] in whole;
    forall e | e in whole && e.seq_ == whole[n].seq_ ensures e == whole[n] {
      var i :| 0 <= i < |whole| && whole[i] == e;
    }
  }

  // ---- the stream ----

  /** One connection: the cursor, and the frames handed to the client so far. */
  class Stream {
    var cursor: int
    var frames: seq<Event>

    constructor (start: int)
      ensures cursor == start && frames == []
    {
      cursor, frames := start, [];
    }

    /** One row: the cursor passes it whether or not it is seen; a frame that cannot be written ends the stream. */
    method WriteRow(e: Event, sees: Event -> bool, breaks: Event -> bool, ghost whole: seq<Event>, ghost n: nat, ghost lo: int)
      returns (count: nat, broken: bool)
      requires InLogOrder(whole) && n < |whole| && e == whole[n] && Position(whole, cursor) == n && lo <= cursor
      modifies this
      ensures cursor == e.seq_ > old(cursor) && Position(whole, cursor) == n + 1
      ensures broken == (sees(e) && breaks(e)) && count == if sees(e) && !broken then 1 else 0
      ensures frames == old(frames) + if count == 1 then [e] else []
      ensures !broken ==> Between(whole, lo, cursor, sees) == Between(whole, lo, old(cursor), sees) + if count == 1 then [e] else []
      ensures broken ==> Between(whole, lo, cursor - 1, sees) == Between(whole, lo, old(cursor), sees)
      ensures BreakTold(whole, old(cursor), cursor, broken, sees, breaks)
    {
      NextRow(whole, cursor, n, lo, sees);
      RowBreakTold(whole, cursor, n, sees, breaks);
      cursor := e.seq_;
      broken := false;
      count := 0;
      if sees(e) {
        if breaks(e) {
          broken := true;
        } else {
          frames := frames + [e];
          count := 1;
        }
      }
    }

    /** Writes one batch: the cursor passes every row, the client gets the visible ones. */
    method WriteBatch(batch: seq<Event>, sees: Event -> bool, ghost whole: seq<Event>, ghost n: nat, breaks: Event -> bool)
      returns (total: nat, broken: bool)
      requires InLogOrder(whole) && n + |batch| <= |whole| && batch == whole[n..n + |batch|]
      requires Position(whole, cursor) == n
      modifies this
      ensures cursor >= old(cursor)
      ensures !broken ==> Position(whole, cursor) == n + |batch| && (batch != [] ==> cursor == batch[|batch| - 1].seq_)
      ensures !broken ==> (batch == [] ==> cursor == old(cursor))
      ensures !broken ==> frames == old(frames) + Between(whole, old(cursor), cursor, sees)
      ensures broken ==> cursor > old(cursor) && frames == old(frames) + Between(whole, old(cursor), cursor - 1, sees)
      ensures |frames| == |old(frames)| + total
      ensures BreakTold(whole, old(cursor), cursor, broken, sees, breaks)
    {
      total, broken := 0, false;
      BetweenNone(whole, cursor, sees);
      ghost var lo, written: seq<Event> := cursor, [];
      for k := 0 to |batch|
        invariant Position(whole, cursor) == n + k
        invariant cursor >= lo && (k > 0 ==> cursor == batch[k - 1].seq_) && (k == 0 ==> cursor == lo)
        invariant written == Between(whole, lo, cursor, sees)
        invariant frames == old(frames) + written && |written| == total
        invariant NoneBreaks(whole, lo, cursor, sees, breaks)
      {
        ghost var was := cursor;
        var count;
        count, broken := WriteRow(batch[k], sees, breaks, whole, n + k, lo);
        BreakToldOn(whole, lo, was, cursor, broken, sees, breaks);
        if broken {
          return;
        }
        written := written + if count == 1 then [batch[k]] else [];
        total := total + count;
      }
    }

    /** One read and its batch. */
    method ReadBatch(snap: seq<Event>, limit: nat, sees: Event -> bool, breaks: Event -> bool, ghost whole: seq<Event>)
      returns (total: nat, more: bool, broken: bool)
      requires InLogOrder(whole) && snap <= whole && limit > 0
      modifies this
      ensures cursor >= old(cursor) && |frames| == |old(frames)| + total
      ensures BreakTold(whole, old(cursor), cursor, broken, sees, breaks)
      ensures !broken ==> frames == old(frames) + Between(whole, old(cursor), cursor, sees)
      ensures broken ==> cursor > old(cursor) && frames == old(frames) + Between(whole, old(cursor), cursor - 1, sees)
      ensures !broken && more ==> Position(whole, cursor) > Position(whole, old(cursor))
      ensures !broken && !more && snap != [] ==> cursor >= Head(snap)
    {
      var batch := After(snap, cursor, limit);
      BatchOfWhole(snap, whole, cursor, limit);
      total, broken := WriteBatch(batch, sees, whole, Position(whole, cursor), breaks);
      more := |batch| == limit;
      if !broken && !more {
        Drained(snap, whole, old(cursor), cursor, limit);
      }
    }

    /** Drains the log in batches of `limit` until a short one, over whatever the log has grown to at each read. */
    method WriteBatches(snaps: nat -> seq<Event>, first: nat, limit: nat, sees: Event -> bool, breaks: Event -> bool,
                        ghost whole: seq<Event>)
      returns (total: nat, broken: bool, next: nat)
      requires Grows(snaps, whole) && limit > 0
      modifies this
      ensures cursor >= old(cursor) && next > first
      ensures !broken ==> frames == old(frames) + Between(whole, old(cursor), cursor, sees)
      ensures !broken && snaps(next - 1) != [] ==> cursor >= Head(snaps(next - 1))
      ensures broken ==> cursor > old(cursor) && frames == old(frames) + Between(whole, old(cursor), cursor - 1, sees)
      ensures |frames| == |old(frames)| + total
      ensures BreakTold(whole, old(cursor), cursor, broken, sees, breaks)
    {
      total, next := 0, first;
      BetweenNone(whole, cursor, sees);
      assert frames + [] == frames;
      while true
        invariant next >= first && cursor >= old(cursor)
        invariant frames == old(frames) + Between(whole, old(cursor), cursor, sees)
        invariant |frames| == |old(frames)| + total
        invariant NoneBreaks(whole, old(cursor), cursor, sees, breaks)
        decreases |whole| - Position(whole, cursor)
      {
        ghost var was := cursor;
        var count, more;
        count, more, broken := ReadBatch(snaps(next), limit, sees, breaks, whole);
        RangeOn(whole, old(cursor), was, cursor, broken, sees, breaks);
        next, total := next + 1, total + count;
        if broken || !more {
          return;
        }
      }
    }

    /** The connection: a drain at every wake-up, until it ends or a frame cannot be written. */
    method Serve(snaps: nat -> seq<Event>, rounds: nat, limit: nat, sees: Event -> bool, breaks: Event -> bool,
                 ghost whole: seq<Event>)
      returns (broken: bool, next: nat)
      requires Grows(snaps, whole) && limit > 0
      modifies this
      ensures old(cursor) <= cursor
      ensures !broken ==> frames == old(frames) + Between(whole, old(cursor), cursor, sees)
      ensures broken ==> cursor > old(cursor) && frames == old(frames) + Between(whole, old(cursor), cursor - 1, sees)
      ensures !broken && rounds > 0 ==> next > 0 && (snaps(next - 1) != [] ==> cursor >= Head(snaps(next - 1)))
      ensures !broken ==> next >= rounds
      ensures BreakTold(whole, old(cursor), cursor, broken, sees, breaks)
    {
      broken, next := false, 0;
      BetweenNone(whole, cursor, sees);
      assert frames + [] == frames;
      for r := 0 to rounds
        invariant !broken && old(cursor) <= cursor && next >= r
        invariant frames == old(frames) + Between(whole, old(cursor), cursor, sees)
        invariant r > 0 ==> next > 0 && (snaps(next - 1) != [] ==> cursor >= Head(snaps(next - 1)))
        invariant NoneBreaks(whole, old(cursor), cursor, sees, breaks)
      {
        ghost var was := cursor;
        var total;
        total, broken, next := WriteBatches(snaps, next, limit, sees, breaks, whole);
        RangeOn(whole, old(cursor), was, cursor, broken, sees, breaks);
        if broken {
          return;
        }
      }
    }
  }

  lemma BetweenNone(log: seq<Event>, at: int, sees: Event -> bool)
    ensures Between(log, at, at, sees) == []
  {
    BetweenEmpty(log, at, at, sees);
  }

  /** Passing one more row. */
  lemma NextRow(whole: seq<Event>, cursor: int, n: nat, lo: int, sees: Event -> bool)
    requires InLogOrder(whole) && Position(whole, cursor) == n < |whole| && lo <= cursor
    ensures var e := whole[n];
            && e.seq_ > cursor && Position(whole, e.seq_) == n + 1
            && Between(whole, lo, e.seq_, sees) == Between(whole, lo, cursor, sees) + (if sees(e) then [e] else [])
            && Between(whole, lo, e.seq_ - 1, sees) == Between(whole, lo, cursor, sees)
  {
    var e := whole[n];
    PositionSplits(whole, cursor);
    PositionIs(whole, e.seq_, n + 1);
    assert Between(whole, lo, e.seq_, sees) == Between(whole, lo, cursor, sees) + (if sees(e) then [e] else []) by {
      BetweenSplits(whole, lo, cursor, e.seq_, sees);
      OneBetween(whole, n, cursor, sees);
    }
    JustBefore(whole, cursor, n, lo, sees);
  }

  lemma JustBefore(whole: seq<Event>, cursor: int, n: nat, lo: int, sees: Event -> bool)
    requires InLogOrder(whole) && Position(whole, cursor) == n < |whole| && lo <= cursor < whole[n].seq_
    ensures Between(whole, lo, whole[n].seq_ - 1, sees) == Between(whole, lo, cursor, sees)
  {
    PositionSplits(whole, cursor);
    BetweenSplits(whole, lo, cursor, whole[n].seq_ - 1, sees);
    NoneInside(whole, cursor, n);
    BetweenEmpty(whole, cursor, whole[n].seq_ - 1, sees);
    assert Between(whole, lo, cursor, sees) + [] == Between(whole, lo, cursor, sees);
  }

  lemma NoneInside(whole: seq<Event>, cursor: int, n: nat)
    requires InLogOrder(whole) && n < |whole| && (n > 0 ==> whole[n - 1].seq_ <= cursor)
    ensures forall e :: e in whole && e.seq_ > cursor ==> e.seq_ >= whole[n].seq_
  {
    forall e | e in whole && e.seq_ > cursor ensures e.seq_ >= whole[n].seq_ {
      var i :| 0 <= i < |whole| && whole[i] == e;
      assert i >= n;
    }
  }

  lemma OneBetween(whole: seq<Event>, n: nat, cursor: int, sees: Event -> bool)
    requires InLogOrder(whole) && n < |whole| && whole[n].seq_ > cursor && (n > 0 ==> whole[n - 1].seq_ <= cursor)
    ensures Between(whole, cursor, whole[n].seq_, sees) == if sees(whole[n]) then [whole[n]] else []
  {
    var e, front, back := whole[n], whole[..n], whole[n + 1..];
    assert whole == front + [e] + back;
    assert forall x :: x in front ==> x.seq_ <= cursor;
    assert forall x :: x in back ==> x.seq_ > e.seq_;
    AloneBetween(front, e, back, cursor, sees);
  }

  lemma AloneBetween(front: seq<Event>, e: Event, back: seq<Event>, cursor: int, sees: Event -> bool)
    requires forall x :: x in front ==> x.seq_ <= cursor
    requires forall x :: x in back ==> x.seq_ > e.seq_
    requires e.seq_ > cursor
    ensures Between(front + [e] + back, cursor, e.seq_, sees) == if sees(e) then [e] else []
  {
    BetweenAppends(front + [e], back, cursor, e.seq_, sees);
    BetweenEmpty(front, cursor, e.seq_, sees);
    BetweenEmpty(back, cursor, e.seq_, sees);
    assert (front + [e])[..|front|] == front;
  }

  lemma BatchOfWhole(snap: seq<Event>, whole: seq<Event>, cursor: int, limit: nat)
    requires InLogOrder(whole) && snap <= whole
    ensures var n, batch := Position(whole, cursor), After(snap, cursor, limit);
            n + |batch| <= |whole| && batch == whole[n..n + |batch|]
  {
    PositionInPrefix(snap, whole, cursor);
  }

  lemma Drained(snap: seq<Event>, whole: seq<Event>, cursor: int, cursor': int, limit: nat)
    requires InLogOrder(whole) && snap <= whole && |After(snap, cursor, limit)| < limit && cursor <= cursor'
    requires var batch := After(snap, cursor, limit); batch != [] ==> cursor' == batch[|batch| - 1].seq_
    ensures snap != [] ==> cursor' >= Head(snap)
  {
    PositionInPrefix(snap, whole, cursor);
    PositionSplits(snap, cursor);
    if snap != [] && Position(snap, cursor) == |snap| {
      assert snap[|snap| - 1].seq_ <= cursor;
    }
  }

  // ---- topics ----

  datatype Family =
    | RunLifecycle | Checkpoint | UsageLimits | GateAsk | HumanDecision | VerificationVerdict | Routing
    | KnowledgeInjection | Orchestration | Watchdog | DriftCanary | Platform | ToolsArtifacts | BenchmarkEval | RunSummary

  const FLEET_PLATFORM_TYPES := {"local.admissions_stopped", "local.admissions_resumed", "local.alias_retargeted", "local.unmetered_defect"}

  /** The tags of an event; `family` is the contract's classification of its type, None for an unknown type. */
  function TopicsFor(e: Event, family: Option<Family>): seq<string> {
    var byFamily :=
      match family
      case Some(RunLifecycle) => ["board"]
      case Some(UsageLimits) => ["fleet"]
      case Some(GateAsk) => ["inbox"]
      case Some(HumanDecision) => ["inbox"]
      case Some(Watchdog) => ["inbox"]
      case Some(DriftCanary) => ["inbox"]
      case Some(BenchmarkEval) => ["inbox"]
      case _ => [];
    byFamily + (if e.kind in FLEET_PLATFORM_TYPES then ["fleet"] else []) + (if e.run != "" then [TOPIC_RUN] else [])
  }

  /** The run topic is the whole trace of the subscribed run, across families, and nothing else. */
  lemma RunTopicIsTheTrace(sub: Subscription, e: Event, family: Option<Family>)
    requires sub.topics == Some({TOPIC_RUN}) && sub.run != ""
    ensures Visible(sub, e, TopicsFor(e, family)) <==> (sub.operator || e.user == sub.caller) && e.run == sub.run
  {
    var tags := TopicsFor(e, family);
    VisibleExactly(sub, e, tags);
    if e.run != "" { assert tags[|tags| - 1] == TOPIC_RUN; }
  }

  /** Which tags an event carries: one of its family, the fleet's for four kinds of platform event, and the run's if it
      has a run. */
  lemma TagsExactly(e: Event, family: Option<Family>, tag: string)
    ensures tag in TopicsFor(e, family) <==>
            || (tag == "board" && family == Some(RunLifecycle))
            || (tag == "fleet" && (family == Some(UsageLimits)
                                   || e.kind == "local.admissions_stopped" || e.kind == "local.admissions_resumed"
                                   || e.kind == "local.alias_retargeted" || e.kind == "local.unmetered_defect"))
            || (tag == "inbox" && family.Some?
                && (family.value.GateAsk? || family.value.HumanDecision? || family.value.Watchdog? || family.value.DriftCanary?
                    || family.value.BenchmarkEval?))
            || (tag == "run" && e.run != "")
  {
  }

  // ---- reconnecting ----

  const MAX_SEQ: nat := 0x7fff_ffff_ffff_ffff

  /** A non-negative 64-bit decimal, with an optional sign. */
  function ParseSeq(v: string): Option<nat> {
    var negative := v != "" && v[0] == '-';
    var digits := if negative || (v != "" && v[0] == '+') then v[1..] else v;
    if digits == "" || !AllDigits(digits) || Value(digits) > MAX_SEQ then None
    else if negative && Value(digits) != 0 then None
    else Some(Value(digits))
  }

  /** Last-Event-ID first, then after_seq, else the head. */
  function StartCursor(lastId: string, afterSeq: string, head: nat): Option<nat> {
    if lastId != "" then ParseSeq(lastId)
    else if afterSeq != "" then ParseSeq(afterSeq)
    else Some(head)
  }

  /** `v` is the digits of `n`, a number of at most 63 bits, after an optional sign that does not make it negative. */
  predicate Names(v: string, digits: string, n: nat) {
    && digits != "" && (forall i :: 0 <= i < |digits| ==> '0' <= digits[i] <= '9') && Value(digits) == n <= MAX_SEQ
    && (v == digits || v == "+" + digits || (v == "-" + digits && n == 0))
  }

  lemma NamedIsParsed(v: string, digits: string, n: nat)
    requires Names(v, digits, n)
    ensures ParseSeq(v) == Some(n)
  {
    if v == digits {
    } else if v == "+" + digits {
      assert v[1..] == digits;
    } else {
      assert v[1..] == digits;
    }
  }

  lemma ParsedIsNamed(v: string, n: nat)
    requires ParseSeq(v) == Some(n)
    ensures Names(v, if v[0] == '-' || v[0] == '+' then v[1..] else v, n)
  {
    assert v == [v[0]] + v[1..];
  }

  /** What is read as a cursor. */
  lemma ParsesExactly(v: string, n: nat)
    ensures ParseSeq(v) == Some(n) <==> exists digits :: Names(v, digits, n)
  {
    if ParseSeq(v) == Some(n) { ParsedIsNamed(v, n); }
    if digits :| Names(v, digits, n) { NamedIsParsed(v, digits, n); }
  }

  /** The cursor a request names: its Last-Event-ID if it has one, else its after_seq, else the head. */
  lemma StartsAt(lastId: string, afterSeq: string, head: nat)
    ensures lastId != "" ==> StartCursor(lastId, afterSeq, head) == ParseSeq(lastId)
    ensures lastId == "" && afterSeq != "" ==> StartCursor(lastId, afterSeq, head) == ParseSeq(afterSeq)
    ensures lastId == "" && afterSeq == "" ==> StartCursor(lastId, afterSeq, head) == Some(head)
  {
  }

  /** A frame's id is read back as the seq it names. */
  lemma IdRoundTrip(n: nat)
    requires n <= MAX_SEQ
    ensures Dec(n) != "" && ParseSeq(Dec(n)) == Some(n)
  {
    ValueDec(n);
  }

  /** The frames received up to one of them are the visible rows up to its seq. */
  lemma PrefixIsBetween(whole: seq<Event>, lo: int, hi: int, received: seq<Event>, sees: Event -> bool)
    requires InLogOrder(whole) && received != [] && received <= Between(whole, lo, hi, sees)
    ensures received == Between(whole, lo, received[|received| - 1].seq_, sees)
  {
    var out := Between(whole, lo, hi, sees);
    var last := received[|received| - 1].seq_;
    BetweenExactly(whole, lo, hi, sees);
    BetweenExactly(whole, lo, last, sees);
    UpTo(out, received);
    forall e ensures e in received <==> e in Between(whole, lo, last, sees) {
      assert e in received <==> e in out && e.seq_ <= last;
      assert received[|received| - 1] in received;
    }
    AscendingUnique(received, Between(whole, lo, last, sees), (e: Event) => e.seq_);
  }

  /** A prefix of an ascending list holds exactly what is no later than its last. */
  lemma UpTo(out: seq<Event>, prefix: seq<Event>)
    requires InLogOrder(out) && prefix != [] && prefix <= out
    ensures InLogOrder(prefix)
    ensures forall e :: e in prefix <==> e in out && e.seq_ <= prefix[|prefix| - 1].seq_
  {
    assert forall i :: 0 <= i < |prefix| ==> prefix[i] == out[i];
    forall e | e in out && e.seq_ <= prefix[|prefix| - 1].seq_ ensures e in prefix {
      var i :| 0 <= i < |out| && out[i] == e;
      assert i < |prefix|;
      assert prefix[i] == e;
    }
    forall e | e in prefix ensures e in out && e.seq_ <= prefix[|prefix| - 1].seq_ {
      var i :| 0 <= i < |prefix| && prefix[i] == e;
      assert out[i] == e;
    }
  }

  /** What a client sends back as Last-Event-ID: the id of the last frame it received. */
  function LastId(received: seq<Event>): string {
    if received == [] then "" else Dec(received[|received| - 1].seq_)
  }

  lemma ResumesAt(received: seq<Event>, afterSeq: string, head: nat)
    requires forall e :: e in received ==> e.seq_ <= MAX_SEQ
    ensures StartCursor(LastId(received), afterSeq, head)
            == if received != [] then Some(received[|received| - 1].seq_)
               else if afterSeq != "" then ParseSeq(afterSeq) else Some(head)
  {
    if received != [] { IdRoundTrip(received[|received| - 1].seq_); }
  }

  /** A reconnect, exactly. The first connection started from the request; the client received some of its frames,
      however the connection ended; it reconnects with the same request when the head is `head2` and is served up to
      `end`. What it received in all is the unbroken stream if and only if it had received a frame, or the request named
      a cursor, or nothing visible was appended in between. */
  lemma ReconnectExactly(whole: seq<Event>, afterSeq: string, head1: nat, lo: nat, hi: int, received: seq<Event>, head2: nat,
                         resumed: nat, end: int, sees: Event -> bool)
    requires InLogOrder(whole) && forall e :: e in whole ==> e.seq_ <= MAX_SEQ
    requires StartCursor("", afterSeq, head1) == Some(lo) && head1 <= head2
    requires received <= Between(whole, lo, hi, sees)
    requires StartCursor(LastId(received), afterSeq, head2) == Some(resumed) && resumed <= end
    ensures received + Between(whole, resumed, end, sees) == Between(whole, lo, end, sees)
            <==> received != [] || afterSeq != "" || Between(whole, lo, head2, sees) == []
  {
    BetweenExactly(whole, lo, hi, sees);
    forall e | e in received ensures e.seq_ <= MAX_SEQ && e.seq_ > lo {
      var i :| 0 <= i < |received| && received[i] == e;
      assert Between(whole, lo, hi, sees)[i] == e;
    }
    ResumesAt(received, afterSeq, head2);
    if received != [] {
      assert received[|received| - 1] in received;
      PrefixIsBetween(whole, lo, hi, received, sees);
      BetweenSplits(whole, lo, resumed, end, sees);
    } else if afterSeq == "" {
      BetweenSplits(whole, lo, head2, end, sees);
    }
  }
}
