/**
 The re-nag notifier (internal/api/notifier.go over internal/push/send.go): a due check that remembers nothing and
 reads its own history from the event log, and the timing it gives one open card over whole runs.
 */
module Notifier {
  import opened Wrappers

  datatype Class = Safety | Approval

  /** A ranked inbox item; `born` is when it was observed. */
  datatype Item = Item(id: string, class_: Class, born: int, answerable: bool, expiryAt: Option<int>)

  /** One logged push attempt. */
  datatype Row = Row(owner: string, card: string, ts: int)

  datatype Cadences = Cadences(pushAfter: int, reping: int)

  const LOOKBACK_CADENCES := 4
  const SECOND: int := 1_000_000_000

  function Cadence(c: Cadences, class_: Class): int {
    if class_ == Safety then c.reping else c.pushAfter
  }

  // ---- dueness ----

  function PushDue(class_: Class, born: int, last: Option<int>, now: int, c: Cadences): bool {
    match class_
    case Safety => (match last case None => true case Some(t) => now - t >= c.reping)
    case Approval => (match last case None => now - born >= c.pushAfter case Some(t) => now - t >= c.pushAfter)
  }

  predicate Expired(item: Item, now: int) { item.expiryAt.Some? && now >= item.expiryAt.value }

  predicate Due(item: Item, last: Option<int>, now: int, c: Cadences) {
    item.answerable && !Expired(item, now) && PushDue(item.class_, item.born, last, now, c)
  }

  /** The card's newest attempt in log order, among those at or after `since`. */
  function LastSince(log: seq<Row>, owner: string, card: string, since: int): Option<int> {
    if log == [] then None
    else
      var r := log[|log| - 1];
      if r.owner == owner && r.card == card && r.ts >= since then Some(r.ts)
      else LastSince(log[..|log| - 1], owner, card, since)
  }

  /** The card's newest attempt in the whole log. */
  function LastEver(log: seq<Row>, owner: string, card: string): Option<int> {
    if log == [] then None
    else
      var r := log[|log| - 1];
      if r.owner == owner && r.card == card then Some(r.ts) else LastEver(log[..|log| - 1], owner, card)
  }

  function Larger(a: int, b: int): int { if a > b then a else b }

  /** The scan's bound: four of the longer cadence back, to the second. */
  function Since(now: int, c: Cadences): int {
    (now - LOOKBACK_CADENCES * Larger(c.pushAfter, c.reping)) / SECOND * SECOND
  }

  // ---- one pass ----

  /** The attempts of one pass for the first `n` items: each due card goes to each subscription. */
  function PassRows(log: seq<Row>, owner: string, items: seq<Item>, n: nat, subs: nat, now: int, c: Cadences,
                    stamps: (nat, nat) -> int): seq<Row>
    requires n <= |items|
  {
    if n == 0 then []
    else
      var item := items[n - 1];
      var last := LastSince(log, owner, item.id, Since(now, c));
      PassRows(log, owner, items, n - 1, subs, now, c, stamps)
      + if Due(item, last, now, c) then CardRows(owner, item.id, subs, n - 1, stamps) else []
  }

  function CardRows(owner: string, card: string, subs: nat, i: nat, stamps: (nat, nat) -> int): seq<Row> {
    seq(subs, j requires 0 <= j < subs => Row(owner, card, stamps(i, j)))
  }

  function Notified(log: seq<Row>, owner: string, items: seq<Item>, subs: nat, now: int, c: Cadences, stamps: (nat, nat) -> int): seq<Row> {
    if subs == 0 then log else log + PassRows(log, owner, items, |items|, subs, now, c, stamps)
  }

  /** One identity of a pass; `fails` is an evaluation that goes wrong before it sends. */
  datatype Identity = Identity(owner: string, items: seq<Item>, subs: nat, fails: bool, stamps: (nat, nat) -> int)

  /** Identity after identity. */
  function Evaluated(log: seq<Row>, ids: seq<Identity>, now: int, c: Cadences): seq<Row> {
    if ids == [] then log
    else
      var id, front := ids[|ids| - 1], Evaluated(log, ids[..|ids| - 1], now, c);
      if id.fails then front else Notified(front, id.owner, id.items, id.subs, now, c, id.stamps)
  }

  function RowsOf(log: seq<Row>, owner: string): seq<Row> {
    if log == [] then []
    else RowsOf(log[..|log| - 1], owner) + if log[|log| - 1].owner == owner then [log[|log| - 1]] else []
  }

  lemma {:induction false} RowsOfAppend(a: seq<Row>, b: seq<Row>, owner: string)
    ensures RowsOf(a + b, owner) == RowsOf(a, owner) + RowsOf(b, owner)
  {
    if b == [] {
      assert a + b == a;
      assert RowsOf(a, owner) + [] == RowsOf(a, owner);
    } else {
      RowsOfAppend(a, b[..|b| - 1], owner);
      assert (a + b)[..|a + b| - 1] == a + b[..|b| - 1];
    }
  }

  /** The due check reads the identity's own rows and no others. */
  lemma {:induction false} LastOfOwn(log: seq<Row>, owner: string, card: string, since: int)
    ensures LastSince(RowsOf(log, owner), owner, card, since) == LastSince(log, owner, card, since)
  {
    if log != [] {
      LastOfOwn(log[..|log| - 1], owner, card, since);
      var own := RowsOf(log[..|log| - 1], owner);
      var r := log[|log| - 1];
      assert (own + [r])[..|own|] == own;
      assert own + [] == own;
    }
  }

  lemma {:induction false} PassRowsOfOwn(log: seq<Row>, log': seq<Row>, owner: string, items: seq<Item>, n: nat, subs: nat, now: int,
                                         c: Cadences, stamps: (nat, nat) -> int)
    requires n <= |items| && RowsOf(log, owner) == RowsOf(log', owner)
    ensures PassRows(log, owner, items, n, subs, now, c, stamps) == PassRows(log', owner, items, n, subs, now, c, stamps)
    ensures forall r :: r in PassRows(log, owner, items, n, subs, now, c, stamps) ==> r.owner == owner
  {
    if n > 0 {
      PassRowsOfOwn(log, log', owner, items, n - 1, subs, now, c, stamps);
      LastOfOwn(log, owner, items[n - 1].id, Since(now, c));
      LastOfOwn(log', owner, items[n - 1].id, Since(now, c));
    }
  }

  lemma {:induction false} AllOrNoneOwn(rows: seq<Row>, owner: string)
    ensures (forall r :: r in rows ==> r.owner == owner) ==> RowsOf(rows, owner) == rows
    ensures (forall r :: r in rows ==> r.owner != owner) ==> RowsOf(rows, owner) == []
  {
    if rows != [] {
      var front := rows[..|rows| - 1];
      AllOrNoneOwn(front, owner);
      assert rows == front + [rows[|rows| - 1]];
    }
  }

  lemma NotifiedForOthers(log: seq<Row>, log': seq<Row>, owner: string, items: seq<Item>, subs: nat, now: int, c: Cadences,
                          stamps: (nat, nat) -> int, reader: string)
    requires RowsOf(log, reader) == RowsOf(log', reader)
    ensures reader == owner ==> RowsOf(Notified(log, owner, items, subs, now, c, stamps), reader)
                                == RowsOf(Notified(log', owner, items, subs, now, c, stamps), reader)
    ensures reader != owner ==> RowsOf(Notified(log, owner, items, subs, now, c, stamps), reader) == RowsOf(log, reader)
  {
    var rows := PassRows(log, owner, items, |items|, subs, now, c, stamps);
    PassRowsOfOwn(log, log, owner, items, |items|, subs, now, c, stamps);
    RowsOfAppend(log, rows, reader);
    if reader == owner {
      PassRowsOfOwn(log, log', owner, items, |items|, subs, now, c, stamps);
      RowsOfAppend(log', rows, reader);
    } else {
      AllOrNoneOwn(rows, reader);
      assert RowsOf(log, reader) + [] == RowsOf(log, reader);
    }
  }

  /** One identity's failure silences nobody else, and nobody's pushes depend on anybody else's: what a pass logs for an
      identity is what it would log for it alone. */
  lemma {:induction false} EachAlone(log: seq<Row>, ids: seq<Identity>, now: int, c: Cadences, k: nat)
    requires k < |ids| && !ids[k].fails
    requires forall i, j :: 0 <= i < j < |ids| ==> ids[i].owner != ids[j].owner
    ensures RowsOf(Evaluated(log, ids, now, c), ids[k].owner)
            == RowsOf(Notified(log, ids[k].owner, ids[k].items, ids[k].subs, now, c, ids[k].stamps), ids[k].owner)
  {
    var n := |ids| - 1;
    var id, front := ids[n], Evaluated(log, ids[..n], now, c);
    if k < n {
      EachAlone(log, ids[..n], now, c, k);
      NotifiedForOthers(front, front, id.owner, id.items, id.subs, now, c, id.stamps, ids[k].owner);
    } else {
      NotYet(log, ids[..n], now, c, id.owner);
      NotifiedForOthers(front, log, id.owner, id.items, id.subs, now, c, id.stamps, id.owner);
    }
  }

  lemma {:induction false} NotYet(log: seq<Row>, ids: seq<Identity>, now: int, c: Cadences, reader: string)
    requires forall i :: 0 <= i < |ids| ==> ids[i].owner != reader
    ensures RowsOf(Evaluated(log, ids, now, c), reader) == RowsOf(log, reader)
  {
    if ids != [] {
      var id, front := ids[|ids| - 1], Evaluated(log, ids[..|ids| - 1], now, c);
      NotYet(log, ids[..|ids| - 1], now, c, reader);
      NotifiedForOthers(front, front, id.owner, id.items, id.subs, now, c, id.stamps, reader);
    }
  }

  // ---- the bound on the scan ----

  ghost predicate PushedSince(log: seq<Row>, owner: string, card: string, born: int) {
    forall r :: r in log && r.owner == owner && r.card == card ==> r.ts >= born
  }

  /** The card's attempts are logged in time order. */
  ghost predicate InTime(log: seq<Row>, owner: string, card: string) {
    forall i, j :: 0 <= i < j < |log| && log[i].owner == owner && log[i].card == card && log[j].owner == owner && log[j].card == card ==>
      log[i].ts <= log[j].ts
  }

  lemma {:induction false} SinceOrEver(log: seq<Row>, owner: string, card: string, since: int)
    requires InTime(log, owner, card)
    ensures LastSince(log, owner, card, since)
            == match LastEver(log, owner, card)
               case None => None
               case Some(t) => if t >= since then Some(t) else None
  {
    if log != [] {
      var front, r := log[..|log| - 1], log[|log| - 1];
      SinceOrEver(front, owner, card, since);
      if r.owner == owner && r.card == card {
        match LastEver(front, owner, card) {
          case None =>
          case Some(t) => LastIn(front, owner, card);
        }
      }
    }
  }

  lemma {:induction false} LastIn(log: seq<Row>, owner: string, card: string)
    ensures LastEver(log, owner, card).Some? ==>
              exists i :: 0 <= i < |log| && log[i] == Row(owner, card, LastEver(log, owner, card).value)
    ensures LastEver(log, owner, card).None? ==> forall r :: r in log ==> !(r.owner == owner && r.card == card)
  {
    if log != [] {
      var front, r := log[..|log| - 1], log[|log| - 1];
      LastIn(front, owner, card);
      if !(r.owner == owner && r.card == card) && LastEver(front, owner, card).Some? {
        var i :| 0 <= i < |front| && front[i] == Row(owner, card, LastEver(front, owner, card).value);
        assert log[i] == front[i];
      }
    }
  }

  /** The bound on the history scan never changes a decision. */
  lemma LookbackChangesNothing(log: seq<Row>, owner: string, item: Item, now: int, c: Cadences)
    requires c.pushAfter >= 0 && c.reping >= 0
    requires InTime(log, owner, item.id) && PushedSince(log, owner, item.id, item.born)
    ensures Due(item, LastSince(log, owner, item.id, Since(now, c)), now, c) == Due(item, LastEver(log, owner, item.id), now, c)
  {
    SinceOrEver(log, owner, item.id, Since(now, c));
    LastIn(log, owner, item.id);
    var bound := now - LOOKBACK_CADENCES * Larger(c.pushAfter, c.reping);
    assert bound / SECOND * SECOND <= bound;
  }

  // ---- who is pushed what ----

  /** The card's countdown has run out. */
  predicate Over(item: Item, now: int) {
    match item.expiryAt
    case None => false
    case Some(at) => at <= now
  }

  /** Somebody can still answer the card. */
  predicate Live(item: Item, now: int) {
    item.answerable && !Over(item, now)
  }

  /** The row is an attempt of `id`'s for a card that is live, at one of its devices. */
  ghost predicate Attempt(id: Identity, now: int, r: Row) {
    && !id.fails && r.owner == id.owner
    && exists i, j :: 0 <= i < |id.items| && 0 <= j < id.subs && id.items[i].id == r.card && Live(id.items[i], now) && r.ts == id.stamps(i, j)
  }

  lemma {:induction false} PassAttempts(log: seq<Row>, id: Identity, n: nat, now: int, c: Cadences, r: Row)
    requires n <= |id.items| && !id.fails && r in PassRows(log, id.owner, id.items, n, id.subs, now, c, id.stamps)
    ensures Attempt(id, now, r)
  {
    if r in PassRows(log, id.owner, id.items, n - 1, id.subs, now, c, id.stamps) {
      PassAttempts(log, id, n - 1, now, c, r);
    } else {
      assert r in CardRows(id.owner, id.items[n - 1].id, id.subs, n - 1, id.stamps);
    }
  }

  /** Every row a pass adds is an attempt, of an identity whose evaluation does not fail, at one of its devices, for a card on
      its list that it can answer and that has not expired. Nothing that was logged is taken back. */
  lemma {:induction false} AddsAttemptsOnly(log: seq<Row>, ids: seq<Identity>, now: int, c: Cadences, r: Row)
    ensures log <= Evaluated(log, ids, now, c)
    ensures r in Evaluated(log, ids, now, c)[|log|..] ==> exists k :: 0 <= k < |ids| && Attempt(ids[k], now, r)
  {
    if ids != [] {
      var n := |ids| - 1;
      var id, front := ids[n], Evaluated(log, ids[..n], now, c);
      AddsAttemptsOnly(log, ids[..n], now, c, r);
      if r in front[|log|..] {
        var k :| 0 <= k < n && Attempt(ids[..n][k], now, r);
        assert Attempt(ids[k], now, r);
      } else if r in Evaluated(log, ids, now, c)[|log|..] {
        PassAttempts(front, id, |id.items|, now, c, r);
      }
    }
  }

  // ---- what one pass does for one card ----

  /** The card's attempts. */
  function RowsFor(log: seq<Row>, owner: string, card: string): seq<Row> {
    if log == [] then []
    else
      var r := log[|log| - 1];
      RowsFor(log[..|log| - 1], owner, card) + if r.owner == owner && r.card == card then [r] else []
  }

  lemma {:induction false} RowsForAppend(a: seq<Row>, b: seq<Row>, owner: string, card: string)
    ensures RowsFor(a + b, owner, card) == RowsFor(a, owner, card) + RowsFor(b, owner, card)
  {
    if b == [] {
      assert a + b == a;
      assert RowsFor(a, owner, card) + [] == RowsFor(a, owner, card);
    } else {
      RowsForAppend(a, b[..|b| - 1], owner, card);
      assert (a + b)[..|a + b| - 1] == a + b[..|b| - 1];
    }
  }

  lemma {:induction false} AllOrNoneFor(rows: seq<Row>, owner: string, card: string)
    ensures (forall r :: r in rows ==> r.owner == owner && r.card == card) ==> RowsFor(rows, owner, card) == rows
    ensures Silent(rows, owner, card) ==> RowsFor(rows, owner, card) == []
  {
    if rows != [] {
      AllOrNoneFor(rows[..|rows| - 1], owner, card);
      assert rows == rows[..|rows| - 1] + [rows[|rows| - 1]];
    }
  }

  /** The re-nag rule of one card, from its last attempt: a safety card at once and every `reping`, any other card
      `pushAfter` from its birth and from each attempt. */
  predicate Nags(item: Item, last: Option<int>, now: int, c: Cadences) {
    if item.class_ == Safety then last.None? || last.value + c.reping <= now
    else (if last.Some? then last.value else item.born) + c.pushAfter <= now
  }

  lemma CardRowsFor(owner: string, other: string, subs: nat, i: nat, stamps: (nat, nat) -> int, card: string)
    ensures RowsFor(CardRows(owner, other, subs, i, stamps), owner, card)
            == if other == card then CardRows(owner, other, subs, i, stamps) else []
  {
    AllOrNoneFor(CardRows(owner, other, subs, i, stamps), owner, card);
  }

  lemma {:induction false} PassRowsFor(log: seq<Row>, owner: string, items: seq<Item>, n: nat, subs: nat, now: int, c: Cadences,
                                       stamps: (nat, nat) -> int, i: nat, item: Item)
    requires n <= |items| && Lists(items, i, item)
    ensures RowsFor(PassRows(log, owner, items, n, subs, now, c, stamps), owner, item.id)
            == if i < n && Due(item, LastSince(log, owner, item.id, Since(now, c)), now, c) then CardRows(owner, item.id, subs, i, stamps)
               else []
  {
    if n > 0 {
      PassRowsFor(log, owner, items, n - 1, subs, now, c, stamps, i, item);
      var other := items[n - 1];
      var before := PassRows(log, owner, items, n - 1, subs, now, c, stamps);
      if Due(other, LastSince(log, owner, other.id, Since(now, c)), now, c) {
        RowsForAppend(before, CardRows(owner, other.id, subs, n - 1, stamps), owner, item.id);
        CardRowsFor(owner, other.id, subs, n - 1, stamps, item.id);
      } else {
        assert before + [] == before;
      }
    }
  }

  /** A pass attempts a card of the list exactly if it is live and its re-nag rule says so, and then once at each device. */
  lemma PassExactly(log: seq<Row>, owner: string, items: seq<Item>, subs: nat, now: int, c: Cadences, stamps: (nat, nat) -> int,
                    i: nat, item: Item)
    requires Lists(items, i, item)
    ensures var rows := RowsFor(PassRows(log, owner, items, |items|, subs, now, c, stamps), owner, item.id);
            if Live(item, now) && Nags(item, LastSince(log, owner, item.id, Since(now, c)), now, c) then
              |rows| == subs && forall j :: 0 <= j < subs ==> rows[j] == Row(owner, item.id, stamps(i, j))
            else rows == []
  {
    PassRowsFor(log, owner, items, |items|, subs, now, c, stamps, i, item);
  }

  ghost predicate Lists(items: seq<Item>, i: nat, item: Item) {
    && i < |items| && items[i] == item
    && (forall j :: 0 <= j < |items| && j != i ==> items[j].id != item.id)
  }

  /** No row of `rows` is the card's. */
  ghost predicate Silent(rows: seq<Row>, owner: string, card: string) {
    forall r :: r in rows ==> !(r.owner == owner && r.card == card)
  }

  lemma {:induction false} LastAppends(log: seq<Row>, rows: seq<Row>, owner: string, card: string)
    ensures LastEver(log + rows, owner, card)
            == if LastEver(rows, owner, card).Some? then LastEver(rows, owner, card) else LastEver(log, owner, card)
  {
    if rows == [] {
      assert log + rows == log;
    } else {
      LastAppends(log, rows[..|rows| - 1], owner, card);
      assert (log + rows)[..|log + rows| - 1] == log + rows[..|rows| - 1];
    }
  }

  lemma CardRowsLast(owner: string, card: string, subs: nat, i: nat, stamps: (nat, nat) -> int)
    requires subs > 0
    ensures LastEver(CardRows(owner, card, subs, i, stamps), owner, card) == Some(stamps(i, subs - 1))
  {
  }

  lemma SilentLast(rows: seq<Row>, owner: string, card: string)
    requires Silent(rows, owner, card)
    ensures LastEver(rows, owner, card) == None
  {
    LastIn(rows, owner, card);
  }

  /** The card's attempts of a pass: all its own, the last of them stamped last. */
  lemma {:induction false} PassLast(log: seq<Row>, owner: string, items: seq<Item>, n: nat, subs: nat, now: int, c: Cadences,
                                    stamps: (nat, nat) -> int, i: nat, item: Item)
    requires n <= |items| && Lists(items, i, item) && subs > 0
    ensures LastEver(PassRows(log, owner, items, n, subs, now, c, stamps), owner, item.id)
            == if i < n && Due(item, LastSince(log, owner, item.id, Since(now, c)), now, c) then Some(stamps(i, subs - 1)) else None
    ensures forall r :: r in PassRows(log, owner, items, n, subs, now, c, stamps) && r.owner == owner && r.card == item.id ==>
              exists j :: 0 <= j < subs && r.ts == stamps(i, j)
  {
    if n > 0 {
      PassLast(log, owner, items, n - 1, subs, now, c, stamps, i, item);
      var before := PassRows(log, owner, items, n - 1, subs, now, c, stamps);
      var rows := CardRows(owner, items[n - 1].id, subs, n - 1, stamps);
      LastAppends(before, rows, owner, item.id);
      if n - 1 == i {
        CardRowsLast(owner, item.id, subs, i, stamps);
      } else {
        SilentLast(rows, owner, item.id);
      }
      assert before + [] == before;
    }
  }

  // ---- whole runs ----

  /** One pass for the identity, and what was logged since the pass before. */
  datatype Pass = Pass(now: int, items: seq<Item>, subs: nat, stamps: (nat, nat) -> int, others: seq<Row>)

  function LogAfter(passes: seq<Pass>, owner: string, c: Cadences): seq<Row> {
    if passes == [] then []
    else
      var p := passes[|passes| - 1];
      Notified(LogAfter(passes[..|passes| - 1], owner, c) + p.others, owner, p.items, p.subs, p.now, c, p.stamps)
  }

  /** From pass `k` on the card is not on the list, or not to be answered, or expired, and nobody else logs attempts of it. */
  ghost predicate Gone(passes: seq<Pass>, owner: string, card: string, k: nat) {
    forall m :: k <= m < |passes| ==>
      && Silent(passes[m].others, owner, card)
      && (forall i :: 0 <= i < |passes[m].items| && passes[m].items[i].id == card ==> !Live(passes[m].items[i], passes[m].now))
  }

  /** A card that has been answered, can no longer be answered or has expired is never pushed again. */
  lemma {:induction false} GoneIsQuiet(passes: seq<Pass>, owner: string, c: Cadences, card: string, k: nat)
    requires k <= |passes| && Gone(passes, owner, card, k)
    ensures RowsFor(LogAfter(passes, owner, c), owner, card) == RowsFor(LogAfter(passes[..k], owner, c), owner, card)
  {
    if k == |passes| {
      assert passes[..k] == passes;
    } else {
      var n := |passes| - 1;
      var p, log := passes[n], LogAfter(passes[..n], owner, c);
      assert passes[..n][..k] == passes[..k];
      GoneIsQuiet(passes[..n], owner, c, card, k);
      RowsForAppend(log, p.others, owner, card);
      AllOrNoneFor(p.others, owner, card);
      assert RowsFor(log, owner, card) + [] == RowsFor(log, owner, card);
      QuietPass(log + p.others, p, owner, c, card);
    }
  }

  lemma QuietPass(log: seq<Row>, p: Pass, owner: string, c: Cadences, card: string)
    requires forall i :: 0 <= i < |p.items| && p.items[i].id == card ==> !Live(p.items[i], p.now)
    ensures RowsFor(Notified(log, owner, p.items, p.subs, p.now, c, p.stamps), owner, card) == RowsFor(log, owner, card)
  {
    var id := Identity(owner, p.items, p.subs, false, p.stamps);
    var rows := PassRows(log, owner, p.items, |p.items|, p.subs, p.now, c, p.stamps);
    forall r | r in rows ensures !(r.owner == owner && r.card == card) {
      PassAttempts(log, id, |p.items|, p.now, c, r);
    }
    RowsForAppend(log, rows, owner, card);
    AllOrNoneFor(rows, owner, card);
    assert RowsFor(log, owner, card) + [] == RowsFor(log, owner, card);
  }

  /** Pass `k` attempts the card. */
  predicate Pushes(passes: seq<Pass>, owner: string, c: Cadences, item: Item, k: nat)
    requires k < |passes|
  {
    var p := passes[k];
    p.subs > 0 && Due(item, LastSince(LogAfter(passes[..k], owner, c) + p.others, owner, item.id, Since(p.now, c)), p.now, c)
  }

  /** That is, it logs the card's attempts, one at each device. */
  lemma PushesAreLogged(passes: seq<Pass>, owner: string, c: Cadences, item: Item, at: seq<nat>, gap: int, k: nat)
    requires Steady(passes, owner, item, at, gap) && k < |passes|
    ensures |RowsFor(LogAfter(passes[..k + 1], owner, c), owner, item.id)|
            == |RowsFor(LogAfter(passes[..k], owner, c), owner, item.id)| + if Pushes(passes, owner, c, item, k) then passes[k].subs else 0
  {
    var p, log := passes[k], LogAfter(passes[..k], owner, c);
    assert passes[..k + 1][..k] == passes[..k] && SteadyPass(p, owner, item, at[k]);
    var rows := PassRows(log + p.others, owner, p.items, |p.items|, p.subs, p.now, c, p.stamps);
    RowsForAppend(log, p.others, owner, item.id);
    AllOrNoneFor(p.others, owner, item.id);
    RowsForAppend(log + p.others, rows, owner, item.id);
    PassExactly(log + p.others, owner, p.items, p.subs, p.now, c, p.stamps, at[k], item);
  }

  /** One open, answerable, unexpired card seen by every pass; passes at most `gap` apart, the first within `gap` of the
      card's birth; every attempt logged between its pass and the next. `at[k]` is the card's place in pass `k`'s list. */
  ghost predicate Steady(passes: seq<Pass>, owner: string, item: Item, at: seq<nat>, gap: int) {
    && |at| == |passes| && item.answerable
    && (forall k :: 0 <= k < |passes| ==> SteadyPass(passes[k], owner, item, at[k]))
    && (forall k :: 0 < k < |passes| ==> Follows(passes[k - 1], at[k - 1], passes[k], gap))
    && (passes != [] ==> item.born <= passes[0].now <= item.born + gap)
  }

  ghost predicate SteadyPass(p: Pass, owner: string, item: Item, i: nat) {
    && p.subs > 0 && Lists(p.items, i, item) && !Over(item, p.now) && Silent(p.others, owner, item.id)
    && (forall j, j' :: 0 <= j <= j' < p.subs ==> p.now <= p.stamps(i, j) <= p.stamps(i, j'))
  }

  ghost predicate Follows(p: Pass, i: nat, q: Pass, gap: int) {
    p.now <= q.now <= p.now + gap && forall j :: 0 <= j < p.subs ==> p.stamps(i, j) <= q.now
  }

  /** The last stamp of the latest pass that attempted the card. */
  ghost function LastPush(passes: seq<Pass>, owner: string, c: Cadences, item: Item, at: seq<nat>): Option<int>
    requires |at| == |passes| && forall k :: 0 <= k < |passes| ==> passes[k].subs > 0
  {
    if passes == [] then None
    else
      var k := |passes| - 1;
      if Pushes(passes, owner, c, item, k) then Some(passes[k].stamps(at[k], passes[k].subs - 1))
      else LastPush(passes[..k], owner, c, item, at[..k])
  }

  ghost predicate Bounded(log: seq<Row>, owner: string, card: string, lo: int, hi: int) {
    forall r :: r in log && r.owner == owner && r.card == card ==> lo <= r.ts <= hi
  }

  lemma InTimeAppend(a: seq<Row>, b: seq<Row>, owner: string, card: string, mid: int)
    requires InTime(a, owner, card) && InTime(b, owner, card)
    requires forall r :: r in a && r.owner == owner && r.card == card ==> r.ts <= mid
    requires forall r :: r in b && r.owner == owner && r.card == card ==> r.ts >= mid
    ensures InTime(a + b, owner, card)
  {
    var all := a + b;
    forall i, j | 0 <= i < j < |all| && all[i].owner == owner && all[i].card == card && all[j].owner == owner && all[j].card == card
      ensures all[i].ts <= all[j].ts
    {
      if i < |a| && j >= |a| {
        assert all[i] in a && all[j] in b;
      }
    }
  }

  lemma SilentInTime(a: seq<Row>, b: seq<Row>, owner: string, card: string)
    requires InTime(a, owner, card) && Silent(b, owner, card)
    ensures InTime(a + b, owner, card) && InTime(b + a, owner, card)
  {
    forall i | 0 <= i < |b| ensures !(b[i].owner == owner && b[i].card == card) {
      assert b[i] in b;
    }
  }

  lemma {:induction false} PassInTime(log: seq<Row>, owner: string, items: seq<Item>, n: nat, subs: nat, now: int, c: Cadences,
                                      stamps: (nat, nat) -> int, i: nat, item: Item)
    requires n <= |items| && Lists(items, i, item)
    requires forall j, j' :: 0 <= j <= j' < subs ==> now <= stamps(i, j) <= stamps(i, j')
    ensures InTime(PassRows(log, owner, items, n, subs, now, c, stamps), owner, item.id)
    ensures n <= i ==> Silent(PassRows(log, owner, items, n, subs, now, c, stamps), owner, item.id)
  {
    if n > 0 {
      PassInTime(log, owner, items, n - 1, subs, now, c, stamps, i, item);
      var before := PassRows(log, owner, items, n - 1, subs, now, c, stamps);
      var rows := CardRows(owner, items[n - 1].id, subs, n - 1, stamps);
      assert before + [] == before;
      if n - 1 == i {
        SilentInTime(rows, before, owner, item.id);
      } else {
        SilentInTime(before, rows, owner, item.id);
      }
    }
  }

  lemma SteadyPrefix(passes: seq<Pass>, owner: string, item: Item, at: seq<nat>, gap: int, k: nat)
    requires Steady(passes, owner, item, at, gap) && k <= |passes|
    ensures Steady(passes[..k], owner, item, at[..k], gap)
  {
  }

  /** A pass's last attempt of the card listed at `i`. */
  function Latest(p: Pass, i: nat): int
    requires p.subs > 0
  {
    p.stamps(i, p.subs - 1)
  }

  /** After a steady run: the card's attempts are in time order, none before its birth, none after the last pass's, and
      the newest is the latest pushing pass's last. */
  lemma {:induction false} RunFacts(passes: seq<Pass>, owner: string, c: Cadences, item: Item, at: seq<nat>, gap: int)
    requires Steady(passes, owner, item, at, gap)
    ensures var log := LogAfter(passes, owner, c);
            && InTime(log, owner, item.id)
            && LastEver(log, owner, item.id) == LastPush(passes, owner, c, item, at)
            && (if passes == [] then log == []
                else item.born <= passes[|passes| - 1].now
                     && Bounded(log, owner, item.id, item.born, Latest(passes[|passes| - 1], at[|passes| - 1])))
  {
    if passes != [] {
      var k := |passes| - 1;
      var front := passes[..k];
      assert SteadyPass(passes[k], owner, item, at[k]);
      SteadyPrefix(passes, owner, item, at, gap, k);
      RunFacts(front, owner, c, item, at[..k], gap);
      if k > 0 { assert Follows(passes[k - 1], at[k - 1], passes[k], gap); }
      PassFacts(LogAfter(front, owner, c), passes[k], owner, c, item, at[k]);
    }
  }

  /** One pass on top of a log whose attempts of the card are in order and over. */
  lemma PassFacts(log: seq<Row>, p: Pass, owner: string, c: Cadences, item: Item, i: nat)
    requires SteadyPass(p, owner, item, i) && InTime(log, owner, item.id)
    requires Bounded(log, owner, item.id, item.born, p.now) && item.born <= p.now
    ensures var log' := Notified(log + p.others, owner, p.items, p.subs, p.now, c, p.stamps);
            && InTime(log', owner, item.id) && Bounded(log', owner, item.id, item.born, Latest(p, i))
            && LastEver(log', owner, item.id)
               == (if Due(item, LastSince(log + p.others, owner, item.id, Since(p.now, c)), p.now, c) then Some(Latest(p, i))
                   else LastEver(log, owner, item.id))
  {
    var seen := log + p.others;
    var rows := PassRows(seen, owner, p.items, |p.items|, p.subs, p.now, c, p.stamps);
    SilentInTime(log, p.others, owner, item.id);
    PassInTime(seen, owner, p.items, |p.items|, p.subs, p.now, c, p.stamps, i, item);
    PassLast(seen, owner, p.items, |p.items|, p.subs, p.now, c, p.stamps, i, item);
    InTimeAppend(seen, rows, owner, item.id, p.now);
    LastAppends(seen, rows, owner, item.id);
    LastAppends(log, p.others, owner, item.id);
    SilentLast(p.others, owner, item.id);
  }

  /** What pass `k` sees is the latest pushing pass's last stamp, whatever the scan's bound cut off. */
  lemma PushesExactly(passes: seq<Pass>, owner: string, c: Cadences, item: Item, at: seq<nat>, gap: int, k: nat)
    requires Steady(passes, owner, item, at, gap) && k < |passes| && c.pushAfter >= 0 && c.reping >= 0
    ensures Pushes(passes, owner, c, item, k)
            <==> PushDue(item.class_, item.born, LastPush(passes[..k], owner, c, item, at[..k]), passes[k].now, c)
  {
    var p, front := passes[k], passes[..k];
    assert SteadyPass(p, owner, item, at[k]);
    SteadyPrefix(passes, owner, item, at, gap, k);
    RunFacts(front, owner, c, item, at[..k], gap);
    var log := LogAfter(front, owner, c);
    SilentInTime(log, p.others, owner, item.id);
    LastAppends(log, p.others, owner, item.id);
    SilentLast(p.others, owner, item.id);
    LookbackChangesNothing(log + p.others, owner, item, p.now, c);
  }

  /** The two-sided guarantee, at every pass of every steady run. Before the first push: a safety card is pushed by the
      first pass, within `gap` of its birth; an approval card is pushed exactly from `pushAfter` on, and no pass finds it
      unpushed later than `pushAfter + gap`. After a push stamped `t`: the card is pushed again exactly from `t + cadence`
      on, and no pass comes before that push later than `t + cadence + gap`. */
  lemma RenagGuarantee(passes: seq<Pass>, owner: string, c: Cadences, item: Item, at: seq<nat>, gap: int, k: nat)
    requires Steady(passes, owner, item, at, gap) && k < |passes| && c.pushAfter >= 0 && c.reping >= 0
    ensures var now, pushes := passes[k].now, Pushes(passes, owner, c, item, k);
            match LastPush(passes[..k], owner, c, item, at[..k])
            case None =>
              if item.class_ == Safety then k == 0 && pushes && now <= item.born + gap
              else (pushes <==> now >= item.born + c.pushAfter) && now <= item.born + c.pushAfter + gap
            case Some(t) =>
              (pushes <==> now >= t + Cadence(c, item.class_)) && now <= t + Cadence(c, item.class_) + gap
  {
    PushesExactly(passes, owner, c, item, at, gap, k);
    if k > 0 {
      var j := k - 1;
      assert SteadyPass(passes[j], owner, item, at[j]) && Follows(passes[j], at[j], passes[k], gap);
      PushesExactly(passes, owner, c, item, at, gap, j);
      assert passes[..k][..j] == passes[..j] && at[..k][..j] == at[..j];
      PushesInPrefix(passes, owner, c, item, j, k);
    }
  }

  lemma PushesInPrefix(passes: seq<Pass>, owner: string, c: Cadences, item: Item, j: nat, k: nat)
    requires j < k <= |passes|
    ensures Pushes(passes[..k], owner, c, item, j) == Pushes(passes, owner, c, item, j)
  {
    assert passes[..k][..j] == passes[..j];
  }

  lemma {:induction false} PushedNotBefore(passes: seq<Pass>, owner: string, c: Cadences, item: Item, at: seq<nat>, gap: int, i: nat, k: nat)
    requires Steady(passes, owner, item, at, gap) && i < k <= |passes| && Pushes(passes, owner, c, item, i)
    ensures var last := LastPush(passes[..k], owner, c, item, at[..k]); last.Some? && last.value >= Latest(passes[i], at[i])
  {
    var j := k - 1;
    assert passes[..k][..j] == passes[..j] && at[..k][..j] == at[..j];
    PushesInPrefix(passes, owner, c, item, j, k);
    if j > i {
      PushedNotBefore(passes, owner, c, item, at, gap, i, j);
      LaterStamps(passes, owner, item, at, gap, i, j);
    }
  }

  lemma {:induction false} LaterStamps(passes: seq<Pass>, owner: string, item: Item, at: seq<nat>, gap: int, i: nat, j: nat)
    requires Steady(passes, owner, item, at, gap) && i < j < |passes|
    ensures passes[i].subs > 0 && passes[j].subs > 0
    ensures Latest(passes[i], at[i]) <= passes[j].now <= Latest(passes[j], at[j])
  {
    assert SteadyPass(passes[i], owner, item, at[i]) && SteadyPass(passes[j], owner, item, at[j]);
    assert Follows(passes[j - 1], at[j - 1], passes[j], gap);
    if i < j - 1 { LaterStamps(passes, owner, item, at, gap, i, j - 1); }
  }

  /** Two passes that push the card are never closer than its cadence, from the last attempt of the one to the other. */
  lemma NeverCloser(passes: seq<Pass>, owner: string, c: Cadences, item: Item, at: seq<nat>, gap: int, i: nat, k: nat)
    requires Steady(passes, owner, item, at, gap) && i < k < |passes| && c.pushAfter >= 0 && c.reping >= 0
    requires Pushes(passes, owner, c, item, i) && Pushes(passes, owner, c, item, k)
    ensures passes[k].now >= Latest(passes[i], at[i]) + Cadence(c, item.class_)
  {
    RenagGuarantee(passes, owner, c, item, at, gap, k);
    PushedNotBefore(passes, owner, c, item, at, gap, i, k);
  }

  /** Two passes back to back push once: the second finds the first one's attempt. */
  lemma RepeatedPassIsQuiet(passes: seq<Pass>, owner: string, c: Cadences, item: Item, at: seq<nat>, gap: int, k: nat)
    requires Steady(passes, owner, item, at, gap) && k + 1 < |passes| && c.pushAfter > 0 && c.reping > 0
    requires Pushes(passes, owner, c, item, k) && passes[k + 1].now == Latest(passes[k], at[k])
    ensures !Pushes(passes, owner, c, item, k + 1)
  {
    if Pushes(passes, owner, c, item, k + 1) {
      NeverCloser(passes, owner, c, item, at, gap, k, k + 1);
    }
  }

  // ---- the notifier ----

  class Server {
    var log: seq<Row>
    const cadences: Cadences

    constructor (cadences: Cadences)
      ensures this.cadences == cadences && log == []
    {
      this.cadences, this.log := cadences, [];
    }

    /** The newest attempt per card since the bound. */
    method LastPushed(owner: string, since: int) returns (last: map<string, int>)
      ensures forall card :: (card in last <==> LastSince(log, owner, card, since).Some?)
                             && (card in last ==> last[card] == LastSince(log, owner, card, since).value)
    {
      last := map[];
      for n := 0 to |log|
        invariant forall card :: (card in last <==> LastSince(log[..n], owner, card, since).Some?)
                                 && (card in last ==> last[card] == LastSince(log[..n], owner, card, since).value)
      {
        assert log[..n + 1][..n] == log[..n];
        var r := log[n];
        if r.owner == owner && r.ts >= since {
          last := last[r.card := r.ts];
        }
      }
      assert log[..|log|] == log;
    }

    method Send(owner: string, card: string, ts: int)
      modifies this
      ensures log == old(log) + [Row(owner, card, ts)]
    {
      log := log + [Row(owner, card, ts)];
    }

    /** Every due card to every device. */
    method NotifyOwner(owner: string, items: seq<Item>, subs: nat, now: int, stamps: (nat, nat) -> int)
      modifies this
      ensures log == Notified(old(log), owner, items, subs, now, cadences, stamps)
    {
      if subs == 0 {
        return;
      }
      var last := LastPushed(owner, Since(now, cadences));
      for n := 0 to |items|
        invariant log == old(log) + PassRows(old(log), owner, items, n, subs, now, cadences, stamps)
      {
        var item := items[n];
        var pushed := if item.id in last then Some(last[item.id]) else None;
        if !Due(item, pushed, now, cadences) {
          continue;
        }
        ghost var before := log;
        for j := 0 to subs
          invariant log == before + CardRows(owner, item.id, subs, n, stamps)[..j]
        {
          Send(owner, item.id, stamps(n, j));
        }
        assert CardRows(owner, item.id, subs, n, stamps)[..subs] == CardRows(owner, item.id, subs, n, stamps);
      }
    }

    /** One pass: every identity, whoever else's evaluation fails; the first failure is reported. */
    method EvaluatePush(ids: seq<Identity>, now: int) returns (firstFailure: Option<string>)
      modifies this
      ensures log == Evaluated(old(log), ids, now, cadences)
      ensures firstFailure.None? <==> forall k :: 0 <= k < |ids| ==> !ids[k].fails
    {
      firstFailure := None;
      for n := 0 to |ids|
        invariant log == Evaluated(old(log), ids[..n], now, cadences)
        invariant firstFailure.None? <==> forall k :: 0 <= k < n ==> !ids[k].fails
      {
        assert ids[..n + 1][..n] == ids[..n];
        if ids[n].fails {
          if firstFailure.None? {
            firstFailure := Some(ids[n].owner);
          }
          continue;
        }
        NotifyOwner(ids[n].owner, ids[n].items, ids[n].subs, now, ids[n].stamps);
      }
      assert ids[..|ids|] == ids;
    }
  }
}
