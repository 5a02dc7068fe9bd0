/**
 Drift cards: the fold of `drift.finding` rows into one card per storm (internal/api/projection.go), its dismissal
 (internal/api/oversight.go) and the cap.
 */
module DriftFold {
  import opened Ascending
  import opened Decimal

  const HOUR: int := 3_600_000_000_000
  const WINDOW: int := 24 * HOUR
  const HORIZON: int := 30 * WINDOW
  const CAP: nat := 100
  const DRIFT_CARD := "drift_card"

  datatype Finding = Finding(
    source: string, lanes: seq<string>, changeClass: string, severity: string, summary: string, fingerprint: string,
    rowId: string, classified: bool, triggered: bool, note: string)

  datatype Body = Decoded(finding: Finding) | Undecodable

  /** One `drift.finding` row: its event seq, its timestamp, the user it belongs to and its payload. */
  datatype Row = Row(seq_: nat, ts: int, owner: string, body: Body)

  /** A decoded finding. */
  datatype Hit = Hit(seq_: nat, ts: int, finding: Finding)

  /** The card the inbox lists. */
  datatype Card = Card(
    seq_: nat, latestSeq: nat, fingerprint: string, source: string, lanes: seq<string>, changeClass: string,
    severity: string, summary: string, rowId: string, hits: nat, classified: bool, triggered: bool, note: string,
    firstTS: int, latestTS: int)

  datatype Scope = Operator | Member(user: string)

  // ---- the rows that are read ----

  predicate InLogOrder(log: seq<Row>) {
    forall i, j :: 0 <= i < j < |log| ==> log[i].seq_ < log[j].seq_
  }

  /** The query: inside the horizon, not of class `none`, and the scope's own. The class column of a payload that does
      not decode is null. */
  predicate Selected(r: Row, horizon: int, scope: Scope) {
    && r.ts >= horizon
    && (r.body.Decoded? ==> r.body.finding.changeClass != "none")
    && (scope == Operator || r.owner == scope.user)
  }

  /** The findings in the order they are read. */
  function Hits(log: seq<Row>, horizon: int, scope: Scope): seq<Hit> {
    if log == [] then []
    else
      var front, r := Hits(log[..|log| - 1], horizon, scope), log[|log| - 1];
      if Selected(r, horizon, scope) && r.body.Decoded? then front + [Hit(r.seq_, r.ts, r.body.finding)] else front
  }

  // ---- the fold ----

  /** The hits of one card, oldest first. */
  type Incident = seq<Hit>

  function Print(inc: Incident): string
    requires inc != []
  {
    inc[0].finding.fingerprint
  }

  /** The last incident opened for a fingerprint; |incs| when there is none. */
  function OpenFor(incs: seq<Incident>, fp: string): (i: nat)
    requires forall k :: 0 <= k < |incs| ==> incs[k] != []
    ensures i <= |incs|
    ensures i < |incs| ==> Print(incs[i]) == fp && forall k :: i < k < |incs| ==> Print(incs[k]) != fp
    ensures i == |incs| ==> forall k :: 0 <= k < |incs| ==> Print(incs[k]) != fp
  {
    if incs == [] then 0
    else if Print(incs[|incs| - 1]) == fp then |incs| - 1
    else
      var i := OpenFor(incs[..|incs| - 1], fp);
      if i == |incs| - 1 then |incs| else i
  }

  /** A finding joins its fingerprint's open incident while it is inside the window of the incident's first finding. */
  predicate Joins(incs: seq<Incident>, h: Hit)
    requires forall k :: 0 <= k < |incs| ==> incs[k] != []
  {
    var i := OpenFor(incs, h.finding.fingerprint);
    i < |incs| && h.ts - incs[i][0].ts < WINDOW
  }

  function Fold(hits: seq<Hit>): (incs: seq<Incident>)
    ensures forall k :: 0 <= k < |incs| ==> incs[k] != []
  {
    if hits == [] then []
    else
      var front, h := Fold(hits[..|hits| - 1]), hits[|hits| - 1];
      var i := OpenFor(front, h.finding.fingerprint);
      if Joins(front, h) then front[i := front[i] + [h]] else front + [[h]]
  }

  // ---- the fold is an exact partition ----

  function Total(incs: seq<Incident>): nat {
    if incs == [] then 0 else Total(incs[..|incs| - 1]) + |incs[|incs| - 1]|
  }

  function Everything(incs: seq<Incident>): multiset<Hit> {
    if incs == [] then multiset{} else Everything(incs[..|incs| - 1]) + multiset(incs[|incs| - 1])
  }

  predicate HitsInOrder(hits: seq<Hit>) {
    forall i, j :: 0 <= i < j < |hits| ==> hits[i].seq_ < hits[j].seq_
  }

  /** One fingerprint, every hit inside the window of the first, in log order. */
  predicate IncidentOk(inc: Incident) {
    && inc != []
    && HitsInOrder(inc)
    && (forall k :: 0 <= k < |inc| ==> inc[k].finding.fingerprint == Print(inc) && inc[k].ts - inc[0].ts < WINDOW)
  }

  /** Of two incidents of one fingerprint the later starts at least a window after the earlier one's start, and its
      hits all come later in the log. */
  predicate Apart(a: Incident, b: Incident)
    requires a != [] && b != []
  {
    Print(a) == Print(b) ==> b[0].ts - a[0].ts >= WINDOW && a[|a| - 1].seq_ < b[0].seq_
  }

  ghost predicate Storms(incs: seq<Incident>) {
    && (forall k :: 0 <= k < |incs| ==> IncidentOk(incs[k]))
    && (forall i, j :: 0 <= i < j < |incs| ==> Apart(incs[i], incs[j]))
    && (forall i, j :: 0 <= i < j < |incs| ==> incs[i][0].seq_ < incs[j][0].seq_)
  }

  /** Every hit is in exactly one incident, and the incidents are storms. */
  ghost predicate Partition(hits: seq<Hit>, incs: seq<Incident>) {
    Storms(incs) && Everything(incs) == multiset(hits) && Total(incs) == |hits|
  }

  lemma {:induction false} TotalJoin(incs: seq<Incident>, i: nat, h: Hit)
    requires i < |incs|
    ensures Total(incs[i := incs[i] + [h]]) == Total(incs) + 1
    ensures Everything(incs[i := incs[i] + [h]]) == Everything(incs) + multiset{h}
  {
    var incs' := incs[i := incs[i] + [h]];
    if i == |incs| - 1 {
      assert incs'[..i] == incs[..i];
    } else {
      assert incs'[..|incs| - 1] == incs[..|incs| - 1][i := incs[i] + [h]];
      TotalJoin(incs[..|incs| - 1], i, h);
    }
  }

  lemma TotalOpen(incs: seq<Incident>, h: Hit)
    ensures Total(incs + [[h]]) == Total(incs) + 1
    ensures Everything(incs + [[h]]) == Everything(incs) + multiset{h}
  {
    assert (incs + [[h]])[..|incs|] == incs;
  }

  /** No hit of the fold is later than the last one read. */
  ghost predicate Before(incs: seq<Incident>, seq_: nat) {
    forall i, k :: 0 <= i < |incs| && 0 <= k < |incs[i]| ==> incs[i][k].seq_ < seq_
  }

  lemma {:induction false} FoldBefore(hits: seq<Hit>, seq_: nat)
    requires forall i :: 0 <= i < |hits| ==> hits[i].seq_ < seq_
    ensures Before(Fold(hits), seq_)
  {
    if hits != [] {
      FoldBefore(hits[..|hits| - 1], seq_);
    }
  }

  lemma JoinIncident(inc: Incident, h: Hit)
    requires IncidentOk(inc) && inc[|inc| - 1].seq_ < h.seq_
    requires h.finding.fingerprint == Print(inc) && h.ts - inc[0].ts < WINDOW
    ensures IncidentOk(inc + [h])
  {
  }

  lemma JoinKeepsStorms(incs: seq<Incident>, h: Hit)
    requires Storms(incs) && Before(incs, h.seq_) && Joins(incs, h)
    ensures var i := OpenFor(incs, h.finding.fingerprint); Storms(incs[i := incs[i] + [h]])
  {
    var i := OpenFor(incs, h.finding.fingerprint);
    var incs' := incs[i := incs[i] + [h]];
    JoinIncident(incs[i], h);
    forall a, b | 0 <= a < b < |incs'|
      ensures Apart(incs'[a], incs'[b]) && incs'[a][0].seq_ < incs'[b][0].seq_
    {
      assert Apart(incs[a], incs[b]) && incs[a][0].seq_ < incs[b][0].seq_;
      if a == i { assert Print(incs[b]) != Print(incs[i]); }
    }
  }

  lemma OpenKeepsStorms(incs: seq<Incident>, h: Hit)
    requires Storms(incs) && Before(incs, h.seq_) && !Joins(incs, h)
    ensures Storms(incs + [[h]])
  {
    var i := OpenFor(incs, h.finding.fingerprint);
    var incs' := incs + [[h]];
    forall a, b | 0 <= a < b < |incs'|
      ensures Apart(incs'[a], incs'[b]) && incs'[a][0].seq_ < incs'[b][0].seq_
    {
      if b < |incs| {
        assert Apart(incs[a], incs[b]);
      } else {
        NewIsApart(incs, h, i, a);
      }
    }
  }

  lemma NewIsApart(incs: seq<Incident>, h: Hit, i: nat, a: nat)
    requires Storms(incs) && Before(incs, h.seq_) && !Joins(incs, h) && a < |incs|
    requires i == OpenFor(incs, h.finding.fingerprint)
    ensures Apart(incs[a], [h]) && incs[a][0].seq_ < h.seq_
  {
    assert incs[a][|incs[a]| - 1].seq_ < h.seq_;
    if Print(incs[a]) == h.finding.fingerprint && a != i { assert Apart(incs[a], incs[i]); }
  }

  /** Every decodable finding in the horizon lands in exactly one card, and the cards are the storms. */
  lemma {:induction false} FoldPartitions(hits: seq<Hit>)
    requires HitsInOrder(hits)
    ensures Partition(hits, Fold(hits))
  {
    if hits != [] {
      var front, h := hits[..|hits| - 1], hits[|hits| - 1];
      FoldPartitions(front);
      FoldBefore(front, h.seq_);
      assert hits == front + [h];
      if Joins(Fold(front), h) {
        JoinKeepsStorms(Fold(front), h);
        TotalJoin(Fold(front), OpenFor(Fold(front), h.finding.fingerprint), h);
      } else {
        OpenKeepsStorms(Fold(front), h);
        TotalOpen(Fold(front), h);
      }
    }
  }

  // ---- how many cards one fingerprint can have ----

  function CountFor(incs: seq<Incident>, fp: string): nat
    requires forall k :: 0 <= k < |incs| ==> incs[k] != []
  {
    if incs == [] then 0
    else CountFor(incs[..|incs| - 1], fp) + if Print(incs[|incs| - 1]) == fp then 1 else 0
  }

  /** The last of `n` incidents of a fingerprint starts at least `n - 1` windows after the first. */
  lemma {:induction false} LastStarts(incs: seq<Incident>, fp: string, from: int)
    requires forall k :: 0 <= k < |incs| ==> incs[k] != []
    requires forall i, j :: 0 <= i < j < |incs| ==> Apart(incs[i], incs[j])
    requires forall k :: 0 <= k < |incs| ==> incs[k][0].ts >= from
    ensures var i := OpenFor(incs, fp);
            CountFor(incs, fp) == 0 <==> i == |incs|
    ensures var i := OpenFor(incs, fp);
            i < |incs| ==> incs[i][0].ts >= from + (CountFor(incs, fp) - 1) * WINDOW
  {
    if incs != [] {
      var front := incs[..|incs| - 1];
      LastStarts(front, fp, from);
      if Print(incs[|incs| - 1]) == fp && CountFor(front, fp) > 0 {
        assert Apart(incs[OpenFor(front, fp)], incs[|incs| - 1]);
      }
    }
  }

  /** Findings that span `span` make at most 1 + floor(span / 24h) cards of one fingerprint, even if their timestamps
      go backwards. */
  lemma CardsBounded(hits: seq<Hit>, fp: string, from: int, span: nat)
    requires HitsInOrder(hits) && forall i :: 0 <= i < |hits| ==> from <= hits[i].ts <= from + span
    ensures CountFor(Fold(hits), fp) <= 1 + span / (24 * 3600 * 1_000_000_000)
  {
    var incs: seq<Incident> := Fold(hits);
    FoldPartitions(hits);
    FoldFrom(hits, from, span);
    CountBounded(incs, fp, from, span);
  }

  lemma CountBounded(incs: seq<Incident>, fp: string, from: int, span: nat)
    requires forall k :: 0 <= k < |incs| ==> incs[k] != []
    requires forall i, j :: 0 <= i < j < |incs| ==> Apart(incs[i], incs[j])
    requires forall k :: 0 <= k < |incs| ==> from <= incs[k][0].ts <= from + span
    ensures CountFor(incs, fp) <= 1 + span / WINDOW
  {
    LastStarts(incs, fp, from);
    Windows(CountFor(incs, fp) - 1, span);
  }

  lemma Windows(n: int, span: nat)
    ensures n * WINDOW <= span ==> n <= span / WINDOW
  {
  }

  lemma {:induction false} FoldFrom(hits: seq<Hit>, from: int, span: nat)
    requires forall i :: 0 <= i < |hits| ==> from <= hits[i].ts <= from + span
    ensures forall i, k :: 0 <= i < |Fold(hits)| && 0 <= k < |Fold(hits)[i]| ==> from <= Fold(hits)[i][k].ts <= from + span
  {
    if hits != [] {
      FoldFrom(hits[..|hits| - 1], from, span);
    }
  }

  // ---- appending findings ----

  lemma {:induction false} HitsAppend(log: seq<Row>, more: seq<Row>, horizon: int, scope: Scope)
    ensures Hits(log + more, horizon, scope) == Hits(log, horizon, scope) + Hits(more, horizon, scope)
  {
    if more == [] {
      assert log + more == log;
    } else {
      HitsAppend(log, more[..|more| - 1], horizon, scope);
      assert (log + more)[..|log + more| - 1] == log + more[..|more| - 1];
    }
  }

  /** Later findings extend the cards that exist and open new ones behind them; none changes what opened it. */
  lemma {:induction false} FoldAppend(hits: seq<Hit>, more: seq<Hit>)
    ensures |Fold(hits)| <= |Fold(hits + more)|
    ensures forall i :: 0 <= i < |Fold(hits)| ==> Fold(hits)[i] <= Fold(hits + more)[i]
  {
    if more == [] {
      assert hits + more == hits;
    } else {
      FoldAppend(hits, more[..|more| - 1]);
      assert (hits + more)[..|hits + more| - 1] == hits + more[..|more| - 1];
    }
  }

  /** Thirty days of findings make at most 31 cards of one fingerprint. */
  lemma HorizonBound(log: seq<Row>, now: int, scope: Scope, fp: string)
    requires InLogOrder(log) && forall i :: 0 <= i < |log| ==> log[i].ts <= now
    ensures CountFor(Fold(Hits(log, now - HORIZON, scope)), fp) <= 31
  {
    var hits := Hits(log, now - HORIZON, scope);
    HitsOrdered(log, now - HORIZON, scope);
    HitsInside(log, now - HORIZON, scope, now);
    assert 1 + HORIZON / WINDOW == 31;
    assert forall i :: 0 <= i < |hits| ==> now - HORIZON <= hits[i].ts <= (now - HORIZON) + HORIZON;
    CardsBounded(hits, fp, now - HORIZON, HORIZON);
  }

  /** The row is a finding that decodes, no older than the horizon, not of class `none`, and the reader's to see. */
  predicate Folds(r: Row, horizon: int, scope: Scope) {
    && r.body.Decoded? && r.ts >= horizon && r.body.finding.changeClass != "none"
    && (scope.Member? ==> r.owner == scope.user)
  }

  function HitOf(r: Row): Hit
    requires r.body.Decoded?
  {
    Hit(r.seq_, r.ts, r.body.finding)
  }

  /** What is folded, exactly. */
  lemma {:induction false} HitsRead(log: seq<Row>, horizon: int, scope: Scope)
    ensures forall h :: h in Hits(log, horizon, scope) <==> exists r :: r in log && Folds(r, horizon, scope) && HitOf(r) == h
  {
    if log != [] {
      var front, last := log[..|log| - 1], log[|log| - 1];
      HitsRead(front, horizon, scope);
      assert forall r :: r in log <==> r in front || r == last;
      forall h ensures h in Hits(log, horizon, scope) <==> exists r :: r in log && Folds(r, horizon, scope) && HitOf(r) == h {
        if h in Hits(front, horizon, scope) {
          var r :| r in front && Folds(r, horizon, scope) && HitOf(r) == h;
          assert r in log;
        } else if h in Hits(log, horizon, scope) {
          assert last in log && Folds(last, horizon, scope) && HitOf(last) == h;
        }
        if r :| r in log && Folds(r, horizon, scope) && HitOf(r) == h {
          assert r in front || r == last;
        }
      }
    }
  }

  /** The rows that belong to one user. */
  function RowsOf(log: seq<Row>, user: string): seq<Row> {
    if log == [] then []
    else RowsOf(log[..|log| - 1], user) + if log[|log| - 1].owner == user then [log[|log| - 1]] else []
  }

  lemma {:induction false} MemberHits(log: seq<Row>, horizon: int, user: string)
    ensures Hits(log, horizon, Member(user)) == Hits(RowsOf(log, user), horizon, Operator)
  {
    if log != [] {
      var front, last := log[..|log| - 1], log[|log| - 1];
      MemberHits(front, horizon, user);
      var own := RowsOf(front, user);
      assert (own + [last])[..|own|] == own && own + [] == own;
    }
  }

  /** A member is listed what the operator would be if the log held the member's own rows alone; in particular nothing when
      no finding is the member's. */
  lemma MemberSeesOwn(log: seq<Row>, now: int, dismissed: set<string>, user: string)
    ensures OpenCards(log, now, dismissed, Member(user)) == OpenCards(RowsOf(log, user), now, dismissed, Operator)
    ensures (forall r :: r in log ==> r.owner != user) ==> OpenCards(log, now, dismissed, Member(user)) == []
  {
    MemberHits(log, now - HORIZON, user);
    if forall r :: r in log ==> r.owner != user { NoneOwned(log, user); }
  }

  lemma {:induction false} NoneOwned(log: seq<Row>, user: string)
    requires forall r :: r in log ==> r.owner != user
    ensures RowsOf(log, user) == []
  {
    if log != [] { NoneOwned(log[..|log| - 1], user); }
  }

  /** In log order, each once. */
  lemma {:induction false} HitsOrdered(log: seq<Row>, horizon: int, scope: Scope)
    requires InLogOrder(log)
    ensures HitsInOrder(Hits(log, horizon, scope))
  {
    if log != [] {
      var front, last := log[..|log| - 1], log[|log| - 1];
      var before := Hits(front, horizon, scope);
      HitsOrdered(front, horizon, scope);
      HitsRead(front, horizon, scope);
      forall k | 0 <= k < |before| ensures before[k].seq_ < last.seq_ {
        assert before[k] in before;
        var r :| r in front && Folds(r, horizon, scope) && HitOf(r) == before[k];
        var i :| 0 <= i < |front| && front[i] == r;
        assert log[i].seq_ < last.seq_;
      }
    }
  }

  lemma HitsInside(log: seq<Row>, horizon: int, scope: Scope, last: int)
    requires forall i :: 0 <= i < |log| ==> log[i].ts <= last
    ensures forall k :: 0 <= k < |Hits(log, horizon, scope)| ==> horizon <= Hits(log, horizon, scope)[k].ts <= last
  {
    var hits := Hits(log, horizon, scope);
    HitsRead(log, horizon, scope);
    forall k | 0 <= k < |hits| ensures horizon <= hits[k].ts <= last {
      assert hits[k] in hits;
      var r :| r in log && Folds(r, horizon, scope) && HitOf(r) == hits[k];
    }
  }

  // ---- cards ----

  predicate AnyTriggered(inc: Incident) {
    exists k :: 0 <= k < |inc| && inc[k].finding.triggered
  }

  /** The identity comes from the finding that opened the incident, the wording from the latest. */
  function CardOf(inc: Incident): Card
    requires inc != []
  {
    var a, z := inc[0], inc[|inc| - 1];
    Card(a.seq_, z.seq_, a.finding.fingerprint, a.finding.source, a.finding.lanes, a.finding.changeClass,
         z.finding.severity, z.finding.summary, a.finding.rowId, |inc|, z.finding.classified, AnyTriggered(inc),
         z.finding.note, a.ts, z.ts)
  }

  function CardsOf(incs: seq<Incident>): seq<Card>
    requires forall k :: 0 <= k < |incs| ==> incs[k] != []
  {
    seq(|incs|, i requires 0 <= i < |incs| => CardOf(incs[i]))
  }

  /** The findings of a fingerprint between two seqs, in log order. */
  function Those(hits: seq<Hit>, fp: string, first: nat, last: nat): seq<Hit> {
    if hits == [] then []
    else
      var h := hits[|hits| - 1];
      Those(hits[..|hits| - 1], fp, first, last)
      + if h.finding.fingerprint == fp && first <= h.seq_ <= last then [h] else []
  }

  lemma {:induction false} ThoseExactly(hits: seq<Hit>, fp: string, first: nat, last: nat)
    requires HitsInOrder(hits)
    ensures HitsInOrder(Those(hits, fp, first, last))
    ensures forall h :: h in Those(hits, fp, first, last) <==> h in hits && h.finding.fingerprint == fp && first <= h.seq_ <= last
  {
    if hits != [] {
      var front, h := hits[..|hits| - 1], hits[|hits| - 1];
      ThoseExactly(front, fp, first, last);
      assert hits == front + [h];
      var before := Those(front, fp, first, last);
      forall i | 0 <= i < |before| ensures before[i].seq_ < h.seq_ {
        assert before[i] in front;
      }
    }
  }

  lemma {:induction false} InSome(incs: seq<Incident>, h: Hit)
    requires h in Everything(incs)
    ensures exists j :: 0 <= j < |incs| && h in incs[j]
  {
    if h in multiset(incs[|incs| - 1]) {
      assert h in incs[|incs| - 1];
    } else {
      InSome(incs[..|incs| - 1], h);
      var j :| 0 <= j < |incs| - 1 && h in incs[..|incs| - 1][j];
      assert h in incs[j];
    }
  }

  lemma HeldInRange(inc: Incident, h: Hit)
    requires IncidentOk(inc) && h in inc
    ensures h.finding.fingerprint == Print(inc) && inc[0].seq_ <= h.seq_ <= inc[|inc| - 1].seq_
  {
  }

  lemma OnlyOne(incs: seq<Incident>, j: nat, k: nat, h: Hit)
    requires Storms(incs) && j < |incs| && k < |incs| && j != k && h in incs[j] && IncidentOk(incs[k])
    requires h.finding.fingerprint == Print(incs[k])
    ensures h.seq_ < incs[k][0].seq_ || h.seq_ > incs[k][|incs[k]| - 1].seq_
  {
    assert IncidentOk(incs[j]);
    HeldInRange(incs[j], h);
    if j < k {
      assert Apart(incs[j], incs[k]);
    } else {
      assert Apart(incs[k], incs[j]);
    }
  }

  lemma InRangeHeld(hits: seq<Hit>, incs: seq<Incident>, k: nat, h: Hit)
    requires Partition(hits, incs) && k < |incs| && h in hits
    requires IncidentOk(incs[k]) && h.finding.fingerprint == Print(incs[k])
    requires incs[k][0].seq_ <= h.seq_ <= incs[k][|incs[k]| - 1].seq_
    ensures h in incs[k]
  {
    assert h in multiset(hits);
    InSome(incs, h);
    var j :| 0 <= j < |incs| && h in incs[j];
    if j != k { OnlyOne(incs, j, k, h); }
  }

  lemma HeldIsHit(hits: seq<Hit>, incs: seq<Incident>, k: nat, h: Hit)
    requires Partition(hits, incs) && k < |incs| && h in incs[k]
    ensures h in hits
  {
    InEverything(incs, k, h);
    assert h in multiset(hits);
  }

  /** A card's incident is read off the findings: those of its fingerprint from its opening to its latest. */
  lemma IncidentIsThose(hits: seq<Hit>, incs: seq<Incident>, k: nat)
    requires HitsInOrder(hits) && Partition(hits, incs) && k < |incs| && IncidentOk(incs[k])
    ensures var inc := incs[k]; inc == Those(hits, Print(inc), inc[0].seq_, inc[|inc| - 1].seq_)
  {
    var inc := incs[k];
    var first, last := inc[0].seq_, inc[|inc| - 1].seq_;
    var those := Those(hits, Print(inc), first, last);
    ThoseExactly(hits, Print(inc), first, last);
    forall h ensures h in inc <==> h in those {
      if h in inc {
        HeldInRange(inc, h);
        HeldIsHit(hits, incs, k, h);
      } else if h in those {
        InRangeHeld(hits, incs, k, h);
      }
    }
    InOrderAscends(inc);
    InOrderAscends(those);
    AscendingUnique(inc, those, (h: Hit) => h.seq_);
  }

  lemma InOrderAscends(hits: seq<Hit>)
    requires HitsInOrder(hits)
    ensures Ascends(hits, (h: Hit) => h.seq_)
  {
  }

  /** The finding that opened the card, and what the card keeps of it. */
  predicate OpenedBy(c: Card, h: Hit) {
    && c.seq_ == h.seq_ && c.firstTS == h.ts && c.fingerprint == h.finding.fingerprint && c.source == h.finding.source
    && c.lanes == h.finding.lanes && c.changeClass == h.finding.changeClass && c.rowId == h.finding.rowId
  }

  /** The card's latest finding, and what the card shows of it. */
  predicate WordedBy(c: Card, h: Hit) {
    && c.latestSeq == h.seq_ && c.latestTS == h.ts && c.severity == h.finding.severity && c.summary == h.finding.summary
    && c.classified == h.finding.classified && c.note == h.finding.note
  }

  /** The card counts these findings, is opened by the first, worded by the last, and triggered if one of them is. */
  predicate Tells(c: Card, those: seq<Hit>) {
    && c.hits == |those| > 0 && OpenedBy(c, those[0]) && WordedBy(c, those[|those| - 1])
    && (c.triggered <==> exists i :: 0 <= i < |those| && those[i].finding.triggered)
  }

  lemma CardOfTells(inc: Incident)
    requires inc != []
    ensures Tells(CardOf(inc), inc) && CardOf(inc).fingerprint == Print(inc)
  {
  }

  /** What a card says, read off the findings: those of its fingerprint from its opening to its latest. */
  lemma CardTells(hits: seq<Hit>, c: Card)
    requires HitsInOrder(hits) && c in CardsOf(Fold(hits))
    ensures Tells(c, Those(hits, c.fingerprint, c.seq_, c.latestSeq))
  {
    var incs := Fold(hits);
    var k :| 0 <= k < |incs| && CardOf(incs[k]) == c;
    FoldPartitions(hits);
    assert IncidentOk(incs[k]);
    IncidentIsThose(hits, incs, k);
    CardOfTells(incs[k]);
  }

  // ---- dismissal ----

  function Subject(fp: string, opening: nat): string {
    fp + "#" + Dec(opening)
  }

  /** One subject is one incident, whatever the fingerprint contains. */
  lemma SubjectInjective(fp: string, n: nat, fp': string, n': nat)
    requires Subject(fp, n) == Subject(fp', n')
    ensures fp == fp' && n == n'
  {
    var s := Subject(fp, n);
    LastHash(fp, n);
    LastHash(fp', n');
    ValueDec(n);
    ValueDec(n');
    assert |fp| == |fp'|;
    assert fp == s[..|fp|] == fp';
    assert Dec(n) == s[|fp| + 1..] == Dec(n');
  }

  lemma LastHash(fp: string, n: nat)
    ensures Subject(fp, n)[|fp|] == '#'
    ensures forall k :: |fp| < k < |Subject(fp, n)| ==> Subject(fp, n)[k] != '#'
  {
    ValueDec(n);
  }

  predicate Hidden(c: Card, dismissed: set<string>) {
    Subject(c.fingerprint, c.seq_) in dismissed
  }

  function Undismissed(cards: seq<Card>, dismissed: set<string>): seq<Card> {
    if cards == [] then []
    else
      var front, c := Undismissed(cards[..|cards| - 1], dismissed), cards[|cards| - 1];
      if Hidden(c, dismissed) then front else front + [c]
  }

  // ---- the dismissals that are read ----

  /** One decision row; a payload that does not decode names no subject. */
  datatype DecisionRow = DecisionRow(ts: int, cardType: string, decision: string, subject: string)

  predicate Dismisses(d: DecisionRow) {
    d.cardType == DRIFT_CARD && d.decision == "dismiss" && d.subject != ""
  }

  /** The subjects dismissed by the rows at or after `since`. */
  function DismissedSince(decisions: seq<DecisionRow>, since: int): set<string> {
    set d | d in decisions && Dismisses(d) && d.ts >= since :: d.subject
  }

  function AllDismissed(decisions: seq<DecisionRow>): set<string> {
    set d | d in decisions && Dismisses(d) :: d.subject
  }

  /** The decision names the incident the finding would open. */
  predicate Concerns(d: DecisionRow, r: Row) {
    r.body.Decoded? && d.subject == Subject(r.body.finding.fingerprint, r.seq_)
  }

  /** A dismissal is not stamped before the finding that opened the incident it dismisses. */
  ghost predicate DismissedLater(log: seq<Row>, decisions: seq<DecisionRow>) {
    forall d, r :: d in decisions && Dismisses(d) && r in log && Concerns(d, r) ==> d.ts >= r.ts
  }

  /** A card is hidden exactly by a dismissal of a drift card, inside the horizon, that names the card's fingerprint and the
      seq of the finding that opened it. */
  lemma HiddenExactly(decisions: seq<DecisionRow>, since: int, c: Card)
    ensures Hidden(c, DismissedSince(decisions, since))
            <==> exists d :: d in decisions && d.cardType == "drift_card" && d.decision == "dismiss" && d.ts >= since
                             && d.subject == c.fingerprint + "#" + Dec(c.seq_)
  {
    LastHash(c.fingerprint, c.seq_);
  }

  /** Reading the dismissals inside the horizon only loses none that concerns a card: the list is the one all dismissals
      ever given would leave. */
  lemma HorizonLosesNoDismissal(log: seq<Row>, decisions: seq<DecisionRow>, now: int, scope: Scope)
    requires DismissedLater(log, decisions)
    ensures OpenCards(log, now, DismissedSince(decisions, now - HORIZON), scope) == OpenCards(log, now, AllDismissed(decisions), scope)
  {
    var hits := Hits(log, now - HORIZON, scope);
    var cards := CardsOf(Fold(hits));
    forall k | 0 <= k < |cards|
      ensures Hidden(cards[k], DismissedSince(decisions, now - HORIZON)) <==> Hidden(cards[k], AllDismissed(decisions))
    {
      DismissalOfCard(log, decisions, now - HORIZON, scope, k);
    }
    SameHidden(cards, DismissedSince(decisions, now - HORIZON), AllDismissed(decisions));
  }

  lemma {:induction false} FoldHolds(hits: seq<Hit>, k: nat, j: nat)
    requires k < |Fold(hits)| && j < |Fold(hits)[k]|
    ensures Fold(hits)[k][j] in hits
  {
    var front, h := hits[..|hits| - 1], hits[|hits| - 1];
    var i := OpenFor(Fold(front), h.finding.fingerprint);
    if Joins(Fold(front), h) {
      if !(k == i && j == |Fold(front)[k]|) { FoldHolds(front, k, j); }
    } else if k < |Fold(front)| {
      FoldHolds(front, k, j);
    }
  }

  lemma DismissalOfCard(log: seq<Row>, decisions: seq<DecisionRow>, horizon: int, scope: Scope, k: nat)
    requires DismissedLater(log, decisions) && k < |Fold(Hits(log, horizon, scope))|
    ensures var c := CardOf(Fold(Hits(log, horizon, scope))[k]);
            Hidden(c, DismissedSince(decisions, horizon)) <==> Hidden(c, AllDismissed(decisions))
  {
    var hits := Hits(log, horizon, scope);
    var opening := Fold(hits)[k][0];
    var c := CardOf(Fold(hits)[k]);
    FoldHolds(hits, k, 0);
    HitsRead(log, horizon, scope);
    var r :| r in log && Folds(r, horizon, scope) && HitOf(r) == opening;
    if Hidden(c, AllDismissed(decisions)) {
      var d :| d in decisions && Dismisses(d) && d.subject == Subject(c.fingerprint, c.seq_);
      assert d.ts >= r.ts >= horizon;
    }
  }

  lemma {:induction false} SameHidden(cards: seq<Card>, a: set<string>, b: set<string>)
    requires forall k :: 0 <= k < |cards| ==> (Hidden(cards[k], a) <==> Hidden(cards[k], b))
    ensures Undismissed(cards, a) == Undismissed(cards, b)
  {
    if cards != [] { SameHidden(cards[..|cards| - 1], a, b); }
  }

  // ---- newest first ----

  function InsertNewest(c: Card, ranked: seq<Card>): seq<Card> {
    if ranked == [] || c.latestSeq > ranked[0].latestSeq then [c] + ranked
    else [ranked[0]] + InsertNewest(c, ranked[1..])
  }

  function Ranked(cards: seq<Card>): seq<Card> {
    if cards == [] then [] else InsertNewest(cards[0], Ranked(cards[1..]))
  }

  function Capped(cards: seq<Card>): seq<Card> {
    if |cards| > CAP then cards[..CAP] else cards
  }

  /** The open drift cards: what the derivation returns. */
  function OpenCards(log: seq<Row>, now: int, dismissed: set<string>, scope: Scope): seq<Card> {
    Capped(Ranked(Undismissed(CardsOf(Fold(Hits(log, now - HORIZON, scope))), dismissed)))
  }

  predicate StrictlyNewest(cards: seq<Card>) {
    forall i, j :: 0 <= i < j < |cards| ==> cards[i].latestSeq > cards[j].latestSeq
  }

  ghost predicate DistinctLatest(cards: seq<Card>) {
    forall i, j :: 0 <= i < j < |cards| ==> cards[i].latestSeq != cards[j].latestSeq
  }

  lemma {:induction false} InsertKeeps(c: Card, ranked: seq<Card>)
    ensures multiset(InsertNewest(c, ranked)) == multiset(ranked) + multiset{c}
  {
    if ranked != [] && !(c.latestSeq > ranked[0].latestSeq) {
      InsertKeeps(c, ranked[1..]);
      assert ranked == [ranked[0]] + ranked[1..];
    }
  }

  lemma {:induction false} InsertRanks(c: Card, ranked: seq<Card>)
    requires StrictlyNewest(ranked) && forall k :: 0 <= k < |ranked| ==> ranked[k].latestSeq != c.latestSeq
    ensures StrictlyNewest(InsertNewest(c, ranked))
    ensures forall k :: 0 <= k < |InsertNewest(c, ranked)| ==>
              InsertNewest(c, ranked)[k].latestSeq <= if ranked == [] || c.latestSeq > ranked[0].latestSeq then c.latestSeq else ranked[0].latestSeq
  {
    if ranked != [] && !(c.latestSeq > ranked[0].latestSeq) {
      InsertRanks(c, ranked[1..]);
    }
  }

  lemma {:induction false} RankedSorts(cards: seq<Card>)
    requires DistinctLatest(cards)
    ensures StrictlyNewest(Ranked(cards)) && multiset(Ranked(cards)) == multiset(cards)
  {
    if cards != [] {
      RankedSorts(cards[1..]);
      assert cards == [cards[0]] + cards[1..];
      var rest := Ranked(cards[1..]);
      SameElements(rest, cards[1..]);
      forall k | 0 <= k < |rest| ensures rest[k].latestSeq != cards[0].latestSeq {
        assert rest[k] in cards[1..];
      }
      InsertRanks(cards[0], Ranked(cards[1..]));
      InsertKeeps(cards[0], Ranked(cards[1..]));
    }
  }

  lemma {:induction false} UndismissedKeeps(cards: seq<Card>, dismissed: set<string>)
    requires DistinctLatest(cards)
    ensures var kept := Undismissed(cards, dismissed);
            && DistinctLatest(kept)
            && (forall c :: c in kept <==> c in cards && !Hidden(c, dismissed))
  {
    if cards != [] {
      var front := cards[..|cards| - 1];
      UndismissedKeeps(front, dismissed);
      assert cards == front + [cards[|cards| - 1]];
      forall k | 0 <= k < |Undismissed(front, dismissed)|
        ensures Undismissed(front, dismissed)[k].latestSeq != cards[|cards| - 1].latestSeq
      {
        assert Undismissed(front, dismissed)[k] in front;
      }
    }
  }

  /** A finding is in one card only, so no two cards have the same latest finding. */
  lemma LatestDistinct(hits: seq<Hit>)
    requires HitsInOrder(hits)
    ensures DistinctLatest(CardsOf(Fold(hits)))
  {
    var incs := Fold(hits);
    FoldPartitions(hits);
    forall i, j | 0 <= i < j < |incs|
      ensures CardOf(incs[i]).latestSeq != CardOf(incs[j]).latestSeq
    {
      LastHitsDiffer(hits, incs, i, j);
    }
  }

  lemma {:induction false} InEverything(incs: seq<Incident>, i: nat, h: Hit)
    requires i < |incs| && h in incs[i]
    ensures h in Everything(incs)
  {
    if i < |incs| - 1 {
      assert incs[i] == incs[..|incs| - 1][i];
      InEverything(incs[..|incs| - 1], i, h);
    }
  }

  lemma LastHitsDiffer(hits: seq<Hit>, incs: seq<Incident>, i: nat, j: nat)
    requires HitsInOrder(hits) && Partition(hits, incs) && i < j < |incs|
    ensures incs[i][|incs[i]| - 1].seq_ != incs[j][|incs[j]| - 1].seq_
  {
    var a, b := incs[i][|incs[i]| - 1], incs[j][|incs[j]| - 1];
    if Print(incs[i]) == Print(incs[j]) {
      assert Apart(incs[i], incs[j]);
      assert b.seq_ >= incs[j][0].seq_;
    } else {
      assert a.finding.fingerprint != b.finding.fingerprint;
      InEverything(incs, i, a);
      InEverything(incs, j, b);
      assert a in hits && b in hits;
      var x :| 0 <= x < |hits| && hits[x] == a;
      var y :| 0 <= y < |hits| && hits[y] == b;
      assert x < y || y < x;
    }
  }

  /** The list is exactly the undismissed cards with the newest findings, at most a hundred, newest first. */
  lemma OpenCardsExactly(log: seq<Row>, now: int, dismissed: set<string>, scope: Scope)
    requires InLogOrder(log)
    ensures var cards := CardsOf(Fold(Hits(log, now - 30 * 24 * 3600 * 1_000_000_000, scope)));
            var out := OpenCards(log, now, dismissed, scope);
            && StrictlyNewest(out)
            && |out| == (if |Undismissed(cards, dismissed)| <= 100 then |Undismissed(cards, dismissed)| else 100)
            && (forall c :: c in out ==> c in cards && !Hidden(c, dismissed))
            && (forall c, o :: c in cards && !Hidden(c, dismissed) && c !in out && o in out ==> c.latestSeq < o.latestSeq)
            && (forall c :: c in cards && !Hidden(c, dismissed) && c !in out ==> |out| == CAP)
  {
    var hits := Hits(log, now - HORIZON, scope);
    var cards := CardsOf(Fold(hits));
    HitsOrdered(log, now - HORIZON, scope);
    LatestDistinct(hits);
    UndismissedKeeps(cards, dismissed);
    var kept := Undismissed(cards, dismissed);
    RankedSorts(kept);
    SameElements(Ranked(kept), kept);
    CapTakesNewest(Ranked(kept));
  }

  lemma SameElements(a: seq<Card>, b: seq<Card>)
    requires multiset(a) == multiset(b)
    ensures |a| == |b| && forall c :: c in a <==> c in b
  {
    assert |a| == |multiset(a)| == |multiset(b)| == |b|;
    forall c ensures c in a <==> c in b {
      assert c in multiset(a) <==> c in multiset(b);
    }
  }

  lemma CapTakesNewest(ranked: seq<Card>)
    requires StrictlyNewest(ranked)
    ensures var out := Capped(ranked);
            && StrictlyNewest(out) && |out| == (if |ranked| <= CAP then |ranked| else CAP)
            && (forall c :: c in out ==> c in ranked)
            && (forall c, o :: c in ranked && c !in out && o in out ==> c.latestSeq < o.latestSeq)
  {
    var out := Capped(ranked);
    assert forall x :: 0 <= x < |out| ==> out[x] == ranked[x] && out[x] in out;
    forall c, o | c in ranked && c !in out && o in out
      ensures c.latestSeq < o.latestSeq
    {
      var i :| 0 <= i < |ranked| && ranked[i] == c;
      var j :| 0 <= j < |out| && out[j] == o;
      assert ranked[j] == o && i >= |out|;
    }
  }

  /** For a fixed horizon: appended rows leave every card's identity where it was, so a dismissed incident stays
      hidden and no dismissal reaches a card it was not given for. */
  lemma DismissalSticks(log: seq<Row>, more: seq<Row>, horizon: int, scope: Scope, dismissed: set<string>, i: nat)
    requires i < |Fold(Hits(log, horizon, scope))|
    ensures var before, after := CardsOf(Fold(Hits(log, horizon, scope))), CardsOf(Fold(Hits(log + more, horizon, scope)));
            && i < |after|
            && after[i].fingerprint == before[i].fingerprint && after[i].seq_ == before[i].seq_
            && after[i].firstTS == before[i].firstTS
            && (Hidden(after[i], dismissed) <==> Hidden(before[i], dismissed))
            && (forall fp, n :: Subject(fp, n) == Subject(after[i].fingerprint, after[i].seq_) ==>
                  fp == after[i].fingerprint && n == after[i].seq_)
  {
    HitsAppend(log, more, horizon, scope);
    FoldAppend(Hits(log, horizon, scope), Hits(more, horizon, scope));
    var after := CardsOf(Fold(Hits(log + more, horizon, scope)));
    assert Fold(Hits(log, horizon, scope))[i] <= Fold(Hits(log + more, horizon, scope))[i];
    forall fp, n | Subject(fp, n) == Subject(after[i].fingerprint, after[i].seq_)
      ensures fp == after[i].fingerprint && n == after[i].seq_
    {
      SubjectInjective(fp, n, after[i].fingerprint, after[i].seq_);
    }
  }

  // ---- the derivation, in place ----

  /** A card the map and the list both point to. */
  class DriftCard {
    var card: Card

    constructor (h: Hit)
      ensures card == CardOf([h])
    {
      var f := h.finding;
      card := Card(h.seq_, h.seq_, f.fingerprint, f.source, f.lanes, f.changeClass, f.severity, f.summary, f.rowId, 1,
                   f.classified, f.triggered, f.note, h.ts, h.ts);
      new;
      assert AnyTriggered([h]) <==> [h][0].finding.triggered;
    }

    /** One more finding of the storm. */
    method Join(h: Hit, ghost inc: Incident)
      requires inc != [] && card == CardOf(inc)
      modifies this
      ensures card == CardOf(inc + [h])
    {
      card := card.(hits := card.hits + 1);
      card := card.(latestSeq := h.seq_, latestTS := h.ts);
      card := card.(summary := h.finding.summary, severity := h.finding.severity, classified := h.finding.classified);
      card := card.(triggered := card.triggered || h.finding.triggered);
      card := card.(note := h.finding.note);
      TriggeredJoin(inc, h);
    }
  }

  lemma TriggeredJoin(inc: Incident, h: Hit)
    ensures AnyTriggered(inc + [h]) <==> AnyTriggered(inc) || h.finding.triggered
  {
    assert (inc + [h])[|inc|] == h;
    if AnyTriggered(inc) {
      var k :| 0 <= k < |inc| && inc[k].finding.triggered;
      assert (inc + [h])[k] == inc[k];
    }
  }

  lemma OpenForJoin(incs: seq<Incident>, i: nat, h: Hit)
    requires forall k :: 0 <= k < |incs| ==> incs[k] != []
    requires i < |incs|
    ensures forall fp :: OpenFor(incs[i := incs[i] + [h]], fp) == OpenFor(incs, fp)
  {
    forall fp ensures OpenFor(incs[i := incs[i] + [h]], fp) == OpenFor(incs, fp) {
      var incs' := incs[i := incs[i] + [h]];
      assert forall k :: 0 <= k < |incs| ==> Print(incs'[k]) == Print(incs[k]);
      var a, b := OpenFor(incs, fp), OpenFor(incs', fp);
      assert a < |incs| ==> Print(incs'[a]) == fp;
      assert b < |incs| ==> Print(incs[b]) == fp;
    }
  }

  lemma OpenForNew(incs: seq<Incident>, h: Hit)
    requires forall k :: 0 <= k < |incs| ==> incs[k] != []
    ensures forall fp :: OpenFor(incs + [[h]], fp)
              == if fp == h.finding.fingerprint then |incs|
                 else if OpenFor(incs, fp) == |incs| then |incs| + 1 else OpenFor(incs, fp)
  {
    assert (incs + [[h]])[..|incs|] == incs;
  }

  /** The map and the list share the card objects: a fingerprint's entry is its last card in the list. */
  ghost predicate Shares(open: map<string, DriftCard>, cards: seq<DriftCard>, incs: seq<Incident>)
    requires forall k :: 0 <= k < |incs| ==> incs[k] != []
  {
    && |cards| == |incs|
    && (forall i, j :: 0 <= i < j < |cards| ==> cards[i] != cards[j])
    && (forall fp :: fp in open <==> OpenFor(incs, fp) < |cards|)
    && (forall fp :: fp in open ==> open[fp] == cards[OpenFor(incs, fp)])
  }

  ghost predicate Shows(cards: seq<DriftCard>, incs: seq<Incident>)
    requires forall k :: 0 <= k < |incs| ==> incs[k] != []
    reads cards
  {
    |cards| == |incs| && forall i :: 0 <= i < |cards| ==> cards[i].card == CardOf(incs[i])
  }

  lemma SharesJoin(open: map<string, DriftCard>, cards: seq<DriftCard>, incs: seq<Incident>, i: nat, h: Hit)
    requires forall k :: 0 <= k < |incs| ==> incs[k] != []
    requires Shares(open, cards, incs) && i < |incs|
    ensures Shares(open, cards, incs[i := incs[i] + [h]])
  {
    OpenForJoin(incs, i, h);
  }

  lemma SharesNew(open: map<string, DriftCard>, cards: seq<DriftCard>, incs: seq<Incident>, h: Hit, card: DriftCard)
    requires forall k :: 0 <= k < |incs| ==> incs[k] != []
    requires Shares(open, cards, incs) && card !in cards
    ensures Shares(open[h.finding.fingerprint := card], cards + [card], incs + [[h]])
  {
    OpenForNew(incs, h);
  }

  function Folded(incs: seq<Incident>, h: Hit): (incs': seq<Incident>)
    requires forall k :: 0 <= k < |incs| ==> incs[k] != []
    ensures forall k :: 0 <= k < |incs'| ==> incs'[k] != []
  {
    var i := OpenFor(incs, h.finding.fingerprint);
    if Joins(incs, h) then incs[i := incs[i] + [h]] else incs + [[h]]
  }

  /** One finding into the open cards. */
  method FoldHit(open: map<string, DriftCard>, cards: seq<DriftCard>, h: Hit, ghost incs: seq<Incident>)
    returns (open': map<string, DriftCard>, cards': seq<DriftCard>)
    requires forall k :: 0 <= k < |incs| ==> incs[k] != []
    requires Shares(open, cards, incs) && Shows(cards, incs)
    modifies cards
    ensures cards' == cards || (|cards'| == |cards| + 1 && cards'[..|cards|] == cards && fresh(cards'[|cards|]))
    ensures Shares(open', cards', Folded(incs, h)) && Shows(cards', Folded(incs, h))
  {
    var fp := h.finding.fingerprint;
    ghost var i := OpenFor(incs, fp);
    if fp in open && h.ts - open[fp].card.firstTS < WINDOW {
      var card := open[fp];
      card.Join(h, incs[i]);
      open', cards' := open, cards;
      SharesJoin(open, cards, incs, i, h);
    } else {
      var card := new DriftCard(h);
      open' := open[fp := card];
      cards' := cards + [card];
      SharesNew(open, cards, incs, h, card);
    }
  }

  function Next(incs: seq<Incident>, r: Row, horizon: int, scope: Scope): (incs': seq<Incident>)
    requires forall k :: 0 <= k < |incs| ==> incs[k] != []
    ensures forall k :: 0 <= k < |incs'| ==> incs'[k] != []
  {
    if Selected(r, horizon, scope) && r.body.Decoded? then Folded(incs, Hit(r.seq_, r.ts, r.body.finding)) else incs
  }

  lemma FoldNext(log: seq<Row>, n: nat, horizon: int, scope: Scope)
    requires n < |log|
    ensures var r, front := log[n], Fold(Hits(log[..n], horizon, scope));
            Fold(Hits(log[..n + 1], horizon, scope)) == Next(front, r, horizon, scope)
  {
    var hits := Hits(log[..n], horizon, scope);
    assert log[..n + 1][..n] == log[..n];
    var r := log[n];
    if r.body.Decoded? {
      var h := Hit(r.seq_, r.ts, r.body.finding);
      assert (hits + [h])[..|hits + [h]| - 1] == hits;
    }
  }

  /** One row: outside the query, skipped, or folded. */
  method FoldRow(open: map<string, DriftCard>, cards: seq<DriftCard>, r: Row, horizon: int, scope: Scope, ghost incs: seq<Incident>)
    returns (open': map<string, DriftCard>, cards': seq<DriftCard>)
    requires forall k :: 0 <= k < |incs| ==> incs[k] != []
    requires Shares(open, cards, incs) && Shows(cards, incs)
    modifies cards
    ensures cards' == cards || (|cards'| == |cards| + 1 && cards'[..|cards|] == cards && fresh(cards'[|cards|]))
    ensures Shares(open', cards', Next(incs, r, horizon, scope)) && Shows(cards', Next(incs, r, horizon, scope))
  {
    if !Selected(r, horizon, scope) || r.body.Undecodable? {
      return open, cards;
    }
    open', cards' := FoldHit(open, cards, Hit(r.seq_, r.ts, r.body.finding), incs);
  }

  /** One pass over the rows. */
  method FoldRows(log: seq<Row>, horizon: int, scope: Scope) returns (cards: seq<DriftCard>)
    ensures Shows(cards, Fold(Hits(log, horizon, scope)))
  {
    var open: map<string, DriftCard> := map[];
    cards := [];
    ghost var incs: seq<Incident> := [];
    for n := 0 to |log|
      invariant forall k :: 0 <= k < |incs| ==> incs[k] != []
      invariant Shares(open, cards, incs) && Shows(cards, incs)
      invariant fresh(set c <- cards)
      invariant incs == Fold(Hits(log[..n], horizon, scope))
    {
      FoldNext(log, n, horizon, scope);
      open, cards := FoldRow(open, cards, log[n], horizon, scope, incs);
      incs := Next(incs, log[n], horizon, scope);
    }
    assert log[..|log|] == log;
  }

  // ---- the open list ----

  lemma UndismissedSnoc(cards: seq<Card>, n: nat, dismissed: set<string>)
    requires n < |cards|
    ensures Undismissed(cards[..n + 1], dismissed)
            == if Hidden(cards[n], dismissed) then Undismissed(cards[..n], dismissed) else Undismissed(cards[..n], dismissed) + [cards[n]]
  {
    assert cards[..n + 1][..n] == cards[..n];
  }

  /** Filters the slice into its own backing store. */
  method Compact(slots: array<DriftCard>, dismissed: set<string>, ghost cards: seq<Card>) returns (kept: nat)
    requires |cards| == slots.Length && forall k :: 0 <= k < |cards| ==> slots[k].card == cards[k]
    modifies slots
    ensures kept == |Undismissed(cards, dismissed)| <= slots.Length
    ensures forall k :: 0 <= k < kept ==> slots[k].card == Undismissed(cards, dismissed)[k]
  {
    kept := 0;
    for n := 0 to slots.Length
      invariant Compacting(slots, cards, n, kept, Undismissed(cards[..n], dismissed))
    {
      UndismissedSnoc(cards, n, dismissed);
      kept := CompactOne(slots, dismissed, n, kept, cards, Undismissed(cards[..n], dismissed));
    }
    assert cards[..slots.Length] == cards;
  }

  /** The first `kept` slots show `left`; the slots from `n` on have not been reached. */
  ghost predicate Compacting(slots: array<DriftCard>, cards: seq<Card>, n: nat, kept: nat, left: seq<Card>)
    reads slots, slots[..]
  {
    && n <= slots.Length == |cards| && kept == |left| <= n
    && (forall k :: n <= k < slots.Length ==> slots[k].card == cards[k])
    && (forall k :: 0 <= k < kept ==> slots[k].card == left[k])
  }

  method CompactOne(slots: array<DriftCard>, dismissed: set<string>, n: nat, kept: nat, ghost cards: seq<Card>, ghost left: seq<Card>)
    returns (kept': nat)
    requires Compacting(slots, cards, n, kept, left) && n < slots.Length
    modifies slots
    ensures Compacting(slots, cards, n + 1, kept', if Hidden(cards[n], dismissed) then left else left + [cards[n]])
  {
    var c := slots[n];
    if Subject(c.card.fingerprint, c.card.seq_) in dismissed {
      return kept;
    }
    slots[kept] := c;
    return kept + 1;
  }

  /** One pass over the decision rows inside the horizon. */
  method DecisionSubjects(decisions: seq<DecisionRow>, since: int) returns (out: set<string>)
    ensures out == DismissedSince(decisions, since)
  {
    out := {};
    for n := 0 to |decisions|
      invariant out == DismissedSince(decisions[..n], since)
    {
      var d := decisions[n];
      assert decisions[..n + 1] == decisions[..n] + [d];
      if d.ts < since || d.cardType != DRIFT_CARD || d.decision != "dismiss" || d.subject == "" {
        continue;
      }
      out := out + {d.subject};
    }
    assert decisions[..|decisions|] == decisions;
  }

  /** The inbox's open drift cards. */
  method DriftCards(log: seq<Row>, decisions: seq<DecisionRow>, now: int, scope: Scope) returns (out: seq<Card>)
    ensures out == OpenCards(log, now, DismissedSince(decisions, now - HORIZON), scope)
  {
    var dismissed := DecisionSubjects(decisions, now - HORIZON);
    var cards := FoldRows(log, now - HORIZON, scope);
    ghost var derived := CardsOf(Fold(Hits(log, now - HORIZON, scope)));
    var slots := new DriftCard[|cards|](i requires 0 <= i < |cards| => cards[i]);
    var kept := Compact(slots, dismissed, derived);
    out := [];
    for n := 0 to kept
      invariant |out| == n && forall k :: 0 <= k < n ==> out[k] == slots[k].card
    {
      out := out + [slots[n].card];
    }
    assert out == Undismissed(derived, dismissed);
    out := Capped(Ranked(out));
  }
}
