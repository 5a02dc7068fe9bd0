/**
 Open watchdog flags derived from the event log (internal/api/projection.go): the maps, the supersession reads in
 whatever order the store returns them and however the log grows between them, and what the list they produce means.
 */
module Watchdog {
  import opened Ascending

  datatype Kind = WatchdogFlagged | WatchdogSuppressed | RunStateChanged | OtherKind

  /** `payload` holds the payload's string members; a payload that does not decode has none. */
  datatype Row = Row(seq_: nat, run: string, owner: string, kind: Kind, payload: map<string, string>, ts: int)

  datatype Scope = Operator | Member(user: string)

  datatype Flag = Flag(
    seq_: nat, run: string, owner: string, rule: string, class_: string, severity: string, detail: string, ts: int)

  const CANARY := "platform.deadman."
  const PLATFORM := "platform"
  const NUL: char := '\0'

  /** The first of the keys that names a non-empty string. */
  function FirstString(payload: map<string, string>, keys: seq<string>): string {
    if keys == [] then ""
    else if keys[0] in payload && payload[keys[0]] != "" then payload[keys[0]]
    else FirstString(payload, keys[1..])
  }

  predicate InLogOrder(log: seq<Row>) {
    forall i, j :: 0 <= i < j < |log| ==> log[i].seq_ < log[j].seq_
  }

  predicate Canary(run: string) { CANARY <= run }

  function ClassOf(r: Row): string { FirstString(r.payload, ["anomaly_class", "rule"]) }

  function FlagKey(r: Row): string { r.run + [NUL] + ClassOf(r) }

  function SuppressKey(r: Row): string { r.run + [NUL] + FirstString(r.payload, ["rule"]) }

  /** The run a resume clears; "" for every other transition. */
  function ResumeKey(r: Row): string {
    if FirstString(r.payload, ["to"]) == "running" then r.run else ""
  }

  function FlagOf(r: Row): Flag {
    Flag(r.seq_, r.run, r.owner, FirstString(r.payload, ["rule"]), ClassOf(r), FirstString(r.payload, ["severity"]),
         FirstString(r.payload, ["detail"]), r.ts)
  }

  // ---- who sees which rows ----

  predicate Owns(scope: Scope, r: Row) { scope == Operator || r.owner == scope.user }

  predicate IsFlag(r: Row, scope: Scope) { r.kind == WatchdogFlagged && Owns(scope, r) && !Canary(r.run) }

  /** A platform-scope suppression reaches a member's view. */
  predicate IsSuppress(r: Row, scope: Scope) {
    r.kind == WatchdogSuppressed && (Owns(scope, r) || r.owner == PLATFORM)
  }

  predicate IsTransition(r: Row, scope: Scope) { r.kind == RunStateChanged && Owns(scope, r) }

  // ---- the meaning of the list ----

  predicate Latest(log: seq<Row>, scope: Scope, i: nat)
    requires i < |log|
  {
    IsFlag(log[i], scope)
    && forall j :: i < j < |log| && IsFlag(log[j], scope) ==> FlagKey(log[j]) != FlagKey(log[i])
  }

  predicate Suppressed(log: seq<Row>, scope: Scope, f: Row) {
    exists r :: r in log && IsSuppress(r, scope) && SuppressKey(r) == FlagKey(f) && r.seq_ > f.seq_
  }

  predicate Resumed(log: seq<Row>, scope: Scope, f: Row) {
    f.run != "" && exists r :: r in log && IsTransition(r, scope) && ResumeKey(r) == f.run && r.seq_ > f.seq_
  }

  /** The log as each of the three queries finds it: the flags', the suppressions' and the transitions'. */
  datatype Reading = Reading(flags: seq<Row>, suppressions: seq<Row>, transitions: seq<Row>)

  /** All three on one log. */
  function Once(log: seq<Row>): Reading { Reading(log, log, log) }

  /** The log only grows from one query to the next. */
  predicate Growing(at: Reading) {
    at.flags <= at.suppressions <= at.transitions && InLogOrder(at.transitions)
  }

  /** The latest flag of its run and class, not suppressed for its class since, its run not resumed since. */
  predicate Open(at: Reading, scope: Scope, i: nat)
    requires i < |at.flags|
  {
    var f := at.flags[i];
    Latest(at.flags, scope, i) && !Suppressed(at.suppressions, scope, f) && !Resumed(at.transitions, scope, f)
  }

  /** The open flags among the first `n` rows, in log order. */
  function OpenUpTo(at: Reading, scope: Scope, n: nat): seq<Flag>
    requires n <= |at.flags|
  {
    if n == 0 then []
    else OpenUpTo(at, scope, n - 1) + if Open(at, scope, n - 1) then [FlagOf(at.flags[n - 1])] else []
  }

  function OpenFlags(at: Reading, scope: Scope): seq<Flag> {
    OpenUpTo(at, scope, |at.flags|)
  }

  // ---- keys ----

  predicate NulFree(s: string) { NUL !in s }

  /** A key names one run and one class as long as the run ids hold no NUL. */
  lemma KeysExact(run: string, class_: string, run': string, class': string)
    requires NulFree(run) && NulFree(run') && run + [NUL] + class_ == run' + [NUL] + class'
    ensures run == run' && class_ == class'
  {
    FirstNul(run, class_);
    FirstNul(run', class');
    var k := run + [NUL] + class_;
    assert |run| == |run'|;
    assert run == k[..|run|] && run' == k[..|run|];
    assert class_ == k[|run| + 1..] && class' == k[|run| + 1..];
  }

  lemma FirstNul(run: string, class_: string)
    requires NulFree(run)
    ensures var k := run + [NUL] + class_; k[|run|] == NUL && forall i :: 0 <= i < |run| ==> k[i] != NUL
  {
  }

  /** With a NUL in a run id two runs can share a key. */
  lemma KeysCollide()
    ensures exists run, class_, run', class' :: run != run' && run + [NUL] + class_ == run' + [NUL] + class'
  {
    assert "a" + [NUL] + ("b" + [NUL] + "c") == ("a" + [NUL] + "b") + [NUL] + "c";
  }

  // ---- the list in terms of runs and classes ----

  /** A string member of the payload; "" when there is none. */
  function Text(r: Row, key: string): string { if key in r.payload then r.payload[key] else "" }

  /** The anomaly's class, or the rule's name when the row has no class. */
  function Anomaly(r: Row): string {
    if Text(r, "anomaly_class") != "" then Text(r, "anomaly_class") else Text(r, "rule")
  }

  lemma FirstStrings(r: Row)
    ensures ClassOf(r) == Anomaly(r)
    ensures forall key :: FirstString(r.payload, [key]) == Text(r, key)
  {
    assert ["anomaly_class", "rule"][1..] == ["rule"];
    forall key ensures FirstString(r.payload, [key]) == Text(r, key) {
      assert [key][1..] == [];
    }
  }

  /** A flag the reader is shown: not a dead-man canary's, and a member's own. */
  predicate Raises(r: Row, scope: Scope) {
    r.kind == WatchdogFlagged && !("platform.deadman." <= r.run) && (scope.Member? ==> r.owner == scope.user)
  }

  /** A suppression of the class for the run, the reader's own or the platform's. */
  predicate Suppresses(r: Row, scope: Scope, f: Row) {
    && r.kind == WatchdogSuppressed && r.seq_ > f.seq_ && r.run == f.run && Text(r, "rule") == Anomaly(f)
    && (scope.Member? ==> r.owner == scope.user || r.owner == "platform")
  }

  /** A resume of the flag's run. */
  predicate Resumes(r: Row, scope: Scope, f: Row) {
    && r.kind == RunStateChanged && r.seq_ > f.seq_ && f.run != "" && r.run == f.run && Text(r, "to") == "running"
    && (scope.Member? ==> r.owner == scope.user)
  }

  predicate SameRunAndClass(f: Row, g: Row) { f.run == g.run && Anomaly(f) == Anomaly(g) }

  /** The latest flag of its run and class; no suppression of that class for that run since; no resume of the run since. */
  predicate OpenByClass(log: seq<Row>, scope: Scope, i: nat)
    requires i < |log|
  {
    var f := log[i];
    && Raises(f, scope)
    && (forall j :: i < j < |log| && Raises(log[j], scope) ==> !SameRunAndClass(log[j], f))
    && (forall r :: r in log ==> !Suppresses(r, scope, f) && !Resumes(r, scope, f))
  }

  function OpenByClassUpTo(log: seq<Row>, scope: Scope, n: nat): seq<Flag>
    requires n <= |log|
  {
    if n == 0 then []
    else OpenByClassUpTo(log, scope, n - 1) + if OpenByClass(log, scope, n - 1) then [Shown(log[n - 1])] else []
  }

  /** What the list shows of a flag. */
  function Shown(r: Row): Flag {
    Flag(r.seq_, r.run, r.owner, Text(r, "rule"), Anomaly(r), Text(r, "severity"), Text(r, "detail"), r.ts)
  }

  lemma ShowsFlag(r: Row)
    ensures FlagOf(r) == Shown(r)
  {
    FirstStrings(r);
  }

  ghost predicate RunsNulFree(log: seq<Row>) {
    forall r :: r in log ==> NulFree(r.run)
  }

  lemma KeysMean(f: Row, r: Row)
    requires NulFree(f.run) && NulFree(r.run)
    ensures FlagKey(r) == FlagKey(f) <==> SameRunAndClass(r, f)
    ensures SuppressKey(r) == FlagKey(f) <==> r.run == f.run && Text(r, "rule") == Anomaly(f)
  {
    FirstStrings(f);
    FirstStrings(r);
    if FlagKey(r) == FlagKey(f) { KeysExact(r.run, ClassOf(r), f.run, ClassOf(f)); }
    if SuppressKey(r) == FlagKey(f) { KeysExact(r.run, FirstString(r.payload, ["rule"]), f.run, ClassOf(f)); }
  }

  lemma ClearedByClass(log: seq<Row>, scope: Scope, f: Row)
    requires RunsNulFree(log) && f in log
    ensures Suppressed(log, scope, f) <==> exists r :: r in log && Suppresses(r, scope, f)
    ensures Resumed(log, scope, f) <==> exists r :: r in log && Resumes(r, scope, f)
  {
    forall r | r in log
      ensures IsSuppress(r, scope) && SuppressKey(r) == FlagKey(f) && r.seq_ > f.seq_ <==> Suppresses(r, scope, f)
      ensures f.run != "" && IsTransition(r, scope) && ResumeKey(r) == f.run && r.seq_ > f.seq_ <==> Resumes(r, scope, f)
    {
      KeysMean(f, r);
      FirstStrings(r);
    }
  }

  lemma OpenMeans(log: seq<Row>, scope: Scope, i: nat)
    requires RunsNulFree(log) && i < |log|
    ensures Open(Once(log), scope, i) <==> OpenByClass(log, scope, i)
  {
    var f := log[i];
    assert f in log;
    forall j | i < j < |log| ensures FlagKey(log[j]) == FlagKey(f) <==> SameRunAndClass(log[j], f) {
      assert log[j] in log;
      KeysMean(f, log[j]);
    }
    ClearedByClass(log, scope, f);
  }

  lemma {:induction false} OpenMeansUpTo(log: seq<Row>, scope: Scope, n: nat)
    requires RunsNulFree(log) && n <= |log|
    ensures OpenUpTo(Once(log), scope, n) == OpenByClassUpTo(log, scope, n)
  {
    if n != 0 {
      OpenMeansUpTo(log, scope, n - 1);
      OpenMeans(log, scope, n - 1);
      ShowsFlag(log[n - 1]);
    }
  }

  /** When no run id holds a NUL, the derived list is the list of open flags by run and class, in log order. */
  lemma OpenFlagsByClass(log: seq<Row>, scope: Scope)
    requires RunsNulFree(log)
    ensures OpenFlags(Once(log), scope) == OpenByClassUpTo(log, scope, |log|)
  {
    OpenMeansUpTo(log, scope, |log|);
  }

  /** Two flags of different runs whose keys meet: the second hides the first. */
  function CollidingLog(): seq<Row> {
    [Row(1, "a", "u", WatchdogFlagged, map["rule" := "b" + [NUL] + "c"], 0),
     Row(2, "a" + [NUL] + "b", "u", WatchdogFlagged, map["rule" := "c"], 0)]
  }

  lemma CollidingKeys()
    ensures var log := CollidingLog(); FlagKey(log[0]) == FlagKey(log[1]) && Anomaly(log[0]) == "b" + [NUL] + "c" && Anomaly(log[1]) == "c"
  {
    FirstStrings(CollidingLog()[0]);
    FirstStrings(CollidingLog()[1]);
  }

  lemma CollidingOpen()
    ensures var log := CollidingLog();
            && OpenByClass(log, Operator, 0) && OpenByClass(log, Operator, 1)
            && !Open(Once(log), Operator, 0) && Open(Once(log), Operator, 1)
  {
    var log := CollidingLog();
    CollidingKeys();
    assert log[0].run != log[1].run;
    assert IsFlag(log[1], Operator);
  }

  lemma TwoRows(log: seq<Row>, scope: Scope)
    requires |log| == 2
    ensures |OpenUpTo(Once(log), scope, 2)| == (if Open(Once(log), scope, 0) then 1 else 0) + (if Open(Once(log), scope, 1) then 1 else 0)
    ensures |OpenByClassUpTo(log, scope, 2)| == (if OpenByClass(log, scope, 0) then 1 else 0) + (if OpenByClass(log, scope, 1) then 1 else 0)
  {
    assert OpenUpTo(Once(log), scope, 0) == [] && |OpenUpTo(Once(log), scope, 1)| == if Open(Once(log), scope, 0) then 1 else 0;
    assert OpenByClassUpTo(log, scope, 0) == [] && |OpenByClassUpTo(log, scope, 1)| == if OpenByClass(log, scope, 0) then 1 else 0;
  }

  /** With a NUL in a run id the two readings differ: a flag that is open by run and class is not in the list. */
  lemma NulHidesFlag()
    ensures OpenFlags(Once(CollidingLog()), Operator) != OpenByClassUpTo(CollidingLog(), Operator, 2)
    ensures OpenByClass(CollidingLog(), Operator, 0) && !Open(Once(CollidingLog()), Operator, 0)
  {
    CollidingOpen();
    TwoRows(CollidingLog(), Operator);
  }

  // ---- the list is ascending and exact ----

  predicate InSeqOrder(flags: seq<Flag>) {
    forall i, j :: 0 <= i < j < |flags| ==> flags[i].seq_ < flags[j].seq_
  }

  lemma {:induction false} OpenExactly(at: Reading, scope: Scope, n: nat)
    requires InLogOrder(at.flags) && n <= |at.flags|
    ensures var out := OpenUpTo(at, scope, n);
            && InSeqOrder(out)
            && (forall f :: f in out <==> exists i :: 0 <= i < n && Open(at, scope, i) && FlagOf(at.flags[i]) == f)
            && (forall k :: 0 <= k < |out| && n < |at.flags| ==> out[k].seq_ < at.flags[n].seq_)
  {
    if n != 0 {
      OpenExactly(at, scope, n - 1);
      var before, out := OpenUpTo(at, scope, n - 1), OpenUpTo(at, scope, n);
      forall f ensures f in out <==> exists i :: 0 <= i < n && Open(at, scope, i) && FlagOf(at.flags[i]) == f {
        if f in before {
          var i :| 0 <= i < n - 1 && Open(at, scope, i) && FlagOf(at.flags[i]) == f;
        }
        if i :| 0 <= i < n && Open(at, scope, i) && FlagOf(at.flags[i]) == f {
          if i < n - 1 { assert f in before; }
        }
      }
    }
  }

  // ---- three queries on a growing log ----

  lemma LaterMoreCleared(at: Reading, scope: Scope, i: nat)
    requires Growing(at) && i < |at.flags|
    ensures Open(Once(at.transitions), scope, i) ==> Open(at, scope, i)
    ensures Open(at, scope, i) ==> Open(Once(at.flags), scope, i)
  {
    assert forall r :: r in at.flags ==> r in at.suppressions;
    assert forall r :: r in at.suppressions ==> r in at.transitions;
    assert forall j :: 0 <= j < |at.flags| ==> at.flags[j] == at.transitions[j];
  }

  /** The three queries need no common snapshot: while the log grows between them, every flag listed was open when the
      flags were read, and every flag by then on the log that is open at the last read is listed. */
  lemma ReadingsBetween(at: Reading, scope: Scope, f: Flag)
    requires Growing(at)
    ensures f in OpenFlags(at, scope) ==> f in OpenFlags(Once(at.flags), scope)
    ensures f in OpenFlags(Once(at.transitions), scope) && at.flags != [] && f.seq_ <= at.flags[|at.flags| - 1].seq_ ==>
              f in OpenFlags(at, scope)
  {
    var n, last := |at.flags|, |at.transitions|;
    assert at.flags == at.transitions[..n];
    OpenExactly(at, scope, n);
    OpenExactly(Once(at.flags), scope, n);
    OpenExactly(Once(at.transitions), scope, last);
    if f in OpenFlags(at, scope) {
      var i :| 0 <= i < n && Open(at, scope, i) && FlagOf(at.flags[i]) == f;
      LaterMoreCleared(at, scope, i);
    }
    if f in OpenFlags(Once(at.transitions), scope) && n > 0 && f.seq_ <= at.flags[n - 1].seq_ {
      var i :| 0 <= i < last && Open(Once(at.transitions), scope, i) && FlagOf(at.transitions[i]) == f;
      assert i < n;
      LaterMoreCleared(at, scope, i);
    }
  }

  // ---- a member's view ----

  /** Rows about one key or one run carry one owner; a suppression may also be the platform's. */
  ghost predicate OwnersAgree(log: seq<Row>) {
    forall f, r :: f in log && r in log && f.kind == WatchdogFlagged ==>
      && (r.kind == WatchdogFlagged && FlagKey(r) == FlagKey(f) ==> r.owner == f.owner)
      && (r.kind == WatchdogSuppressed && SuppressKey(r) == FlagKey(f) ==> r.owner == f.owner || r.owner == PLATFORM)
      && (r.kind == RunStateChanged && f.run != "" && ResumeKey(r) == f.run ==> r.owner == f.owner)
  }

  lemma OpenForMember(log: seq<Row>, user: string, i: nat)
    requires OwnersAgree(log) && i < |log|
    ensures Open(Once(log), Member(user), i) <==> Open(Once(log), Operator, i) && log[i].owner == user
  {
    var f := log[i];
    if IsFlag(f, Member(user)) {
      forall j | i < j < |log|
        ensures IsFlag(log[j], Member(user)) && FlagKey(log[j]) == FlagKey(f)
                <==> IsFlag(log[j], Operator) && FlagKey(log[j]) == FlagKey(f)
      {
        assert log[j] in log;
      }
      assert Latest(log, Member(user), i) <==> Latest(log, Operator, i);
      assert Suppressed(log, Member(user), f) <==> Suppressed(log, Operator, f);
      assert Resumed(log, Member(user), f) <==> Resumed(log, Operator, f);
    }
  }

  function OwnedBy(flags: seq<Flag>, user: string): seq<Flag> {
    if flags == [] then []
    else OwnedBy(flags[..|flags| - 1], user) + if flags[|flags| - 1].owner == user then [flags[|flags| - 1]] else []
  }

  lemma OwnedBySnoc(flags: seq<Flag>, f: Flag, user: string)
    ensures OwnedBy(flags + [f], user) == OwnedBy(flags, user) + if f.owner == user then [f] else []
  {
    assert (flags + [f])[..|flags|] == flags;
  }

  lemma OwnedStep(all: seq<Flag>, own: seq<Flag>, f: Flag, user: string, open: bool)
    requires own == OwnedBy(all, user)
    ensures own + (if open && f.owner == user then [f] else []) == OwnedBy(all + (if open then [f] else []), user)
  {
    OwnedBySnoc(all, f, user);
    assert all + [] == all && own + [] == own;
  }

  lemma {:induction false} MemberUpTo(log: seq<Row>, user: string, n: nat)
    requires OwnersAgree(log) && n <= |log|
    ensures OpenUpTo(Once(log), Member(user), n) == OwnedBy(OpenUpTo(Once(log), Operator, n), user)
  {
    if n != 0 {
      MemberUpTo(log, user, n - 1);
      OpenForMember(log, user, n - 1);
      OwnedStep(OpenUpTo(Once(log), Operator, n - 1), OpenUpTo(Once(log), Member(user), n - 1), FlagOf(log[n - 1]), user, Open(Once(log), Operator, n - 1));
    }
  }

  /** A member sees exactly the operator's list restricted to the member's own flags. */
  lemma MemberView(log: seq<Row>, user: string)
    requires OwnersAgree(log)
    ensures OpenFlags(Once(log), Member(user)) == OwnedBy(OpenFlags(Once(log), Operator), user)
  {
    MemberUpTo(log, user, |log|);
  }

  // ---- the derivation ----

  ghost predicate MaxOk(out: map<string, nat>, rows: seq<Row>, n: nat, key: Row -> string)
    requires n <= |rows|
  {
    && (forall k :: k in out ==> k != "" && exists i :: 0 <= i < n && key(rows[i]) == k && rows[i].seq_ == out[k])
    && (forall i :: 0 <= i < n && key(rows[i]) != "" && rows[i].seq_ > 0 ==>
          key(rows[i]) in out && rows[i].seq_ <= out[key(rows[i])])
  }

  predicate Passes(out: map<string, nat>, k: string, s: nat) {
    k in out && out[k] > s
  }

  ghost predicate RowPast(rows: seq<Row>, key: Row -> string, k: string, s: nat) {
    k != "" && exists r :: r in rows && key(r) == k && r.seq_ > s
  }

  ghost predicate MaxSpec(out: map<string, nat>, rows: seq<Row>, key: Row -> string) {
    forall k, s :: Passes(out, k, s) <==> RowPast(rows, key, k, s)
  }

  /** The highest seq per key, whatever order the rows come in. */
  method MaxSeqByKey(rows: seq<Row>, key: Row -> string) returns (out: map<string, nat>)
    ensures MaxSpec(out, rows, key)
  {
    out := map[];
    for n := 0 to |rows|
      invariant MaxOk(out, rows, n, key)
    {
      var k := key(rows[n]);
      if k == "" {
        continue;
      }
      if rows[n].seq_ > (if k in out then out[k] else 0) {
        out := out[k := rows[n].seq_];
      }
    }
    forall k, s
      ensures Passes(out, k, s) <==> RowPast(rows, key, k, s)
    {
      if k in out {
        var i :| 0 <= i < |rows| && key(rows[i]) == k && rows[i].seq_ == out[k];
        assert rows[i] in rows;
      }
    }
  }

  ghost predicate LatestOk(latest: map<string, Row>, log: seq<Row>, n: nat, scope: Scope)
    requires n <= |log|
  {
    && (forall k :: k in latest ==> exists i :: 0 <= i < n && LatestAt(log, n, scope, i) && FlagKey(log[i]) == k && log[i] == latest[k])
    && (forall i :: 0 <= i < n && IsFlag(log[i], scope) ==> FlagKey(log[i]) in latest)
  }

  predicate LatestAt(log: seq<Row>, n: nat, scope: Scope, i: nat)
    requires i < n <= |log|
  {
    IsFlag(log[i], scope) && forall j :: i < j < n && IsFlag(log[j], scope) ==> FlagKey(log[j]) != FlagKey(log[i])
  }

  /** One more row: a flag takes its key's place, any other row changes nothing. */
  lemma LatestStep(latest: map<string, Row>, log: seq<Row>, n: nat, scope: Scope)
    requires n < |log| && LatestOk(latest, log, n, scope)
    ensures LatestOk(if IsFlag(log[n], scope) then latest[FlagKey(log[n]) := log[n]] else latest, log, n + 1, scope)
  {
    var r := log[n];
    var out := if IsFlag(r, scope) then latest[FlagKey(r) := r] else latest;
    forall k | k in out
      ensures exists i :: 0 <= i < n + 1 && LatestAt(log, n + 1, scope, i) && FlagKey(log[i]) == k && log[i] == out[k]
    {
      if IsFlag(r, scope) && k == FlagKey(r) {
        assert LatestAt(log, n + 1, scope, n);
      } else {
        var i :| 0 <= i < n && LatestAt(log, n, scope, i) && FlagKey(log[i]) == k && log[i] == latest[k];
        assert LatestAt(log, n + 1, scope, i);
      }
    }
  }

  method LatestFlags(log: seq<Row>, scope: Scope) returns (latest: map<string, Row>)
    ensures LatestOk(latest, log, |log|, scope)
  {
    latest := map[];
    for n := 0 to |log|
      invariant LatestOk(latest, log, n, scope)
    {
      var r := log[n];
      LatestStep(latest, log, n, scope);
      if r.kind == WatchdogFlagged && Owns(scope, r) && !Canary(r.run) {
        latest := latest[FlagKey(r) := r];
      }
    }
  }

  /** A row read by a supersession query, in any order. */
  ghost predicate Reads(rows: seq<Row>, log: seq<Row>, wanted: Row -> bool) {
    forall r :: r in rows <==> r in log && wanted(r)
  }

  function InsertBySeq(f: Flag, flags: seq<Flag>): seq<Flag> {
    if flags == [] || f.seq_ < flags[0].seq_ then [f] + flags else [flags[0]] + InsertBySeq(f, flags[1..])
  }

  function SortedBySeq(flags: seq<Flag>): seq<Flag> {
    if flags == [] then [] else InsertBySeq(flags[0], SortedBySeq(flags[1..]))
  }

  lemma {:induction false} InsertSorts(f: Flag, flags: seq<Flag>)
    requires InSeqOrder(flags) && forall k :: 0 <= k < |flags| ==> flags[k].seq_ != f.seq_
    ensures InSeqOrder(InsertBySeq(f, flags)) && forall g :: g in InsertBySeq(f, flags) <==> g == f || g in flags
  {
    if flags != [] && !(f.seq_ < flags[0].seq_) {
      InsertSorts(f, flags[1..]);
      assert flags == [flags[0]] + flags[1..];
      var rest := InsertBySeq(f, flags[1..]);
      forall k | 0 <= k < |rest| ensures flags[0].seq_ < rest[k].seq_ {
        assert rest[k] in rest;
      }
    }
  }

  lemma {:induction false} SortSorts(flags: seq<Flag>)
    requires forall i, j :: 0 <= i < j < |flags| ==> flags[i].seq_ != flags[j].seq_
    ensures InSeqOrder(SortedBySeq(flags)) && forall g :: g in SortedBySeq(flags) <==> g in flags
  {
    if flags != [] {
      SortSorts(flags[1..]);
      assert flags == [flags[0]] + flags[1..];
      forall k | 0 <= k < |SortedBySeq(flags[1..])| ensures SortedBySeq(flags[1..])[k].seq_ != flags[0].seq_ {
        assert SortedBySeq(flags[1..])[k] in flags[1..];
      }
      InsertSorts(flags[0], SortedBySeq(flags[1..]));
    }
  }

  /** The cleared flags leave; the map is walked in no particular order. */
  method Standing(latest: map<string, Row>, suppressed: map<string, nat>, resumed: map<string, nat>) returns (out: seq<Flag>)
    requires forall k, k' :: k in latest && k' in latest && k != k' ==> latest[k].seq_ != latest[k'].seq_
    ensures forall i, j :: 0 <= i < j < |out| ==> out[i].seq_ != out[j].seq_
    ensures forall f :: f in out <==> exists k :: k in latest && FlagOf(latest[k]) == f && !Cleared(latest[k], suppressed, resumed)
  {
    out := [];
    var left := latest.Keys;
    while left != {}
      invariant left <= latest.Keys
      invariant forall i, j :: 0 <= i < j < |out| ==> out[i].seq_ != out[j].seq_
      invariant forall f :: f in out <==>
                  exists k :: k in latest && k !in left && FlagOf(latest[k]) == f && !Cleared(latest[k], suppressed, resumed)
      decreases |left|
    {
      var k :| k in left;
      var before, was := out, left;
      left := left - {k};
      var f := latest[k];
      if !Cleared(f, suppressed, resumed) {
        forall i | 0 <= i < |before| ensures before[i].seq_ != f.seq_ {
          assert before[i] in before;
        }
        out := out + [FlagOf(f)];
      }
      forall g
        ensures g in out <==>
                exists x :: x in latest && x !in left && FlagOf(latest[x]) == g && !Cleared(latest[x], suppressed, resumed)
      {
        if x :| x in latest && x !in left && FlagOf(latest[x]) == g && !Cleared(latest[x], suppressed, resumed) {
          if x != k { assert x !in was; assert g in before; }
        }
        if g in before {
          var x :| x in latest && x !in was && FlagOf(latest[x]) == g && !Cleared(latest[x], suppressed, resumed);
          assert x !in left;
        }
      }
    }
  }

  predicate Cleared(f: Row, suppressed: map<string, nat>, resumed: map<string, nat>) {
    || Passes(suppressed, FlagKey(f), f.seq_)
    || (f.run != "" && Passes(resumed, f.run, f.seq_))
  }

  /** The open watchdog flags, from three queries one after the other. */
  method WatchdogFlags(at: Reading, scope: Scope, suppressions: seq<Row>, transitions: seq<Row>) returns (out: seq<Flag>)
    requires InLogOrder(at.flags)
    requires Reads(suppressions, at.suppressions, r => IsSuppress(r, scope)) && Reads(transitions, at.transitions, r => IsTransition(r, scope))
    ensures out == OpenFlags(at, scope)
  {
    var latest := LatestFlags(at.flags, scope);
    OpenExactly(at, scope, |at.flags|);
    if latest == map[] {
      NoneOpen(at, scope, latest);
      return [];
    }
    var suppressed := MaxSeqByKey(suppressions, SuppressKey);
    var resumed := MaxSeqByKey(transitions, ResumeKey);
    LatestSeqsDiffer(at, scope, latest);
    out := Standing(latest, suppressed, resumed);
    SortSorts(out);
    forall f ensures f in out <==> f in OpenFlags(at, scope) {
      StandingIsOpen(at, scope, latest, suppressed, resumed, suppressions, transitions, f);
    }
    out := SortedBySeq(out);
    AscendingUnique(out, OpenFlags(at, scope), (f: Flag) => f.seq_);
  }

  lemma NoneOpen(at: Reading, scope: Scope, latest: map<string, Row>)
    requires InLogOrder(at.flags) && LatestOk(latest, at.flags, |at.flags|, scope) && latest == map[]
    ensures OpenFlags(at, scope) == []
  {
    OpenExactly(at, scope, |at.flags|);
    SameEmptiness(OpenFlags(at, scope), []);
  }

  lemma LatestSeqsDiffer(at: Reading, scope: Scope, latest: map<string, Row>)
    requires InLogOrder(at.flags) && LatestOk(latest, at.flags, |at.flags|, scope)
    ensures forall k, k' :: k in latest && k' in latest && k != k' ==> latest[k].seq_ != latest[k'].seq_
  {
    forall k, k' | k in latest && k' in latest && k != k'
      ensures latest[k].seq_ != latest[k'].seq_
    {
      var i :| 0 <= i < |at.flags| && LatestAt(at.flags, |at.flags|, scope, i) && FlagKey(at.flags[i]) == k && at.flags[i] == latest[k];
      var j :| 0 <= j < |at.flags| && LatestAt(at.flags, |at.flags|, scope, j) && FlagKey(at.flags[j]) == k' && at.flags[j] == latest[k'];
      assert i < j || j < i;
    }
  }

  lemma ClearedMeans(at: Reading, scope: Scope, f: Row, suppressed: map<string, nat>, resumed: map<string, nat>,
                     suppressions: seq<Row>, transitions: seq<Row>)
    requires Reads(suppressions, at.suppressions, r => IsSuppress(r, scope)) && Reads(transitions, at.transitions, r => IsTransition(r, scope))
    requires MaxSpec(suppressed, suppressions, SuppressKey)
    requires MaxSpec(resumed, transitions, ResumeKey)
    ensures Cleared(f, suppressed, resumed) <==> Suppressed(at.suppressions, scope, f) || Resumed(at.transitions, scope, f)
  {
    assert FlagKey(f) != "" by { assert NUL in FlagKey(f); }
  }

  lemma StandingIsOpen(at: Reading, scope: Scope, latest: map<string, Row>, suppressed: map<string, nat>,
                       resumed: map<string, nat>, suppressions: seq<Row>, transitions: seq<Row>, f: Flag)
    requires InLogOrder(at.flags) && LatestOk(latest, at.flags, |at.flags|, scope)
    requires Reads(suppressions, at.suppressions, r => IsSuppress(r, scope)) && Reads(transitions, at.transitions, r => IsTransition(r, scope))
    requires MaxSpec(suppressed, suppressions, SuppressKey)
    requires MaxSpec(resumed, transitions, ResumeKey)
    ensures (exists k :: k in latest && FlagOf(latest[k]) == f && !Cleared(latest[k], suppressed, resumed))
            <==> f in OpenFlags(at, scope)
  {
    OpenExactly(at, scope, |at.flags|);
    if f in OpenFlags(at, scope) {
      var i :| 0 <= i < |at.flags| && Open(at, scope, i) && FlagOf(at.flags[i]) == f;
      StandsExactly(at, scope, i, suppressed, resumed, suppressions, transitions);
      LatestHere(at, scope, latest, i);
      assert latest[FlagKey(at.flags[i])] == at.flags[i];
    }
    if k :| k in latest && FlagOf(latest[k]) == f && !Cleared(latest[k], suppressed, resumed) {
      var i := LatestIndex(at, scope, latest, k);
      StandsExactly(at, scope, i, suppressed, resumed, suppressions, transitions);
    }
  }

  lemma LatestIndex(at: Reading, scope: Scope, latest: map<string, Row>, k: string) returns (i: nat)
    requires LatestOk(latest, at.flags, |at.flags|, scope) && k in latest
    ensures i < |at.flags| && LatestAt(at.flags, |at.flags|, scope, i) && at.flags[i] == latest[k]
  {
    i :| 0 <= i < |at.flags| && LatestAt(at.flags, |at.flags|, scope, i) && FlagKey(at.flags[i]) == k && at.flags[i] == latest[k];
  }

  lemma StandsExactly(at: Reading, scope: Scope, i: nat, suppressed: map<string, nat>, resumed: map<string, nat>,
                      suppressions: seq<Row>, transitions: seq<Row>)
    requires i < |at.flags| && LatestAt(at.flags, |at.flags|, scope, i)
    requires Reads(suppressions, at.suppressions, r => IsSuppress(r, scope)) && Reads(transitions, at.transitions, r => IsTransition(r, scope))
    requires MaxSpec(suppressed, suppressions, SuppressKey) && MaxSpec(resumed, transitions, ResumeKey)
    ensures Open(at, scope, i) <==> !Cleared(at.flags[i], suppressed, resumed)
  {
    ClearedMeans(at, scope, at.flags[i], suppressed, resumed, suppressions, transitions);
  }

  lemma LatestHere(at: Reading, scope: Scope, latest: map<string, Row>, i: nat)
    requires i < |at.flags| && LatestOk(latest, at.flags, |at.flags|, scope) && Latest(at.flags, scope, i)
    ensures FlagKey(at.flags[i]) in latest && latest[FlagKey(at.flags[i])] == at.flags[i]
  {
    var k := FlagKey(at.flags[i]);
    var j :| 0 <= j < |at.flags| && LatestAt(at.flags, |at.flags|, scope, j) && FlagKey(at.flags[j]) == k && at.flags[j] == latest[k];
  }
}
