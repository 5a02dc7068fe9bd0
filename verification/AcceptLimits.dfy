/**
 Runs that mark limits. Two are reachable without a crash, a reconciliation or a fault, and mark those of the look-ahead
 and of the local branch: why the coherence theorem asks that no push was an echo, and why a landed accept can answer an
 error. A third marks that of the boot re-drive: a lost fail write goes unseen.
 */
module AcceptLimits {
  import opened Wrappers
  import opened AcceptWorld
  import opened AcceptSafety
  import opened AcceptLookahead
  import opened AcceptCoherence
  import opened AcceptCrash
  import AcceptSolo

  function IoFor(id: EffectId, now: int): Io { Io(now, id, NoFault) }

  // ---- runs, a phase at a time ----

  lemma Then(env: Env, w0: World, steps: seq<Step>, w: World, cid: CallId, io: Io, n: nat)
    requires Run(env, w0, steps) == w && cid in w.calls
    ensures var (s', call') := Alone(env, w.store, w.calls[cid], io, n);
            Run(env, w0, steps + Goes(cid, io, n)) == World(s', w.calls[cid := call'])
  {
    RunConcat(env, w0, steps, Goes(cid, io, n));
    AloneIsRun(env, w.store, w.calls, cid, w.calls[cid], io, n);
    assert w.calls[cid := w.calls[cid]] == w.calls;
  }

  lemma ThenEnter(env: Env, w0: World, steps: seq<Step>, w: World, cid: CallId, in_: Input)
    requires Run(env, w0, steps) == w && cid !in w.calls
    ensures Run(env, w0, steps + [Enter(cid, in_)]) == World(w.store, w.calls[cid := Call(in_, Entered)])
  {
    assert (steps + [Enter(cid, in_)])[..|steps|] == steps;
  }

  lemma ThenPrepare(env: Env, w0: World, steps: seq<Step>, w: World, cid: CallId, in_: Input, tree: string, io: Io)
    requires Run(env, w0, steps) == w && cid !in w.calls && Acceptable(env, w.store, in_, tree, io.id) && io.fault == NoFault
    ensures var (s', pc) := PrepStages(env, w.store, in_, tree, io, 5);
            Run(env, w0, steps + [Enter(cid, in_)] + Goes(cid, io, 5)) == World(s', w.calls[cid := Call(in_, pc)])
  {
    ThenEnter(env, w0, steps, w, cid, in_);
    var entered := World(w.store, w.calls[cid := Call(in_, Entered)]);
    Then(env, w0, steps + [Enter(cid, in_)], entered, cid, io, 5);
    PrepStagesAreActions(env, w.store, in_, tree, io, 5);
    var pc := PrepStages(env, w.store, in_, tree, io, 5).1;
    assert entered.calls[cid := Call(in_, pc)] == w.calls[cid := Call(in_, pc)];
  }

  lemma ThenExecute(env: Env, w0: World, steps: seq<Step>, w: World, cid: CallId, spec: Spec, tree: string, io: Io, j: nat)
    requires Run(env, w0, steps) == w && cid in w.calls && w.calls[cid].pc == WillBegin(spec) && io.fault == NoFault
    requires Pushable(env, w.store, spec, tree, io.now) && j <= 8 && (j > 5 ==> w.store.local[spec.project] == spec.onto)
    ensures var (s', pc) := PushStages(env, w.store, spec, tree, io.now, j);
            Run(env, w0, steps + Goes(cid, io, j)) == World(s', w.calls[cid := w.calls[cid].(pc := pc)])
  {
    Then(env, w0, steps, w, cid, io, j);
    PushStagesAreActions(env, w.store, w.calls[cid].input, spec, tree, io, j);
  }

  ghost predicate Peaceful(steps: seq<Step>) {
    forall i :: 0 <= i < |steps| ==> Orderly(steps[i]) && (steps[i].Go? ==> steps[i].io.fault == NoFault)
  }

  // ---- two accepts of one deliverable, then one that stacks ----

  /** A fresh installation on which `a`'s deliverable can be accepted with tree `t`, and `c`'s, on the same project,
      on top of it with tree `u`. */
  ghost predicate Setting(env: Env, s: Store, a: Input, c: Input, t: string, u: string, now: int) {
    && Initial(World(s, map[]))
    && Acceptable(env, s, a, t, "A") && a.project in s.remote && env.expiry >= 0
    && c.project == a.project && c.deliverable != a.deliverable && c.deliverable != "" && c.user != ""
    && c.engine != "" && c.model != "" && c.vendorNoreply != ""
    && c.deliverable in s.deliverables && s.deliverables[c.deliverable].state == InReview
    && s.deliverables[c.deliverable].snapshot != ""
    && env.merge(First(env, s, a, t, now), s.deliverables[c.deliverable].snapshot) == Clean(u)
  }

  function First(env: Env, s: Store, a: Input, t: string, now: int): Commit
    requires a.deliverable in s.deliverables && a.project in s.local
  {
    SquashOf(env, SpecAt(env, s, a, "A", now), t)
  }

  function StackedSpec(env: Env, s: Store, a: Input, c: Input, t: string, now: int): Spec
    requires a.deliverable in s.deliverables && a.project in s.local && c.deliverable in s.deliverables
  {
    FreshSpec(env, c, s.deliverables[c.deliverable].snapshot, First(env, s, a, t, now), "C", now)
  }

  lemma TwoCommits(env: Env, s: Store, a: Input, c: Input, t: string, u: string, now: int)
    requires Setting(env, s, a, c, t, u, now)
    ensures var c1 := First(env, s, a, t, now);
            var c2 := SquashOf(env, StackedSpec(env, s, a, c, t, now), u);
            && SquashOf(env, SpecAt(env, s, a, "B", now), t) == c1
            && c1 != s.local[a.project] && c2 != c1 && c2 != s.local[a.project] && c1.Squash? && Anc(c1, c2)
  {
    SquashIsNew(env, SpecAt(env, s, a, "A", now), t);
    SquashIsNew(env, StackedSpec(env, s, a, c, t, now), u);
    var c2 := SquashOf(env, StackedSpec(env, s, a, c, t, now), u);
    assert c2.parent == First(env, s, a, t, now);
  }

  predicate ApprovedAt(s: Store, id: EffectId, now: int) {
    InState(s, id, Approved) && s.effects[id].approvedTS == Some(now)
  }

  /** "A" prepared on the head. */
  lemma FirstPrepared(env: Env, s: Store, a: Input, c: Input, t: string, u: string, now: int) returns (steps: seq<Step>, v: Store)
    requires Setting(env, s, a, c, t, u, now)
    ensures Peaceful(steps)
    ensures Run(env, World(s, map[]), steps) == World(v, map[0 := Call(a, WillBegin(SpecAt(env, s, a, "A", now)))])
    ensures v == s.(effects := v.effects) && v.effects.Keys == {"A"} && ApprovedAt(v, "A", now)
  {
    var w0 := World(s, map[]);
    ThenPrepare(env, w0, [], w0, 0, a, t, IoFor("A", now));
    steps := [] + [Enter(0, a)] + Goes(0, IoFor("A", now), 5);
    v := PrepStages(env, s, a, t, IoFor("A", now), 5).0;
  }

  /** "A" and "B" both prepared on the same head. */
  lemma EchoPrepared(env: Env, s: Store, a: Input, c: Input, t: string, u: string, now: int) returns (steps: seq<Step>)
    requires Setting(env, s, a, c, t, u, now)
    ensures Peaceful(steps)
    ensures var w := Run(env, World(s, map[]), steps);
            && w.store == s.(effects := w.store.effects) && w.store.effects.Keys == {"A", "B"}
            && ApprovedAt(w.store, "A", now) && ApprovedAt(w.store, "B", now)
            && w.calls == map[0 := Call(a, WillBegin(SpecAt(env, s, a, "A", now))),
                              1 := Call(a, WillBegin(SpecAt(env, s, a, "B", now)))]
  {
    var front, v := FirstPrepared(env, s, a, c, t, u, now);
    assert Acceptable(env, v, a, t, "B") && SpecAt(env, v, a, "B", now) == SpecAt(env, s, a, "B", now);
    ThenPrepare(env, World(s, map[]), front, Run(env, World(s, map[]), front), 1, a, t, IoFor("B", now));
    steps := front + [Enter(1, a)] + Goes(1, IoFor("B", now), 5);
  }

  lemma FirstDrivable(env: Env, s: Store, a: Input, c: Input, t: string, u: string, now: int, v: Store)
    requires Setting(env, s, a, c, t, u, now) && v == s.(effects := v.effects) && ApprovedAt(v, "A", now)
    ensures PushDrivable(env, v, SpecAt(env, s, a, "A", now), t, now)
  {
  }

  lemma FirstEnd(env: Env, s: Store, a: Input, c: Input, t: string, u: string, now: int, v: Store)
    requires Setting(env, s, a, c, t, u, now) && v == s.(effects := v.effects) && v.effects.Keys == {"A", "B"}
    requires ApprovedAt(v, "A", now) && ApprovedAt(v, "B", now)
    requires PushDrivable(env, v, SpecAt(env, s, a, "A", now), t, now)
    ensures var (v', pc) := PushStages(env, v, SpecAt(env, s, a, "A", now), t, now, 8);
            var c1 := First(env, s, a, t, now);
            && v'.remote == s.remote[a.project := c1] && v'.local == s.local[a.project := c1]
            && v'.inflight == map[] && v'.effects.Keys == {"A", "B"} && ApprovedAt(v', "B", now)
            && v'.deliverables == s.deliverables[a.deliverable := s.deliverables[a.deliverable].(state := Accepted)]
            && pc == Returned(AcceptedAt("A", c1))
  {
    PushEnd(env, v, SpecAt(env, s, a, "A", now), t, now);
  }

  lemma MorePeace(steps: seq<Step>, cid: CallId, id: EffectId, now: int, n: nat)
    requires Peaceful(steps)
    ensures Peaceful(steps + Goes(cid, IoFor(id, now), n))
  {
  }

  /** "A" has landed and finished. */
  lemma EchoFirst(env: Env, s: Store, a: Input, c: Input, t: string, u: string, now: int) returns (steps: seq<Step>)
    requires Setting(env, s, a, c, t, u, now)
    ensures Peaceful(steps)
    ensures var w := Run(env, World(s, map[]), steps);
            var c1 := First(env, s, a, t, now);
            && w.store.remote == s.remote[a.project := c1] && w.store.local == s.local[a.project := c1]
            && w.store.inflight == map[] && w.store.effects.Keys == {"A", "B"} && ApprovedAt(w.store, "B", now)
            && w.store.deliverables == s.deliverables[a.deliverable := s.deliverables[a.deliverable].(state := Accepted)]
            && w.calls == map[0 := Call(a, Returned(AcceptedAt("A", c1))),
                              1 := Call(a, WillBegin(SpecAt(env, s, a, "B", now)))]
  {
    var front := EchoPrepared(env, s, a, c, t, u, now);
    var w := Run(env, World(s, map[]), front);
    var spec := SpecAt(env, s, a, "A", now);
    FirstDrivable(env, s, a, c, t, u, now, w.store);
    ThenExecute(env, World(s, map[]), front, w, 0, spec, t, IoFor("A", now), 8);
    FirstEnd(env, s, a, c, t, u, now, w.store);
    MorePeace(front, 0, "A", now, 8);
    steps := front + Goes(0, IoFor("A", now), 8);
  }

  /** "B" has pushed onto the commit that was already there, and has yet to mark. */
  lemma EchoPushed(env: Env, s: Store, a: Input, c: Input, t: string, u: string, now: int) returns (steps: seq<Step>)
    requires Setting(env, s, a, c, t, u, now)
    ensures Peaceful(steps)
    ensures var w := Run(env, World(s, map[]), steps);
            var c1 := First(env, s, a, t, now);
            && w.store.remote == s.remote[a.project := c1] && w.store.local == s.local[a.project := c1]
            && w.store.inflight == map[] && w.store.effects.Keys == {"A", "B"}
            && w.store.deliverables == s.deliverables[a.deliverable := s.deliverables[a.deliverable].(state := Accepted)]
            && w.calls == map[0 := Call(a, Returned(AcceptedAt("A", c1))),
                              1 := Call(a, WillMark(SpecAt(env, s, a, "B", now), c1))]
  {
    var spec := SpecAt(env, s, a, "B", now);
    var front := EchoFirst(env, s, a, c, t, u, now);
    var w := Run(env, World(s, map[]), front);
    SecondPushable(env, s, a, c, t, u, now, w.store);
    ThenExecute(env, World(s, map[]), front, w, 1, spec, t, IoFor("B", now), 2);
    SecondStageEchoes(env, w.store, spec, t, now);
    MorePeace(front, 1, "B", now, 2);
    steps := front + Goes(1, IoFor("B", now), 2);
  }

  lemma SecondPushable(env: Env, s: Store, a: Input, c: Input, t: string, u: string, now: int, v: Store)
    requires Setting(env, s, a, c, t, u, now) && ApprovedAt(v, "B", now)
    requires var c1 := First(env, s, a, t, now); v.remote == s.remote[a.project := c1] && v.local == s.local[a.project := c1]
    requires v.deliverables == s.deliverables[a.deliverable := s.deliverables[a.deliverable].(state := Accepted)]
    ensures var spec := SpecAt(env, s, a, "B", now);
            && Pushable(env, v, spec, t, now) && v.remote[spec.project] == SquashOf(env, spec, t)
            && SquashOf(env, spec, t) == First(env, s, a, t, now)
  {
    TwoCommits(env, s, a, c, t, u, now);
  }

  lemma SecondStageEchoes(env: Env, v: Store, spec: Spec, tree: string, now: int)
    requires Pushable(env, v, spec, tree, now) && v.remote[spec.project] == SquashOf(env, spec, tree)
    ensures var (v', pc) := PushStages(env, v, spec, tree, now, 2);
            && v' == v.(effects := v'.effects, echoes := v'.echoes) && v'.effects.Keys == v.effects.Keys
            && pc == WillMark(spec, SquashOf(env, spec, tree))
  {
  }

  lemma StackAcceptable(env: Env, s: Store, a: Input, c: Input, t: string, u: string, now: int, v: Store)
    requires Setting(env, s, a, c, t, u, now) && v.effects.Keys == {"A", "B"} && v.inflight == map[]
    requires var c1 := First(env, s, a, t, now);
             v.remote == s.remote[a.project := c1] && v.local == s.local[a.project := c1]
    requires v.deliverables == s.deliverables[a.deliverable := s.deliverables[a.deliverable].(state := Accepted)]
    ensures Acceptable(env, v, c, u, "C") && SpecAt(env, v, c, "C", now) == StackedSpec(env, s, a, c, t, now)
    ensures Pushable(env, PrepStages(env, v, c, u, IoFor("C", now), 5).0, StackedSpec(env, s, a, c, t, now), u, now)
  {
  }

  /** "C" is approved on top of the first commit. */
  lemma EchoStackPrepared(env: Env, s: Store, a: Input, c: Input, t: string, u: string, now: int)
    returns (steps: seq<Step>, v: Store)
    requires Setting(env, s, a, c, t, u, now)
    ensures Peaceful(steps)
    ensures var c1 := First(env, s, a, t, now);
            var spec := StackedSpec(env, s, a, c, t, now);
            && Run(env, World(s, map[]), steps) == World(v, map[0 := Call(a, Returned(AcceptedAt("A", c1))),
                                                               1 := Call(a, WillMark(SpecAt(env, s, a, "B", now), c1)),
                                                               2 := Call(c, WillBegin(spec))])
            && Pushable(env, v, spec, u, now)
            && v.remote == s.remote[a.project := c1] && v.local == s.local[a.project := c1]
  {
    steps := EchoPushed(env, s, a, c, t, u, now);
    var w := Run(env, World(s, map[]), steps);
    StackAcceptable(env, s, a, c, t, u, now, w.store);
    ThenPrepare(env, World(s, map[]), steps, w, 2, c, u, IoFor("C", now));
    steps := steps + [Enter(2, c)] + Goes(2, IoFor("C", now), 5);
    v := PrepStages(env, w.store, c, u, IoFor("C", now), 5).0;
  }

  lemma StackPushed(env: Env, v: Store, spec: Spec, tree: string, now: int)
    requires Pushable(env, v, spec, tree, now) && v.remote[spec.project] == spec.onto
    ensures var (v', pc) := PushStages(env, v, spec, tree, now, 3);
            && v'.remote == v.remote[spec.project := SquashOf(env, spec, tree)] && v'.local == v.local
            && pc == WillSucceed(spec, SquashOf(env, spec, tree))
  {
    SquashIsNew(env, spec, tree);
  }

  /** "C" has landed and marked. */
  lemma EchoStacked(env: Env, s: Store, a: Input, c: Input, t: string, u: string, now: int) returns (steps: seq<Step>)
    requires Setting(env, s, a, c, t, u, now)
    ensures Peaceful(steps)
    ensures var w := Run(env, World(s, map[]), steps);
            var c1 := First(env, s, a, t, now);
            var spec := StackedSpec(env, s, a, c, t, now);
            && w.store.remote == s.remote[a.project := SquashOf(env, spec, u)] && w.store.local == s.local[a.project := c1]
            && w.calls == map[0 := Call(a, Returned(AcceptedAt("A", c1))),
                              1 := Call(a, WillMark(SpecAt(env, s, a, "B", now), c1)),
                              2 := Call(c, WillSucceed(spec, SquashOf(env, spec, u)))]
  {
    var spec := StackedSpec(env, s, a, c, t, now);
    var front, v := EchoStackPrepared(env, s, a, c, t, u, now);
    assert v.remote[spec.project] == spec.onto;
    ThenExecute(env, World(s, map[]), front, Run(env, World(s, map[]), front), 2, spec, u, IoFor("C", now), 3);
    StackPushed(env, v, spec, u, now);
    MorePeace(front, 2, "C", now, 3);
    steps := front + Goes(2, IoFor("C", now), 3);
  }

  /** Look-ahead coherence does not survive an echo: one deliverable accepted twice in one second is two effects with
      one commit, and the second one's late mark takes the look-ahead back behind an accept stacked in between,
      although nothing failed and nobody is between a push and a mark. */
  lemma EchoBreaksCoherence(env: Env, s: Store, a: Input, c: Input, t: string, u: string, now: int)
    requires Setting(env, s, a, c, t, u, now)
    ensures s.local[a.project] == s.remote[a.project]
    ensures exists steps :: Peaceful(steps)
              && var w := Run(env, World(s, map[]), steps);
                 AllUnbroken(w) && Quiet(w, a.project) && a.project in w.store.local && a.project in w.store.remote
                 && ProjectOnto(w.store, a.project) != w.store.remote[a.project]
  {
    TwoCommits(env, s, a, c, t, u, now);
    var front := EchoStacked(env, s, a, c, t, u, now);
    var steps := front + [Go(1, IoFor("B", now))];
    RunStep(env, World(s, map[]), front, Go(1, IoFor("B", now)));
    assert Peaceful(steps);
    LateMark(env, Run(env, World(s, map[]), front), 1, IoFor("B", now));
    assert a.project in Run(env, World(s, map[]), steps).store.remote;
  }

  /** A mark behind the head, as the last of its kind. */
  lemma LateMark(env: Env, w: World, cid: CallId, io: Io)
    requires cid in w.calls && w.calls[cid].pc.WillMark?
    requires forall other :: other in w.calls && other != cid ==> !w.calls[other].pc.WillMark?
    requires AllUnbroken(w) && w.calls[cid].pc.spec.project in w.store.local
    ensures var w' := Apply(env, w, Go(cid, io));
            var WillMark(spec, commit) := w.calls[cid].pc;
            && AllUnbroken(w') && Quiet(w', spec.project)
            && w'.store.remote == w.store.remote && w'.store.local == w.store.local
            && ProjectOnto(w'.store, spec.project) == commit
  {
  }

  // ---- two stacked accepts that advance at once ----

  /** The start of an accept that finds a look-ahead entry: it stacks, and does not read the head. */
  function StackStages(env: Env, s: Store, in_: Input, onto: Commit, io: Io, j: nat): (Store, Pc)
    requires in_.deliverable in s.deliverables && j <= 4
  {
    var candidate := s.deliverables[in_.deliverable].snapshot;
    var proposed := Propose(s, io.id, in_.user, PayloadOf(env, in_, candidate, onto));
    if j == 0 then (s, Entered)
    else if j == 1 then (s, WillReadLookahead(candidate))
    else if j == 2 then (s, WillPropose(candidate, onto))
    else if j == 3 then (proposed, WillApprove(candidate, onto, io.id))
    else (Approve(proposed, io.id, io.now), WillBegin(FreshSpec(env, in_, candidate, onto, io.id, io.now)))
  }

  predicate Stackable(env: Env, s: Store, c: Input, onto: Commit, u: string) {
    && c.deliverable != "" && c.user != "" && c.project != ""
    && c.engine != "" && c.model != "" && c.vendorNoreply != ""
    && c.deliverable in s.deliverables && s.deliverables[c.deliverable].state == InReview
    && s.deliverables[c.deliverable].snapshot != ""
    && c.project in s.local && c.project in s.inflight && s.inflight[c.project].commit == onto && "C" !in s.effects
    && env.merge(onto, s.deliverables[c.deliverable].snapshot) == Clean(u)
  }

  lemma StackStageActs(env: Env, s: Store, c: Input, onto: Commit, u: string, io: Io, j: nat)
    requires Stackable(env, s, c, onto, u) && io.id == "C" && io.fault == NoFault && j < 4
    ensures var (s1, pc1) := StackStages(env, s, c, onto, io, j);
            Runnable(s1, Call(c, pc1), io) && Act(env, s1, Call(c, pc1), io) == StackStages(env, s, c, onto, io, j + 1)
  {
    if j == 0 {
    } else if j == 1 {
    } else if j == 2 {
    } else {
    }
  }

  lemma {:induction false} StackStagesAreActions(env: Env, s: Store, c: Input, onto: Commit, u: string, io: Io, j: nat)
    requires Stackable(env, s, c, onto, u) && io.id == "C" && io.fault == NoFault && j <= 4
    ensures var (s', pc) := StackStages(env, s, c, onto, io, j); Alone(env, s, Call(c, Entered), io, j) == (s', Call(c, pc))
  {
    if j != 0 {
      StackStagesAreActions(env, s, c, onto, u, io, j - 1);
      StackStageActs(env, s, c, onto, u, io, j - 1);
    }
  }

  /** "A" has landed, is in the look-ahead, and has read the local head it will swap. */
  lemma RaceFirst(env: Env, s: Store, a: Input, c: Input, t: string, u: string, now: int)
    returns (steps: seq<Step>, v: Store)
    requires Setting(env, s, a, c, t, u, now)
    ensures Peaceful(steps)
    ensures var c1, spec := First(env, s, a, t, now), SpecAt(env, s, a, "A", now);
            && Run(env, World(s, map[]), steps) == World(v, map[0 := Call(a, WillSwap(spec, c1, s.local[a.project]))])
            && Stackable(env, v, c, c1, u) && v.effects.Keys == {"A"}
            && v.remote == s.remote[a.project := c1] && v.local == s.local
            && v.deliverables[c.deliverable] == s.deliverables[c.deliverable]
  {
    var w0 := World(s, map[]);
    var spec := SpecAt(env, s, a, "A", now);
    TwoCommits(env, s, a, c, t, u, now);
    var front, prepared := FirstPrepared(env, s, a, c, t, u, now);
    FirstDrivable(env, s, a, c, t, u, now, prepared);
    ThenExecute(env, w0, front, Run(env, w0, front), 0, spec, t, IoFor("A", now), 6);
    FirstRead(env, prepared, spec, t, now);
    MorePeace(front, 0, "A", now, 6);
    steps := front + Goes(0, IoFor("A", now), 6);
    v := PushStages(env, prepared, spec, t, now, 6).0;
  }

  lemma FirstRead(env: Env, v: Store, spec: Spec, tree: string, now: int)
    requires PushDrivable(env, v, spec, tree, now) && v.remote[spec.project] == spec.onto
    ensures var (v', pc) := PushStages(env, v, spec, tree, now, 6);
            var c := SquashOf(env, spec, tree);
            && v'.remote == v.remote[spec.project := c] && v'.local == v.local && v'.effects.Keys == v.effects.Keys
            && v'.inflight == v.inflight[spec.project := Inflight(spec.effect, c)]
            && v'.deliverables == ReviewAccept(v, spec.deliverable).deliverables
            && pc == WillSwap(spec, c, spec.onto)
  {
    SquashIsNew(env, spec, tree);
  }

  lemma FifthStage(env: Env, v: Store, spec: Spec, tree: string, now: int)
    requires Pushable(env, v, spec, tree, now) && v.remote[spec.project] == spec.onto
    ensures var (v', pc) := PushStages(env, v, spec, tree, now, 5);
            var c := SquashOf(env, spec, tree);
            && v'.remote == v.remote[spec.project := c] && v'.local == v.local
            && InState(v', spec.effect, Succeeded) && pc == WillAdvance(spec, c)
            && spec.deliverable in v'.deliverables && v'.deliverables[spec.deliverable].state == Accepted
  {
    SquashIsNew(env, spec, tree);
  }

  lemma StackReady(env: Env, s: Store, a: Input, c: Input, t: string, u: string, now: int, one: Store)
    requires Setting(env, s, a, c, t, u, now)
    requires var c1 := First(env, s, a, t, now);
             Stackable(env, one, c, c1, u) && one.remote == s.remote[a.project := c1] && one.local == s.local
    requires one.deliverables[c.deliverable] == s.deliverables[c.deliverable]
    ensures var (two, pc) := StackStages(env, one, c, First(env, s, a, t, now), IoFor("C", now), 4);
            var spec := StackedSpec(env, s, a, c, t, now);
            && Pushable(env, two, spec, u, now) && two.remote == one.remote && two.local == s.local && pc == WillBegin(spec)
  {
  }

  /** "C" is approved on top of the look-ahead. */
  lemma RaceStacked(env: Env, s: Store, a: Input, c: Input, t: string, u: string, now: int)
    returns (steps: seq<Step>, v: Store)
    requires Setting(env, s, a, c, t, u, now)
    ensures Peaceful(steps)
    ensures var spec := StackedSpec(env, s, a, c, t, now);
            var c1 := First(env, s, a, t, now);
            && Run(env, World(s, map[]), steps)
               == World(v, map[0 := Call(a, WillSwap(SpecAt(env, s, a, "A", now), c1, s.local[a.project])),
                               1 := Call(c, WillBegin(spec))])
            && Pushable(env, v, spec, u, now) && v.remote == s.remote[a.project := c1] && v.local == s.local
  {
    var w0 := World(s, map[]);
    var c1 := First(env, s, a, t, now);
    var front, one := RaceFirst(env, s, a, c, t, u, now);
    ThenEnter(env, w0, front, Run(env, w0, front), 1, c);
    var entered := front + [Enter(1, c)];
    Then(env, w0, entered, Run(env, w0, entered), 1, IoFor("C", now), 4);
    StackStagesAreActions(env, one, c, c1, u, IoFor("C", now), 4);
    StackReady(env, s, a, c, t, u, now, one);
    MorePeace(entered, 1, "C", now, 4);
    steps := entered + Goes(1, IoFor("C", now), 4);
    v := StackStages(env, one, c, c1, IoFor("C", now), 4).0;
  }

  /** "C" has landed and been accepted, and has yet to advance the local branch. */
  lemma RaceSecond(env: Env, s: Store, a: Input, c: Input, t: string, u: string, now: int)
    returns (steps: seq<Step>, v: Store)
    requires Setting(env, s, a, c, t, u, now)
    ensures Peaceful(steps)
    ensures var spec := StackedSpec(env, s, a, c, t, now);
            var c1, c2 := First(env, s, a, t, now), SquashOf(env, spec, u);
            && Run(env, World(s, map[]), steps)
               == World(v, map[0 := Call(a, WillSwap(SpecAt(env, s, a, "A", now), c1, s.local[a.project])),
                               1 := Call(c, WillAdvance(spec, c2))])
            && v.remote == s.remote[a.project := c2] && v.local == s.local && InState(v, "C", Succeeded)
            && c.deliverable in v.deliverables && v.deliverables[c.deliverable].state == Accepted
  {
    var w0 := World(s, map[]);
    var spec := StackedSpec(env, s, a, c, t, now);
    var front, two := RaceStacked(env, s, a, c, t, u, now);
    ThenExecute(env, w0, front, Run(env, w0, front), 1, spec, u, IoFor("C", now), 5);
    FifthStage(env, two, spec, u, now);
    MorePeace(front, 1, "C", now, 5);
    steps := front + Goes(1, IoFor("C", now), 5);
    v := PushStages(env, two, spec, u, now, 5).0;
  }

  /** The race's last five steps: both have read the same local head, the earlier commit wins the swap. */
  function RaceEnd(now: int): seq<Step> {
    var ioA, ioC := IoFor("A", now), IoFor("C", now);
    [Go(1, ioC), Go(0, ioA), Go(0, ioA), Go(1, ioC), Go(1, ioC)]
  }

  /** Both reads happen first: the head `cur` is the base of both swaps. */
  lemma RaceReads(env: Env, v: Store, ca: Call, cc: Call, io: Io)
    requires cc.pc.WillAdvance? && cc.pc.spec.project in v.local && io.fault == NoFault
    requires var cur, c2 := v.local[cc.pc.spec.project], cc.pc.commit; Anc(cur, c2) && !Anc(c2, cur)
    ensures Apply(env, World(v, map[0 := ca, 1 := cc]), Go(1, io))
            == World(v, map[0 := ca, 1 := cc.(pc := WillSwap(cc.pc.spec, cc.pc.commit, v.local[cc.pc.spec.project]))])
  {
  }

  /** A swap by call `cid` that finds the head it read, or another one. */
  lemma RaceSwaps(env: Env, v: Store, calls: map<CallId, Call>, cid: CallId, io: Io)
    requires cid in calls && calls[cid].pc.WillSwap? && io.fault == NoFault
    requires calls[cid].pc.spec.project in v.local && calls[cid].pc.spec.project in v.remote
    ensures var WillSwap(spec, commit, cur) := calls[cid].pc;
            var won := v.local[spec.project] == cur;
            Apply(env, World(v, calls), Go(cid, io))
            == World(if won then v.(local := v.local[spec.project := commit]) else v,
                     calls[cid := calls[cid].(pc := WillClear(spec, if won then AcceptedAt(spec.effect, commit) else ErroredAfterLanding))])
  {
  }

  lemma RaceClears(env: Env, v: Store, calls: map<CallId, Call>, cid: CallId, io: Io)
    requires cid in calls && calls[cid].pc.WillClear? && io.fault == NoFault
    ensures var WillClear(spec, out) := calls[cid].pc;
            Apply(env, World(v, calls), Go(cid, io))
            == World(ClearInflight(v, spec.project, spec.effect), calls[cid := calls[cid].(pc := Returned(out))])
  {
  }

  lemma RunRaceEnd(env: Env, w: World, now: int)
    ensures var ioA, ioC := IoFor("A", now), IoFor("C", now);
            var w3 := Apply(env, Apply(env, Apply(env, w, Go(1, ioC)), Go(0, ioA)), Go(0, ioA));
            Run(env, w, RaceEnd(now)) == Apply(env, Apply(env, w3, Go(1, ioC)), Go(1, ioC))
  {
    var ioA, ioC := IoFor("A", now), IoFor("C", now);
    var one := [] + [Go(1, ioC)];
    RunStep(env, w, [], Go(1, ioC));
    RunStep(env, w, one, Go(0, ioA));
    RunStep(env, w, one + [Go(0, ioA)], Go(0, ioA));
    RunStep(env, w, one + [Go(0, ioA)] + [Go(0, ioA)], Go(1, ioC));
    RunStep(env, w, one + [Go(0, ioA)] + [Go(0, ioA)] + [Go(1, ioC)], Go(1, ioC));
    assert RaceEnd(now) == one + [Go(0, ioA)] + [Go(0, ioA)] + [Go(1, ioC)] + [Go(1, ioC)];
  }

  predicate Racing(v: Store, ca: Call, cc: Call) {
    && ca.pc.WillSwap? && cc.pc.WillAdvance?
    && var p := ca.pc.spec.project;
       && p == cc.pc.spec.project && p in v.remote && p in v.local
       && ca.pc.cur == v.local[p] && ca.pc.commit != v.local[p]
       && Anc(v.local[p], cc.pc.commit) && !Anc(cc.pc.commit, v.local[p])
  }

  /** Three steps: the second accept reads the head, the first swaps it and finishes. */
  lemma RaceWon(env: Env, v: Store, ca: Call, cc: Call, now: int) returns (v3: Store)
    requires Racing(v, ca, cc)
    ensures var ioA, ioC := IoFor("A", now), IoFor("C", now);
            Apply(env, Apply(env, Apply(env, World(v, map[0 := ca, 1 := cc]), Go(1, ioC)), Go(0, ioA)), Go(0, ioA))
            == World(v3, map[0 := ca.(pc := Returned(AcceptedAt(ca.pc.spec.effect, ca.pc.commit))),
                             1 := cc.(pc := WillSwap(cc.pc.spec, cc.pc.commit, v.local[cc.pc.spec.project]))])
    ensures v3 == v.(local := v.local[ca.pc.spec.project := ca.pc.commit], inflight := v3.inflight)
  {
    var ioA, ioC := IoFor("A", now), IoFor("C", now);
    RaceReads(env, v, ca, cc, ioC);
    var w1 := Apply(env, World(v, map[0 := ca, 1 := cc]), Go(1, ioC));
    RaceSwaps(env, v, w1.calls, 0, ioA);
    var w2 := Apply(env, w1, Go(0, ioA));
    RaceClears(env, w2.store, w2.calls, 0, ioA);
    v3 := ClearInflight(w2.store, ca.pc.spec.project, ca.pc.spec.effect);
  }

  lemma RaceEnds(env: Env, v: Store, ca: Call, cc: Call, now: int)
    requires Racing(v, ca, cc)
    ensures var w' := Run(env, World(v, map[0 := ca, 1 := cc]), RaceEnd(now));
            && w'.store == v.(local := v.local[ca.pc.spec.project := ca.pc.commit], inflight := w'.store.inflight)
            && w'.calls == map[0 := ca.(pc := Returned(AcceptedAt(ca.pc.spec.effect, ca.pc.commit))),
                               1 := cc.(pc := Returned(ErroredAfterLanding))]
  {
    var ioC := IoFor("C", now);
    RunRaceEnd(env, World(v, map[0 := ca, 1 := cc]), now);
    var v3 := RaceWon(env, v, ca, cc, now);
    var calls := map[0 := ca.(pc := Returned(AcceptedAt(ca.pc.spec.effect, ca.pc.commit))),
                     1 := cc.(pc := WillSwap(cc.pc.spec, cc.pc.commit, v.local[cc.pc.spec.project]))];
    RaceSwaps(env, v3, calls, 1, ioC);
    var w4 := Apply(env, World(v3, calls), Go(1, ioC));
    RaceClears(env, w4.store, w4.calls, 1, ioC);
  }

  /** The local branch can stay behind for good without any fault: two stacked accepts read the same local head, the
      first one's swap wins and the second answers an error, although it landed, succeeded and was accepted. */
  lemma RaceLeavesLocalBehind(env: Env, s: Store, a: Input, c: Input, t: string, u: string, now: int)
    requires Setting(env, s, a, c, t, u, now)
    ensures s.local[a.project] == s.remote[a.project]
    ensures exists steps :: Peaceful(steps)
              && var w := Run(env, World(s, map[]), steps);
                 && w.calls.Keys == {0, 1} && w.calls[0].pc.Returned? && w.calls[1].pc == Returned(ErroredAfterLanding)
                 && InState(w.store, "C", Succeeded)
                 && c.deliverable in w.store.deliverables && w.store.deliverables[c.deliverable].state == Accepted
                 && a.project in w.store.local && a.project in w.store.remote
                 && w.store.local[a.project] != w.store.remote[a.project]
  {
    var w0 := World(s, map[]);
    TwoCommits(env, s, a, c, t, u, now);
    SquashIsNew(env, SpecAt(env, s, a, "A", now), t);
    var front, v := RaceSecond(env, s, a, c, t, u, now);
    var calls := Run(env, w0, front).calls;
    AncTrans(s.local[a.project], First(env, s, a, t, now), calls[1].pc.commit);
    if Anc(calls[1].pc.commit, s.local[a.project]) { AncAntisym(calls[1].pc.commit, s.local[a.project]); }
    RunConcat(env, w0, front, RaceEnd(now));
    assert calls == map[0 := calls[0], 1 := calls[1]];
    RaceEnds(env, v, calls[0], calls[1], now);
    assert Peaceful(front + RaceEnd(now));
  }

  // ---- a fail write that is lost ----

  /** A fresh installation whose remote is ahead of its local branch, and an accept on it. */
  ghost predicate Behind(env: Env, s: Store, in_: Input, tree: string, id: EffectId, now: int) {
    && Initial(World(s, map[])) && env.expiry >= 0
    && Proposable(env, s, in_, tree, id) && in_.project in s.remote
    && s.remote[in_.project] !in {s.local[in_.project], SquashOf(env, SpecAt(env, s, in_, id, now), tree)}
  }

  /** The accept as far as its approval, and a crash. */
  function ApprovedThenCrash(in_: Input, id: EffectId, now: int): seq<Step> {
    [Enter(0, in_)] + Goes(0, IoFor(id, now), 5) + [Crash]
  }

  /** The re-drive at the next boot meets `fault` at its third action, the fail write. */
  function BootIo(now: int, fault: Fault): (nat, nat) -> Io {
    (i, k) => Io(now, "", if k == 2 then fault else NoFault)
  }

  /** The boot's re-drive of an accept whose branch moved on counts the effect and reports no error whether or not its fail
      write goes through, and leaves the row failed if it does and executing if it does not. */
  lemma LostFailGoesUnseen(env: Env, s: Store, in_: Input, tree: string, id: EffectId, now: int, fault: Fault)
    requires Behind(env, s, in_, tree, id, now)
    ensures var w := Run(env, World(s, map[]), ApprovedThenCrash(in_, id, now));
            var r := AcceptSolo.RedriveFrom(env, w.store, [id], BootIo(now, fault), 0, 0);
            && w.calls == map[] && AcceptSolo.Redrivable(w.store, id)
            && r.count == 1 && !r.failed && InState(r.store, id, if fault == NoFault then Failed else Executing)
  {
    var w0, io := World(s, map[]), IoFor(id, now);
    PreparationRuns(env, s, in_, tree, io, 5);
    var steps := [Enter(0, in_)] + Goes(0, io, 5);
    assert ApprovedThenCrash(in_, id, now) == steps + [Crash];
    RunStep(env, w0, steps, Crash);
    RejectedRedrive(env, Run(env, w0, steps + [Crash]).store, id, tree, now, fault);
  }

  /** The store after an execute phase that gave up on a lease rejection, its fail write met with `fault`. */
  function GivenUp(s: Store, id: EffectId, fault: Fault): Store
    requires id in s.effects
  {
    if fault == NoFault then FailEffect(Begin(s, id), id, "lease rejected") else Begin(s, id)
  }

  lemma RejectedLands(env: Env, s: Store, spec: Spec, tree: string, io: Io)
    requires env.merge(spec.onto, spec.candidate) == Clean(tree) && spec.project in s.remote && spec.project in s.local
    requires s.remote[spec.project] !in {spec.onto, SquashOf(env, spec, tree)} && io.fault == NoFault
    ensures Act(env, s, Call(NoInput, WillLand(spec)), io)
            == (s, WillFail(spec, "lease rejected", MergeCard("lease-rejected")))
  {
  }

  lemma RejectedFails(env: Env, s: Store, spec: Spec, ios: nat -> Io, k: nat)
    ensures var card := MergeCard("lease-rejected");
            AcceptSolo.Solo(env, s, Call(NoInput, WillFail(spec, "lease rejected", card)), ios, k)
            == (if ios(k).fault == NoFault then FailEffect(s, spec.effect, "lease rejected") else s, Returned(card))
  {
    var card := MergeCard("lease-rejected");
    AcceptSolo.SoloUnfolds(env, s, Call(NoInput, WillFail(spec, "lease rejected", card)), ios, k);
  }

  /** An execute phase onto a branch that moved on, action by action. */
  lemma RejectedRuns(env: Env, v: Store, spec: Spec, tree: string, ios: nat -> Io)
    requires InState(v, spec.effect, Approved) && !Lapsed(env, v, spec.effect, ios(0).now)
    requires env.merge(spec.onto, spec.candidate) == Clean(tree) && spec.project in v.remote && spec.project in v.local
    requires v.remote[spec.project] !in {spec.onto, SquashOf(env, spec, tree)}
    requires ios(0).fault == NoFault && ios(1).fault == NoFault
    ensures AcceptSolo.Solo(env, v, Call(NoInput, WillBegin(spec)), ios, 0)
            == (GivenUp(v, spec.effect, ios(2).fault), Returned(MergeCard("lease-rejected")))
  {
    var begun := Begin(v, spec.effect);
    AcceptSolo.SoloUnfolds(env, v, Call(NoInput, WillBegin(spec)), ios, 0);
    assert Act(env, v, Call(NoInput, WillBegin(spec)), ios(0)) == (begun, WillLand(spec));
    AcceptSolo.SoloUnfolds(env, begun, Call(NoInput, WillLand(spec)), ios, 1);
    RejectedLands(env, begun, spec, tree, ios(1));
    RejectedFails(env, begun, spec, ios, 2);
  }

  lemma RejectedRedrive(env: Env, v: Store, id: EffectId, tree: string, now: int, fault: Fault)
    requires AcceptSolo.Redrivable(v, id) && !Lapsed(env, v, id, now)
    requires var spec := RebuiltSpec(id, v.effects[id]);
             && env.merge(spec.onto, spec.candidate) == Clean(tree) && spec.project in v.remote
             && v.remote[spec.project] !in {spec.onto, SquashOf(env, spec, tree)}
    ensures var r := AcceptSolo.RedriveFrom(env, v, [id], BootIo(now, fault), 0, 0);
            r.count == 1 && !r.failed && InState(r.store, id, if fault == NoFault then Failed else Executing)
  {
    var all := BootIo(now, fault);
    var own := AcceptSolo.Nth(all, 0);
    RejectedRuns(env, v, RebuiltSpec(id, v.effects[id]), tree, own);
    var (end, pc) := AcceptSolo.Solo(env, v, Call(NoInput, RedriveEntry(v, id)), own, 0);
    assert pc == Returned(MergeCard("lease-rejected"));
    assert AcceptSolo.RedriveFrom(env, end, [id], all, 1, 1) == AcceptSolo.Redriven(end, 1, false);
  }

  /** The settings are met. */
  lemma SettingExists()
    ensures exists env, s, a, c, t, u, now :: Setting(env, s, a, c, t, u, now)
    ensures exists env, s, a, t, id, now :: Behind(env, s, a, t, id, now)
  {
    var env := Env((onto, candidate) => Clean(candidate), user => false, project => "main", 1000);
    var r := Root("r");
    var s := Store(map[], map["p" := r], map["p" := r],
                   map["a" := Deliverable(InReview, "t"), "c" := Deliverable(InReview, "u")], map[], [], {}, {});
    var a := Input("a", "user", "User", "p", "subject", "provenance", "engine", "model", "noreply", "");
    assert Setting(env, s, a, a.(deliverable := "c"), "t", "u", 0);
    var ahead := Squash("x", r, "user", "user", "m", 0, false);
    assert ahead.parent == r && Anc(r, ahead);
    assert Behind(env, s.(remote := map["p" := ahead]), a, "t", "A", 0);
  }
}
