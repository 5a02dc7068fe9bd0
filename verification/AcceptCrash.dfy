/**
 Crash transparency of one accept: where a crash, followed by the journal's reconcile and a re-drive, ends in
 the state the crash-free run ends in, and where it does not.
 */
module AcceptCrash {
  import opened Wrappers
  import opened AcceptWorld
  import opened AcceptSafety

  // ---- a call running alone ----

  function Goes(cid: CallId, io: Io, n: nat): seq<Step> {
    seq(n, _ => Go(cid, io))
  }

  /** `n` actions of one call with nobody else about. */
  function Alone(env: Env, s: Store, call: Call, io: Io, n: nat): (Store, Call) {
    if n == 0 then (s, call)
    else
      var (s1, call1) := Alone(env, s, call, io, n - 1);
      if Runnable(s1, call1, io) then
        var (s2, pc) := Act(env, s1, call1, io);
        (s2, call1.(pc := pc))
      else (s1, call1)
  }

  lemma {:induction false} AloneIsRun(env: Env, s: Store, calls: map<CallId, Call>, cid: CallId, call: Call, io: Io, n: nat)
    ensures var (s', call') := Alone(env, s, call, io, n);
            Run(env, World(s, calls[cid := call]), Goes(cid, io, n)) == World(s', calls[cid := call'])
  {
    if n != 0 {
      AloneIsRun(env, s, calls, cid, call, io, n - 1);
      assert Goes(cid, io, n)[..n - 1] == Goes(cid, io, n - 1);
      var (s1, call1) := Alone(env, s, call, io, n - 1);
      OneAction(env, s1, calls, cid, call1, io);
    }
  }

  lemma OneAction(env: Env, s: Store, calls: map<CallId, Call>, cid: CallId, call: Call, io: Io)
    ensures Apply(env, World(s, calls[cid := call]), Go(cid, io))
            == if Runnable(s, call, io) then World(Act(env, s, call, io).0, calls[cid := call.(pc := Act(env, s, call, io).1)])
               else World(s, calls[cid := call])
  {
    if Runnable(s, call, io) {
      var call' := call.(pc := Act(env, s, call, io).1);
      assert calls[cid := call][cid := call'] == calls[cid := call'];
    }
  }

  // ---- the execute phase, stage by stage ----

  /** What the execute phase of `spec` needs to run to the end: a clean merge, an unmoved branch or one already at
      the commit, a local branch that has not advanced, and an approval inside its window. */
  predicate Executable(env: Env, s: Store, spec: Spec, tree: string, now: int) {
    var p := spec.project;
    && InState(s, spec.effect, Approved) && !Lapsed(env, s, spec.effect, now)
    && s.effects[spec.effect].approvedTS.Some?
    && env.merge(spec.onto, spec.candidate) == Clean(tree)
    && p in s.local && CanAccept(s, spec.deliverable)
  }

  predicate Pushable(env: Env, s: Store, spec: Spec, tree: string, now: int) {
    && Executable(env, s, spec, tree, now)
    && spec.project in s.remote
    && s.remote[spec.project] in {spec.onto, SquashOf(env, spec, tree)}
  }

  predicate PushDrivable(env: Env, s: Store, spec: Spec, tree: string, now: int) {
    Pushable(env, s, spec, tree, now) && s.local[spec.project] == spec.onto
  }

  /** The local branch is read only from the sixth stage on. */
  function PushStages(env: Env, s: Store, spec: Spec, tree: string, now: int, j: nat): (Store, Pc)
    requires Pushable(env, s, spec, tree, now) && j <= 8 && (j > 5 ==> s.local[spec.project] == spec.onto)
  {
    var c := SquashOf(env, spec, tree);
    var begun := Begin(s, spec.effect);
    var pushed := Push(begun, spec, c);
    var marked := MarkInflight(pushed, spec.project, spec.effect, c);
    var recorded := Finish(marked, spec.effect, Succeeded, Recorded(c, false));
    var reviewed := ReviewAccept(recorded, spec.deliverable);
    var advanced := reviewed.(local := reviewed.local[spec.project := c]);
    if j == 0 then (s, WillBegin(spec))
    else if j == 1 then (begun, WillLand(spec))
    else if j == 2 then (pushed, WillMark(spec, c))
    else if j == 3 then (marked, WillSucceed(spec, c))
    else if j == 4 then (recorded, WillReview(spec, c))
    else if j == 5 then (reviewed, WillAdvance(spec, c))
    else if j == 6 then (reviewed, WillSwap(spec, c, spec.onto))
    else if j == 7 then (advanced, WillClear(spec, AcceptedAt(spec.effect, c)))
    else (ClearInflight(advanced, spec.project, spec.effect), Returned(AcceptedAt(spec.effect, c)))
  }

  lemma SquashIsNew(env: Env, spec: Spec, tree: string)
    ensures var c := SquashOf(env, spec, tree); c != spec.onto && Anc(spec.onto, c) && !Anc(c, spec.onto)
  {
    var c := SquashOf(env, spec, tree);
    assert Anc(spec.onto, c.parent);
    if Anc(c, spec.onto) { AncDepth(c, spec.onto); }
  }

  lemma PushStageActs(env: Env, s: Store, in_: Input, spec: Spec, tree: string, io: Io, j: nat)
    requires Pushable(env, s, spec, tree, io.now) && io.fault == NoFault && j < 8
    requires j >= 5 ==> s.local[spec.project] == spec.onto
    ensures var (s1, pc1) := PushStages(env, s, spec, tree, io.now, j);
            Runnable(s1, Call(in_, pc1), io)
            && Act(env, s1, Call(in_, pc1), io) == PushStages(env, s, spec, tree, io.now, j + 1)
  {
    SquashIsNew(env, spec, tree);
    if j == 0 {
    } else if j == 1 {
    } else if j == 2 {
    } else if j == 3 {
    } else if j == 4 {
    } else if j == 5 {
    } else if j == 6 {
    } else {
    }
  }

  lemma {:induction false} PushStagesAreActions(env: Env, s: Store, in_: Input, spec: Spec, tree: string, io: Io, j: nat)
    requires Pushable(env, s, spec, tree, io.now) && io.fault == NoFault && j <= 8
    requires j > 5 ==> s.local[spec.project] == spec.onto
    ensures var (s', pc) := PushStages(env, s, spec, tree, io.now, j);
            Alone(env, s, Call(in_, WillBegin(spec)), io, j) == (s', Call(in_, pc))
  {
    if j != 0 {
      PushStagesAreActions(env, s, in_, spec, tree, io, j - 1);
      PushStageActs(env, s, in_, spec, tree, io, j - 1);
    }
  }

  predicate LocalDrivable(env: Env, s: Store, spec: Spec, tree: string, now: int) {
    && Executable(env, s, spec, tree, now)
    && spec.project !in s.remote && s.local[spec.project] == spec.onto
  }

  function LocalStages(env: Env, s: Store, spec: Spec, tree: string, now: int, j: nat): (Store, Pc)
    requires LocalDrivable(env, s, spec, tree, now) && j <= 6
  {
    var c := SquashOf(env, spec, tree);
    var begun := Begin(s, spec.effect);
    var landed := begun.(local := begun.local[spec.project := c],
                         landings := begun.landings + [Landing(spec.project, spec.effect, spec.onto, c)]);
    var recorded := Finish(landed, spec.effect, Succeeded, Recorded(c, true));
    if j == 0 then (s, WillBegin(spec))
    else if j == 1 then (begun, WillLand(spec))
    else if j == 2 then (begun, WillSwap(spec, c, spec.onto))
    else if j == 3 then (landed, WillSucceed(spec, c))
    else if j == 4 then (recorded, WillReview(spec, c))
    else (ReviewAccept(recorded, spec.deliverable),
          if j == 5 then WillRoute(AcceptedAt(spec.effect, c)) else Returned(AcceptedAt(spec.effect, c)))
  }

  lemma LocalStageActs(env: Env, s: Store, in_: Input, spec: Spec, tree: string, io: Io, j: nat)
    requires LocalDrivable(env, s, spec, tree, io.now) && io.fault == NoFault && j < 6
    ensures var (s1, pc1) := LocalStages(env, s, spec, tree, io.now, j);
            Runnable(s1, Call(in_, pc1), io)
            && Act(env, s1, Call(in_, pc1), io) == LocalStages(env, s, spec, tree, io.now, j + 1)
  {
    SquashIsNew(env, spec, tree);
    if j == 0 {
    } else if j == 1 {
    } else if j == 2 {
    } else if j == 3 {
    } else if j == 4 {
    } else {
    }
  }

  lemma {:induction false} LocalStagesAreActions(env: Env, s: Store, in_: Input, spec: Spec, tree: string, io: Io, j: nat)
    requires LocalDrivable(env, s, spec, tree, io.now) && io.fault == NoFault && j <= 6
    ensures var (s', pc) := LocalStages(env, s, spec, tree, io.now, j);
            Alone(env, s, Call(in_, WillBegin(spec)), io, j) == (s', Call(in_, pc))
  {
    if j != 0 {
      LocalStagesAreActions(env, s, in_, spec, tree, io, j - 1);
      LocalStageActs(env, s, in_, spec, tree, io, j - 1);
    }
  }

  // ---- the whole accept, alone ----

  /** An accept nothing stands in the way of, on a project nobody else is touching. */
  predicate Acceptable(env: Env, s: Store, in_: Input, tree: string, id: EffectId) {
    Proposable(env, s, in_, tree, id) && (in_.project in s.remote ==> s.local[in_.project] == s.remote[in_.project])
  }

  /** An accept nothing stands in the way of as far as its approval: the remote may be ahead of the local branch. */
  predicate Proposable(env: Env, s: Store, in_: Input, tree: string, id: EffectId) {
    && in_.deliverable != "" && in_.user != "" && in_.project != ""
    && in_.engine != "" && in_.model != "" && in_.vendorNoreply != ""
    && in_.deliverable in s.deliverables && s.deliverables[in_.deliverable].state == InReview
    && s.deliverables[in_.deliverable].snapshot != ""
    && in_.project in s.local && s.inflight == map[] && id !in s.effects
    && env.merge(s.local[in_.project], s.deliverables[in_.deliverable].snapshot) == Clean(tree)
  }

  function SpecAt(env: Env, s: Store, in_: Input, id: EffectId, now: int): Spec
    requires in_.deliverable in s.deliverables && in_.project in s.local
  {
    FreshSpec(env, in_, s.deliverables[in_.deliverable].snapshot, s.local[in_.project], id, now)
  }

  function PrepStages(env: Env, s: Store, in_: Input, tree: string, io: Io, j: nat): (Store, Pc)
    requires Proposable(env, s, in_, tree, io.id) && j <= 5
  {
    var candidate := s.deliverables[in_.deliverable].snapshot;
    var onto := s.local[in_.project];
    var proposed := Propose(s, io.id, in_.user, PayloadOf(env, in_, candidate, onto));
    if j == 0 then (s, Entered)
    else if j == 1 then (s, WillReadLookahead(candidate))
    else if j == 2 then (s, WillReadHead(candidate))
    else if j == 3 then (s, WillPropose(candidate, onto))
    else if j == 4 then (proposed, WillApprove(candidate, onto, io.id))
    else (Approve(proposed, io.id, io.now), WillBegin(SpecAt(env, s, in_, io.id, io.now)))
  }

  lemma PrepStageActs(env: Env, s: Store, in_: Input, tree: string, io: Io, j: nat)
    requires Proposable(env, s, in_, tree, io.id) && io.fault == NoFault && j < 5
    ensures var (s1, pc1) := PrepStages(env, s, in_, tree, io, j);
            Runnable(s1, Call(in_, pc1), io) && Act(env, s1, Call(in_, pc1), io) == PrepStages(env, s, in_, tree, io, j + 1)
  {
    if j == 0 {
    } else if j == 1 {
    } else if j == 2 {
    } else if j == 3 {
    } else {
    }
  }

  lemma {:induction false} PrepStagesAreActions(env: Env, s: Store, in_: Input, tree: string, io: Io, j: nat)
    requires Proposable(env, s, in_, tree, io.id) && io.fault == NoFault && j <= 5
    ensures var (s', pc) := PrepStages(env, s, in_, tree, io, j);
            Alone(env, s, Call(in_, Entered), io, j) == (s', Call(in_, pc))
  {
    if j != 0 {
      PrepStagesAreActions(env, s, in_, tree, io, j - 1);
      PrepStageActs(env, s, in_, tree, io, j - 1);
    }
  }

  /** The accept's own steps up to its `k`th: it enters, prepares at `io1`, executes at `io2`. */
  function Script(in_: Input, io1: Io, io2: Io, k: nat): seq<Step> {
    if k == 0 then []
    else if k <= 6 then [Enter(0, in_)] + Goes(0, io1, k - 1)
    else [Enter(0, in_)] + Goes(0, io1, 5) + Goes(0, io2, k - 6)
  }

  /** The stages of the accept that write, numbered as steps of the script. */
  const APPROVED := 6
  const LAST_BEFORE_SUCCEED := 9

  function Steps(s: Store, p: ProjectId): nat {
    if p in s.remote then 14 else 12
  }

  lemma RunFromEnter(env: Env, s: Store, in_: Input, io: Io, n: nat)
    ensures var (s', call') := Alone(env, s, Call(in_, Entered), io, n);
            Run(env, World(s, map[]), [Enter(0, in_)] + Goes(0, io, n)) == World(s', map[0 := call'])
  {
    var w := World(s, map[]);
    assert [Enter(0, in_)][..0] == [];
    assert Run(env, w, [Enter(0, in_)]) == Apply(env, w, Enter(0, in_));
    assert map[][0 := Call(in_, Entered)] == map[0 := Call(in_, Entered)];
    RunConcat(env, w, [Enter(0, in_)], Goes(0, io, n));
    AloneIsRun(env, s, map[], 0, Call(in_, Entered), io, n);
  }

  lemma PrepDrivable(env: Env, s: Store, in_: Input, tree: string, io1: Io, now: int)
    requires Acceptable(env, s, in_, tree, io1.id) && now - io1.now <= env.expiry
    ensures var (s6, pc6) := PrepStages(env, s, in_, tree, io1, 5);
            if in_.project in s.remote then PushDrivable(env, s6, pc6.spec, tree, now)
            else LocalDrivable(env, s6, pc6.spec, tree, now)
  {
  }

  /** Where the script stands after its `k`th step. */
  function ScriptAt(env: Env, s: Store, in_: Input, tree: string, io1: Io, now: int, k: nat): (Store, Pc)
    requires Acceptable(env, s, in_, tree, io1.id) && now - io1.now <= env.expiry && 1 <= k <= Steps(s, in_.project)
  {
    PrepDrivable(env, s, in_, tree, io1, now);
    var (s6, pc6) := PrepStages(env, s, in_, tree, io1, 5);
    if k <= 6 then PrepStages(env, s, in_, tree, io1, k - 1)
    else if in_.project in s.remote then PushStages(env, s6, pc6.spec, tree, now, k - 6)
    else LocalStages(env, s6, pc6.spec, tree, now, k - 6)
  }

  lemma ScriptRuns(env: Env, s: Store, in_: Input, tree: string, io1: Io, io2: Io, k: nat)
    requires Acceptable(env, s, in_, tree, io1.id) && io2.now - io1.now <= env.expiry
    requires io1.fault == NoFault && io2.fault == NoFault && 1 <= k <= Steps(s, in_.project)
    ensures var (s', pc) := ScriptAt(env, s, in_, tree, io1, io2.now, k);
            Run(env, World(s, map[]), Script(in_, io1, io2, k)) == World(s', map[0 := Call(in_, pc)])
  {
    if k <= 6 {
      PreparationRuns(env, s, in_, tree, io1, k - 1);
      assert ScriptAt(env, s, in_, tree, io1, io2.now, k) == PrepStages(env, s, in_, tree, io1, k - 1);
    } else {
      ScriptAtLate(env, s, in_, tree, io1, io2.now, k);
      ExecutionRuns(env, s, in_, tree, io1, io2, k);
    }
  }

  lemma ScriptAtLate(env: Env, s: Store, in_: Input, tree: string, io1: Io, now: int, k: nat)
    requires Acceptable(env, s, in_, tree, io1.id) && now - io1.now <= env.expiry && 6 < k <= Steps(s, in_.project)
    ensures var (s6, pc6) := PrepStages(env, s, in_, tree, io1, 5);
            && (if in_.project in s.remote then PushDrivable(env, s6, pc6.spec, tree, now) else LocalDrivable(env, s6, pc6.spec, tree, now))
            && ScriptAt(env, s, in_, tree, io1, now, k)
               == if in_.project in s.remote then PushStages(env, s6, pc6.spec, tree, now, k - 6)
                  else LocalStages(env, s6, pc6.spec, tree, now, k - 6)
  {
    PrepDrivable(env, s, in_, tree, io1, now);
  }

  lemma ExecutionRuns(env: Env, s: Store, in_: Input, tree: string, io1: Io, io2: Io, k: nat)
    requires Acceptable(env, s, in_, tree, io1.id) && io2.now - io1.now <= env.expiry
    requires io1.fault == NoFault && io2.fault == NoFault && 6 < k <= Steps(s, in_.project)
    ensures var (s6, pc6) := PrepStages(env, s, in_, tree, io1, 5);
            && (if in_.project in s.remote then PushDrivable(env, s6, pc6.spec, tree, io2.now)
                else LocalDrivable(env, s6, pc6.spec, tree, io2.now))
            && var (s', pc) := if in_.project in s.remote then PushStages(env, s6, pc6.spec, tree, io2.now, k - 6)
                               else LocalStages(env, s6, pc6.spec, tree, io2.now, k - 6);
               Run(env, World(s, map[]), [Enter(0, in_)] + Goes(0, io1, 5) + Goes(0, io2, k - 6)) == World(s', map[0 := Call(in_, pc)])
  {
    var (s6, pc6) := PrepStages(env, s, in_, tree, io1, 5);
    PreparationRuns(env, s, in_, tree, io1, 5);
    PrepDrivable(env, s, in_, tree, io1, io2.now);
    RunConcat(env, World(s, map[]), [Enter(0, in_)] + Goes(0, io1, 5), Goes(0, io2, k - 6));
    ExecuteRuns(env, s6, in_, pc6.spec, tree, io2, k - 6);
  }

  lemma PreparationRuns(env: Env, s: Store, in_: Input, tree: string, io: Io, n: nat)
    requires Proposable(env, s, in_, tree, io.id) && io.fault == NoFault && n <= 5
    ensures var (s', pc) := PrepStages(env, s, in_, tree, io, n);
            && Run(env, World(s, map[]), [Enter(0, in_)] + Goes(0, io, n)) == World(s', map[0 := Call(in_, pc)])
            && s'.remote == s.remote
    ensures n == 0 ==> [Enter(0, in_)] + Goes(0, io, n) == [Enter(0, in_)]
  {
    RunFromEnter(env, s, in_, io, n);
    PrepStagesAreActions(env, s, in_, tree, io, n);
  }

  /** The execute phase of whichever arm, as a run. */
  lemma ExecuteRuns(env: Env, s: Store, in_: Input, spec: Spec, tree: string, io: Io, j: nat)
    requires if spec.project in s.remote then PushDrivable(env, s, spec, tree, io.now) && j <= 8
             else LocalDrivable(env, s, spec, tree, io.now) && j <= 6
    requires io.fault == NoFault
    ensures var (s', pc) := if spec.project in s.remote then PushStages(env, s, spec, tree, io.now, j)
                            else LocalStages(env, s, spec, tree, io.now, j);
            Run(env, World(s, map[0 := Call(in_, WillBegin(spec))]), Goes(0, io, j)) == World(s', map[0 := Call(in_, pc)])
  {
    AloneIsRun(env, s, map[], 0, Call(in_, WillBegin(spec)), io, j);
    if spec.project in s.remote {
      PushStagesAreActions(env, s, in_, spec, tree, io, j);
    } else {
      LocalStagesAreActions(env, s, in_, spec, tree, io, j);
    }
  }

  // ---- crash, reconcile, re-drive ----

  function Reboot(id: EffectId, io: Io): seq<Step> {
    [Crash, Reconcile(id), Redrive(1, id)] + Goes(1, io, 8)
  }

  function Rebooted(s: Store, id: EffectId): Store {
    ReturnToApproved(s.(inflight := map[]), id)
  }

  lemma RebootRuns(env: Env, w: World, id: EffectId, io: Io)
    ensures var v := Rebooted(w.store, id);
            var (s', call') := Alone(env, v, Call(NoInput, RedriveEntry(v, id)), io, 8);
            Run(env, w, Reboot(id, io)) == World(s', map[1 := call'])
  {
    var v := Rebooted(w.store, id);
    var first := [Crash, Reconcile(id), Redrive(1, id)];
    assert first[..2] == [Crash, Reconcile(id)] && first[..2][..1] == [Crash] && [Crash][..0] == [];
    assert Run(env, w, [Crash]) == Apply(env, w, Crash);
    assert Run(env, w, first[..2]) == World(v, map[]);
    var call := Call(NoInput, RedriveEntry(v, id));
    assert map[][1 := call] == map[1 := call];
    assert Run(env, w, first) == World(v, map[1 := call]);
    RunConcat(env, w, first, Goes(1, io, 8));
    AloneIsRun(env, v, map[], 1, call, io, 8);
  }

  lemma {:induction false} AloneStops(env: Env, s: Store, call: Call, io: Io, n: nat)
    requires !Runnable(s, call, io)
    ensures Alone(env, s, call, io, n) == (s, call)
  {
    if n != 0 { AloneStops(env, s, call, io, n - 1); }
  }

  lemma {:induction false} AloneFrom(env: Env, s: Store, call: Call, io: Io, n: nat)
    requires n > 0 && Runnable(s, call, io)
    ensures var (s1, pc1) := Act(env, s, call, io);
            Alone(env, s, call, io, n) == Alone(env, s1, call.(pc := pc1), io, n - 1)
  {
    if n > 1 { AloneFrom(env, s, call, io, n - 1); }
  }

  /** The re-drive of an effect that is not approved, or whose approval has lapsed, lands nothing. */
  lemma RedriveRefused(env: Env, v: Store, id: EffectId, io: Io)
    requires io.fault == NoFault
    requires !InState(v, id, Approved) || (v.effects[id].approvedTS.Some? && Lapsed(env, v, id, io.now))
    ensures var s' := Alone(env, v, Call(NoInput, RedriveEntry(v, id)), io, 8).0;
            s' == if InState(v, id, Approved) then Expire(v, id) else v
  {
    var call := Call(NoInput, RedriveEntry(v, id));
    if call.pc.Returned? {
      AloneStops(env, v, call, io, 8);
    } else {
      AloneFrom(env, v, call, io, 8);
      var (s1, pc1) := Act(env, v, call, io);
      AloneStops(env, s1, call.(pc := pc1), io, 7);
    }
  }

  // ---- the theorem ----

  /** The same branches, look-ahead, review states and history, and the same journal up to the attempt count of `id`. */
  predicate SameEnd(a: Store, b: Store, id: EffectId) {
    && a.remote == b.remote && a.local == b.local && a.inflight == b.inflight
    && a.deliverables == b.deliverables && a.landings == b.landings
    && id in a.effects && id in b.effects
    && a.effects[id].(attempts := 0) == b.effects[id].(attempts := 0)
    && a.effects - {id} == b.effects - {id}
  }

  /** The end of the crash-free run. */
  function EndOf(env: Env, s: Store, in_: Input, tree: string, io1: Io, now: int): Store
    requires Acceptable(env, s, in_, tree, io1.id) && now - io1.now <= env.expiry
  {
    ScriptAt(env, s, in_, tree, io1, now, Steps(s, in_.project)).0
  }

  /** The end of the push arm's execute phase in closed form: only the attempt count, the echo and the history
      remember how often it was tried. */
  lemma PushEnd(env: Env, v: Store, spec: Spec, tree: string, now: int)
    requires PushDrivable(env, v, spec, tree, now) && v.inflight == map[]
    ensures var s' := PushStages(env, v, spec, tree, now, 8).0;
            var c := SquashOf(env, spec, tree);
            var e := v.effects[spec.effect];
            && s'.effects == v.effects[spec.effect := e.(state := Succeeded, attempts := e.attempts + 1, result := Recorded(c, false))]
            && s'.remote == v.remote[spec.project := c] && s'.local == v.local[spec.project := c]
            && s'.inflight == map[] && s'.deliverables == ReviewAccept(v, spec.deliverable).deliverables
            && s'.landings == if v.remote[spec.project] == c then v.landings
                              else v.landings + [Landing(spec.project, spec.effect, spec.onto, c)]
  {
    var marked := v.inflight[spec.project := Inflight(spec.effect, SquashOf(env, spec, tree))];
    assert marked - {spec.project} == map[];
  }

  /** The store after a crash between approve and succeed, and its reconcile: the approved row, and the branch either
      untouched or already at the commit. */
  lemma RebootedBeforeSucceed(env: Env, s: Store, in_: Input, tree: string, io1: Io, now: int, k: nat)
    requires Acceptable(env, s, in_, tree, io1.id) && now - io1.now <= env.expiry && in_.project in s.remote
    requires APPROVED <= k <= LAST_BEFORE_SUCCEED
    ensures var v := Rebooted(ScriptAt(env, s, in_, tree, io1, now, k).0, io1.id);
            var s6 := PrepStages(env, s, in_, tree, io1, 5).0;
            var spec := SpecAt(env, s, in_, io1.id, io1.now);
            var c := SquashOf(env, spec, tree);
            var row := s6.effects[io1.id];
            && v.effects == s6.effects[io1.id := row.(attempts := if k == APPROVED then 0 else 1)]
            && v.local == s.local && v.deliverables == s.deliverables && v.inflight == map[]
            && if k <= 7 then v.remote == s.remote && v.landings == s.landings
               else v.remote == s.remote[in_.project := c]
                    && v.landings == s.landings + [Landing(in_.project, io1.id, s.local[in_.project], c)]
  {
    PrepDrivable(env, s, in_, tree, io1, now);
    SquashIsNew(env, SpecAt(env, s, in_, io1.id, io1.now), tree);
    if k == 6 {
    } else if k == 7 {
    } else if k == 8 {
    } else {
    }
  }

  lemma RebootedDrivable(env: Env, s: Store, in_: Input, tree: string, io1: Io, now: int, k: nat, now3: int)
    requires Acceptable(env, s, in_, tree, io1.id) && now - io1.now <= env.expiry && in_.project in s.remote
    requires now3 - io1.now <= env.expiry && APPROVED <= k <= LAST_BEFORE_SUCCEED
    ensures var v := Rebooted(ScriptAt(env, s, in_, tree, io1, now, k).0, io1.id);
            var spec := SpecAt(env, s, in_, io1.id, io1.now);
            PushDrivable(env, v, spec, tree, now3) && RedriveEntry(v, io1.id) == WillBegin(spec)
  {
    var v := Rebooted(ScriptAt(env, s, in_, tree, io1, now, k).0, io1.id);
    RebootedBeforeSucceed(env, s, in_, tree, io1, now, k);
    ApprovedRowDrives(env, s, in_, tree, io1, v, now3);
  }

  /** The approved row, whatever its attempts, on a branch at the pinned base or at the commit. */
  lemma ApprovedRowDrives(env: Env, s: Store, in_: Input, tree: string, io1: Io, v: Store, now: int)
    requires Acceptable(env, s, in_, tree, io1.id) && in_.project in s.remote && now - io1.now <= env.expiry
    requires var row := PrepStages(env, s, in_, tree, io1, 5).0.effects[io1.id];
             io1.id in v.effects && v.effects[io1.id] == row.(attempts := v.effects[io1.id].attempts)
    requires v.local == s.local && v.deliverables == s.deliverables
    requires v.remote == s.remote || v.remote == s.remote[in_.project := SquashOf(env, SpecAt(env, s, in_, io1.id, io1.now), tree)]
    ensures var spec := SpecAt(env, s, in_, io1.id, io1.now);
            PushDrivable(env, v, spec, tree, now) && RedriveEntry(v, io1.id) == WillBegin(spec)
  {
  }

  /** Two executions of one spec, from stores that agree but for the attempts and for whether the branch has already
      moved, end alike. */
  lemma PushEndsAlike(env: Env, v: Store, u: Store, spec: Spec, tree: string, now1: int, now2: int)
    requires PushDrivable(env, v, spec, tree, now1) && PushDrivable(env, u, spec, tree, now2)
    requires v.inflight == map[] && u.inflight == map[] && u.remote[spec.project] == spec.onto
    requires v.local == u.local && v.deliverables == u.deliverables
    requires v.effects == u.effects[spec.effect := u.effects[spec.effect].(attempts := v.effects[spec.effect].attempts)]
    requires var c := SquashOf(env, spec, tree);
             || (v.remote == u.remote && v.landings == u.landings)
             || (v.remote == u.remote[spec.project := c]
                 && v.landings == u.landings + [Landing(spec.project, spec.effect, spec.onto, c)])
    ensures SameEnd(PushStages(env, v, spec, tree, now1, 8).0, PushStages(env, u, spec, tree, now2, 8).0, spec.effect)
  {
    SquashIsNew(env, spec, tree);
    PushEnd(env, v, spec, tree, now1);
    PushEnd(env, u, spec, tree, now2);
  }

  /** A re-drive of the approved effect, wherever the branch stands between the pinned base and the commit, ends
      where the crash-free run ends. */
  lemma PushRedriveReachesEnd(env: Env, s: Store, in_: Input, tree: string, io1: Io, now: int, k: nat, io3: Io)
    requires Acceptable(env, s, in_, tree, io1.id) && now - io1.now <= env.expiry && in_.project in s.remote
    requires io3.fault == NoFault && io3.now - io1.now <= env.expiry
    requires APPROVED <= k <= LAST_BEFORE_SUCCEED
    ensures var v := Rebooted(ScriptAt(env, s, in_, tree, io1, now, k).0, io1.id);
            SameEnd(Alone(env, v, Call(NoInput, RedriveEntry(v, io1.id)), io3, 8).0,
                    EndOf(env, s, in_, tree, io1, now), io1.id)
  {
    var v := Rebooted(ScriptAt(env, s, in_, tree, io1, now, k).0, io1.id);
    var s6 := PrepStages(env, s, in_, tree, io1, 5).0;
    var spec := SpecAt(env, s, in_, io1.id, io1.now);
    RebootedBeforeSucceed(env, s, in_, tree, io1, now, k);
    RebootedDrivable(env, s, in_, tree, io1, now, k, io3.now);
    PrepDrivable(env, s, in_, tree, io1, now);
    PushStagesAreActions(env, v, NoInput, spec, tree, io3, 8);
    PushEndsAlike(env, v, s6, spec, tree, io3.now, now);
  }

  /** The local arm's re-drive once the landing has happened: the head is already at the commit. */
  predicate LocalLanded(env: Env, s: Store, spec: Spec, tree: string, now: int) {
    && Executable(env, s, spec, tree, now)
    && spec.project !in s.remote && s.local[spec.project] == SquashOf(env, spec, tree)
  }

  function EchoStages(env: Env, s: Store, spec: Spec, tree: string, now: int, j: nat): (Store, Pc)
    requires LocalLanded(env, s, spec, tree, now) && j <= 5
  {
    var c := SquashOf(env, spec, tree);
    var begun := Begin(s, spec.effect);
    var echoed := begun.(echoes := begun.echoes + {spec.effect});
    var recorded := Finish(echoed, spec.effect, Succeeded, Recorded(c, true));
    if j == 0 then (s, WillBegin(spec))
    else if j == 1 then (begun, WillLand(spec))
    else if j == 2 then (echoed, WillSucceed(spec, c))
    else if j == 3 then (recorded, WillReview(spec, c))
    else (ReviewAccept(recorded, spec.deliverable),
          if j == 4 then WillRoute(AcceptedAt(spec.effect, c)) else Returned(AcceptedAt(spec.effect, c)))
  }

  lemma {:induction false} EchoStagesAreActions(env: Env, s: Store, in_: Input, spec: Spec, tree: string, io: Io, j: nat)
    requires LocalLanded(env, s, spec, tree, io.now) && io.fault == NoFault && j <= 5
    ensures var (s', pc) := EchoStages(env, s, spec, tree, io.now, j);
            Alone(env, s, Call(in_, WillBegin(spec)), io, j) == (s', Call(in_, pc))
  {
    if j != 0 {
      EchoStagesAreActions(env, s, in_, spec, tree, io, j - 1);
    }
  }

  lemma AloneRests(env: Env, s: Store, call: Call, io: Io, n: nat)
    requires n > 0 && Alone(env, s, call, io, n - 1).1.pc.Returned?
    ensures Alone(env, s, call, io, n) == Alone(env, s, call, io, n - 1)
  {
  }

  lemma {:induction false} AloneStays(env: Env, s: Store, call: Call, io: Io, m: nat, n: nat)
    requires m <= n && Alone(env, s, call, io, m).1.pc.Returned?
    ensures Alone(env, s, call, io, n) == Alone(env, s, call, io, m)
  {
    if m < n {
      AloneStays(env, s, call, io, m, n - 1);
      AloneRests(env, s, call, io, n);
    }
  }

  lemma LocalRebooted(env: Env, s: Store, in_: Input, tree: string, io1: Io, now: int, k: nat)
    requires Acceptable(env, s, in_, tree, io1.id) && now - io1.now <= env.expiry && in_.project !in s.remote
    requires APPROVED <= k <= LAST_BEFORE_SUCCEED
    ensures var v := Rebooted(ScriptAt(env, s, in_, tree, io1, now, k).0, io1.id);
            var s6 := PrepStages(env, s, in_, tree, io1, 5).0;
            var c := SquashOf(env, SpecAt(env, s, in_, io1.id, io1.now), tree);
            var row := s6.effects[io1.id];
            && v.effects == s6.effects[io1.id := row.(attempts := if k == APPROVED then 0 else 1)]
            && v.remote == s.remote && v.deliverables == s.deliverables && v.inflight == map[]
            && if k <= 8 then v.local == s.local && v.landings == s.landings
               else v.local == s.local[in_.project := c]
                    && v.landings == s.landings + [Landing(in_.project, io1.id, s.local[in_.project], c)]
  {
    PrepDrivable(env, s, in_, tree, io1, now);
    if k == 6 {
    } else if k == 7 {
    } else if k == 8 {
    } else {
    }
  }

  /** Both of the local arm's endings in closed form. */
  lemma LocalEnd(env: Env, v: Store, spec: Spec, tree: string, now: int)
    requires LocalDrivable(env, v, spec, tree, now) || LocalLanded(env, v, spec, tree, now)
    ensures var s' := if v.local[spec.project] == spec.onto then LocalStages(env, v, spec, tree, now, 6).0
                      else EchoStages(env, v, spec, tree, now, 5).0;
            var c := SquashOf(env, spec, tree);
            var e := v.effects[spec.effect];
            && s'.effects == v.effects[spec.effect := e.(state := Succeeded, attempts := e.attempts + 1, result := Recorded(c, true))]
            && s'.remote == v.remote && s'.local == v.local[spec.project := c]
            && s'.inflight == v.inflight && s'.deliverables == ReviewAccept(v, spec.deliverable).deliverables
            && s'.landings == if v.local[spec.project] == c then v.landings
                              else v.landings + [Landing(spec.project, spec.effect, spec.onto, c)]
  {
    SquashIsNew(env, spec, tree);
  }

  lemma LocalRedriveEnd(env: Env, v: Store, spec: Spec, tree: string, io: Io)
    requires io.fault == NoFault
    requires LocalDrivable(env, v, spec, tree, io.now) || LocalLanded(env, v, spec, tree, io.now)
    ensures Alone(env, v, Call(NoInput, WillBegin(spec)), io, 8).0
            == if v.local[spec.project] == spec.onto then LocalStages(env, v, spec, tree, io.now, 6).0
               else EchoStages(env, v, spec, tree, io.now, 5).0
  {
    SquashIsNew(env, spec, tree);
    if v.local[spec.project] == spec.onto {
      LocalStagesAreActions(env, v, NoInput, spec, tree, io, 6);
      AloneStays(env, v, Call(NoInput, WillBegin(spec)), io, 6, 8);
    } else {
      EchoStagesAreActions(env, v, NoInput, spec, tree, io, 5);
      AloneStays(env, v, Call(NoInput, WillBegin(spec)), io, 5, 8);
    }
  }

  lemma LocalRebootedDrivable(env: Env, s: Store, in_: Input, tree: string, io1: Io, now: int, k: nat, now3: int)
    requires Acceptable(env, s, in_, tree, io1.id) && now - io1.now <= env.expiry && in_.project !in s.remote
    requires now3 - io1.now <= env.expiry && APPROVED <= k <= LAST_BEFORE_SUCCEED
    ensures var v := Rebooted(ScriptAt(env, s, in_, tree, io1, now, k).0, io1.id);
            var spec := SpecAt(env, s, in_, io1.id, io1.now);
            && (LocalDrivable(env, v, spec, tree, now3) || LocalLanded(env, v, spec, tree, now3))
            && RedriveEntry(v, io1.id) == WillBegin(spec)
  {
    LocalRebooted(env, s, in_, tree, io1, now, k);
  }

  lemma LocalEndsAlike(env: Env, v: Store, u: Store, spec: Spec, tree: string, now1: int, now2: int)
    requires LocalDrivable(env, v, spec, tree, now1) || LocalLanded(env, v, spec, tree, now1)
    requires LocalDrivable(env, u, spec, tree, now2)
    requires v.remote == u.remote && v.deliverables == u.deliverables && v.inflight == u.inflight
    requires v.effects == u.effects[spec.effect := u.effects[spec.effect].(attempts := v.effects[spec.effect].attempts)]
    requires var c := SquashOf(env, spec, tree);
             || (v.local == u.local && v.landings == u.landings)
             || (v.local == u.local[spec.project := c]
                 && v.landings == u.landings + [Landing(spec.project, spec.effect, spec.onto, c)])
    ensures SameEnd(if v.local[spec.project] == spec.onto then LocalStages(env, v, spec, tree, now1, 6).0
                    else EchoStages(env, v, spec, tree, now1, 5).0,
                    LocalStages(env, u, spec, tree, now2, 6).0, spec.effect)
  {
    SquashIsNew(env, spec, tree);
    LocalEnd(env, v, spec, tree, now1);
    LocalEnd(env, u, spec, tree, now2);
  }

  lemma LocalRedriveReachesEnd(env: Env, s: Store, in_: Input, tree: string, io1: Io, now: int, k: nat, io3: Io)
    requires Acceptable(env, s, in_, tree, io1.id) && now - io1.now <= env.expiry && in_.project !in s.remote
    requires io3.fault == NoFault && io3.now - io1.now <= env.expiry
    requires APPROVED <= k <= LAST_BEFORE_SUCCEED
    ensures var v := Rebooted(ScriptAt(env, s, in_, tree, io1, now, k).0, io1.id);
            SameEnd(Alone(env, v, Call(NoInput, RedriveEntry(v, io1.id)), io3, 8).0,
                    EndOf(env, s, in_, tree, io1, now), io1.id)
  {
    var v := Rebooted(ScriptAt(env, s, in_, tree, io1, now, k).0, io1.id);
    var spec := SpecAt(env, s, in_, io1.id, io1.now);
    var s6 := PrepStages(env, s, in_, tree, io1, 5).0;
    LocalRebootedDrivable(env, s, in_, tree, io1, now, k, io3.now);
    LocalRedriveEnd(env, v, spec, tree, io3);
    LocalRebooted(env, s, in_, tree, io1, now, k);
    PrepDrivable(env, s, in_, tree, io1, now);
    LocalEndsAlike(env, v, s6, spec, tree, io3.now, now);
  }

  /** The effect ends succeeded, the deliverable accepted and the local branch at the commit. */
  lemma EndState(env: Env, s: Store, in_: Input, tree: string, io1: Io, now: int)
    requires Acceptable(env, s, in_, tree, io1.id) && now - io1.now <= env.expiry
    ensures var end := EndOf(env, s, in_, tree, io1, now);
            && InState(end, io1.id, Succeeded) && end.deliverables[in_.deliverable].state == Accepted
            && end.local[in_.project] == SquashOf(env, SpecAt(env, s, in_, io1.id, io1.now), tree)
            && end.inflight == map[]
  {
    PrepDrivable(env, s, in_, tree, io1, now);
    if in_.project in s.remote {
      PushEnd(env, PrepStages(env, s, in_, tree, io1, 5).0, SpecAt(env, s, in_, io1.id, io1.now), tree, now);
    }
  }

  /** Where a re-drive after the `k`th step reaches the crash-free end: while the effect is approved or executing and
      its approval is fresh, or when nothing but the clearing of the look-ahead was left to do. */
  predicate Recovers(s: Store, in_: Input, expiry: int, approvedTS: int, now: int, k: nat) {
    || (APPROVED <= k <= LAST_BEFORE_SUCCEED && now - approvedTS <= expiry)
    || k >= (if in_.project in s.remote then 13 else 11)
  }

  /** Before the approval nothing is re-driven. */
  lemma CrashBeforeApproval(env: Env, s: Store, in_: Input, tree: string, io1: Io, now: int, k: nat, io3: Io)
    requires Acceptable(env, s, in_, tree, io1.id) && now - io1.now <= env.expiry && io3.fault == NoFault && 1 <= k < APPROVED
    ensures var v := Rebooted(ScriptAt(env, s, in_, tree, io1, now, k).0, io1.id);
            !SameEnd(Alone(env, v, Call(NoInput, RedriveEntry(v, io1.id)), io3, 8).0,
                     EndOf(env, s, in_, tree, io1, now), io1.id)
  {
    PreparingIsUnapproved(env, s, in_, tree, io1, now, k);
    RedriveRefused(env, Rebooted(ScriptAt(env, s, in_, tree, io1, now, k).0, io1.id), io1.id, io3);
    EndState(env, s, in_, tree, io1, now);
  }

  lemma PreparingIsUnapproved(env: Env, s: Store, in_: Input, tree: string, io1: Io, now: int, k: nat)
    requires Acceptable(env, s, in_, tree, io1.id) && now - io1.now <= env.expiry && 1 <= k < APPROVED
    ensures var v := Rebooted(ScriptAt(env, s, in_, tree, io1, now, k).0, io1.id);
            !InState(v, io1.id, Approved) && !InState(v, io1.id, Succeeded)
  {
  }

  /** Once the approval has lapsed the re-drive returns the effect to proposed. */
  lemma CrashLapsed(env: Env, s: Store, in_: Input, tree: string, io1: Io, now: int, k: nat, io3: Io)
    requires Acceptable(env, s, in_, tree, io1.id) && now - io1.now <= env.expiry && io3.fault == NoFault
    requires APPROVED <= k <= LAST_BEFORE_SUCCEED && io3.now - io1.now > env.expiry
    ensures var v := Rebooted(ScriptAt(env, s, in_, tree, io1, now, k).0, io1.id);
            !SameEnd(Alone(env, v, Call(NoInput, RedriveEntry(v, io1.id)), io3, 8).0,
                     EndOf(env, s, in_, tree, io1, now), io1.id)
  {
    if in_.project in s.remote {
      RebootedBeforeSucceed(env, s, in_, tree, io1, now, k);
    } else {
      LocalRebooted(env, s, in_, tree, io1, now, k);
    }
    RedriveRefused(env, Rebooted(ScriptAt(env, s, in_, tree, io1, now, k).0, io1.id), io1.id, io3);
    EndState(env, s, in_, tree, io1, now);
  }

  /** After succeed the reboot only empties the look-ahead. */
  lemma PushRebootedLate(env: Env, u: Store, spec: Spec, tree: string, now: int, j: nat)
    requires PushDrivable(env, u, spec, tree, now) && u.inflight == map[] && 4 <= j <= 8
    ensures var v := Rebooted(PushStages(env, u, spec, tree, now, j).0, spec.effect);
            && InState(v, spec.effect, Succeeded)
            && if j >= 7 then v == PushStages(env, u, spec, tree, now, 8).0 else v.local == u.local
  {
    assert u.inflight[spec.project := Inflight(spec.effect, SquashOf(env, spec, tree))] - {spec.project} == map[];
    if j == 4 {
    } else if j == 5 {
    } else if j == 6 {
    } else if j == 7 {
    } else {
    }
  }

  lemma LocalRebootedLate(env: Env, u: Store, spec: Spec, tree: string, now: int, j: nat)
    requires LocalDrivable(env, u, spec, tree, now) && u.inflight == map[] && 4 <= j <= 6
    ensures var v := Rebooted(LocalStages(env, u, spec, tree, now, j).0, spec.effect);
            && InState(v, spec.effect, Succeeded)
            && if j >= 5 then v == LocalStages(env, u, spec, tree, now, 6).0 else v.deliverables == u.deliverables
  {
  }

  lemma RebootedAfterSucceed(env: Env, s: Store, in_: Input, tree: string, io1: Io, now: int, k: nat)
    requires Acceptable(env, s, in_, tree, io1.id) && now - io1.now <= env.expiry
    requires LAST_BEFORE_SUCCEED < k <= Steps(s, in_.project)
    ensures var v := Rebooted(ScriptAt(env, s, in_, tree, io1, now, k).0, io1.id);
            && InState(v, io1.id, Succeeded)
            && if k >= (if in_.project in s.remote then 13 else 11) then v == EndOf(env, s, in_, tree, io1, now)
               else if in_.project in s.remote then v.local == s.local else v.deliverables == s.deliverables
  {
    PrepDrivable(env, s, in_, tree, io1, now);
    var (s6, pc6) := PrepStages(env, s, in_, tree, io1, 5);
    if in_.project in s.remote {
      PushRebootedLate(env, s6, pc6.spec, tree, now, k - 6);
    } else {
      LocalRebootedLate(env, s6, pc6.spec, tree, now, k - 6);
    }
  }

  /** After succeed the re-drive refuses: the end is reached only if nothing else was left to do. */
  lemma CrashAfterSucceed(env: Env, s: Store, in_: Input, tree: string, io1: Io, now: int, k: nat, io3: Io)
    requires Acceptable(env, s, in_, tree, io1.id) && now - io1.now <= env.expiry && io3.fault == NoFault
    requires LAST_BEFORE_SUCCEED < k <= Steps(s, in_.project)
    ensures var v := Rebooted(ScriptAt(env, s, in_, tree, io1, now, k).0, io1.id);
            SameEnd(Alone(env, v, Call(NoInput, RedriveEntry(v, io1.id)), io3, 8).0,
                    EndOf(env, s, in_, tree, io1, now), io1.id)
            <==> k >= if in_.project in s.remote then 13 else 11
  {
    RebootedAfterSucceed(env, s, in_, tree, io1, now, k);
    RedriveRefused(env, Rebooted(ScriptAt(env, s, in_, tree, io1, now, k).0, io1.id), io1.id, io3);
    EndState(env, s, in_, tree, io1, now);
    SquashIsNew(env, SpecAt(env, s, in_, io1.id, io1.now), tree);
  }

  /** Crash transparency, exactly. A crash after the `k`th step of a lone accept, a reconcile and a re-drive end in
      the branches, look-ahead, journal and review states of the crash-free run if and only if the crash fell
      between approve and succeed with the approval still fresh at the re-drive, or after the last write. */
  lemma CrashTransparency(env: Env, s: Store, in_: Input, tree: string, io1: Io, io2: Io, io3: Io, k: nat)
    requires Acceptable(env, s, in_, tree, io1.id) && io2.now - io1.now <= env.expiry
    requires io1.fault == NoFault && io2.fault == NoFault && io3.fault == NoFault && k <= Steps(s, in_.project)
    ensures var w := World(s, map[]);
            SameEnd(Run(env, w, Script(in_, io1, io2, k) + Reboot(io1.id, io3)).store,
                    Run(env, w, Script(in_, io1, io2, Steps(s, in_.project))).store, io1.id)
            <==> Recovers(s, in_, env.expiry, io1.now, io3.now, k)
  {
    var w := World(s, map[]);
    var at := Run(env, w, Script(in_, io1, io2, k));
    RunConcat(env, w, Script(in_, io1, io2, k), Reboot(io1.id, io3));
    RebootRuns(env, at, io1.id, io3);
    ScriptRuns(env, s, in_, tree, io1, io2, Steps(s, in_.project));
    if k == 0 {
      RedriveRefused(env, Rebooted(s, io1.id), io1.id, io3);
      EndState(env, s, in_, tree, io1, io2.now);
    } else {
      ScriptRuns(env, s, in_, tree, io1, io2, k);
      if k < APPROVED {
        CrashBeforeApproval(env, s, in_, tree, io1, io2.now, k, io3);
      } else if k > LAST_BEFORE_SUCCEED {
        CrashAfterSucceed(env, s, in_, tree, io1, io2.now, k, io3);
      } else if io3.now - io1.now > env.expiry {
        CrashLapsed(env, s, in_, tree, io1, io2.now, k, io3);
      } else if in_.project in s.remote {
        PushRedriveReachesEnd(env, s, in_, tree, io1, io2.now, k, io3);
      } else {
        LocalRedriveReachesEnd(env, s, in_, tree, io1, io2.now, k, io3);
      }
    }
  }
}
