/**
 Runs without a crash and without a journal reconciliation: one execute phase per effect, and what a call's action
 writes.
 */
module AcceptLookahead {
  import opened Wrappers
  import opened AcceptWorld
  import opened AcceptSafety

  // ---- the runs considered ----

  predicate Orderly(st: Step) {
    !st.Crash? && !st.Reconcile?
  }

  /** The call has not gone wrong after its landing. */
  predicate Unbroken(call: Call) {
    match call.pc
    case WillFail(_, _, out) => out != ErroredAfterLanding
    case WillClear(_, out) => Done(out).AcceptedAt?
    case Returned(out) => out != ErroredAfterLanding
    case _ => true
  }

  ghost predicate AllUnbroken(w: World) {
    forall cid :: cid in w.calls ==> Unbroken(w.calls[cid])
  }

  /** No push for `p` found the branch already at its commit. */
  ghost predicate NoEcho(s: Store, p: ProjectId) {
    forall id :: id in s.echoes && id in s.effects ==> s.effects[id].payload.project != p
  }

  // ---- calls in their execute phase ----

  predicate Engaged(pc: Pc) {
    pc.WillLand? || pc.WillMark? || pc.WillSucceed? || pc.WillReview? || pc.WillAdvance? || pc.WillSwap?
    || pc.WillFail? || pc.WillClear?
  }

  /** The commit a call has landed and not yet finished with. */
  function Carried(pc: Pc): Option<Commit> {
    match pc
    case WillMark(_, c) => Some(c)
    case WillSucceed(_, c) => Some(c)
    case WillReview(_, c) => Some(c)
    case WillAdvance(_, c) => Some(c)
    case WillSwap(_, c, _) => Some(c)
    case WillClear(_, out) => if Done(out).AcceptedAt? then Some(Done(out).commit) else None
    case _ => None
  }

  predicate EngagedOn(pc: Pc, p: ProjectId) {
    Engaged(pc) && pc.spec.project == p
  }

  predicate ExecutingRow(s: Store, id: EffectId) {
    id in s.effects && s.effects[id].state in {Executing, Succeeded}
  }

  /** The journal admits one execute phase per effect. */
  ghost predicate Exclusive(w: World) {
    ExclusiveRows(w) && ExclusivePairs(w)
  }

  predicate ClearAdvanced(s: Store, p: ProjectId, call: Call)
    requires p in s.local
  {
    call.pc.WillClear? && call.pc.spec.project == p && Done(call.pc.out).AcceptedAt? ==> Anc(Done(call.pc.out).commit, s.local[p])
  }

  /** A call that is about to return accepted has the local branch at its commit or past it. */
  ghost predicate ClearsAdvanced(w: World, p: ProjectId) {
    && p in w.store.local && p in w.store.remote
    && forall cid :: cid in w.calls ==> ClearAdvanced(w.store, p, w.calls[cid])
  }

  // ---- what one action does to the journal ----

  /** The row an action may write. */
  function Writes(pc: Pc, io: Io): Option<EffectId> {
    match pc
    case WillPropose(_, _) => Some(io.id)
    case WillApprove(_, _, id) => Some(id)
    case WillBegin(spec) => Some(spec.effect)
    case WillSucceed(spec, _) => Some(spec.effect)
    case WillFail(spec, _, _) => Some(spec.effect)
    case _ => None
  }

  lemma LandRows(env: Env, s: Store, spec: Spec, fault: Fault)
    requires spec.project in s.local
    ensures GoLand(env, s, spec, fault).0.effects == s.effects
    ensures var pc' := GoLand(env, s, spec, fault).1; Engaged(pc') ==> pc'.spec == spec
  {
  }

  lemma SwapRows(s: Store, spec: Spec, commit: Commit, cur: Commit, fault: Fault)
    requires spec.project in s.local
    ensures GoSwap(s, spec, commit, cur, fault).0.effects == s.effects
    ensures var pc' := GoSwap(s, spec, commit, cur, fault).1; Engaged(pc') ==> pc'.spec == spec
  {
  }

  lemma OneRow(env: Env, s: Store, call: Call, io: Io, id: EffectId)
    requires Runnable(s, call, io) && id in s.effects && Writes(call.pc, io) != Some(id)
    ensures var s' := Act(env, s, call, io).0; id in s'.effects && s'.effects[id] == s.effects[id]
  {
    match call.pc {
      case WillLand(spec) => LandRows(env, s, spec, io.fault);
      case WillSwap(spec, commit, cur) => SwapRows(s, spec, commit, cur, io.fault);
      case WillMark(_, _) => LateRow(env, s, call, io, id);
      case WillSucceed(_, _) => LateRow(env, s, call, io, id);
      case WillReview(_, _) => LateRow(env, s, call, io, id);
      case WillAdvance(_, _) => LateRow(env, s, call, io, id);
      case WillFail(_, _, _) => LateRow(env, s, call, io, id);
      case WillClear(_, _) => LateRow(env, s, call, io, id);
      case _ => EarlyRow(env, s, call, io, id);
    }
  }

  lemma LateRow(env: Env, s: Store, call: Call, io: Io, id: EffectId)
    requires Runnable(s, call, io) && id in s.effects && Writes(call.pc, io) != Some(id)
    requires Engaged(call.pc) && !call.pc.WillLand? && !call.pc.WillSwap?
    ensures var s' := Act(env, s, call, io).0; id in s'.effects && s'.effects[id] == s.effects[id]
  {
  }

  lemma EarlyRow(env: Env, s: Store, call: Call, io: Io, id: EffectId)
    requires Runnable(s, call, io) && id in s.effects && Writes(call.pc, io) != Some(id)
    requires !Engaged(call.pc)
    ensures var s' := Act(env, s, call, io).0; id in s'.effects && s'.effects[id] == s.effects[id]
  {
  }

  // ---- exclusivity is kept ----

  /** A row in execution is written by the call that executes it and by nobody else. */
  lemma RowsOfOthers(env: Env, s: Store, call: Call, io: Io, id: EffectId)
    requires Runnable(s, call, io) && ExecutingRow(s, id)
    requires !(Engaged(call.pc) && call.pc.spec.effect == id)
    ensures var s' := Act(env, s, call, io).0; id in s'.effects && s'.effects[id] == s.effects[id]
  {
    if Writes(call.pc, io) != Some(id) {
      OneRow(env, s, call, io, id);
    } else {
      assert call.pc.WillApprove? || call.pc.WillBegin?;
    }
  }

  /** An execute phase starts at a successful begin and keeps its spec. */
  lemma NextEngaged(env: Env, s: Store, call: Call, io: Io)
    requires Runnable(s, call, io)
    requires Engaged(Act(env, s, call, io).1)
    ensures var pc' := Act(env, s, call, io).1;
            && (call.pc.WillBegin? || Engaged(call.pc)) && pc'.spec == call.pc.spec
            && (call.pc.WillBegin? ==> InState(s, call.pc.spec.effect, Approved))
  {
    match call.pc {
      case WillLand(spec) => LandRows(env, s, spec, io.fault);
      case WillSwap(spec, commit, cur) => SwapRows(s, spec, commit, cur, io.fault);
      case _ =>
    }
  }

  lemma RowOfMine(env: Env, s: Store, call: Call, io: Io)
    requires Runnable(s, call, io)
    requires Engaged(call.pc) ==> ExecutingRow(s, call.pc.spec.effect)
    requires Engaged(Act(env, s, call, io).1)
    ensures var (s', pc') := Act(env, s, call, io); ExecutingRow(s', pc'.spec.effect)
  {
    NextEngaged(env, s, call, io);
    var id := call.pc.spec.effect;
    if Writes(call.pc, io) != Some(id) {
      OneRow(env, s, call, io, id);
    } else {
      assert call.pc.WillBegin? || call.pc.WillSucceed?;
    }
  }

  ghost predicate ExclusiveRows(w: World) {
    forall cid :: cid in w.calls && Engaged(w.calls[cid].pc) ==> ExecutingRow(w.store, w.calls[cid].pc.spec.effect)
  }

  ghost predicate ExclusivePairs(w: World) {
    forall a, b :: a in w.calls && b in w.calls && a != b && Engaged(w.calls[a].pc) && Engaged(w.calls[b].pc) ==>
      w.calls[a].pc.spec.effect != w.calls[b].pc.spec.effect
  }

  lemma ActExclusiveRows(env: Env, w: World, cid: CallId, io: Io)
    requires ExclusiveRows(w) && ExclusivePairs(w)
    requires cid in w.calls && Runnable(w.store, w.calls[cid], io)
    ensures ExclusiveRows(Apply(env, w, Go(cid, io)))
  {
    var s, call := w.store, w.calls[cid];
    var w' := Apply(env, w, Go(cid, io));
    forall a | a in w'.calls && Engaged(w'.calls[a].pc)
      ensures ExecutingRow(w'.store, w'.calls[a].pc.spec.effect)
    {
      if a == cid {
        RowOfMine(env, s, call, io);
      } else {
        RowsOfOthers(env, s, call, io, w.calls[a].pc.spec.effect);
      }
    }
  }

  lemma ActExclusivePairs(env: Env, w: World, cid: CallId, io: Io)
    requires ExclusiveRows(w) && ExclusivePairs(w)
    requires cid in w.calls && Runnable(w.store, w.calls[cid], io)
    ensures ExclusivePairs(Apply(env, w, Go(cid, io)))
  {
    if Engaged(Act(env, w.store, w.calls[cid], io).1) {
      NextEngaged(env, w.store, w.calls[cid], io);
    }
  }

  lemma StepExclusive(env: Env, w: World, st: Step)
    requires Exclusive(w) && Orderly(st)
    ensures Exclusive(Apply(env, w, st))
  {
    if st.Go? && st.cid in w.calls && Runnable(w.store, w.calls[st.cid], st.io) {
      ActExclusiveRows(env, w, st.cid, st.io);
      ActExclusivePairs(env, w, st.cid, st.io);
    } else {
      OtherStepExclusive(env, w, st);
    }
  }

  lemma OtherStepExclusive(env: Env, w: World, st: Step)
    requires Exclusive(w) && Orderly(st)
    requires !st.Go? || st.cid !in w.calls || !Runnable(w.store, w.calls[st.cid], st.io)
    ensures Exclusive(Apply(env, w, st))
  {
    BranchesStay(env, w, st);
    OutsideRows(env, w, st);
    var w' := Apply(env, w, st);
    forall cid | cid in w'.calls && Engaged(w'.calls[cid].pc)
      ensures cid in w.calls && w'.calls[cid] == w.calls[cid]
    {
    }
  }

  /** A step outside the calls' actions rewrites no payload and takes no row out of execution. */
  lemma OutsideRows(env: Env, w: World, st: Step)
    requires Orderly(st)
    requires !st.Go? || st.cid !in w.calls || !Runnable(w.store, w.calls[st.cid], st.io)
    ensures var s, s' := w.store, Apply(env, w, st).store;
            && (forall id :: id in s'.effects ==> id in s.effects && s'.effects[id].payload == s.effects[id].payload)
            && (forall id :: ExecutingRow(s, id) ==> ExecutingRow(s', id))
  {
  }

  /** Another call's advance cannot pull a caught-up branch back. */
  lemma SwapWhenCaughtUp(env: Env, s: Store, call: Call, p: ProjectId)
    requires BranchesOk(s) && p in s.remote && CallOk(env, s, call)
    requires call.pc.WillSwap? && call.pc.spec.project == p && s.local[p] == s.remote[p]
    ensures s.local[p] != call.pc.cur
  {
    if s.local[p] == call.pc.cur {
      AncAntisym(call.pc.cur, call.pc.commit);
    }
  }

  /** What an action does to the world. */
  lemma ActingCall(env: Env, w: World, cid: CallId, io: Io)
    requires cid in w.calls && Runnable(w.store, w.calls[cid], io)
    ensures var (s', pc') := Act(env, w.store, w.calls[cid], io);
            var w' := Apply(env, w, Go(cid, io));
            w'.store == s' && w'.calls == w.calls[cid := w.calls[cid].(pc := pc')]
  {
  }

  /** A step that is no call's action leaves the branches, the look-ahead and the calls where they are. */
  lemma BranchesStay(env: Env, w: World, st: Step)
    requires !st.Crash? && !(st.Go? && st.cid in w.calls && Runnable(w.store, w.calls[st.cid], st.io))
    ensures var w' := Apply(env, w, st);
            && w'.store.local == w.store.local && w'.store.remote == w.store.remote && w'.store.inflight == w.store.inflight
            && (forall cid :: cid in w.calls ==> cid in w'.calls && w'.calls[cid] == w.calls[cid])
            && (forall cid :: cid in w'.calls && cid !in w.calls ==> NewCall(w'.calls[cid].pc))
  {
  }

  predicate NewCall(pc: Pc) {
    pc.Entered? || pc.WillBegin? || pc == Returned(Errored)
  }

  /** A broken call stays broken, so every prefix of a clean run is clean. */
  lemma CleanBefore(env: Env, base: map<ProjectId, Commit>, w: World, st: Step)
    requires Inv(env, base, w) && Orderly(st) && AllUnbroken(Apply(env, w, st))
    ensures AllUnbroken(w)
  {
    var w' := Apply(env, w, st);
    var acts := st.Go? && st.cid in w.calls && Runnable(w.store, w.calls[st.cid], st.io);
    if acts { ActingCall(env, w, st.cid, st.io); } else { BranchesStay(env, w, st); }
    forall c | c in w.calls
      ensures Unbroken(w.calls[c])
    {
      assert CallOk(env, w.store, w.calls[c]) && Unbroken(w'.calls[c]);
      if acts && c == st.cid { BrokenStays(env, w.store, w.calls[c], st.io); }
    }
  }

  /** A call that has gone wrong after its landing says so. */
  lemma BrokenStays(env: Env, s: Store, call: Call, io: Io)
    requires CallOk(env, s, call) && Runnable(s, call, io) && Unbroken(call.(pc := Act(env, s, call, io).1))
    ensures Unbroken(call)
  {
    match call.pc {
      case WillFail(_, _, _) =>
      case WillClear(_, _) =>
      case _ =>
    }
  }

  ghost predicate OrderlyRun(steps: seq<Step>) {
    forall i :: 0 <= i < |steps| ==> Orderly(steps[i])
  }
}
