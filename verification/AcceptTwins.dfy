/**
 When a push finds the branch already at its commit: only when another effect of the project has the same content and
 was approved in the same second. Hence look-ahead coherence from what was proposed and when it was approved.
 */
module AcceptTwins {
  import opened Wrappers
  import opened AcceptWorld
  import opened AcceptSafety
  import opened AcceptLookahead
  import opened AcceptCatchUp
  import opened AcceptGuards
  import opened AcceptCoherence

  /** The commit an effect can produce, but for its second: its base, merged tree, user, author and message. */
  function Content(env: Env, e: Effect): Option<Commit> {
    var p := e.payload;
    match env.merge(p.expectSha, p.candidate)
    case Conflict(_) => None
    case Clean(tree) =>
      Some(Squash(tree, p.expectSha, e.user, if p.authorName == "" then e.user else p.authorName,
                  BuildMessage(p.subject, p.provenance, p.trailers), 0, env.signs(e.user)))
  }

  /** The approval a step gives: which effect, and when. */
  function Approval(w: World, st: Step): set<(EffectId, int)> {
    match st
    case Go(cid, io) =>
      if cid in w.calls && w.calls[cid].pc.WillApprove? && io.fault == NoFault && InState(w.store, w.calls[cid].pc.id, Proposed)
      then {(w.calls[cid].pc.id, io.now)} else {}
    case InboxApprove(id, now) => if InState(w.store, id, Proposed) then {(id, now)} else {}
    case _ => {}
  }

  /** Every approval given in the run. */
  ghost function Approvals(env: Env, w0: World, steps: seq<Step>): set<(EffectId, int)> {
    if steps == [] then {}
    else
      var front := steps[..|steps| - 1];
      Approvals(env, w0, front) + Approval(Run(env, w0, front), steps[|steps| - 1])
  }

  predicate SameContent(env: Env, a: Effect, b: Effect) {
    Content(env, a).Some? && Content(env, a) == Content(env, b)
  }

  /** Two effects of the project, with the approvals that make them twins. */
  predicate TwinPair(env: Env, s: Store, a: (EffectId, int), b: (EffectId, int), p: ProjectId) {
    && a.0 != b.0 && a.0 in s.effects && b.0 in s.effects
    && s.effects[a.0].payload.project == p && s.effects[b.0].payload.project == p
    && SameContent(env, s.effects[a.0], s.effects[b.0]) && a.1 / NANOS == b.1 / NANOS
  }

  /** No two effects of the project have one content and an approval in one second. */
  ghost predicate NoTwins(env: Env, s: Store, approvals: set<(EffectId, int)>, p: ProjectId) {
    !HasTwins(env, s, approvals, p)
  }

  ghost predicate HasTwins(env: Env, s: Store, approvals: set<(EffectId, int)>, p: ProjectId) {
    exists a, b :: a in approvals && b in approvals && TwinPair(env, s, a, b, p)
  }

  // ---- every second a commit carries was an approval's ----

  predicate HasSpec(pc: Pc) { pc.WillBegin? || Engaged(pc) }

  ghost predicate LandedInSecond(approvals: set<(EffectId, int)>, l: Landing) {
    l.to.Squash? && exists t :: (l.effect, t) in approvals && l.to.second == t / NANOS
  }

  ghost predicate Timed(w: World, approvals: set<(EffectId, int)>, p: ProjectId) {
    && (forall id :: id in w.store.effects && w.store.effects[id].approvedTS.Some? ==>
          (id, w.store.effects[id].approvedTS.value) in approvals)
    && (forall cid :: cid in w.calls && HasSpec(w.calls[cid].pc) ==>
          (w.calls[cid].pc.spec.effect, w.calls[cid].pc.spec.when) in approvals)
    && (forall i :: 0 <= i < |w.store.landings| && w.store.landings[i].project == p ==> LandedInSecond(approvals, w.store.landings[i]))
  }

  lemma ActSpecs(env: Env, w: World, cid: CallId, io: Io, approvals: set<(EffectId, int)>, p: ProjectId)
    requires cid in w.calls && Runnable(w.store, w.calls[cid], io) && Timed(w, approvals, p)
    ensures var pc' := Act(env, w.store, w.calls[cid], io).1;
            HasSpec(pc') ==> (pc'.spec.effect, pc'.spec.when) in approvals + Approval(w, Go(cid, io))
  {
    if Engaged(Act(env, w.store, w.calls[cid], io).1) {
      NextEngaged(env, w.store, w.calls[cid], io);
    }
  }

  lemma ActRows(env: Env, w: World, cid: CallId, io: Io, approvals: set<(EffectId, int)>, p: ProjectId, id: EffectId)
    requires cid in w.calls && Runnable(w.store, w.calls[cid], io) && Timed(w, approvals, p)
    requires id in Act(env, w.store, w.calls[cid], io).0.effects
    ensures var e := Act(env, w.store, w.calls[cid], io).0.effects[id];
            e.approvedTS.Some? ==> (id, e.approvedTS.value) in approvals + Approval(w, Go(cid, io))
  {
    var s, call := w.store, w.calls[cid];
    if id in s.effects && Writes(call.pc, io) != Some(id) {
      OneRow(env, s, call, io, id);
    } else {
      match call.pc {
        case WillLand(spec) => LandRows(env, s, spec, io.fault);
        case WillSwap(spec, commit, cur) => SwapRows(s, spec, commit, cur, io.fault);
        case WillBegin(spec) => BeginTimes(env, s, spec, io, id);
        case WillSucceed(spec, commit) => SucceedTimes(s, spec, commit, io.fault, id);
        case _ =>
      }
    }
  }

  lemma BeginTimes(env: Env, s: Store, spec: Spec, io: Io, id: EffectId)
    requires id in GoBegin(env, s, spec, io).0.effects
    ensures var e := GoBegin(env, s, spec, io).0.effects[id];
            e.approvedTS.Some? ==> id in s.effects && s.effects[id].approvedTS == e.approvedTS
  {
  }

  lemma SucceedTimes(s: Store, spec: Spec, commit: Commit, fault: Fault, id: EffectId)
    requires id in GoSucceed(s, spec, commit, fault).0.effects
    ensures id in s.effects && s.effects[id].approvedTS == GoSucceed(s, spec, commit, fault).0.effects[id].approvedTS
  {
  }

  /** A landing on a project with a remote is a push of the acting call's commit. */
  lemma ActLandings(env: Env, s: Store, call: Call, io: Io, p: ProjectId)
    requires Runnable(s, call, io) && p in s.remote
    ensures var s' := Act(env, s, call, io).0;
            || s'.landings == s.landings
            || (exists l :: s'.landings == s.landings + [l]
                  && (l.project == p ==> call.pc.WillLand? && call.pc.spec.project == p && l.effect == call.pc.spec.effect
                                         && l.to.Squash? && l.to.second == call.pc.spec.when / NANOS))
  {
    match call.pc {
      case WillLand(spec) => LandLandings(env, s, spec, io.fault, p);
      case WillSwap(spec, commit, cur) => SwapLandings(s, spec, commit, cur, io.fault, p);
      case _ => OtherActionsStayPut(env, s, call, io);
    }
  }

  lemma LandLandings(env: Env, s: Store, spec: Spec, fault: Fault, p: ProjectId)
    requires spec.project in s.local && p in s.remote
    ensures var s' := GoLand(env, s, spec, fault).0;
            || s'.landings == s.landings
            || (exists l :: s'.landings == s.landings + [l] && l.project == spec.project
                            && l.effect == spec.effect && l.to.Squash? && l.to.second == spec.when / NANOS)
  {
    match Prepare(env, spec, fault) {
      case Stop(_) =>
      case Ready(commit) =>
        if spec.project in s.remote && GoPush(s, spec, commit, fault).0.landings != s.landings {
          var l := Landing(spec.project, spec.effect, spec.onto, commit);
          assert GoPush(s, spec, commit, fault).0.landings == s.landings + [l];
        }
    }
  }

  lemma SwapLandings(s: Store, spec: Spec, commit: Commit, cur: Commit, fault: Fault, p: ProjectId)
    requires spec.project in s.local && p in s.remote
    ensures var s' := GoSwap(s, spec, commit, cur, fault).0;
            || s'.landings == s.landings
            || (exists l :: s'.landings == s.landings + [l] && l.project != p)
  {
    if GoSwap(s, spec, commit, cur, fault).0.landings != s.landings {
      var l := Landing(spec.project, spec.effect, cur, commit);
      assert GoSwap(s, spec, commit, cur, fault).0.landings == s.landings + [l];
    }
  }

  lemma ActTimed(env: Env, w: World, cid: CallId, io: Io, approvals: set<(EffectId, int)>, p: ProjectId)
    requires cid in w.calls && Runnable(w.store, w.calls[cid], io) && Timed(w, approvals, p) && p in w.store.remote
    ensures Timed(Apply(env, w, Go(cid, io)), approvals + Approval(w, Go(cid, io)), p)
  {
    var w' := Apply(env, w, Go(cid, io));
    var more := approvals + Approval(w, Go(cid, io));
    ActingCall(env, w, cid, io);
    ActSpecs(env, w, cid, io, approvals, p);
    forall id | id in w'.store.effects && w'.store.effects[id].approvedTS.Some?
      ensures (id, w'.store.effects[id].approvedTS.value) in more
    {
      ActRows(env, w, cid, io, approvals, p, id);
    }
    ActLandings(env, w.store, w.calls[cid], io, p);
    forall i | 0 <= i < |w'.store.landings| && w'.store.landings[i].project == p
      ensures LandedInSecond(more, w'.store.landings[i])
    {
      if i < |w.store.landings| {
        assert LandedInSecond(approvals, w.store.landings[i]);
        assert w'.store.landings[i] == w.store.landings[i];
      } else {
        assert (w.calls[cid].pc.spec.effect, w.calls[cid].pc.spec.when) in approvals;
      }
    }
  }

  lemma OutsideTimed(env: Env, w: World, st: Step, approvals: set<(EffectId, int)>, p: ProjectId)
    requires Orderly(st) && Timed(w, approvals, p)
    requires !(st.Go? && st.cid in w.calls && Runnable(w.store, w.calls[st.cid], st.io))
    ensures Timed(Apply(env, w, st), approvals + Approval(w, st), p)
  {
    var w' := Apply(env, w, st);
    BranchesStay(env, w, st);
    assert w'.store.landings == w.store.landings;
    forall i | 0 <= i < |w'.store.landings| && w'.store.landings[i].project == p
      ensures LandedInSecond(approvals + Approval(w, st), w'.store.landings[i])
    {
      assert LandedInSecond(approvals, w.store.landings[i]);
    }
  }

  // ---- a landed effect does not land again ----

  ghost predicate Spent(w: World, p: ProjectId) {
    forall i :: 0 <= i < |w.store.landings| && w.store.landings[i].project == p ==> IsSpent(w, w.store.landings[i].effect)
  }

  /** The effect is past its approval, and no call stands before its landing. */
  ghost predicate IsSpent(w: World, id: EffectId) {
    && id in w.store.effects && w.store.effects[id].state in {Executing, Succeeded, Failed}
    && (forall cid :: cid in w.calls && w.calls[cid].pc.WillLand? ==> w.calls[cid].pc.spec.effect != id)
  }

  lemma RowStaysSpent(env: Env, s: Store, call: Call, io: Io, id: EffectId)
    requires Runnable(s, call, io) && id in s.effects && s.effects[id].state in {Executing, Succeeded, Failed}
    ensures var s' := Act(env, s, call, io).0; id in s'.effects && s'.effects[id].state in {Executing, Succeeded, Failed}
  {
    if Writes(call.pc, io) != Some(id) {
      OneRow(env, s, call, io, id);
    } else {
      assert call.pc.WillApprove? || call.pc.WillBegin? || call.pc.WillSucceed? || call.pc.WillFail?;
    }
  }

  lemma ActStaysSpent(env: Env, w: World, cid: CallId, io: Io, id: EffectId)
    requires cid in w.calls && Runnable(w.store, w.calls[cid], io) && IsSpent(w, id)
    ensures IsSpent(Apply(env, w, Go(cid, io)), id)
  {
    ActingCall(env, w, cid, io);
    RowStaysSpent(env, w.store, w.calls[cid], io, id);
    var pc' := Act(env, w.store, w.calls[cid], io).1;
    if pc'.WillLand? { NextEngaged(env, w.store, w.calls[cid], io); LandIsEntered(env, w.store, w.calls[cid], io); }
  }

  /** Only a successful begin leads to a landing. */
  lemma LandIsEntered(env: Env, s: Store, call: Call, io: Io)
    requires Runnable(s, call, io) && Act(env, s, call, io).1.WillLand?
    ensures call.pc.WillBegin?
  {
    if call.pc.WillLand? {
      AcceptGuards.UnlandedLands(env, s, call.pc.spec, io.fault);
      LandLeaves(env, s, call.pc.spec, io.fault);
    }
  }

  lemma LandLeaves(env: Env, s: Store, spec: Spec, fault: Fault)
    requires spec.project in s.local
    ensures !GoLand(env, s, spec, fault).1.WillLand?
  {
  }

  lemma StepSpent(env: Env, w: World, st: Step, p: ProjectId)
    requires Spent(w, p) && Exclusive(w) && RowsExecute(w) && Orderly(st) && p in w.store.remote
    ensures Spent(Apply(env, w, st), p)
  {
    var w' := Apply(env, w, st);
    if st.Go? && st.cid in w.calls && Runnable(w.store, w.calls[st.cid], st.io) {
      ActingCall(env, w, st.cid, st.io);
      ActLandings(env, w.store, w.calls[st.cid], st.io, p);
      forall i | 0 <= i < |w'.store.landings| && w'.store.landings[i].project == p
        ensures IsSpent(w', w'.store.landings[i].effect)
      {
        if i < |w.store.landings| {
          assert w'.store.landings[i] == w.store.landings[i];
          ActStaysSpent(env, w, st.cid, st.io, w.store.landings[i].effect);
        } else {
          JustSpent(env, w, st.cid, st.io);
        }
      }
    } else {
      OutsideSpent(env, w, st, p);
    }
  }

  /** The call that lands is the only one engaged for its effect. */
  lemma JustSpent(env: Env, w: World, cid: CallId, io: Io)
    requires cid in w.calls && Runnable(w.store, w.calls[cid], io) && w.calls[cid].pc.WillLand?
    requires Exclusive(w) && RowsExecute(w)
    ensures IsSpent(Apply(env, w, Go(cid, io)), w.calls[cid].pc.spec.effect)
  {
    var spec := w.calls[cid].pc.spec;
    ActingCall(env, w, cid, io);
    LandRows(env, w.store, spec, io.fault);
    LandLeaves(env, w.store, spec, io.fault);
    assert RowExecutes(w.store, w.calls[cid].pc);
  }

  lemma OutsideSpent(env: Env, w: World, st: Step, p: ProjectId)
    requires Spent(w, p) && Orderly(st) && !(st.Go? && st.cid in w.calls && Runnable(w.store, w.calls[st.cid], st.io))
    ensures Spent(Apply(env, w, st), p)
  {
    var w' := Apply(env, w, st);
    BranchesStay(env, w, st);
    assert w'.store.landings == w.store.landings;
    forall i | 0 <= i < |w'.store.landings| && w'.store.landings[i].project == p
      ensures IsSpent(w', w'.store.landings[i].effect)
    {
      var id := w.store.landings[i].effect;
      assert IsSpent(w, id);
      assert id in w'.store.effects && w'.store.effects[id].state == w.store.effects[id].state;
    }
  }

  // ---- everything proposed lies on or above where the branch began ----

  ghost predicate Above(w: World, p: ProjectId, base: Commit) {
    && p in w.store.remote && p in w.store.local && Anc(base, w.store.local[p])
    && (p in w.store.inflight ==> Anc(base, w.store.inflight[p].commit))
    && (forall id :: id in w.store.effects && w.store.effects[id].payload.project == p ==> Anc(base, w.store.effects[id].payload.expectSha))
    && (forall cid :: cid in w.calls ==> ProposesAbove(w.calls[cid], p, base))
  }

  predicate ProposesAbove(call: Call, p: ProjectId, base: Commit) {
    call.pc.WillPropose? && call.input.project == p ==> Anc(base, call.pc.onto)
  }

  lemma ActInflight(env: Env, s: Store, call: Call, io: Io, p: ProjectId)
    requires Runnable(s, call, io) && p in Act(env, s, call, io).0.inflight
    ensures var s' := Act(env, s, call, io).0;
            || (p in s.inflight && s'.inflight[p] == s.inflight[p])
            || (call.pc.WillMark? && call.pc.spec.project == p && s'.inflight[p].commit == call.pc.commit)
  {
    if Aside(call.pc) {
      AsideStore(env, s, call, io);
    } else if Plain(call.pc) {
      PlainStore(env, s, call, io);
    } else if call.pc.WillLand? {
      LandInflight(env, s, call.pc.spec, io.fault);
    }
  }

  lemma LandInflight(env: Env, s: Store, spec: Spec, fault: Fault)
    requires spec.project in s.local
    ensures GoLand(env, s, spec, fault).0.inflight == s.inflight
  {
  }

  lemma ActProposes(env: Env, s: Store, call: Call, io: Io)
    requires Runnable(s, call, io) && Act(env, s, call, io).1.WillPropose?
    ensures var onto := Act(env, s, call, io).1.onto;
            (call.input.project in s.inflight && onto == s.inflight[call.input.project].commit)
            || (call.input.project in s.local && onto == s.local[call.input.project])
  {
    if call.pc.WillLand? { LandNext(env, s, call.pc.spec, io.fault); }
  }

  lemma LandNext(env: Env, s: Store, spec: Spec, fault: Fault)
    requires spec.project in s.local
    ensures !GoLand(env, s, spec, fault).1.WillPropose?
  {
  }

  lemma ActAbove(env: Env, base: map<ProjectId, Commit>, w: World, st: Step, p: ProjectId, start: Commit)
    requires st.Go? && st.cid in w.calls && Runnable(w.store, w.calls[st.cid], st.io)
    requires Inv(env, base, w) && Above(w, p, start)
    ensures Above(Apply(env, w, st), p, start)
  {
    var w' := Apply(env, w, st);
    ActingCall(env, w, st.cid, st.io);
    BranchAbove(env, base, w, st, p, start);
    if p in w'.store.inflight { InflightAbove(env, base, w, st.cid, st.io, p, start); }
    RowsAbove(env, base, w, st.cid, st.io, p, start);
    CallAbove(env, w, st.cid, st.io, p, start);
    forall cid | cid in w'.calls ensures ProposesAbove(w'.calls[cid], p, start) {
      if cid != st.cid { assert ProposesAbove(w.calls[cid], p, start); }
    }
  }

  lemma BranchAbove(env: Env, base: map<ProjectId, Commit>, w: World, st: Step, p: ProjectId, start: Commit)
    requires Inv(env, base, w) && p in w.store.remote && p in w.store.local && Anc(start, w.store.local[p])
    ensures var s' := Apply(env, w, st).store; p in s'.remote && p in s'.local && Anc(start, s'.local[p])
  {
    StepKeeps(env, base, w, st);
    AncTrans(start, w.store.local[p], Apply(env, w, st).store.local[p]);
  }

  lemma CallAbove(env: Env, w: World, cid: CallId, io: Io, p: ProjectId, start: Commit)
    requires cid in w.calls && Runnable(w.store, w.calls[cid], io) && p in w.store.local && Anc(start, w.store.local[p])
    requires p in w.store.inflight ==> Anc(start, w.store.inflight[p].commit)
    ensures ProposesAbove(w.calls[cid].(pc := Act(env, w.store, w.calls[cid], io).1), p, start)
  {
    if Act(env, w.store, w.calls[cid], io).1.WillPropose? { ActProposes(env, w.store, w.calls[cid], io); }
  }

  lemma InflightAbove(env: Env, base: map<ProjectId, Commit>, w: World, cid: CallId, io: Io, p: ProjectId, start: Commit)
    requires cid in w.calls && Runnable(w.store, w.calls[cid], io) && p in Act(env, w.store, w.calls[cid], io).0.inflight
    requires Inv(env, base, w) && Above(w, p, start)
    ensures Anc(start, Act(env, w.store, w.calls[cid], io).0.inflight[p].commit)
  {
    var call := w.calls[cid];
    assert CallOk(env, w.store, call);
    ActInflight(env, w.store, call, io, p);
    if call.pc.WillMark? && call.pc.spec.project == p { MarkAbove(env, w, cid, p, start); }
  }

  lemma RowsAbove(env: Env, base: map<ProjectId, Commit>, w: World, cid: CallId, io: Io, p: ProjectId, start: Commit)
    requires cid in w.calls && Runnable(w.store, w.calls[cid], io)
    requires Inv(env, base, w) && Above(w, p, start)
    ensures var s' := Act(env, w.store, w.calls[cid], io).0;
            forall id :: id in s'.effects && s'.effects[id].payload.project == p ==> Anc(start, s'.effects[id].payload.expectSha)
  {
    var s, call := w.store, w.calls[cid];
    var s' := Act(env, s, call, io).0;
    assert CallOk(env, s, call) && ProposesAbove(call, p, start);
    forall id | id in s'.effects && s'.effects[id].payload.project == p
      ensures Anc(start, s'.effects[id].payload.expectSha)
    {
      if Aside(call.pc) { AsideRows(env, s, call, io, id); } else { NotAsideRows(env, s, call, io, id); }
    }
  }

  lemma NotAsideRows(env: Env, s: Store, call: Call, io: Io, id: EffectId)
    requires Runnable(s, call, io) && !Aside(call.pc) && id in Act(env, s, call, io).0.effects
    ensures id in s.effects && Act(env, s, call, io).0.effects[id].payload == s.effects[id].payload
  {
    EngagedRows(env, s, call, io, id);
  }

  lemma MarkAbove(env: Env, w: World, cid: CallId, p: ProjectId, start: Commit)
    requires cid in w.calls && w.calls[cid].pc.WillMark? && w.calls[cid].pc.spec.project == p && CallOk(env, w.store, w.calls[cid])
    requires Above(w, p, start)
    ensures Anc(start, w.calls[cid].pc.commit)
  {
    var c := w.calls[cid].pc.commit;
    assert Anc(c.parent, c);
    AncTrans(start, c.parent, c);
  }

  lemma OutsideAbove(env: Env, w: World, st: Step, p: ProjectId, start: Commit)
    requires Above(w, p, start) && Orderly(st) && !(st.Go? && st.cid in w.calls && Runnable(w.store, w.calls[st.cid], st.io))
    ensures Above(Apply(env, w, st), p, start)
  {
    BranchesStay(env, w, st);
    OutsideRows(env, w, st);
    var w' := Apply(env, w, st);
    forall cid | cid in w'.calls ensures ProposesAbove(w'.calls[cid], p, start) {
      if cid in w.calls { assert ProposesAbove(w.calls[cid], p, start); }
    }
  }

  // ---- an echo has a twin ----

  /** A push on `p` that finds the ref at its commit: another effect of `p` landed that very commit. */
  lemma EchoIsTwin(env: Env, base: map<ProjectId, Commit>, w: World, spec: Spec, tree: string, approvals: set<(EffectId, int)>, p: ProjectId)
    returns (other: EffectId, t: int)
    requires Inv(env, base, w) && Timed(w, approvals, p) && Spent(w, p) && p in base && Above(w, p, base[p])
    requires Begun(w.store, spec) && spec.project == p && !IsSpent(w, spec.effect) && (spec.effect, spec.when) in approvals
    requires env.merge(spec.onto, spec.candidate) == Clean(tree) && w.store.remote[p] == SquashOf(env, spec, tree)
    ensures other in w.store.effects && other != spec.effect && w.store.effects[other].payload.project == p
    ensures SameContent(env, w.store.effects[other], w.store.effects[spec.effect])
    ensures (other, t) in approvals && t / NANOS == spec.when / NANOS
  {
    var s, c := w.store, SquashOf(env, spec, tree);
    var e := s.effects[spec.effect];
    if LastOn(s.landings, p).None? {
      NoLandings(base[p], s.landings, p, s.remote[p]);
      AncDepth(base[p], spec.onto);
      assert false;
    }
    var i := LastOn(s.landings, p).value;
    LastIsHead(base[p], s.landings, p, s.remote[p]);
    var l := s.landings[i];
    other := l.effect;
    assert LandingOk(env, s, l) && IsSpent(w, other) && LandedInSecond(approvals, l);
    t :| (l.effect, t) in approvals && l.to.second == t / NANOS;
    ContentOfCommit(env, s.effects[other], c);
    ContentOfCommit(env, e, c);
  }

  /** The last landing on `p`. */
  function LastOn(ls: seq<Landing>, p: ProjectId): (i: Option<nat>)
    ensures i.Some? ==> i.value < |ls| && ls[i.value].project == p
  {
    if ls == [] then None
    else if ls[|ls| - 1].project == p then Some(|ls| - 1)
    else LastOn(ls[..|ls| - 1], p)
  }

  lemma {:induction false} NoLandings(base: Commit, ls: seq<Landing>, p: ProjectId, head: Commit)
    requires Chain(base, ls, p, head) && LastOn(ls, p).None?
    ensures head == base
  {
    if ls != [] { NoLandings(base, ls[..|ls| - 1], p, head); }
  }

  lemma {:induction false} LastIsHead(base: Commit, ls: seq<Landing>, p: ProjectId, head: Commit)
    requires Chain(base, ls, p, head) && LastOn(ls, p).Some?
    ensures ls[LastOn(ls, p).value].to == head
  {
    if ls[|ls| - 1].project != p { LastIsHead(base, ls[..|ls| - 1], p, head); }
  }

  /** A commit says its effect's content. */
  lemma ContentOfCommit(env: Env, e: Effect, c: Commit)
    requires CommitOf(env, e, c)
    ensures Content(env, e) == Some(c.(second := 0))
  {
  }

  // ---- no twins, no echo ----

  ghost predicate Story(env: Env, w0: World, steps: seq<Step>, p: ProjectId) {
    var w := Run(env, w0, steps);
    && p in w0.store.remote
    && Timed(w, Approvals(env, w0, steps), p) && Spent(w, p) && Above(w, p, w0.store.remote[p])
    && Exclusive(w) && RowsExecute(w) && w.store.echoes <= w.store.effects.Keys
  }

  lemma StepEchoesKnown(env: Env, base: map<ProjectId, Commit>, w: World, st: Step)
    requires Inv(env, base, w) && Orderly(st) && w.store.echoes <= w.store.effects.Keys
    ensures Apply(env, w, st).store.echoes <= Apply(env, w, st).store.effects.Keys
  {
    StepKeeps(env, base, w, st);
    if st.Go? && st.cid in w.calls && Runnable(w.store, w.calls[st.cid], st.io) {
      ActingCall(env, w, st.cid, st.io);
      assert CallOk(env, w.store, w.calls[st.cid]);
      ActEchoCases(env, w.store, w.calls[st.cid], st.io);
    } else {
      OutsideEchoes(env, w, st);
    }
  }

  lemma OutsideEchoes(env: Env, w: World, st: Step)
    requires Orderly(st) && !(st.Go? && st.cid in w.calls && Runnable(w.store, w.calls[st.cid], st.io))
    ensures Apply(env, w, st).store.echoes == w.store.echoes
  {
  }

  lemma StepStory(env: Env, w0: World, front: seq<Step>, st: Step, p: ProjectId)
    requires Initial(w0) && p in w0.store.remote && Story(env, w0, front, p) && Orderly(st)
    ensures Story(env, w0, front + [st], p)
  {
    var w := Run(env, w0, front);
    assert (front + [st])[..|front|] == front;
    ReachableInv(env, w0, front);
    StepKeeps(env, Base(w0), w, st);
    StepExclusive(env, w, st);
    StepRowsExecute(env, Base(w0), w, st);
    StepSpent(env, w, st, p);
    StepEchoesKnown(env, Base(w0), w, st);
    if st.Go? && st.cid in w.calls && Runnable(w.store, w.calls[st.cid], st.io) {
      ActTimed(env, w, st.cid, st.io, Approvals(env, w0, front), p);
      ActAbove(env, Base(w0), w, st, p, w0.store.remote[p]);
    } else {
      OutsideTimed(env, w, st, Approvals(env, w0, front), p);
      OutsideAbove(env, w, st, p, w0.store.remote[p]);
    }
  }

  lemma {:induction false} RunStory(env: Env, w0: World, steps: seq<Step>, p: ProjectId)
    requires Initial(w0) && OrderlyRun(steps) && p in w0.store.remote && w0.store.local[p] == w0.store.remote[p]
    ensures Story(env, w0, steps, p)
  {
    if steps != [] {
      var front, st := steps[..|steps| - 1], steps[|steps| - 1];
      assert steps == front + [st];
      RunStory(env, w0, front, p);
      StepStory(env, w0, front, st, p);
    }
  }

  /** What a step adds to the echoes: nothing, or the effect of a push that found its commit on the ref, or one of a
      project without a remote. */
  lemma ActEchoCases(env: Env, s: Store, call: Call, io: Io)
    requires Runnable(s, call, io)
    ensures var s' := Act(env, s, call, io).0;
            || s'.echoes == s.echoes
            || (call.pc.WillLand? && s'.echoes == s.echoes + {call.pc.spec.effect}
                && (call.pc.spec.project in s.remote ==>
                      exists tree :: env.merge(call.pc.spec.onto, call.pc.spec.candidate) == Clean(tree)
                                     && s.remote[call.pc.spec.project] == SquashOf(env, call.pc.spec, tree)))
  {
    if call.pc.WillLand? {
      LandEchoCases(env, s, call.pc.spec, io.fault);
    } else if Aside(call.pc) {
      AsideStore(env, s, call, io);
    } else if Plain(call.pc) {
      PlainStore(env, s, call, io);
    }
  }

  lemma LandEchoCases(env: Env, s: Store, spec: Spec, fault: Fault)
    requires spec.project in s.local
    ensures var s' := GoLand(env, s, spec, fault).0;
            || s'.echoes == s.echoes
            || (s'.echoes == s.echoes + {spec.effect}
                && (spec.project in s.remote ==>
                      exists tree :: env.merge(spec.onto, spec.candidate) == Clean(tree) && s.remote[spec.project] == SquashOf(env, spec, tree)))
  {
    match env.merge(spec.onto, spec.candidate) {
      case Conflict(_) =>
      case Clean(tree) =>
        if spec.project in s.remote && s.remote[spec.project] == SquashOf(env, spec, tree) {
        }
    }
  }

  lemma TwinsStay(env: Env, s: Store, s': Store, approvals: set<(EffectId, int)>, more: set<(EffectId, int)>, p: ProjectId)
    requires HasTwins(env, s, approvals, p) && Grows(s, s') && approvals <= more
    ensures HasTwins(env, s', more, p)
  {
    var a, b :| a in approvals && b in approvals && TwinPair(env, s, a, b, p);
    assert TwinPair(env, s', a, b, p);
  }

  /** A step that adds an echo on `p` shows twins. */
  lemma StepEchoes(env: Env, w0: World, front: seq<Step>, st: Step, p: ProjectId)
    requires Initial(w0) && Orderly(st) && Story(env, w0, front, p) && NoEcho(Run(env, w0, front).store, p)
    requires !NoEcho(Apply(env, Run(env, w0, front), st).store, p)
    ensures HasTwins(env, Run(env, w0, front).store, Approvals(env, w0, front), p)
  {
    var w := Run(env, w0, front);
    ReachableInv(env, w0, front);
    StepKeeps(env, Base(w0), w, st);
    if st.Go? && st.cid in w.calls && Runnable(w.store, w.calls[st.cid], st.io) {
      ActingCall(env, w, st.cid, st.io);
      assert CallOk(env, w.store, w.calls[st.cid]);
      EchoingAct(env, Base(w0), w, st.cid, st.io, Approvals(env, w0, front), p);
    } else {
      NoNewEcho(env, w, st, p);
    }
  }

  lemma NoNewEcho(env: Env, w: World, st: Step, p: ProjectId)
    requires Orderly(st) && !(st.Go? && st.cid in w.calls && Runnable(w.store, w.calls[st.cid], st.io)) && NoEcho(w.store, p)
    ensures NoEcho(Apply(env, w, st).store, p)
  {
    OutsideRows(env, w, st);
  }

  lemma EchoingAct(env: Env, base: map<ProjectId, Commit>, w: World, cid: CallId, io: Io, approvals: set<(EffectId, int)>, p: ProjectId)
    requires cid in w.calls && Runnable(w.store, w.calls[cid], io) && CallOk(env, w.store, w.calls[cid])
    requires !NoEcho(Act(env, w.store, w.calls[cid], io).0, p) && NoEcho(w.store, p) && w.store.echoes <= w.store.effects.Keys
    requires Grows(w.store, Act(env, w.store, w.calls[cid], io).0)
    requires Inv(env, base, w) && Timed(w, approvals, p) && Spent(w, p) && p in base && Above(w, p, base[p])
    ensures HasTwins(env, w.store, approvals, p)
  {
    var spec := EchoIsOnProject(env, w.store, w.calls[cid], io, p);
    assert !IsSpent(w, spec.effect);
    assert HasSpec(w.calls[cid].pc);
    var tree :| env.merge(spec.onto, spec.candidate) == Clean(tree) && w.store.remote[p] == SquashOf(env, spec, tree);
    var other, t := EchoIsTwin(env, base, w, spec, tree, approvals, p);
    assert TwinPair(env, w.store, (other, t), (spec.effect, spec.when), p);
  }

  /** A new echo on `p` is the acting call's, whose commit is the head. */
  lemma EchoIsOnProject(env: Env, s: Store, call: Call, io: Io, p: ProjectId) returns (spec: Spec)
    requires Runnable(s, call, io) && CallOk(env, s, call) && p in s.remote
    requires NoEcho(s, p) && !NoEcho(Act(env, s, call, io).0, p) && s.echoes <= s.effects.Keys && Grows(s, Act(env, s, call, io).0)
    ensures call.pc == WillLand(spec) && spec.project == p && Begun(s, spec)
    ensures exists tree :: env.merge(spec.onto, spec.candidate) == Clean(tree) && s.remote[p] == SquashOf(env, spec, tree)
  {
    var s' := Act(env, s, call, io).0;
    ActEchoCases(env, s, call, io);
    var id :| id in s'.echoes && id in s'.effects && s'.effects[id].payload.project == p;
    assert id !in s.echoes;
    spec := call.pc.spec;
  }

  lemma {:induction false} EchoesHaveTwins(env: Env, w0: World, steps: seq<Step>, p: ProjectId)
    requires Initial(w0) && OrderlyRun(steps) && p in w0.store.remote && w0.store.local[p] == w0.store.remote[p]
    ensures NoEcho(Run(env, w0, steps).store, p) || HasTwins(env, Run(env, w0, steps).store, Approvals(env, w0, steps), p)
  {
    if steps != [] {
      var front, st := steps[..|steps| - 1], steps[|steps| - 1];
      var w := Run(env, w0, front);
      RunStory(env, w0, front, p);
      ReachableInv(env, w0, front);
      StepKeeps(env, Base(w0), w, st);
      EchoesHaveTwins(env, w0, front, p);
      if NoEcho(w.store, p) && !NoEcho(Run(env, w0, steps).store, p) {
        StepEchoes(env, w0, front, st, p);
      }
      if HasTwins(env, w.store, Approvals(env, w0, front), p) {
        TwinsStay(env, w.store, Run(env, w0, steps).store, Approvals(env, w0, front), Approvals(env, w0, steps), p);
      }
    }
  }

  /** In every run from a synchronised start: if no two effects of `p` have one content and an approval in one second, no
      push on `p` finds the ref already at its commit. */
  lemma NoTwinsNoEcho(env: Env, w0: World, steps: seq<Step>, p: ProjectId)
    requires Initial(w0) && OrderlyRun(steps) && p in w0.store.remote && w0.store.local[p] == w0.store.remote[p]
    requires NoTwins(env, Run(env, w0, steps).store, Approvals(env, w0, steps), p)
    ensures NoEcho(Run(env, w0, steps).store, p)
  {
    EchoesHaveTwins(env, w0, steps, p);
  }

  /** Look-ahead coherence from what was proposed and when it was approved: in every run from a synchronised start whose
      steps on `p` are clear and in which no two effects of `p` are twins, the applies-cleanly base is the remote head
      at every point where no accept on `p` is between its push and its mark. */
  lemma CoherenceWithoutTwins(env: Env, w0: World, steps: seq<Step>, p: ProjectId)
    requires Initial(w0) && OrderlyRun(steps) && p in w0.store.remote && w0.store.local[p] == w0.store.remote[p]
    requires RunIsClear(env, w0, steps, p) && NoTwins(env, Run(env, w0, steps).store, Approvals(env, w0, steps), p)
    ensures CoherentThroughout(env, w0, steps, p)
  {
    NoTwinsNoEcho(env, w0, steps, p);
    LookaheadCoherence(env, w0, steps, p);
  }
}
