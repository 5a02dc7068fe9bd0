/**
 When the local branch of a project that records a remote has caught up with its remote: exactly when the accept
 that landed the head got through. AcceptGuards says which accepts do, and what they answer.
 */
module AcceptCatchUp {
  import opened Wrappers
  import opened AcceptWorld
  import opened AcceptSafety
  import opened AcceptLookahead

  /** What a call that has nothing more to store has brought about. */
  function Achieved(pc: Pc): Option<Outcome> {
    match pc
    case WillClear(_, out) => Some(Done(out))
    case WillRoute(out) => Some(Done(out))
    case Returned(out) => Some(Done(out))
    case _ => None
  }

  /** The call has got through an accept on project `p`, with commit `c`, whichever way it answers. */
  predicate WentThrough(s: Store, call: Call, p: ProjectId, c: Commit) {
    match Achieved(call.pc)
    case Some(AcceptedAt(id, commit)) => commit == c && id in s.effects && s.effects[id].payload.project == p
    case _ => false
  }

  ghost predicate SomeWentThrough(w: World, p: ProjectId, c: Commit) {
    exists cid :: cid in w.calls && WentThrough(w.store, w.calls[cid], p, c)
  }

  predicate ThroughAdvanced(s: Store, call: Call, p: ProjectId)
    requires p in s.local
  {
    match Achieved(call.pc)
    case Some(AcceptedAt(id, commit)) => id in s.effects && (s.effects[id].payload.project == p ==> Anc(commit, s.local[p]))
    case _ => true
  }

  /** Every commit that got through is in the local branch, and the local head got through or is where it began. */
  ghost predicate Told(w: World, p: ProjectId, start: Commit) {
    && p in w.store.remote && p in w.store.local && Anc(start, w.store.local[p])
    && (forall cid :: cid in w.calls ==> ThroughAdvanced(w.store, w.calls[cid], p))
    && (w.store.local[p] == start || SomeWentThrough(w, p, w.store.local[p]))
  }

  /** What one action does to the local branch of `p`, and what the call then answers. */
  lemma ActTells(env: Env, s: Store, call: Call, io: Io, p: ProjectId)
    requires CallOk(env, s, call) && Runnable(s, call, io) && p in s.remote && p in s.local
    requires ThroughAdvanced(s, call, p)
    ensures var (s', pc') := Act(env, s, call, io);
            && p in s'.local
            && ThroughAdvanced(s', call.(pc := pc'), p)
            && (s'.local[p] == s.local[p] || WentThrough(s', call.(pc := pc'), p, s'.local[p]))
  {
    match call.pc {
      case WillReview(_, _) => TellingActs(env, s, call, io, p);
      case WillAdvance(_, _) => TellingActs(env, s, call, io, p);
      case WillSwap(_, _, _) => TellingActs(env, s, call, io, p);
      case WillClear(_, _) => TellingActs(env, s, call, io, p);
      case WillRoute(_) => TellingActs(env, s, call, io, p);
      case WillLand(spec) => LandTells(env, s, spec, io.fault);
      case _ => SilentActs(env, s, call, io);
    }
  }

  lemma TellingActs(env: Env, s: Store, call: Call, io: Io, p: ProjectId)
    requires CallOk(env, s, call) && Runnable(s, call, io) && p in s.remote && p in s.local && ThroughAdvanced(s, call, p)
    requires call.pc.WillReview? || call.pc.WillAdvance? || call.pc.WillSwap? || call.pc.WillClear? || call.pc.WillRoute?
    ensures var (s', pc') := Act(env, s, call, io);
            && p in s'.local
            && ThroughAdvanced(s', call.(pc := pc'), p)
            && (s'.local[p] == s.local[p] || WentThrough(s', call.(pc := pc'), p, s'.local[p]))
  {
  }

  /** The other actions move no branch and answer nothing accepted. */
  lemma SilentActs(env: Env, s: Store, call: Call, io: Io)
    requires CallOk(env, s, call) && Runnable(s, call, io)
    requires !call.pc.WillReview? && !call.pc.WillAdvance? && !call.pc.WillSwap? && !call.pc.WillClear? && !call.pc.WillRoute?
             && !call.pc.WillLand?
    ensures var (s', pc') := Act(env, s, call, io); s'.local == s.local && !AcceptedPc(pc')
  {
    OtherActionsStayPut(env, s, call, io);
  }

  lemma LandTells(env: Env, s: Store, spec: Spec, fault: Fault)
    requires spec.project in s.local
    ensures var (s', pc') := GoLand(env, s, spec, fault); s'.local == s.local && !AcceptedPc(pc')
  {
  }

  predicate AcceptedPc(pc: Pc) {
    Achieved(pc).Some? && Achieved(pc).value.AcceptedAt?
  }

  lemma AnswerKept(s: Store, s': Store, call: Call, p: ProjectId)
    requires Grows(s, s') && p in s.local && ThroughAdvanced(s, call, p)
    ensures ThroughAdvanced(s', call, p)
  {
    if AcceptedPc(call.pc) && Anc(Achieved(call.pc).value.commit, s.local[p]) {
      AncTrans(Achieved(call.pc).value.commit, s.local[p], s'.local[p]);
    }
  }

  lemma StepTells(env: Env, base: map<ProjectId, Commit>, w: World, st: Step, p: ProjectId, start: Commit)
    requires Inv(env, base, w) && Told(w, p, start) && !st.Crash?
    ensures Told(Apply(env, w, st), p, start)
  {
    StepKeeps(env, base, w, st);
    AncTrans(start, w.store.local[p], Apply(env, w, st).store.local[p]);
    if st.Go? && st.cid in w.calls && Runnable(w.store, w.calls[st.cid], st.io) {
      ActStepTells(env, w, st, p, start);
    } else {
      OtherStepTells(env, w, st, p, start);
    }
  }

  lemma ActStepTells(env: Env, w: World, st: Step, p: ProjectId, start: Commit)
    requires Told(w, p, start) && st.Go? && st.cid in w.calls && Runnable(w.store, w.calls[st.cid], st.io)
    requires CallOk(env, w.store, w.calls[st.cid]) && Grows(w.store, Apply(env, w, st).store)
    requires Anc(start, Apply(env, w, st).store.local[p])
    ensures Told(Apply(env, w, st), p, start)
  {
    var w' := Apply(env, w, st);
    var s, s' := w.store, w'.store;
    ActingCall(env, w, st.cid, st.io);
    ActTells(env, s, w.calls[st.cid], st.io, p);
    ActAnswersKept(env, w, st, p);
    if s'.local[p] != s.local[p] {
      assert WentThrough(s', w'.calls[st.cid], p, s'.local[p]);
    } else if s.local[p] != start {
      ActKeepsSomeWentThrough(env, w, st, p, s.local[p]);
    }
  }

  lemma ActKeepsSomeWentThrough(env: Env, w: World, st: Step, p: ProjectId, c: Commit)
    requires st.Go? && st.cid in w.calls && Runnable(w.store, w.calls[st.cid], st.io) && Grows(w.store, Apply(env, w, st).store)
    requires SomeWentThrough(w, p, c)
    ensures SomeWentThrough(Apply(env, w, st), p, c)
  {
    var w' := Apply(env, w, st);
    ActingCall(env, w, st.cid, st.io);
    var cid :| cid in w.calls && WentThrough(w.store, w.calls[cid], p, c);
    if cid == st.cid { ActKeepsAnswer(env, w.store, w.calls[cid], st.io); }
    assert WentThrough(w'.store, w'.calls[cid], p, c);
  }

  lemma ActAnswersKept(env: Env, w: World, st: Step, p: ProjectId)
    requires st.Go? && st.cid in w.calls && Runnable(w.store, w.calls[st.cid], st.io) && p in w.store.local
    requires p in Apply(env, w, st).store.local && Grows(w.store, Apply(env, w, st).store)
    requires forall cid :: cid in w.calls ==> ThroughAdvanced(w.store, w.calls[cid], p)
    requires ThroughAdvanced(Apply(env, w, st).store, Apply(env, w, st).calls[st.cid], p)
    ensures forall cid :: cid in Apply(env, w, st).calls ==> ThroughAdvanced(Apply(env, w, st).store, Apply(env, w, st).calls[cid], p)
  {
    var w' := Apply(env, w, st);
    ActingCall(env, w, st.cid, st.io);
    forall cid | cid in w'.calls
      ensures ThroughAdvanced(w'.store, w'.calls[cid], p)
    {
      if cid != st.cid { AnswerKept(w.store, w'.store, w.calls[cid], p); }
    }
  }

  lemma ActKeepsAnswer(env: Env, s: Store, call: Call, io: Io)
    requires Runnable(s, call, io) && Achieved(call.pc).Some?
    ensures var (s', pc') := Act(env, s, call, io); Achieved(pc') == Achieved(call.pc) && s'.effects == s.effects
  {
  }

  lemma OtherStepTells(env: Env, w: World, st: Step, p: ProjectId, start: Commit)
    requires Told(w, p, start) && !st.Crash? && !(st.Go? && st.cid in w.calls && Runnable(w.store, w.calls[st.cid], st.io))
    requires Grows(w.store, Apply(env, w, st).store)
    ensures Told(Apply(env, w, st), p, start)
  {
    var w' := Apply(env, w, st);
    var s, s' := w.store, w'.store;
    BranchesStay(env, w, st);
    forall cid | cid in w'.calls
      ensures ThroughAdvanced(s', w'.calls[cid], p)
    {
      if cid in w.calls { AnswerKept(s, s', w.calls[cid], p); }
    }
    if s.local[p] != start {
      var cid :| cid in w.calls && WentThrough(s, w.calls[cid], p, s.local[p]);
      assert WentThrough(s', w'.calls[cid], p, s'.local[p]);
    }
  }

  lemma {:induction false} RunTells(env: Env, w0: World, steps: seq<Step>, p: ProjectId)
    requires Initial(w0) && (forall i :: 0 <= i < |steps| ==> !steps[i].Crash?) && p in w0.store.remote
    ensures Told(Run(env, w0, steps), p, w0.store.local[p])
  {
    if steps != [] {
      var front, last := steps[..|steps| - 1], steps[|steps| - 1];
      ReachableInv(env, w0, front);
      RunTells(env, w0, front, p);
      StepTells(env, Base(w0), Run(env, w0, front), last, p, w0.store.local[p]);
    }
  }

  /** In every run without a crash from a synchronised start, with faults and reconciliations, at every point: the
      local branch is at the remote head if and only if the remote never moved or some call got through with the commit
      that is now the head. */
  lemma LocalCaughtUpExactly(env: Env, w0: World, steps: seq<Step>, p: ProjectId)
    requires Initial(w0) && (forall i :: 0 <= i < |steps| ==> !steps[i].Crash?)
    requires p in w0.store.remote && w0.store.local[p] == w0.store.remote[p]
    ensures var w := Run(env, w0, steps);
            && p in w.store.remote && p in w.store.local
            && (w.store.local[p] == w.store.remote[p]
                <==> (w.store.remote[p] == w0.store.remote[p] || SomeWentThrough(w, p, w.store.remote[p])))
  {
    var w := Run(env, w0, steps);
    RunTells(env, w0, steps, p);
    ReachableInv(env, w0, steps);
    var local, remote := w.store.local[p], w.store.remote[p];
    assert Anc(local, remote);
    if remote == w0.store.remote[p] {
      AncAntisym(local, remote);
    } else if SomeWentThrough(w, p, remote) {
      var cid :| cid in w.calls && WentThrough(w.store, w.calls[cid], p, remote);
      assert ThroughAdvanced(w.store, w.calls[cid], p);
      AncAntisym(local, remote);
    }
  }
}
