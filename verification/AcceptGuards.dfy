/**
 What stands between a landed accept and its answer, in terms of the guards its steps meet: a late fault, a deliverable
 that cannot be accepted, a local head that is not the one the swap read. And when the local branch is caught up,
 in those terms. The runs are those without a crash and without a reconciliation.
 */
module AcceptGuards {
  import opened Wrappers
  import opened AcceptWorld
  import opened AcceptSafety
  import opened AcceptLookahead
  import opened AcceptCatchUp

  // ---- the guards after a landing ----

  /** What the next step of a call on a project with a remote runs into, once its push has gone through. */
  predicate Obstructed(s: Store, pc: Pc, io: Io) {
    match pc
    case WillSucceed(spec, _) => spec.project in s.remote && io.fault != NoFault
    case WillReview(spec, _) => spec.project in s.remote && (io.fault != NoFault || !CanAccept(s, spec.deliverable))
    case WillAdvance(spec, _) => spec.project in s.remote && io.fault != NoFault
    case WillSwap(spec, _, cur) =>
      spec.project in s.remote && spec.project in s.local && !Swaps(s, spec.project, cur, io.fault)
    case _ => false
  }

  /** What makes the answer alone an error: a swap that took place and reported a failure, a routing that failed. */
  predicate Misreported(s: Store, pc: Pc, io: Io) {
    match pc
    case WillSwap(spec, _, cur) =>
      spec.project in s.remote && spec.project in s.local && Swaps(s, spec.project, cur, io.fault) && io.fault != NoFault
    case WillClear(spec, out) => spec.project in s.remote && out.AcceptedAt? && io.fault != NoFault
    case _ => false
  }

  predicate Acts(w: World, st: Step, cid: CallId) {
    st.Go? && st.cid == cid && cid in w.calls && Runnable(w.store, w.calls[cid], st.io)
  }

  /** Some step of the call was obstructed in the run. */
  ghost function WasObstructed(env: Env, w0: World, steps: seq<Step>, cid: CallId): bool {
    if steps == [] then false
    else
      var front, last := steps[..|steps| - 1], steps[|steps| - 1];
      var w := Run(env, w0, front);
      WasObstructed(env, w0, front, cid) || (Acts(w, last, cid) && Obstructed(w.store, w.calls[cid].pc, last.io))
  }

  /** Some step of the call was misreported in the run. */
  ghost function WasMisreported(env: Env, w0: World, steps: seq<Step>, cid: CallId): bool {
    if steps == [] then false
    else
      var front, last := steps[..|steps| - 1], steps[|steps| - 1];
      var w := Run(env, w0, front);
      WasMisreported(env, w0, front, cid) || (Acts(w, last, cid) && Misreported(w.store, w.calls[cid].pc, last.io))
  }

  /** The push the call got through in the run: what it landed, or found landed, and under which spec. */
  ghost function Landed(env: Env, w0: World, steps: seq<Step>, cid: CallId): Option<(Spec, Commit)> {
    if steps == [] then None
    else
      var w := Run(env, w0, steps);
      if cid in w.calls && w.calls[cid].pc.WillMark? then Some((w.calls[cid].pc.spec, w.calls[cid].pc.commit))
      else Landed(env, w0, steps[..|steps| - 1], cid)
  }

  // ---- where a landed call can stand ----

  predicate LatePush(s: Store, pc: Pc) {
    pc.WillMark?
    || ((pc.WillSucceed? || pc.WillReview? || pc.WillAdvance? || pc.WillSwap? || pc.WillClear?) && pc.spec.project in s.remote)
  }

  /** After the landing of `c` under `spec`: obstructed, or through and misreported, or neither so far. */
  predicate Follows(pc: Pc, spec: Spec, c: Commit, obstructed: bool, misreported: bool) {
    var done := AcceptedAt(spec.effect, c);
    if obstructed then pc in {WillClear(spec, ErroredAfterLanding), Returned(ErroredAfterLanding)} && !misreported
    else if misreported then pc in {WillClear(spec, ErrorAfter(done)), Returned(ErrorAfter(done))}
    else
      match pc
      case WillMark(sp, commit) => sp == spec && commit == c
      case WillSucceed(sp, commit) => sp == spec && commit == c
      case WillReview(sp, commit) => sp == spec && commit == c
      case WillAdvance(sp, commit) => sp == spec && commit == c
      case WillSwap(sp, commit, _) => sp == spec && commit == c
      case WillClear(sp, out) => sp == spec && out == done
      case Returned(out) => out == done
      case _ => false
  }

  /** The row of a call that is landing or about to succeed is executing. */
  predicate RowExecutes(s: Store, pc: Pc) {
    (pc.WillLand? || pc.WillMark? || pc.WillSucceed?) || (pc.WillSwap? && pc.spec.project !in s.remote) ==>
      InState(s, pc.spec.effect, Executing)
  }

  ghost predicate RowsExecute(w: World) {
    forall cid :: cid in w.calls ==> RowExecutes(w.store, w.calls[cid].pc)
  }

  lemma ActRowExecutes(env: Env, s: Store, call: Call, io: Io)
    requires Runnable(s, call, io) && RowExecutes(s, call.pc) && CallOk(env, s, call)
    ensures var (s', pc') := Act(env, s, call, io); RowExecutes(s', pc')
  {
    match call.pc {
      case WillLand(spec) => LandRows(env, s, spec, io.fault);
      case WillSwap(spec, commit, cur) => SwapRows(s, spec, commit, cur, io.fault);
      case _ =>
    }
  }

  lemma StepRowsExecute(env: Env, base: map<ProjectId, Commit>, w: World, st: Step)
    requires Inv(env, base, w) && RowsExecute(w) && Exclusive(w) && Orderly(st) && w.store.remote.Keys == Apply(env, w, st).store.remote.Keys
    ensures RowsExecute(Apply(env, w, st))
  {
    var w' := Apply(env, w, st);
    if st.Go? && st.cid in w.calls && Runnable(w.store, w.calls[st.cid], st.io) {
      ActingCall(env, w, st.cid, st.io);
      forall cid | cid in w'.calls
        ensures RowExecutes(w'.store, w'.calls[cid].pc)
      {
        if cid == st.cid {
          assert CallOk(env, w.store, w.calls[cid]);
          ActRowExecutes(env, w.store, w.calls[cid], st.io);
        } else if Engaged(w.calls[cid].pc) {
          RowsOfOthers(env, w.store, w.calls[st.cid], st.io, w.calls[cid].pc.spec.effect);
        }
      }
    } else {
      OutsideKeepsExecuting(env, w, st);
    }
  }

  lemma OutsideKeepsExecuting(env: Env, w: World, st: Step)
    requires RowsExecute(w) && Orderly(st) && !(st.Go? && st.cid in w.calls && Runnable(w.store, w.calls[st.cid], st.io))
    ensures RowsExecute(Apply(env, w, st))
  {
    BranchesStay(env, w, st);
    var w' := Apply(env, w, st);
    assert forall id :: InState(w.store, id, Executing) ==> InState(w'.store, id, Executing);
    forall cid | cid in w'.calls
      ensures RowExecutes(w'.store, w'.calls[cid].pc)
    {
      if cid in w.calls { assert RowExecutes(w.store, w.calls[cid].pc); }
    }
  }

  // ---- one step of a call ----

  /** A landed call goes on to the next stage, or, obstructed, to the error. */
  lemma LandedCallActs(env: Env, s: Store, call: Call, io: Io, spec: Spec, c: Commit, obstructed: bool, misreported: bool)
    requires Runnable(s, call, io) && CallOk(env, s, call) && BranchesOk(s) && RowExecutes(s, call.pc)
    requires spec.project in s.remote && Follows(call.pc, spec, c, obstructed, misreported)
    ensures Follows(Act(env, s, call, io).1, spec, c, obstructed || Obstructed(s, call.pc, io),
                    misreported || Misreported(s, call.pc, io))
    ensures !Act(env, s, call, io).1.WillMark?
  {
    if call.pc.WillAdvance? {
      AncLinear(s.local[spec.project], c, s.remote[spec.project]);
    }
  }

  /** A call that has not landed lands, or stays short of the stages after a push. */
  lemma UnlandedCallActs(env: Env, s: Store, call: Call, io: Io)
    requires Runnable(s, call, io) && CallOk(env, s, call) && !LatePush(s, call.pc)
    ensures !Obstructed(s, call.pc, io) && !Misreported(s, call.pc, io)
    ensures var (s', pc') := Act(env, s, call, io);
            if call.pc.WillLand? && pc'.WillMark? then pc'.spec == call.pc.spec && pc'.spec.project in s.remote
            else !LatePush(s, pc')
  {
    if call.pc.WillLand? {
      UnlandedLands(env, s, call.pc.spec, io.fault);
    }
  }

  lemma UnlandedLands(env: Env, s: Store, spec: Spec, fault: Fault)
    requires spec.project in s.local
    ensures var pc' := GoLand(env, s, spec, fault).1;
            if pc'.WillMark? then pc'.spec == spec && spec.project in s.remote else !LatePush(s, pc')
  {
  }

  // ---- the story of a call ----

  /** An accepted answer of a call that pushed nothing is the local arm's. */
  predicate AnswersLocally(s: Store, pc: Pc) {
    AcceptedPc(pc) ==>
      var id := Achieved(pc).value.effect; id in s.effects && s.effects[id].payload.project !in s.remote
  }

  /** A call that has landed stands where its obstructions put it; one that has not has met none. */
  ghost predicate Traced(env: Env, w0: World, steps: seq<Step>, cid: CallId) {
    var w := Run(env, w0, steps);
    match Landed(env, w0, steps, cid)
    case None =>
      !WasObstructed(env, w0, steps, cid) && !WasMisreported(env, w0, steps, cid)
      && (cid in w.calls ==> !LatePush(w.store, w.calls[cid].pc) && AnswersLocally(w.store, w.calls[cid].pc))
    case Some((spec, c)) =>
      && cid in w.calls && spec.project in w.store.remote
      && spec.effect in w.store.effects && w.store.effects[spec.effect].payload.project == spec.project
      && Follows(w.calls[cid].pc, spec, c, WasObstructed(env, w0, steps, cid), WasMisreported(env, w0, steps, cid))
  }

  lemma Unfolds(env: Env, w0: World, front: seq<Step>, st: Step, cid: CallId)
    ensures var w, w' := Run(env, w0, front), Run(env, w0, front + [st]);
            && w' == Apply(env, w, st)
            && Landed(env, w0, front + [st], cid)
               == (if cid in w'.calls && w'.calls[cid].pc.WillMark? then Some((w'.calls[cid].pc.spec, w'.calls[cid].pc.commit))
                   else Landed(env, w0, front, cid))
            && WasObstructed(env, w0, front + [st], cid)
               == (WasObstructed(env, w0, front, cid) || (Acts(w, st, cid) && Obstructed(w.store, w.calls[cid].pc, st.io)))
            && WasMisreported(env, w0, front + [st], cid)
               == (WasMisreported(env, w0, front, cid) || (Acts(w, st, cid) && Misreported(w.store, w.calls[cid].pc, st.io)))
  {
    assert (front + [st])[..|front|] == front;
  }

  /** A step that is not the call's own leaves the call where it is, or brings it in. */
  lemma OthersLeaveCall(env: Env, w: World, st: Step, cid: CallId)
    requires Orderly(st) && !Acts(w, st, cid)
    ensures var w' := Apply(env, w, st);
            && (cid in w.calls ==> cid in w'.calls && w'.calls[cid] == w.calls[cid])
            && (cid !in w.calls && cid in w'.calls ==> NewCall(w'.calls[cid].pc))
  {
    if st.Go? && st.cid in w.calls && Runnable(w.store, w.calls[st.cid], st.io) {
      ActingCall(env, w, st.cid, st.io);
    } else {
      BranchesStay(env, w, st);
    }
  }

  lemma UnlandedAnswersLocally(env: Env, s: Store, call: Call, io: Io)
    requires Runnable(s, call, io) && CallOk(env, s, call) && !LatePush(s, call.pc) && AnswersLocally(s, call.pc)
    ensures var (s', pc') := Act(env, s, call, io); AcceptedPc(pc') ==>
              Achieved(pc').value.effect in s.effects && s.effects[Achieved(pc').value.effect].payload.project !in s.remote
  {
    match call.pc {
      case WillLand(spec) => LandTells(env, s, spec, io.fault);
      case WillReview(_, _) =>
      case WillSwap(_, _, _) =>
      case WillAdvance(_, _) =>
      case WillClear(_, _) =>
      case WillRoute(_) =>
      case WillFail(_, _, _) =>
      case _ => SilentActs(env, s, call, io);
    }
  }

  lemma AnswersLocallyStays(s: Store, s': Store, pc: Pc)
    requires Grows(s, s') && AcceptedPc(pc)
    requires var id := Achieved(pc).value.effect; id in s.effects && s.effects[id].payload.project !in s.remote
    ensures AnswersLocally(s', pc)
  {
  }

  lemma OthersTraced(env: Env, w0: World, front: seq<Step>, st: Step, cid: CallId)
    requires Orderly(st) && Traced(env, w0, front, cid) && !Acts(Run(env, w0, front), st, cid)
    requires Grows(Run(env, w0, front).store, Apply(env, Run(env, w0, front), st).store)
    ensures Traced(env, w0, front + [st], cid)
  {
    var w := Run(env, w0, front);
    Unfolds(env, w0, front, st, cid);
    OthersLeaveCall(env, w, st, cid);
    if cid in w.calls && AcceptedPc(w.calls[cid].pc) && Landed(env, w0, front, cid).None? {
      AnswersLocallyStays(w.store, Apply(env, w, st).store, w.calls[cid].pc);
    }
  }

  lemma ActorTraced(env: Env, base: map<ProjectId, Commit>, w0: World, front: seq<Step>, st: Step, cid: CallId)
    requires Traced(env, w0, front, cid) && Acts(Run(env, w0, front), st, cid)
    requires Inv(env, base, Run(env, w0, front)) && RowsExecute(Run(env, w0, front))
    ensures Traced(env, w0, front + [st], cid)
  {
    var w := Run(env, w0, front);
    StepKeeps(env, base, w, st);
    assert CallOk(env, w.store, w.calls[cid]) && RowExecutes(w.store, w.calls[cid].pc);
    assert cid in Apply(env, w, st).calls by { ActingCall(env, w, cid, st.io); }
    assert CallOk(env, Apply(env, w, st).store, Apply(env, w, st).calls[cid]);
    if Landed(env, w0, front, cid).None? {
      UnlandedTraced(env, w0, front, st, cid);
    } else {
      LandedTraced(env, w0, front, st, cid);
    }
  }

  lemma UnlandedTraced(env: Env, w0: World, front: seq<Step>, st: Step, cid: CallId)
    requires Traced(env, w0, front, cid) && Acts(Run(env, w0, front), st, cid) && Landed(env, w0, front, cid).None?
    requires var w := Run(env, w0, front);
             && CallOk(env, w.store, w.calls[cid]) && Grows(w.store, Apply(env, w, st).store)
             && cid in Apply(env, w, st).calls && CallOk(env, Apply(env, w, st).store, Apply(env, w, st).calls[cid])
    ensures Traced(env, w0, front + [st], cid)
  {
    var w := Run(env, w0, front);
    Unfolds(env, w0, front, st, cid);
    UnlandedStays(env, w, st, cid);
    if Apply(env, w, st).calls[cid].pc.WillMark? { MarkKnows(env, Apply(env, w, st).store, Apply(env, w, st).calls[cid]); }
  }

  lemma MarkKnows(env: Env, s: Store, call: Call)
    requires call.pc.WillMark? && CallOk(env, s, call)
    ensures call.pc.spec.effect in s.effects && s.effects[call.pc.spec.effect].payload.project == call.pc.spec.project
  {
  }

  lemma LandedTraced(env: Env, w0: World, front: seq<Step>, st: Step, cid: CallId)
    requires Traced(env, w0, front, cid) && Acts(Run(env, w0, front), st, cid) && Landed(env, w0, front, cid).Some?
    requires var w := Run(env, w0, front);
             && CallOk(env, w.store, w.calls[cid]) && BranchesOk(w.store) && RowExecutes(w.store, w.calls[cid].pc)
             && Grows(w.store, Apply(env, w, st).store)
    ensures Traced(env, w0, front + [st], cid)
  {
    var w := Run(env, w0, front);
    var (spec, c) := Landed(env, w0, front, cid).value;
    Unfolds(env, w0, front, st, cid);
    ActingCall(env, w, cid, st.io);
    LandedCallActs(env, w.store, w.calls[cid], st.io, spec, c, WasObstructed(env, w0, front, cid), WasMisreported(env, w0, front, cid));
  }

  lemma UnlandedStays(env: Env, w: World, st: Step, cid: CallId)
    requires Acts(w, st, cid) && CallOk(env, w.store, w.calls[cid]) && !LatePush(w.store, w.calls[cid].pc)
    requires AnswersLocally(w.store, w.calls[cid].pc) && Grows(w.store, Apply(env, w, st).store)
    ensures var w' := Apply(env, w, st);
            && cid in w'.calls && !Obstructed(w.store, w.calls[cid].pc, st.io) && !Misreported(w.store, w.calls[cid].pc, st.io)
            && AnswersLocally(w'.store, w'.calls[cid].pc)
            && (if w'.calls[cid].pc.WillMark? then w'.calls[cid].pc.spec.project in w'.store.remote
                else !LatePush(w'.store, w'.calls[cid].pc))
  {
    var w' := Apply(env, w, st);
    ActingCall(env, w, cid, st.io);
    UnlandedCallActs(env, w.store, w.calls[cid], st.io);
    UnlandedAnswersLocally(env, w.store, w.calls[cid], st.io);
    if AcceptedPc(w'.calls[cid].pc) { AnswersLocallyStays(w.store, w'.store, w'.calls[cid].pc); }
  }

  lemma {:induction false} RunTraced(env: Env, w0: World, steps: seq<Step>, cid: CallId)
    requires Initial(w0) && OrderlyRun(steps)
    ensures Traced(env, w0, steps, cid) && RowsExecute(Run(env, w0, steps)) && Exclusive(Run(env, w0, steps))
  {
    if steps != [] {
      var front, st := steps[..|steps| - 1], steps[|steps| - 1];
      var w := Run(env, w0, front);
      assert steps == front + [st];
      ReachableInv(env, w0, front);
      StepKeeps(env, Base(w0), w, st);
      RunTraced(env, w0, front, cid);
      StepRowsExecute(env, Base(w0), w, st);
      StepExclusive(env, w, st);
      if Acts(w, st, cid) {
        ActorTraced(env, Base(w0), w0, front, st, cid);
      } else {
        OthersTraced(env, w0, front, st, cid);
      }
    }
  }

  /** What a landed accept answers, exactly. Once it has returned: an error after the landing if and only if one of its
      later steps met a late fault, a deliverable that cannot be accepted, or at the swap a local head other than the one
      it had read; an error although it went through if and only if, none of that, the swap's report or the routing of
      the sibling runs failed; and otherwise accepted, with the commit it landed. */
  lemma LandedAnswersExactly(env: Env, w0: World, steps: seq<Step>, cid: CallId)
    requires Initial(w0) && OrderlyRun(steps) && cid in Run(env, w0, steps).calls
    requires Landed(env, w0, steps, cid).Some? && Run(env, w0, steps).calls[cid].pc.Returned?
    ensures var (spec, c) := Landed(env, w0, steps, cid).value;
            Run(env, w0, steps).calls[cid].pc.out
            == if WasObstructed(env, w0, steps, cid) then ErroredAfterLanding
               else if WasMisreported(env, w0, steps, cid) then ErrorAfter(AcceptedAt(spec.effect, c))
               else AcceptedAt(spec.effect, c)
  {
    RunTraced(env, w0, steps, cid);
  }

  // ---- when the local branch is caught up ----

  /** The call landed `c` on `p` and met nothing in its way since. */
  ghost predicate Unobstructed(env: Env, w0: World, steps: seq<Step>, cid: CallId, p: ProjectId, c: Commit) {
    && Landed(env, w0, steps, cid).Some? && !WasObstructed(env, w0, steps, cid)
    && Landed(env, w0, steps, cid).value.0.project == p && Landed(env, w0, steps, cid).value.1 == c
  }

  ghost predicate SomeUnobstructed(env: Env, w0: World, steps: seq<Step>, p: ProjectId, c: Commit) {
    exists cid :: cid in Run(env, w0, steps).calls && Unobstructed(env, w0, steps, cid, p, c)
  }

  lemma ThroughIsUnobstructed(env: Env, w0: World, steps: seq<Step>, cid: CallId, p: ProjectId, c: Commit)
    requires Initial(w0) && OrderlyRun(steps) && p in Run(env, w0, steps).store.remote
    requires cid in Run(env, w0, steps).calls && Run(env, w0, steps).calls[cid].pc.Returned?
    ensures WentThrough(Run(env, w0, steps).store, Run(env, w0, steps).calls[cid], p, c) <==> Unobstructed(env, w0, steps, cid, p, c)
  {
    RunTraced(env, w0, steps, cid);
  }

  /** The local branch is caught up, exactly: in every run from a synchronised start, once every call has returned, the
      local branch is at the remote head if and only if the remote never moved or some call that carried the head met
      no late fault, no refused review and no lost swap. */
  lemma CaughtUpExactly(env: Env, w0: World, steps: seq<Step>, p: ProjectId)
    requires Initial(w0) && OrderlyRun(steps) && p in w0.store.remote && w0.store.local[p] == w0.store.remote[p]
    requires forall cid :: cid in Run(env, w0, steps).calls ==> Run(env, w0, steps).calls[cid].pc.Returned?
    ensures var s := Run(env, w0, steps).store;
            && p in s.remote && p in s.local
            && (s.local[p] == s.remote[p]
                <==> s.remote[p] == w0.store.remote[p] || SomeUnobstructed(env, w0, steps, p, s.remote[p]))
  {
    var w := Run(env, w0, steps);
    LocalCaughtUpExactly(env, w0, steps, p);
    forall cid | cid in w.calls
      ensures WentThrough(w.store, w.calls[cid], p, w.store.remote[p]) <==> Unobstructed(env, w0, steps, cid, p, w.store.remote[p])
    {
      ThroughIsUnobstructed(env, w0, steps, cid, p, w.store.remote[p]);
    }
  }

  // ---- nothing in the way ----

  /** The step runs into none of the guards on `p`, and is no push to `p` that moves the ref and then fails to answer. */
  ghost predicate StepIsClear(env: Env, w: World, st: Step, p: ProjectId) {
    forall cid :: Acts(w, st, cid) ==> ActionIsClear(env, w.store, w.calls[cid].pc, st.io, p)
  }

  predicate ActionIsClear(env: Env, s: Store, pc: Pc, io: Io, p: ProjectId) {
    && (LatePush(s, pc) && pc.spec.project == p ==> !Obstructed(s, pc, io))
    && (pc.WillLand? && pc.spec.project == p ==> !PushLost(env, pc.spec, io.fault))
  }

  /** The push is attempted, moves the ref if it can, and fails to answer. */
  predicate PushLost(env: Env, spec: Spec, fault: Fault) {
    fault.TransportFault? && fault.moved && Prepare(env, spec, fault).Ready?
  }

  ghost predicate RunIsClear(env: Env, w0: World, steps: seq<Step>, p: ProjectId) {
    if steps == [] then true
    else
      var front := steps[..|steps| - 1];
      RunIsClear(env, w0, front, p) && StepIsClear(env, Run(env, w0, front), steps[|steps| - 1], p)
  }

  /** Every move of the head in a clear run was some call's landing, unobstructed since. */
  lemma {:induction false} ClearRunCarriesHead(env: Env, w0: World, steps: seq<Step>, p: ProjectId)
    requires Initial(w0) && OrderlyRun(steps) && p in w0.store.remote && RunIsClear(env, w0, steps, p)
    ensures var s := Run(env, w0, steps).store;
            p in s.remote && (s.remote[p] == w0.store.remote[p] || SomeUnobstructed(env, w0, steps, p, s.remote[p]))
  {
    if steps != [] {
      var front, st := steps[..|steps| - 1], steps[|steps| - 1];
      assert steps == front + [st];
      ClearRunCarriesHead(env, w0, front, p);
      ReachableInv(env, w0, front);
      StepKeeps(env, Base(w0), Run(env, w0, front), st);
      ClearStepCarriesHead(env, Base(w0), w0, front, st, p);
    }
  }

  /** A clear push that moves the head leaves its call landed with the new head. */
  lemma ClearPush(env: Env, s: Store, spec: Spec, fault: Fault, p: ProjectId)
    requires spec.project in s.local && p in s.remote && !(spec.project == p && PushLost(env, spec, fault))
    ensures var (s', pc') := GoLand(env, s, spec, fault);
            p in s'.remote && (s'.remote[p] != s.remote[p] ==> pc' == WillMark(spec, s'.remote[p]) && spec.project == p)
  {
  }

  lemma HeadMovesByPush(env: Env, w: World, st: Step, p: ProjectId)
    requires p in w.store.remote && Orderly(st)
    ensures var s' := Apply(env, w, st).store;
            p in s'.remote && (s'.remote[p] != w.store.remote[p] ==> exists cid :: Acts(w, st, cid) && w.calls[cid].pc.WillLand?)
  {
    if st.Go? && st.cid in w.calls && Runnable(w.store, w.calls[st.cid], st.io) {
      ActingCall(env, w, st.cid, st.io);
      var call := w.calls[st.cid];
      if call.pc.WillLand? {
        LandKeepsRemotes(env, w.store, call.pc.spec, st.io.fault, p);
        assert Acts(w, st, st.cid);
      } else if !call.pc.WillSwap? {
        OtherActionsStayPut(env, w.store, call, st.io);
      }
    } else {
      BranchesStay(env, w, st);
    }
  }

  lemma LandKeepsRemotes(env: Env, s: Store, spec: Spec, fault: Fault, p: ProjectId)
    requires spec.project in s.local && p in s.remote
    ensures p in GoLand(env, s, spec, fault).0.remote
  {
  }

  lemma ClearStepCarriesHead(env: Env, base: map<ProjectId, Commit>, w0: World, front: seq<Step>, st: Step, p: ProjectId)
    requires Initial(w0) && OrderlyRun(front) && Orderly(st) && p in Run(env, w0, front).store.remote && p in w0.store.remote
    requires Inv(env, base, Run(env, w0, front)) && StepIsClear(env, Run(env, w0, front), st, p)
    requires var head := Run(env, w0, front).store.remote[p];
             head == w0.store.remote[p] || SomeUnobstructed(env, w0, front, p, head)
    ensures var s := Run(env, w0, front + [st]).store;
            p in s.remote && (s.remote[p] == w0.store.remote[p] || SomeUnobstructed(env, w0, front + [st], p, s.remote[p]))
  {
    var w := Run(env, w0, front);
    var w' := Apply(env, w, st);
    Unfolds(env, w0, front, st, 0);
    HeadMovesByPush(env, w, st, p);
    if w'.store.remote[p] != w.store.remote[p] {
      var cid :| Acts(w, st, cid) && w.calls[cid].pc.WillLand?;
      MoverIsUnobstructed(env, w0, front, st, cid, p);
    } else if w.store.remote[p] != w0.store.remote[p] {
      var cid :| cid in w.calls && Unobstructed(env, w0, front, cid, p, w.store.remote[p]);
      StillUnobstructed(env, base, w0, front, st, cid, p, w.store.remote[p]);
    }
  }

  lemma MoverIsUnobstructed(env: Env, w0: World, front: seq<Step>, st: Step, cid: CallId, p: ProjectId)
    requires Initial(w0) && OrderlyRun(front) && Orderly(st) && StepIsClear(env, Run(env, w0, front), st, p)
    requires Acts(Run(env, w0, front), st, cid) && Run(env, w0, front).calls[cid].pc.WillLand?
    requires var w := Run(env, w0, front);
             p in w.store.remote && p in Apply(env, w, st).store.remote && Apply(env, w, st).store.remote[p] != w.store.remote[p]
    ensures cid in Run(env, w0, front + [st]).calls
    ensures Unobstructed(env, w0, front + [st], cid, p, Apply(env, Run(env, w0, front), st).store.remote[p])
  {
    var w := Run(env, w0, front);
    ActingCall(env, w, cid, st.io);
    ClearPush(env, w.store, w.calls[cid].pc.spec, st.io.fault, p);
    RunTraced(env, w0, front, cid);
    Unfolds(env, w0, front, st, cid);
  }

  lemma StillUnobstructed(env: Env, base: map<ProjectId, Commit>, w0: World, front: seq<Step>, st: Step, cid: CallId, p: ProjectId, c: Commit)
    requires Initial(w0) && OrderlyRun(front) && Orderly(st) && StepIsClear(env, Run(env, w0, front), st, p)
    requires Inv(env, base, Run(env, w0, front))
    requires cid in Run(env, w0, front).calls && Unobstructed(env, w0, front, cid, p, c)
    ensures cid in Run(env, w0, front + [st]).calls && Unobstructed(env, w0, front + [st], cid, p, c)
  {
    var w := Run(env, w0, front);
    Unfolds(env, w0, front, st, cid);
    RunTraced(env, w0, front, cid);
    var (spec, commit) := Landed(env, w0, front, cid).value;
    if Acts(w, st, cid) {
      assert CallOk(env, w.store, w.calls[cid]) && RowExecutes(w.store, w.calls[cid].pc);
      ActingCall(env, w, cid, st.io);
      LandedCallActs(env, w.store, w.calls[cid], st.io, spec, commit, false, WasMisreported(env, w0, front, cid));
    } else {
      OthersLeaveCall(env, w, st, cid);
    }
  }

  /** In particular: in a run whose steps on `p` meet no lost swap, no late fault and no refused review, the local branch
      is at the remote head as soon as every call has returned, in whatever order stacked accepts finish. */
  lemma NothingInTheWay(env: Env, w0: World, steps: seq<Step>, p: ProjectId)
    requires Initial(w0) && OrderlyRun(steps) && p in w0.store.remote && w0.store.local[p] == w0.store.remote[p]
    requires forall cid :: cid in Run(env, w0, steps).calls ==> Run(env, w0, steps).calls[cid].pc.Returned?
    requires RunIsClear(env, w0, steps, p)
    ensures var s := Run(env, w0, steps).store; p in s.local && p in s.remote && s.local[p] == s.remote[p]
  {
    CaughtUpExactly(env, w0, steps, p);
    ClearRunCarriesHead(env, w0, steps, p);
  }

  /** An action that is not clear breaks its call. */
  lemma UnclearBreaks(env: Env, s: Store, call: Call, io: Io, p: ProjectId)
    requires Runnable(s, call, io) && CallOk(env, s, call) && RowExecutes(s, call.pc)
    requires !ActionIsClear(env, s, call.pc, io, p) && p in s.remote
    ensures !Unbroken(call.(pc := Act(env, s, call, io).1))
  {
  }

  lemma {:induction false} UnbrokenRunIsClear(env: Env, w0: World, steps: seq<Step>, p: ProjectId)
    requires Initial(w0) && OrderlyRun(steps) && p in w0.store.remote && AllUnbroken(Run(env, w0, steps))
    ensures RunIsClear(env, w0, steps, p) && p in Run(env, w0, steps).store.remote
  {
    if steps != [] {
      var front, st := steps[..|steps| - 1], steps[|steps| - 1];
      var w := Run(env, w0, front);
      ReachableInv(env, w0, front);
      StepKeeps(env, Base(w0), w, st);
      CleanBefore(env, Base(w0), w, st);
      UnbrokenRunIsClear(env, w0, front, p);
      forall cid | Acts(w, st, cid)
        ensures ActionIsClear(env, w.store, w.calls[cid].pc, st.io, p)
      {
        RunTraced(env, w0, front, cid);
        ActingCall(env, w, cid, st.io);
        assert CallOk(env, w.store, w.calls[cid]) && RowExecutes(w.store, w.calls[cid].pc);
        assert Unbroken(Apply(env, w, st).calls[cid]);
        if !ActionIsClear(env, w.store, w.calls[cid].pc, st.io, p) {
          UnclearBreaks(env, w.store, w.calls[cid], st.io, p);
        }
      }
    }
  }

  /** So too, read off the answers: once every call has returned and none failed after its landing. */
  lemma LocalEqualsRemoteAtRest(env: Env, w0: World, steps: seq<Step>, p: ProjectId)
    requires Initial(w0) && OrderlyRun(steps)
    requires p in w0.store.remote && w0.store.local[p] == w0.store.remote[p]
    requires forall cid :: cid in Run(env, w0, steps).calls ==>
               Run(env, w0, steps).calls[cid].pc.Returned? && Run(env, w0, steps).calls[cid].pc.out != ErroredAfterLanding
    ensures var s := Run(env, w0, steps).store; p in s.local && p in s.remote && s.local[p] == s.remote[p]
  {
    UnbrokenRunIsClear(env, w0, steps, p);
    NothingInTheWay(env, w0, steps, p);
  }
}
