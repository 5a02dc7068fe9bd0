/**
 The depth-1 look-ahead of a project that records a remote: when the applies-cleanly base is the remote head.
 The runs are those without a crash and without a reconciliation whose steps on the project are clear: no late fault,
 no refused review, no lost swap and no push that moved the ref and then failed to answer.
 */
module AcceptCoherence {
  import opened Wrappers
  import opened AcceptWorld
  import opened AcceptSafety
  import opened AcceptLookahead
  import opened AcceptGuards

  // ---- the invariant ----

  /** `p` has a call between its push and its mark. */
  predicate Pending(call: Call, p: ProjectId) {
    call.pc.WillMark? && call.pc.spec.project == p
  }

  ghost predicate Quiet(w: World, p: ProjectId) {
    forall cid :: cid in w.calls ==> !Pending(w.calls[cid], p)
  }

  predicate EntryCall(call: Call, p: ProjectId, entry: Inflight) {
    EngagedOn(call.pc, p) && call.pc.spec.effect == entry.effect ==> Carried(call.pc) == Some(entry.commit) && !call.pc.WillMark?
  }

  /** The look-ahead entry belongs to an effect in execution, and its call carries the entry's commit. */
  ghost predicate EntryOk(w: World, p: ProjectId) {
    p in w.store.inflight ==>
      var entry := w.store.inflight[p];
      && ExecutingRow(w.store, entry.effect) && w.store.effects[entry.effect].payload.project == p
      && (forall cid :: cid in w.calls ==> EntryCall(w.calls[cid], p, entry))
  }

  /** The look-ahead coherence itself. */
  ghost predicate Coherent(w: World, p: ProjectId)
    requires p in w.store.remote && p in w.store.local
  {
    Quiet(w, p) ==> ProjectOnto(w.store, p) == w.store.remote[p]
  }

  /** Coherence, with what keeps it: whose entry it is, and that a call about to return accepted has advanced. */
  ghost predicate Calm(w: World, p: ProjectId) {
    p in w.store.remote && p in w.store.local && Coherent(w, p) && EntryOk(w, p) && ClearsAdvanced(w, p)
  }

  // ---- actions that leave `p`'s branches and entry alone ----

  predicate BaseOf(call: Call, p: ProjectId, c: Commit) {
    call.pc.WillPropose? && call.input.project == p && call.pc.onto == c
  }

  /** What an action elsewhere may change about `p`: rows of the journal, and where the acting call stands. */
  ghost predicate Elsewhere(w: World, w': World, cid: CallId, p: ProjectId) {
    var s, s' := w.store, w'.store;
    && cid in w.calls && cid in w'.calls && w'.calls == w.calls[cid := w'.calls[cid]]
    && p in s.remote && p in s.local && p in s'.remote && p in s'.local
    && s'.remote[p] == s.remote[p] && s'.local[p] == s.local[p]
    && (p in s'.inflight <==> p in s.inflight) && (p in s.inflight ==> s'.inflight[p] == s.inflight[p])
    && (forall id :: id in s'.effects && s'.effects[id].payload.project == p ==>
          || (id in s.effects && s.effects[id].payload == s'.effects[id].payload)
          || BaseOf(w.calls[cid], p, s'.effects[id].payload.expectSha))
    && (p in s.inflight && ExecutingRow(s, s.inflight[p].effect) ==>
          ExecutingRow(s', s.inflight[p].effect) && s'.effects[s.inflight[p].effect].payload == s.effects[s.inflight[p].effect].payload)
  }

  /** The acting call's new position says nothing new about `p`. */
  ghost predicate Harmless(w: World, w': World, cid: CallId, p: ProjectId)
    requires cid in w.calls && cid in w'.calls && p in w.store.remote && p in w.store.local
  {
    var s, a, b := w.store, w.calls[cid], w'.calls[cid];
    && (Pending(a, p) <==> Pending(b, p))
    && (Pending(b, p) ==> b.pc == a.pc)
    && (BaseOf(b, p, s.remote[p]) ==> (p in s.inflight && s.inflight[p].commit == s.remote[p]) || s.local[p] == s.remote[p])
    && (forall c :: Carries(b, p, c) ==> Carries(a, p, c))
    && (p in s.inflight ==> EntryCall(b, p, s.inflight[p]))
    && ClearAdvanced(s, p, b)
  }

  predicate Carries(call: Call, p: ProjectId, c: Commit) {
    EngagedOn(call.pc, p) && Carried(call.pc) == Some(c)
  }

  lemma QuietElsewhere(w: World, w': World, cid: CallId, p: ProjectId)
    requires p in w.store.remote && p in w.store.local && Elsewhere(w, w', cid, p) && Harmless(w, w', cid, p) && Quiet(w', p)
    ensures Quiet(w, p)
  {
    forall c | c in w.calls
      ensures !Pending(w.calls[c], p)
    {
      assert !Pending(w'.calls[c], p);
    }
  }

  lemma CalmElsewhere(w: World, w': World, cid: CallId, p: ProjectId)
    requires Calm(w, p) && Elsewhere(w, w', cid, p) && Harmless(w, w', cid, p)
    ensures Calm(w', p)
  {
    assert Coherent(w', p) by {
      if Quiet(w', p) { QuietElsewhere(w, w', cid, p); }
    }
  }

  /** Not in an execute phase: before it, or past it with only the routing left. */
  predicate Aside(pc: Pc) {
    pc.Entered? || pc.WillAcceptContent? || pc.WillReadLookahead? || pc.WillReadHead? || pc.WillPropose?
    || pc.WillApprove? || pc.WillBegin? || pc.WillRoute?
  }

  /** Reads of the base see the look-ahead or the local head, never an unpublished head. */
  lemma AsideHarmless(env: Env, w: World, cid: CallId, io: Io, p: ProjectId)
    requires Calm(w, p) && cid in w.calls && Aside(w.calls[cid].pc) && Runnable(w.store, w.calls[cid], io)
    requires CallOk(env, w.store, w.calls[cid])
    ensures Harmless(w, Apply(env, w, Go(cid, io)), cid, p)
  {
    var s, call := w.store, w.calls[cid];
    var pc' := Act(env, s, call, io).1;
    assert Apply(env, w, Go(cid, io)).calls[cid] == call.(pc := pc');
    if pc'.WillLand? {
      assert !ExecutingRow(s, call.pc.spec.effect);
    }
  }

  lemma AsideStore(env: Env, s: Store, call: Call, io: Io)
    requires Aside(call.pc) && Runnable(s, call, io)
    ensures var s' := Act(env, s, call, io).0;
            s'.remote == s.remote && s'.local == s.local && s'.inflight == s.inflight && s'.echoes == s.echoes
  {
  }

  lemma AsideRows(env: Env, s: Store, call: Call, io: Io, id: EffectId)
    requires Aside(call.pc) && Runnable(s, call, io) && CallOk(env, s, call)
    requires id in Act(env, s, call, io).0.effects
    ensures var s' := Act(env, s, call, io).0;
            || (id in s.effects && s'.effects[id].payload == s.effects[id].payload)
            || BaseOf(call, s'.effects[id].payload.project, s'.effects[id].payload.expectSha)
  {
  }

  lemma AsideElsewhere(env: Env, w: World, cid: CallId, io: Io, p: ProjectId)
    requires Calm(w, p) && cid in w.calls && Aside(w.calls[cid].pc) && Runnable(w.store, w.calls[cid], io)
    requires CallOk(env, w.store, w.calls[cid])
    ensures Elsewhere(w, Apply(env, w, Go(cid, io)), cid, p)
  {
    var s, call := w.store, w.calls[cid];
    AsideStore(env, s, call, io);
    forall id | id in Act(env, s, call, io).0.effects
      ensures var s' := Act(env, s, call, io).0;
              (id in s.effects && s'.effects[id].payload == s.effects[id].payload)
              || BaseOf(call, s'.effects[id].payload.project, s'.effects[id].payload.expectSha)
    {
      AsideRows(env, s, call, io, id);
    }
    if p in s.inflight && ExecutingRow(s, s.inflight[p].effect) {
      RowsOfOthers(env, s, call, io, s.inflight[p].effect);
    }
  }

  /** An action of an execute phase writes no payload, and keeps rows in execution unless it fails its own. */
  lemma EngagedRows(env: Env, s: Store, call: Call, io: Io, id: EffectId)
    requires Engaged(call.pc) && Runnable(s, call, io) && id in Act(env, s, call, io).0.effects
    ensures var s' := Act(env, s, call, io).0;
            && id in s.effects && s'.effects[id].payload == s.effects[id].payload
            && (ExecutingRow(s, id) && (call.pc.WillFail? ==> id != call.pc.spec.effect) ==> ExecutingRow(s', id))
  {
    match call.pc {
      case WillLand(spec) => LandRows(env, s, spec, io.fault);
      case WillSwap(spec, commit, cur) => SwapRows(s, spec, commit, cur, io.fault);
      case _ =>
    }
  }

  /** Actions of an execute phase that leave `p` where it is: those of another project, and the plain ones. */
  predicate Plain(pc: Pc) {
    pc.WillSucceed? || pc.WillReview? || pc.WillAdvance? || pc.WillFail?
  }

  lemma PlainStore(env: Env, s: Store, call: Call, io: Io)
    requires Plain(call.pc) && Runnable(s, call, io)
    ensures var s' := Act(env, s, call, io).0;
            s'.remote == s.remote && s'.local == s.local && s'.inflight == s.inflight && s'.echoes == s.echoes
  {
  }

  lemma OtherProjectStore(env: Env, s: Store, call: Call, io: Io, p: ProjectId)
    requires Engaged(call.pc) && Runnable(s, call, io) && call.pc.spec.project != p
    requires p in s.remote && p in s.local
    ensures SameFor(s, Act(env, s, call, io).0, p)
  {
    match call.pc {
      case WillLand(spec) => LandElsewhere(env, s, spec, io.fault, p);
      case WillSwap(spec, commit, cur) => SwapElsewhere(s, spec, commit, cur, io.fault, p);
      case WillMark(_, _) =>
      case WillClear(_, _) =>
      case _ => PlainStore(env, s, call, io);
    }
  }

  predicate SameFor(s: Store, s': Store, p: ProjectId)
    requires p in s.remote && p in s.local
  {
    && p in s'.remote && p in s'.local && s'.remote[p] == s.remote[p] && s'.local[p] == s.local[p]
    && (p in s'.inflight <==> p in s.inflight) && (p in s.inflight ==> s'.inflight[p] == s.inflight[p])
  }

  lemma LandElsewhere(env: Env, s: Store, spec: Spec, fault: Fault, p: ProjectId)
    requires spec.project in s.local && spec.project != p && p in s.remote && p in s.local
    ensures SameFor(s, GoLand(env, s, spec, fault).0, p)
  {
  }

  lemma SwapElsewhere(s: Store, spec: Spec, commit: Commit, cur: Commit, fault: Fault, p: ProjectId)
    requires spec.project in s.local && spec.project != p && p in s.remote && p in s.local
    ensures SameFor(s, GoSwap(s, spec, commit, cur, fault).0, p)
  {
  }

  lemma EngagedElsewhere(env: Env, w: World, cid: CallId, io: Io, p: ProjectId)
    requires Calm(w, p) && cid in w.calls && Engaged(w.calls[cid].pc) && Runnable(w.store, w.calls[cid], io)
    requires w.calls[cid].pc.spec.project != p || Plain(w.calls[cid].pc)
    requires w.calls[cid].pc.spec.effect in w.store.effects
    requires w.store.effects[w.calls[cid].pc.spec.effect].payload.project == w.calls[cid].pc.spec.project
    ensures Elsewhere(w, Apply(env, w, Go(cid, io)), cid, p)
  {
    var s, call := w.store, w.calls[cid];
    var s' := Act(env, s, call, io).0;
    if call.pc.spec.project != p {
      OtherProjectStore(env, s, call, io, p);
    } else {
      PlainStore(env, s, call, io);
    }
    forall id | id in s'.effects
      ensures id in s.effects && s'.effects[id].payload == s.effects[id].payload
    {
      EngagedRows(env, s, call, io, id);
    }
    if p in s.inflight {
      var e := s.inflight[p].effect;
      assert EntryCall(call, p, s.inflight[p]);
      if Writes(call.pc, io) != Some(e) { OneRow(env, s, call, io, e); }
      EngagedRows(env, s, call, io, e);
    }
  }

  lemma OtherProjectHarmless(env: Env, w: World, cid: CallId, io: Io, p: ProjectId)
    requires Calm(w, p) && cid in w.calls && Engaged(w.calls[cid].pc) && Runnable(w.store, w.calls[cid], io)
    requires w.calls[cid].pc.spec.project != p
    ensures Harmless(w, Apply(env, w, Go(cid, io)), cid, p)
  {
    var s, call := w.store, w.calls[cid];
    var pc' := Act(env, s, call, io).1;
    assert Apply(env, w, Go(cid, io)).calls[cid] == call.(pc := pc');
    if Engaged(pc') {
      NextEngaged(env, s, call, io);
    } else {
      NextReturned(env, s, call, io);
    }
  }

  lemma NextReturned(env: Env, s: Store, call: Call, io: Io)
    requires Engaged(call.pc) && Runnable(s, call, io) && !Engaged(Act(env, s, call, io).1)
    ensures Act(env, s, call, io).1.Returned? || Act(env, s, call, io).1.WillRoute?
  {
  }

  lemma PlainHarmless(env: Env, w: World, cid: CallId, io: Io, p: ProjectId)
    requires Calm(w, p) && cid in w.calls && Plain(w.calls[cid].pc) && Runnable(w.store, w.calls[cid], io)
    requires w.calls[cid].pc.spec.project == p
    requires NotGivenUp(Act(env, w.store, w.calls[cid], io).1)
    ensures Harmless(w, Apply(env, w, Go(cid, io)), cid, p)
  {
    var s, call := w.store, w.calls[cid];
    var pc' := Act(env, s, call, io).1;
    assert Apply(env, w, Go(cid, io)).calls[cid] == call.(pc := pc');
    if p in s.inflight { assert EntryCall(call, p, s.inflight[p]); }
  }

  // ---- the four actions that touch `p` ----

  lemma CalmMark(w: World, cid: CallId, p: ProjectId)
    requires Calm(w, p) && Exclusive(w) && cid in w.calls && Pending(w.calls[cid], p)
    requires Begun(w.store, w.calls[cid].pc.spec)
    requires var pc := w.calls[cid].pc;
             var w' := At(w, cid, MarkInflight(w.store, p, pc.spec.effect, pc.commit), WillSucceed(pc.spec, pc.commit));
             Quiet(w', p) ==> pc.commit == w.store.remote[p]
    ensures var pc := w.calls[cid].pc;
            Calm(At(w, cid, MarkInflight(w.store, p, pc.spec.effect, pc.commit), WillSucceed(pc.spec, pc.commit)), p)
  {
    var s, pc := w.store, w.calls[cid].pc;
    var w' := At(w, cid, MarkInflight(s, p, pc.spec.effect, pc.commit), WillSucceed(pc.spec, pc.commit));
    forall b | b in w'.calls
      ensures EntryCall(w'.calls[b], p, w'.store.inflight[p]) && ClearAdvanced(w'.store, p, w'.calls[b])
    {
      if b != cid { assert w'.calls[b] == w.calls[b] && ClearAdvanced(s, p, w.calls[b]); }
    }
  }

  /** `p`'s local branch has been swapped forward to the acting call's commit. */
  predicate SwapsTo(w: World, w': World, cid: CallId, p: ProjectId) {
    && cid in w.calls && w.calls[cid].pc.WillSwap? && w.calls[cid].pc.spec.project == p
    && p in w.store.remote && p in w.store.local && w.store.local[p] == w.calls[cid].pc.cur
    && var pc := w.calls[cid].pc;
       && cid in w'.calls && w'.calls[cid].pc.WillClear? && Done(w'.calls[cid].pc.out) == AcceptedAt(pc.spec.effect, pc.commit)
       && w' == At(w, cid, w.store.(local := w.store.local[p := pc.commit]), WillClear(pc.spec, w'.calls[cid].pc.out))
  }

  lemma SwapClears(env: Env, w: World, w': World, cid: CallId, p: ProjectId)
    requires ClearsAdvanced(w, p) && SwapsTo(w, w', cid, p) && CallOk(env, w.store, w.calls[cid])
    ensures ClearsAdvanced(w', p)
  {
    forall b | b in w'.calls
      ensures ClearAdvanced(w'.store, p, w'.calls[b])
    {
      if b != cid {
        assert w'.calls[b] == w.calls[b] && ClearAdvanced(w.store, p, w.calls[b]);
        var other := w.calls[b].pc;
        if other.WillClear? && other.spec.project == p && Done(other.out).AcceptedAt? {
          AncTrans(Done(other.out).commit, w.store.local[p], w.calls[cid].pc.commit);
        }
      }
    }
  }

  lemma CalmSwap(env: Env, w: World, w': World, cid: CallId, p: ProjectId)
    requires Calm(w, p) && BranchesOk(w.store) && SwapsTo(w, w', cid, p) && CallOk(env, w.store, w.calls[cid])
    ensures Calm(w', p)
  {
    var s, call := w.store, w.calls[cid];
    SwapClears(env, w, w', cid, p);
    assert Coherent(w', p) by {
      if Quiet(w', p) {
        forall c | c in w.calls ensures !Pending(w.calls[c], p) { assert !Pending(w'.calls[c], p); }
        if s.local[p] == s.remote[p] { SwapWhenCaughtUp(env, s, call, p); }
      }
    }
    assert EntryOk(w', p) by {
      if p in s.inflight { assert EntryCall(call, p, s.inflight[p]); }
    }
  }

  lemma CalmClear(w: World, cid: CallId, p: ProjectId, out: Outcome)
    requires Calm(w, p) && BranchesOk(w.store) && cid in w.calls && NotGivenUp(w.calls[cid].pc)
    requires w.calls[cid].pc.WillClear? && w.calls[cid].pc.spec.project == p
    ensures var pc := w.calls[cid].pc;
            Calm(At(w, cid, ClearInflight(w.store, p, pc.spec.effect), Returned(out)), p)
  {
    var s, call := w.store, w.calls[cid];
    var pc := call.pc;
    var w' := At(w, cid, ClearInflight(s, p, pc.spec.effect), Returned(out));
    assert Coherent(w', p) by {
      if Quiet(w', p) {
        forall c | c in w.calls ensures !Pending(w.calls[c], p) { assert !Pending(w'.calls[c], p); }
        if p in s.inflight && s.inflight[p].effect == pc.spec.effect {
          assert EntryCall(call, p, s.inflight[p]) && ClearAdvanced(s, p, call);
          AncAntisym(s.local[p], s.remote[p]);
        }
      }
    }
  }

  lemma LandStays(env: Env, w: World, cid: CallId, io: Io, p: ProjectId)
    requires p in w.store.remote && p in w.store.local && EntryOk(w, p) && cid in w.calls && Runnable(w.store, w.calls[cid], io)
    requires w.calls[cid].pc.WillLand? && w.calls[cid].pc.spec.project == p
    requires Act(env, w.store, w.calls[cid], io).0 == w.store && !Act(env, w.store, w.calls[cid], io).1.WillMark?
    requires Begun(w.store, w.calls[cid].pc.spec)
    ensures Elsewhere(w, Apply(env, w, Go(cid, io)), cid, p) && Harmless(w, Apply(env, w, Go(cid, io)), cid, p)
  {
    LandPcs(env, w.store, w.calls[cid].pc.spec, io.fault);
    if p in w.store.inflight { assert EntryCall(w.calls[cid], p, w.store.inflight[p]); }
  }

  lemma LandPcs(env: Env, s: Store, spec: Spec, fault: Fault)
    requires spec.project in s.remote && spec.project in s.local
    ensures var pc' := GoLand(env, s, spec, fault).1; pc'.WillMark? || pc'.WillFail? || pc'.Returned?
  {
  }

  /** The push, seen from the outside: refused, up to date, or the child of the head it expected. */
  lemma LandCases(env: Env, s: Store, spec: Spec, fault: Fault)
    requires spec.project in s.remote && spec.project in s.local
    requires !PushLost(env, spec, fault)
    ensures var (s', pc') := GoLand(env, s, spec, fault);
            || (s' == s && !pc'.WillMark?)
            || (pc'.WillMark? && s'.echoes == s.echoes + {spec.effect} && s' == s.(echoes := s'.echoes))
            || (pc'.WillMark? && pc'.spec == spec && s.remote[spec.project] == spec.onto && pc'.commit.Squash?
                && pc'.commit.parent == spec.onto && s' == Push(s, spec, pc'.commit))
  {
  }

  /** A push that moved the head or found it moved leaves its call to mark. */
  lemma CalmPushed(env: Env, w: World, w': World, cid: CallId, p: ProjectId)
    requires Calm(w, p) && cid in w.calls && w.calls[cid].pc.WillLand? && w.calls[cid].pc.spec.project == p
    requires cid in w'.calls && w'.calls == w.calls[cid := w'.calls[cid]] && Pending(w'.calls[cid], p)
    requires w'.calls[cid].pc.spec == w.calls[cid].pc.spec
    requires w'.store.local == w.store.local && w'.store.inflight == w.store.inflight && w'.store.effects == w.store.effects
    requires p in w'.store.remote
    ensures Calm(w', p)
  {
    var s := w.store;
    assert !Quiet(w', p);
    assert EntryOk(w', p) by {
      if p in s.inflight { assert EntryCall(w.calls[cid], p, s.inflight[p]); }
    }
    forall b | b in w'.calls ensures ClearAdvanced(w'.store, p, w'.calls[b]) {
      if b != cid { assert ClearAdvanced(s, p, w.calls[b]); }
    }
  }

  lemma CalmLand(env: Env, base: map<ProjectId, Commit>, w: World, cid: CallId, io: Io, p: ProjectId)
    requires Inv(env, base, w) && Calm(w, p) && cid in w.calls && Runnable(w.store, w.calls[cid], io)
    requires w.calls[cid].pc.WillLand? && w.calls[cid].pc.spec.project == p
    requires !PushLost(env, w.calls[cid].pc.spec, io.fault)
    ensures Calm(Apply(env, w, Go(cid, io)), p)
  {
    var s, call := w.store, w.calls[cid];
    assert CallOk(env, s, call);
    var (s', pc') := Act(env, s, call, io);
    var w' := Apply(env, w, Go(cid, io));
    ActingCall(env, w, cid, io);
    LandCases(env, s, call.pc.spec, io.fault);
    LandRows(env, s, call.pc.spec, io.fault);
    if !pc'.WillMark? {
      LandStays(env, w, cid, io, p);
      CalmElsewhere(w, w', cid, p);
    } else {
      CalmPushed(env, w, w', cid, p);
    }
  }

  // ---- every step ----

  /** A call on its way out after a push has gone through. */
  predicate NotGivenUp(pc: Pc) { pc.WillClear? ==> Done(pc.out).AcceptedAt? }

  /** One execute phase per effect, its row executing, and no call on `p` that has landed and given up. */
  ghost predicate Steady(w: World, p: ProjectId) {
    && p in w.store.remote && Exclusive(w) && RowsExecute(w)
    && (forall cid :: cid in w.calls && EngagedOn(w.calls[cid].pc, p) ==> NotGivenUp(w.calls[cid].pc))
  }

  /** In a step that is clear on `p` the acting call does not give up after a landing there, nor lose a push. */
  lemma ClearActs(env: Env, base: map<ProjectId, Commit>, w: World, st: Step, p: ProjectId)
    requires Inv(env, base, w) && Steady(w, p) && StepIsClear(env, w, st, p)
    requires st.Go? && st.cid in w.calls && Runnable(w.store, w.calls[st.cid], st.io) && EngagedOn(w.calls[st.cid].pc, p)
    ensures NotGivenUp(Act(env, w.store, w.calls[st.cid], st.io).1)
    ensures w.calls[st.cid].pc.WillLand? ==> !PushLost(env, w.calls[st.cid].pc.spec, st.io.fault)
  {
    assert Acts(w, st, st.cid);
    assert CallOk(env, w.store, w.calls[st.cid]) && RowExecutes(w.store, w.calls[st.cid].pc);
    ClearCallActs(env, w.store, w.calls[st.cid], st.io, p);
  }

  lemma ClearCallActs(env: Env, s: Store, call: Call, io: Io, p: ProjectId)
    requires Runnable(s, call, io) && CallOk(env, s, call) && BranchesOk(s) && RowExecutes(s, call.pc)
    requires p in s.remote && EngagedOn(call.pc, p) && NotGivenUp(call.pc) && ActionIsClear(env, s, call.pc, io, p)
    ensures NotGivenUp(Act(env, s, call, io).1)
  {
    match call.pc {
      case WillLand(spec) => LandPcs(env, s, spec, io.fault);
      case WillAdvance(spec, c) => AncLinear(s.local[p], c, s.remote[p]);
      case _ =>
    }
  }

  lemma StepSteady(env: Env, base: map<ProjectId, Commit>, w: World, st: Step, p: ProjectId)
    requires Inv(env, base, w) && Steady(w, p) && Orderly(st) && StepIsClear(env, w, st, p)
    ensures Steady(Apply(env, w, st), p)
  {
    var w' := Apply(env, w, st);
    StepKeeps(env, base, w, st);
    StepExclusive(env, w, st);
    StepRowsExecute(env, base, w, st);
    forall cid | cid in w'.calls && EngagedOn(w'.calls[cid].pc, p)
      ensures NotGivenUp(w'.calls[cid].pc)
    {
      StaysNotGivenUp(env, base, w, st, p, cid);
    }
  }

  lemma StaysNotGivenUp(env: Env, base: map<ProjectId, Commit>, w: World, st: Step, p: ProjectId, cid: CallId)
    requires Orderly(st) && cid in Apply(env, w, st).calls && EngagedOn(Apply(env, w, st).calls[cid].pc, p)
    requires Inv(env, base, w) && Steady(w, p) && StepIsClear(env, w, st, p)
    ensures NotGivenUp(Apply(env, w, st).calls[cid].pc)
  {
    if Acts(w, st, cid) {
      ActingCall(env, w, cid, st.io);
      NextEngaged(env, w.store, w.calls[cid], st.io);
      if Engaged(w.calls[cid].pc) { ClearActs(env, base, w, st, p); }
    } else {
      OthersLeaveCall(env, w, st, cid);
    }
  }

  lemma EngagedBegun(env: Env, s: Store, call: Call)
    requires CallOk(env, s, call) && Engaged(call.pc)
    ensures Begun(s, call.pc.spec)
  {
  }

  /** If the step is a mark on `p` that leaves nobody between push and mark, it marks the remote head. */
  ghost predicate MarksHead(env: Env, w: World, st: Step, p: ProjectId) {
    st.Go? && st.cid in w.calls && Pending(w.calls[st.cid], p) && p in w.store.remote && Quiet(Apply(env, w, st), p) ==>
      w.calls[st.cid].pc.commit == w.store.remote[p]
  }

  lemma ActCalmHere(env: Env, base: map<ProjectId, Commit>, w: World, cid: CallId, io: Io, p: ProjectId)
    requires Inv(env, base, w) && Calm(w, p) && Exclusive(w)
    requires cid in w.calls && Runnable(w.store, w.calls[cid], io) && NotGivenUp(w.calls[cid].pc)
    requires Engaged(w.calls[cid].pc) && !Plain(w.calls[cid].pc) && w.calls[cid].pc.spec.project == p
    requires NotGivenUp(Act(env, w.store, w.calls[cid], io).1)
    requires w.calls[cid].pc.WillLand? ==> !PushLost(env, w.calls[cid].pc.spec, io.fault)
    requires MarksHead(env, w, Go(cid, io), p)
    ensures Calm(Apply(env, w, Go(cid, io)), p)
  {
    var call := w.calls[cid];
    assert CallOk(env, w.store, call);
    match call.pc {
      case WillLand(_) => CalmLand(env, base, w, cid, io, p);
      case WillMark(_, _) => CalmMark(w, cid, p);
      case WillSwap(_, _, _) => CalmSwap(env, w, Apply(env, w, Go(cid, io)), cid, p);
      case WillClear(_, _) => CalmClear(w, cid, p, Routed(call.pc.out, io.fault));
    }
  }

  /** The other actions do not touch `p`. */
  lemma ActElsewhere(env: Env, w: World, cid: CallId, io: Io, p: ProjectId)
    requires Calm(w, p) && cid in w.calls && Runnable(w.store, w.calls[cid], io) && CallOk(env, w.store, w.calls[cid])
    requires var pc := w.calls[cid].pc; Engaged(pc) && pc.spec.project == p ==> Plain(pc)
    requires EngagedOn(w.calls[cid].pc, p) ==> NotGivenUp(Act(env, w.store, w.calls[cid], io).1)
    ensures Elsewhere(w, Apply(env, w, Go(cid, io)), cid, p) && Harmless(w, Apply(env, w, Go(cid, io)), cid, p)
  {
    var pc := w.calls[cid].pc;
    if Aside(pc) {
      AsideElsewhere(env, w, cid, io, p);
      AsideHarmless(env, w, cid, io, p);
    } else {
      EngagedBegun(env, w.store, w.calls[cid]);
      EngagedElsewhere(env, w, cid, io, p);
      if pc.spec.project == p {
        PlainHarmless(env, w, cid, io, p);
      } else {
        OtherProjectHarmless(env, w, cid, io, p);
      }
    }
  }

  /** A step outside the calls' actions: branches and look-ahead stay, payloads stay, a new call knows nothing. */
  ghost predicate Outside(w: World, w': World) {
    var s, s' := w.store, w'.store;
    && s'.remote == s.remote && s'.local == s.local && s'.inflight == s.inflight
    && (forall id :: id in s'.effects ==> id in s.effects && s'.effects[id].payload == s.effects[id].payload)
    && (forall id :: ExecutingRow(s, id) ==> ExecutingRow(s', id))
    && (forall c :: c in w.calls ==> c in w'.calls && w'.calls[c] == w.calls[c])
    && (forall c :: c in w'.calls && c !in w.calls ==> !Engaged(w'.calls[c].pc) && !w'.calls[c].pc.WillPropose?)
  }

  lemma OutsideStep(env: Env, w: World, st: Step)
    requires Orderly(st)
    requires !st.Go? || st.cid !in w.calls || !Runnable(w.store, w.calls[st.cid], st.io)
    ensures Outside(w, Apply(env, w, st))
  {
    BranchesStay(env, w, st);
    OutsideRows(env, w, st);
  }

  lemma QuietOutside(w: World, w': World, p: ProjectId)
    requires Outside(w, w') && Quiet(w', p)
    ensures Quiet(w, p)
  {
    forall c | c in w.calls ensures !Pending(w.calls[c], p) { assert !Pending(w'.calls[c], p); }
  }

  lemma CalmOutside(w: World, w': World, p: ProjectId)
    requires Calm(w, p) && Outside(w, w')
    ensures Calm(w', p)
  {
    var s, s' := w.store, w'.store;
    assert Coherent(w', p) by {
      if Quiet(w', p) { QuietOutside(w, w', p); }
    }
    assert EntryOk(w', p) by {
      if p in s'.inflight {
        forall c | c in w'.calls
          ensures EntryCall(w'.calls[c], p, s'.inflight[p])
        {
          if c in w.calls { assert EntryCall(w.calls[c], p, s.inflight[p]); }
        }
      }
    }
    forall c | c in w'.calls
      ensures ClearAdvanced(s', p, w'.calls[c])
    {
      if c in w.calls { assert ClearAdvanced(s, p, w.calls[c]); }
    }
  }

  lemma StepCalm(env: Env, base: map<ProjectId, Commit>, w: World, st: Step, p: ProjectId)
    requires Inv(env, base, w) && Calm(w, p) && Steady(w, p) && Orderly(st)
    requires StepIsClear(env, w, st, p) && MarksHead(env, w, st, p)
    ensures Calm(Apply(env, w, st), p)
  {
    if st.Go? && st.cid in w.calls && Runnable(w.store, w.calls[st.cid], st.io) {
      ActingCall(env, w, st.cid, st.io);
      assert CallOk(env, w.store, w.calls[st.cid]);
      if EngagedOn(w.calls[st.cid].pc, p) { ClearActs(env, base, w, st, p); }
      var pc := w.calls[st.cid].pc;
      if Engaged(pc) && pc.spec.project == p && !Plain(pc) {
        ActCalmHere(env, base, w, st.cid, st.io, p);
      } else {
        ActElsewhere(env, w, st.cid, st.io, p);
        CalmElsewhere(w, Apply(env, w, st), st.cid, p);
      }
    } else {
      OutsideStep(env, w, st);
      CalmOutside(w, Apply(env, w, st), p);
    }
  }

  // ---- coherence, exactly ----

  /** Every mark of the run that left nobody between push and mark marked the remote head. */
  ghost predicate AllMarkHead(env: Env, w0: World, steps: seq<Step>, p: ProjectId) {
    forall k :: 0 <= k < |steps| ==> MarksHead(env, Run(env, w0, steps[..k]), steps[k], p)
  }

  /** The applies-cleanly base is the remote head whenever nobody is between push and mark. */
  ghost predicate CoherentThroughout(env: Env, w0: World, steps: seq<Step>, p: ProjectId) {
    forall k :: 0 <= k <= |steps| ==> CoherentAt(Run(env, w0, steps[..k]), p)
  }

  ghost predicate CoherentAt(w: World, p: ProjectId) {
    p in w.store.remote && p in w.store.local && Coherent(w, p)
  }

  lemma {:induction false} RunCalm(env: Env, w0: World, steps: seq<Step>, p: ProjectId)
    requires Initial(w0) && OrderlyRun(steps) && RunIsClear(env, w0, steps, p) && AllMarkHead(env, w0, steps, p)
    requires p in w0.store.remote && w0.store.local[p] == w0.store.remote[p]
    ensures Calm(Run(env, w0, steps), p) && Steady(Run(env, w0, steps), p) && CoherentThroughout(env, w0, steps, p)
  {
    if steps != [] {
      var n := |steps| - 1;
      var front, last := steps[..n], steps[n];
      var w := Run(env, w0, front);
      ReachableInv(env, w0, front);
      MarksBefore(env, w0, steps, p);
      RunCalm(env, w0, front, p);
      StepCalm(env, Base(w0), w, last, p);
      StepSteady(env, Base(w0), w, last, p);
      CoherentExtends(env, w0, steps, p);
    }
  }

  lemma CoherentExtends(env: Env, w0: World, steps: seq<Step>, p: ProjectId)
    requires steps != [] && CoherentThroughout(env, w0, steps[..|steps| - 1], p) && CoherentAt(Run(env, w0, steps), p)
    ensures CoherentThroughout(env, w0, steps, p)
  {
    var front := steps[..|steps| - 1];
    forall k | 0 <= k <= |steps| ensures CoherentAt(Run(env, w0, steps[..k]), p) {
      if k == |steps| {
        assert steps[..k] == steps;
      } else {
        assert steps[..k] == front[..k];
        assert CoherentAt(Run(env, w0, front[..k]), p);
      }
    }
  }

  lemma MarksBefore(env: Env, w0: World, steps: seq<Step>, p: ProjectId)
    requires steps != [] && AllMarkHead(env, w0, steps, p)
    ensures AllMarkHead(env, w0, steps[..|steps| - 1], p)
    ensures MarksHead(env, Run(env, w0, steps[..|steps| - 1]), steps[|steps| - 1], p)
  {
    var front := steps[..|steps| - 1];
    forall k | 0 <= k < |front| ensures MarksHead(env, Run(env, w0, front[..k]), front[k], p) {
      assert steps[..k] == front[..k];
    }
  }

  lemma MarkedHead(env: Env, w: World, st: Step, p: ProjectId)
    requires p in w.store.remote && CoherentAt(Apply(env, w, st), p)
    ensures MarksHead(env, w, st, p)
  {
  }

  /** Look-ahead coherence, exactly. In a run from a synchronised start whose steps on `p` are clear: the applies-cleanly base is the remote head at every point where no accept on `p` is between its push and
      its mark, if and only if every mark that ended such a stretch marked the remote head, in whatever order stacked
      accepts mark, finish and clear. */
  lemma CoherenceExactly(env: Env, w0: World, steps: seq<Step>, p: ProjectId)
    requires Initial(w0) && OrderlyRun(steps) && RunIsClear(env, w0, steps, p)
    requires p in w0.store.remote && w0.store.local[p] == w0.store.remote[p]
    ensures CoherentThroughout(env, w0, steps, p) <==> AllMarkHead(env, w0, steps, p)
  {
    if AllMarkHead(env, w0, steps, p) {
      RunCalm(env, w0, steps, p);
    }
    if CoherentThroughout(env, w0, steps, p) {
      CoherentMarks(env, w0, steps, p);
    }
  }

  lemma CoherentMarks(env: Env, w0: World, steps: seq<Step>, p: ProjectId)
    requires CoherentThroughout(env, w0, steps, p)
    ensures AllMarkHead(env, w0, steps, p)
  {
    forall k | 0 <= k < |steps| ensures MarksHead(env, Run(env, w0, steps[..k]), steps[k], p) {
      var w := Run(env, w0, steps[..k]);
      assert steps[..k + 1][..k] == steps[..k];
      assert Run(env, w0, steps[..k + 1]) == Apply(env, w, steps[k]);
      assert CoherentAt(w, p) && CoherentAt(Run(env, w0, steps[..k + 1]), p);
      MarkedHead(env, w, steps[k], p);
    }
  }

  // ---- without an echo every mark is good ----

  /** Nobody can have seen the remote head yet: it is no effect's base, no call's base, not the look-ahead
      and not the local head. */
  ghost predicate Unpublished(w: World, p: ProjectId)
    requires p in w.store.remote && p in w.store.local
  {
    var s := w.store;
    && (forall id :: id in s.effects && s.effects[id].payload.project == p ==> s.effects[id].payload.expectSha != s.remote[p])
    && (forall cid :: cid in w.calls ==> !BaseOf(w.calls[cid], p, s.remote[p]))
    && (p in s.inflight ==> s.inflight[p].commit != s.remote[p])
    && s.local[p] != s.remote[p]
  }

  /** A pending call holds the remote head, alone, and nobody else has seen it. */
  ghost predicate PendingOk(w: World, p: ProjectId)
    requires p in w.store.remote && p in w.store.local
  {
    forall cid :: cid in w.calls && Pending(w.calls[cid], p) ==>
      && w.calls[cid].pc.commit == w.store.remote[p]
      && Unpublished(w, p)
      && (forall b :: b in w.calls && b != cid ==> !Carries(w.calls[b], p, w.store.remote[p]))
  }

  lemma PendingElsewhere(w: World, w': World, cid: CallId, p: ProjectId)
    requires p in w.store.remote && p in w.store.local && PendingOk(w, p) && Elsewhere(w, w', cid, p) && Harmless(w, w', cid, p)
    ensures PendingOk(w', p)
  {
    var s' := w'.store;
    forall c | c in w'.calls && Pending(w'.calls[c], p)
      ensures w'.calls[c].pc.commit == s'.remote[p] && Unpublished(w', p)
      ensures forall b :: b in w'.calls && b != c ==> !Carries(w'.calls[b], p, s'.remote[p])
    {
      assert Pending(w.calls[c], p) && Unpublished(w, p);
    }
  }

  lemma SwapPending(w: World, w': World, cid: CallId, p: ProjectId)
    requires p in w.store.remote && p in w.store.local && PendingOk(w, p) && SwapsTo(w, w', cid, p)
    ensures PendingOk(w', p)
  {
    var s, s' := w.store, w'.store;
    forall c | c in w'.calls && Pending(w'.calls[c], p)
      ensures w'.calls[c].pc.commit == s'.remote[p] && Unpublished(w', p)
      ensures forall b :: b in w'.calls && b != c ==> !Carries(w'.calls[b], p, s'.remote[p])
    {
      assert c != cid && Pending(w.calls[c], p) && Unpublished(w, p);
      assert !Carries(w.calls[cid], p, s.remote[p]);
    }
  }

  lemma ClearPending(w: World, cid: CallId, p: ProjectId, out: Outcome)
    requires p in w.store.remote && p in w.store.local && PendingOk(w, p) && cid in w.calls
    requires w.calls[cid].pc.WillClear? && w.calls[cid].pc.spec.project == p
    ensures var pc := w.calls[cid].pc;
            PendingOk(At(w, cid, ClearInflight(w.store, p, pc.spec.effect), Returned(out)), p)
  {
    var pc := w.calls[cid].pc;
    var w' := At(w, cid, ClearInflight(w.store, p, pc.spec.effect), Returned(out));
    forall c | c in w'.calls && Pending(w'.calls[c], p)
      ensures w'.calls[c].pc.commit == w'.store.remote[p] && Unpublished(w', p)
      ensures forall b :: b in w'.calls && b != c ==> !Carries(w'.calls[b], p, w'.store.remote[p])
    {
      assert Pending(w.calls[c], p) && Unpublished(w, p);
    }
  }

  /** A pending call is alone: after its mark nobody is pending. */
  lemma MarkPending(w: World, cid: CallId, p: ProjectId)
    requires p in w.store.remote && p in w.store.local && PendingOk(w, p) && cid in w.calls && Pending(w.calls[cid], p)
    ensures var pc := w.calls[cid].pc;
            Quiet(At(w, cid, MarkInflight(w.store, p, pc.spec.effect, pc.commit), WillSucceed(pc.spec, pc.commit)), p)
  {
    var pc := w.calls[cid].pc;
    var w' := At(w, cid, MarkInflight(w.store, p, pc.spec.effect, pc.commit), WillSucceed(pc.spec, pc.commit));
    forall b | b in w'.calls
      ensures !Pending(w'.calls[b], p)
    {
      if b != cid && Pending(w.calls[b], p) { assert Carries(w.calls[b], p, w.store.remote[p]); }
    }
  }

  /** Everything anybody knows about `p` is inside the old head, so a new head is unpublished. */
  lemma PushPending(env: Env, base: map<ProjectId, Commit>, w: World, cid: CallId, p: ProjectId, commit: Commit)
    requires Inv(env, base, w) && Calm(w, p) && PendingOk(w, p)
    requires cid in w.calls && w.calls[cid].pc.WillLand? && w.calls[cid].pc.spec.project == p
    requires w.store.remote[p] == w.calls[cid].pc.spec.onto && commit.Squash? && commit.parent == w.store.remote[p]
    requires CallOk(env, w.store, w.calls[cid])
    ensures PendingOk(At(w, cid, Push(w.store, w.calls[cid].pc.spec, commit), WillMark(w.calls[cid].pc.spec, commit)), p)
  {
    var s, call := w.store, w.calls[cid];
    var spec := call.pc.spec;
    var head := s.remote[p];
    NotItsOwnChild(commit);
    var s' := Push(s, spec, commit);
    var w' := At(w, cid, s', WillMark(spec, commit));
    assert s'.remote[p] == commit && s'.local == s.local && s'.inflight == s.inflight && s'.effects == s.effects;
    assert Quiet(w, p) by { NobodyPending(env, w, cid, p); }
    forall id | id in s.effects && s.effects[id].payload.project == p
      ensures s.effects[id].payload.expectSha != commit
    {
      assert EffectOk(s, id);
      BelowParent(s.effects[id].payload.expectSha, commit);
    }
    forall b | b in w.calls
      ensures !Carries(w.calls[b], p, commit) && !BaseOf(w.calls[b], p, commit)
    {
      CarriedInside(env, w, b, p, commit);
    }
    BelowParent(s.local[p], commit);
    if p in s.inflight { BelowParent(s.inflight[p].commit, commit); }
    assert Unpublished(w', p);
    forall b | b in w'.calls && b != cid
      ensures !Carries(w'.calls[b], p, commit) && !Pending(w'.calls[b], p)
    {
      assert w'.calls[b] == w.calls[b] && !Pending(w.calls[b], p);
    }
    assert Pending(w'.calls[cid], p);
  }

  lemma NotItsOwnChild(c: Commit)
    requires c.Squash?
    ensures c != c.parent && !Anc(c, c.parent)
  {
    if Anc(c, c.parent) { AncDepth(c, c.parent); }
  }

  lemma BelowParent(a: Commit, c: Commit)
    requires c.Squash? && Anc(a, c.parent)
    ensures a != c
  {
    NotItsOwnChild(c);
  }

  /** While a call stands between push and mark, nobody can hold a lease on the head. */
  lemma NobodyPending(env: Env, w: World, cid: CallId, p: ProjectId)
    requires p in w.store.remote && p in w.store.local && PendingOk(w, p) && cid in w.calls && w.calls[cid].pc.WillLand? && w.calls[cid].pc.spec.project == p
    requires Begun(w.store, w.calls[cid].pc.spec) && w.store.remote[p] == w.calls[cid].pc.spec.onto
    ensures Quiet(w, p)
  {
    forall b | b in w.calls
      ensures !Pending(w.calls[b], p)
    {
      if Pending(w.calls[b], p) { assert false; }
    }
  }

  lemma CarriedInside(env: Env, w: World, b: CallId, p: ProjectId, commit: Commit)
    requires Calm(w, p) && BranchesOk(w.store) && b in w.calls && CallOk(env, w.store, w.calls[b])
    requires commit.Squash? && commit.parent == w.store.remote[p]
    ensures !Carries(w.calls[b], p, commit) && !BaseOf(w.calls[b], p, commit)
  {
    var s, call := w.store, w.calls[b];
    if BaseOf(call, p, commit) {
      BelowParent(commit, commit);
    }
    if Carries(call, p, commit) {
      if call.pc.WillClear? {
        assert ClearAdvanced(s, p, call);
        AncTrans(commit, s.local[p], s.remote[p]);
      }
      BelowParent(commit, commit);
    }
  }

  lemma LandPending(env: Env, base: map<ProjectId, Commit>, w: World, cid: CallId, io: Io, p: ProjectId)
    requires cid in w.calls && Runnable(w.store, w.calls[cid], io)
    requires w.calls[cid].pc.WillLand? && w.calls[cid].pc.spec.project == p
    requires !PushLost(env, w.calls[cid].pc.spec, io.fault)
    requires NoEcho(Act(env, w.store, w.calls[cid], io).0, p)
    requires p in Apply(env, w, Go(cid, io)).store.remote && p in Apply(env, w, Go(cid, io)).store.local
    requires Inv(env, base, w) && Calm(w, p) && PendingOk(w, p)
    ensures PendingOk(Apply(env, w, Go(cid, io)), p)
  {
    var s, call := w.store, w.calls[cid];
    assert CallOk(env, s, call);
    var pc' := Act(env, s, call, io).1;
    ActingCall(env, w, cid, io);
    HeadMoves(env, s, call.pc.spec, io.fault);
    if !pc'.WillMark? {
      LandStays(env, w, cid, io, p);
      PendingElsewhere(w, Apply(env, w, Go(cid, io)), cid, p);
    } else {
      PushPending(env, base, w, cid, p, pc'.commit);
    }
  }

  /** A push that is no echo moves the head to the child of the commit it expected. */
  lemma HeadMoves(env: Env, s: Store, spec: Spec, fault: Fault)
    requires spec.project in s.remote && spec.project in s.local
    requires !PushLost(env, spec, fault)
    requires Begun(s, spec) && NoEcho(GoLand(env, s, spec, fault).0, spec.project)
    ensures var (s', pc') := GoLand(env, s, spec, fault);
            if pc'.WillMark? then pc'.spec == spec && s.remote[spec.project] == spec.onto && pc'.commit.Squash?
                                  && pc'.commit.parent == spec.onto && s' == Push(s, spec, pc'.commit)
            else s' == s
  {
    LandCases(env, s, spec, fault);
    LandRows(env, s, spec, fault);
  }

  lemma ActPending(env: Env, base: map<ProjectId, Commit>, w: World, cid: CallId, io: Io, p: ProjectId)
    requires cid in w.calls && Runnable(w.store, w.calls[cid], io)
    requires Engaged(w.calls[cid].pc) && !Plain(w.calls[cid].pc) && w.calls[cid].pc.spec.project == p
    requires NotGivenUp(Act(env, w.store, w.calls[cid], io).1)
    requires w.calls[cid].pc.WillLand? ==> !PushLost(env, w.calls[cid].pc.spec, io.fault)
    requires NoEcho(Act(env, w.store, w.calls[cid], io).0, p)
    requires p in Apply(env, w, Go(cid, io)).store.remote && p in Apply(env, w, Go(cid, io)).store.local
    requires Inv(env, base, w) && Calm(w, p) && PendingOk(w, p)
    ensures PendingOk(Apply(env, w, Go(cid, io)), p)
  {
    var pc := w.calls[cid].pc;
    if pc.WillLand? {
      LandPending(env, base, w, cid, io, p);
    } else if pc.WillMark? {
      MarkActPending(env, w, cid, io, p);
    } else if pc.WillSwap? {
      SwapActPending(env, w, cid, io, p);
    } else {
      ClearActPending(env, w, cid, io, p);
    }
  }

  lemma MarkActPending(env: Env, w: World, cid: CallId, io: Io, p: ProjectId)
    requires p in w.store.remote && p in w.store.local && PendingOk(w, p) && cid in w.calls && Pending(w.calls[cid], p)
    requires p in Apply(env, w, Go(cid, io)).store.remote && p in Apply(env, w, Go(cid, io)).store.local
    ensures PendingOk(Apply(env, w, Go(cid, io)), p)
  {
    MarkPending(w, cid, p);
  }

  lemma ClearActPending(env: Env, w: World, cid: CallId, io: Io, p: ProjectId)
    requires p in w.store.remote && p in w.store.local && PendingOk(w, p) && cid in w.calls
    requires w.calls[cid].pc.WillClear? && w.calls[cid].pc.spec.project == p
    requires p in Apply(env, w, Go(cid, io)).store.remote && p in Apply(env, w, Go(cid, io)).store.local
    ensures PendingOk(Apply(env, w, Go(cid, io)), p)
  {
    ActingCall(env, w, cid, io);
    ClearPending(w, cid, p, Routed(w.calls[cid].pc.out, io.fault));
  }

  lemma SwapActPending(env: Env, w: World, cid: CallId, io: Io, p: ProjectId)
    requires p in w.store.remote && p in w.store.local && PendingOk(w, p)
    requires cid in w.calls && Runnable(w.store, w.calls[cid], io) && w.calls[cid].pc.WillSwap? && w.calls[cid].pc.spec.project == p
    requires NotGivenUp(Act(env, w.store, w.calls[cid], io).1)
    requires p in Apply(env, w, Go(cid, io)).store.remote && p in Apply(env, w, Go(cid, io)).store.local
    ensures PendingOk(Apply(env, w, Go(cid, io)), p)
  {
    SwapPending(w, Apply(env, w, Go(cid, io)), cid, p);
  }

  lemma PendingOutside(w: World, w': World, p: ProjectId)
    requires p in w.store.remote && p in w.store.local && PendingOk(w, p) && Outside(w, w')
    ensures PendingOk(w', p)
  {
    forall c | c in w'.calls && Pending(w'.calls[c], p)
      ensures w'.calls[c].pc.commit == w'.store.remote[p] && Unpublished(w', p)
      ensures forall b :: b in w'.calls && b != c ==> !Carries(w'.calls[b], p, w'.store.remote[p])
    {
      assert Pending(w.calls[c], p) && Unpublished(w, p);
    }
  }

  /** A pending call holds the head, so its mark is good. */
  lemma PendingMarksHead(env: Env, w: World, st: Step, p: ProjectId)
    requires p in w.store.remote && p in w.store.local && PendingOk(w, p)
    ensures MarksHead(env, w, st, p)
  {
  }

  lemma StepPending(env: Env, base: map<ProjectId, Commit>, w: World, st: Step, p: ProjectId)
    requires Inv(env, base, w) && Calm(w, p) && PendingOk(w, p) && Steady(w, p) && Orderly(st)
    requires StepIsClear(env, w, st, p) && NoEcho(Apply(env, w, st).store, p)
    requires p in Apply(env, w, st).store.remote && p in Apply(env, w, st).store.local
    ensures PendingOk(Apply(env, w, st), p)
  {
    if st.Go? && st.cid in w.calls && Runnable(w.store, w.calls[st.cid], st.io) {
      ActingCall(env, w, st.cid, st.io);
      assert CallOk(env, w.store, w.calls[st.cid]);
      if EngagedOn(w.calls[st.cid].pc, p) { ClearActs(env, base, w, st, p); }
      var pc := w.calls[st.cid].pc;
      if Engaged(pc) && pc.spec.project == p && !Plain(pc) {
        ActPending(env, base, w, st.cid, st.io, p);
      } else {
        ActElsewhere(env, w, st.cid, st.io, p);
        PendingElsewhere(w, Apply(env, w, st), st.cid, p);
      }
    } else {
      OutsideStep(env, w, st);
      PendingOutside(w, Apply(env, w, st), p);
    }
  }

  lemma NoEchoBefore(env: Env, base: map<ProjectId, Commit>, w: World, st: Step, p: ProjectId)
    requires Inv(env, base, w) && NoEcho(Apply(env, w, st).store, p)
    ensures NoEcho(w.store, p)
  {
    StepKeeps(env, base, w, st);
    EchoesGrow(env, w, st);
  }

  lemma EchoesGrow(env: Env, w: World, st: Step)
    ensures w.store.echoes <= Apply(env, w, st).store.echoes
  {
    if st.Go? && st.cid in w.calls && Runnable(w.store, w.calls[st.cid], st.io) {
      ActEchoes(env, w.store, w.calls[st.cid], st.io);
    }
  }

  lemma ActEchoes(env: Env, s: Store, call: Call, io: Io)
    requires Runnable(s, call, io)
    ensures s.echoes <= Act(env, s, call, io).0.echoes
  {
    if call.pc.WillLand? {
      LandEchoes(env, s, call.pc.spec, io.fault);
    } else if Aside(call.pc) {
      AsideStore(env, s, call, io);
    } else if Plain(call.pc) {
      PlainStore(env, s, call, io);
    }
  }

  lemma LandEchoes(env: Env, s: Store, spec: Spec, fault: Fault)
    requires spec.project in s.local
    ensures s.echoes <= GoLand(env, s, spec, fault).0.echoes
  {
  }

  lemma {:induction false} RunPending(env: Env, w0: World, steps: seq<Step>, p: ProjectId)
    requires Initial(w0) && OrderlyRun(steps) && RunIsClear(env, w0, steps, p) && NoEcho(Run(env, w0, steps).store, p)
    requires p in w0.store.remote && w0.store.local[p] == w0.store.remote[p]
    ensures Calm(Run(env, w0, steps), p) && PendingOk(Run(env, w0, steps), p) && Steady(Run(env, w0, steps), p)
    ensures AllMarkHead(env, w0, steps, p)
  {
    if steps != [] {
      var n := |steps| - 1;
      var front, last := steps[..n], steps[n];
      var w := Run(env, w0, front);
      ReachableInv(env, w0, front);
      NoEchoBefore(env, Base(w0), w, last, p);
      RunPending(env, w0, front, p);
      PendingMarksHead(env, w, last, p);
      StepCalm(env, Base(w0), w, last, p);
      StepPending(env, Base(w0), w, last, p);
      StepSteady(env, Base(w0), w, last, p);
      MarksExtend(env, w0, steps, p);
    }
  }

  lemma MarksExtend(env: Env, w0: World, steps: seq<Step>, p: ProjectId)
    requires steps != [] && AllMarkHead(env, w0, steps[..|steps| - 1], p)
    requires MarksHead(env, Run(env, w0, steps[..|steps| - 1]), steps[|steps| - 1], p)
    ensures AllMarkHead(env, w0, steps, p)
  {
    var front := steps[..|steps| - 1];
    forall k | 0 <= k < |steps| ensures MarksHead(env, Run(env, w0, steps[..k]), steps[k], p) {
      assert steps[..k] == front[..k];
      if k < |front| { assert MarksHead(env, Run(env, w0, front[..k]), front[k], p); }
    }
  }

  /** As long as no push found the branch already at its commit, coherence holds throughout. */
  lemma LookaheadCoherence(env: Env, w0: World, steps: seq<Step>, p: ProjectId)
    requires Initial(w0) && OrderlyRun(steps) && RunIsClear(env, w0, steps, p) && NoEcho(Run(env, w0, steps).store, p)
    requires p in w0.store.remote && w0.store.local[p] == w0.store.remote[p]
    ensures CoherentThroughout(env, w0, steps, p)
  {
    RunPending(env, w0, steps, p);
    CoherenceExactly(env, w0, steps, p);
  }
}
