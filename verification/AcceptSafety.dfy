/**
 Safety of the accept protocol over every run: any interleaving of accepts, re-drives, crashes, journal
 reconciliation (even beside live calls), inbox answers and review changes, with any faults.
 */
module AcceptSafety {
  import opened Wrappers
  import opened AcceptWorld

  // ---- the ancestor order ----

  lemma {:induction false} AncDepth(a: Commit, b: Commit)
    requires Anc(a, b)
    ensures Depth(a) <= Depth(b)
    ensures a != b ==> Depth(a) < Depth(b)
  {
    if a != b {
      AncDepth(a, b.parent);
    }
  }

  lemma {:induction false} AncTrans(a: Commit, b: Commit, c: Commit)
    requires Anc(a, b) && Anc(b, c)
    ensures Anc(a, c)
  {
    if b != c {
      AncTrans(a, b, c.parent);
    }
  }

  lemma AncAntisym(a: Commit, b: Commit)
    requires Anc(a, b) && Anc(b, a)
    ensures a == b
  {
    AncDepth(a, b);
    AncDepth(b, a);
  }

  /** A history is linear: two ancestors of one commit are comparable. */
  lemma {:induction false} AncLinear(a: Commit, b: Commit, c: Commit)
    requires Anc(a, c) && Anc(b, c)
    ensures Anc(a, b) || Anc(b, a)
  {
    if a != c && b != c {
      AncLinear(a, b, c.parent);
    }
  }

  // ---- the history of a branch ----

  /** The landings of project `p` lead from `base` to `head`, one child commit at a time. */
  predicate Chain(base: Commit, ls: seq<Landing>, p: ProjectId, head: Commit) {
    if ls == [] then base == head
    else
      var last := ls[|ls| - 1];
      if last.project != p then Chain(base, ls[..|ls| - 1], p, head)
      else last.to == head && last.to.Squash? && last.to.parent == last.from
           && Chain(base, ls[..|ls| - 1], p, last.from)
  }

  lemma {:induction false} ChainReaches(base: Commit, ls: seq<Landing>, p: ProjectId, head: Commit, i: nat)
    requires Chain(base, ls, p, head)
    requires i < |ls| && ls[i].project == p
    ensures Anc(ls[i].to, head)
    ensures ls[i].to.Squash? && ls[i].to.parent == ls[i].from
  {
    var n := |ls| - 1;
    var last := ls[n];
    if i < n {
      var rest := ls[..n];
      if last.project == p {
        ChainReaches(base, rest, p, last.from, i);
        AncTrans(ls[i].to, last.from, head);
      } else {
        ChainReaches(base, rest, p, head, i);
      }
    }
  }

  /** Each landing starts from a branch that already contains every earlier one. */
  lemma {:induction false} ChainOrder(base: Commit, ls: seq<Landing>, p: ProjectId, head: Commit, i: nat, j: nat)
    requires Chain(base, ls, p, head)
    requires i < j < |ls| && ls[i].project == p && ls[j].project == p
    ensures Anc(ls[i].to, ls[j].from)
  {
    var n := |ls| - 1;
    var rest := ls[..n];
    if j == n {
      ChainReaches(base, rest, p, ls[n].from, i);
    } else {
      ChainOrder(base, rest, p, if ls[n].project == p then ls[n].from else head, i, j);
    }
  }

  lemma ChainExtend(base: Commit, ls: seq<Landing>, p: ProjectId, head: Commit, l: Landing)
    requires Chain(base, ls, p, head)
    requires l.project == p ==> l.from == head && l.to.Squash? && l.to.parent == l.from
    ensures Chain(base, ls + [l], p, if l.project == p then l.to else head)
  {
    assert (ls + [l])[..|ls|] == ls;
  }

  // ---- what an effect commits to ----

  /** `c` is the one commit effect `e` can produce at the second `c` carries. */
  predicate CommitOf(env: Env, e: Effect, c: Commit) {
    && c.Squash?
    && env.merge(e.payload.expectSha, e.payload.candidate) == Clean(c.tree)
    && c == Squash(c.tree, e.payload.expectSha, e.user, if e.payload.authorName == "" then e.user else e.payload.authorName,
                   BuildMessage(e.payload.subject, e.payload.provenance, e.payload.trailers), c.second, env.signs(e.user))
  }

  /** The spec is the journal row's, at whichever approval time the call read. */
  predicate SpecFits(spec: Spec, e: Effect) {
    spec == RebuiltSpec(spec.effect, e.(approvedTS := Some(spec.when)))
  }

  // ---- the invariant ----

  predicate EffectOk(s: Store, id: EffectId)
    requires id in s.effects
  {
    var e := s.effects[id];
    && e.payload.project in s.local
    && Anc(e.payload.expectSha, Official(s, e.payload.project))
    && (e.state in {Approved, Executing} ==> e.approvedTS.Some?)
    && (e.state in {Executing, Succeeded} ==> e.attempts >= 1)
    && (e.state == Succeeded ==> e.result.Recorded? && Anc(e.result.commit, Official(s, e.payload.project)))
  }

  predicate LandingOk(env: Env, s: Store, l: Landing) {
    && l.effect in s.effects
    && s.effects[l.effect].payload.project == l.project
    && s.effects[l.effect].payload.expectSha == l.from
    && s.effects[l.effect].attempts >= 1
    && CommitOf(env, s.effects[l.effect], l.to)
  }

  predicate HasSucceededEffect(s: Store, d: DeliverableId) {
    exists id :: id in s.effects && s.effects[id].state == Succeeded && s.effects[id].payload.deliverable == d
  }

  ghost predicate HistoryOk(base: map<ProjectId, Commit>, s: Store) {
    && base.Keys == s.local.Keys
    && s.remote.Keys <= s.local.Keys
    && (forall p :: p in base ==> Chain(base[p], s.landings, p, Official(s, p)))
  }

  ghost predicate BranchesOk(s: Store) {
    && s.remote.Keys <= s.local.Keys
    && (forall p :: p in s.remote ==> Anc(s.local[p], s.remote[p]))
    && (forall p :: p in s.inflight ==> p in s.remote && Anc(s.inflight[p].commit, s.remote[p]))
  }

  ghost predicate JournalOk(s: Store) {
    forall id :: id in s.effects ==> EffectOk(s, id)
  }

  ghost predicate LandingsOk(env: Env, s: Store) {
    forall i :: 0 <= i < |s.landings| ==> LandingOk(env, s, s.landings[i])
  }

  predicate AcceptedFromSnapshot(s: Store, d: DeliverableId) {
    d in s.deliverables && s.deliverables[d].state == Accepted && s.deliverables[d].snapshot != ""
  }

  predicate IsAccepted(s: Store, d: DeliverableId) {
    d in s.deliverables && s.deliverables[d].state == Accepted
  }

  /** The record behind an acceptance: a succeeded effect, or the content arm's decision. */
  predicate Accounted(s: Store, d: DeliverableId) {
    HasSucceededEffect(s, d) || d in s.contentAccepts
  }

  ghost predicate ReviewOk(s: Store) {
    forall d :: IsAccepted(s, d) ==> Accounted(s, d)
  }

  ghost predicate StoreOk(env: Env, base: map<ProjectId, Commit>, s: Store) {
    HistoryOk(base, s) && BranchesOk(s) && JournalOk(s) && LandingsOk(env, s) && ReviewOk(s)
  }

  /** The call's spec belongs to a journalled effect that has been put in `executing`. */
  predicate Begun(s: Store, spec: Spec) {
    && spec.effect in s.effects
    && spec.project in s.local
    && SpecFits(spec, s.effects[spec.effect])
    && s.effects[spec.effect].attempts >= 1
  }

  predicate LandedAs(env: Env, s: Store, spec: Spec, commit: Commit) {
    && Begun(s, spec)
    && CommitOf(env, s.effects[spec.effect], commit)
    && Anc(commit, Official(s, spec.project))
  }

  predicate CallOk(env: Env, s: Store, call: Call) {
    var in_ := call.input;
    match call.pc
    case WillAcceptContent => in_.deliverable in s.deliverables
    case WillReadLookahead(_) => in_.project in s.local
    case WillReadHead(_) => in_.project in s.local
    case WillPropose(_, onto) => in_.project in s.local && Anc(onto, Official(s, in_.project))
    case WillApprove(candidate, onto, id) =>
      && in_.project in s.local && id in s.effects
      && s.effects[id].user == in_.user && s.effects[id].payload == PayloadOf(env, in_, candidate, onto)
    case WillBegin(spec) => spec.effect in s.effects && spec.project in s.local && SpecFits(spec, s.effects[spec.effect])
    case WillLand(spec) => Begun(s, spec)
    case WillMark(spec, commit) => spec.project in s.remote && LandedAs(env, s, spec, commit)
    case WillSucceed(spec, commit) => LandedAs(env, s, spec, commit)
    case WillReview(spec, commit) => LandedAs(env, s, spec, commit) && s.effects[spec.effect].state == Succeeded
    case WillAdvance(spec, commit) => spec.project in s.remote && LandedAs(env, s, spec, commit)
    case WillSwap(spec, commit, cur) =>
      && Begun(s, spec)
      && CommitOf(env, s.effects[spec.effect], commit)
      && Anc(cur, commit) && cur != commit
      && (spec.project in s.remote ==> Anc(commit, s.remote[spec.project]))
    case WillFail(spec, _, out) => Begun(s, spec) && (out.MergeCard? || out == Errored || out == ErroredAfterLanding)
    case WillClear(spec, out) => Begun(s, spec) && (Done(out).AcceptedAt? || out == ErroredAfterLanding)
    case WillRoute(out) => out.AcceptedAt? || out.AcceptedContent?
    case _ => true
  }

  ghost predicate Inv(env: Env, base: map<ProjectId, Commit>, w: World) {
    && StoreOk(env, base, w.store)
    && (forall cid :: cid in w.calls ==> CallOk(env, w.store, w.calls[cid]))
  }

  // ---- what no step ever takes back ----

  predicate EffectGrows(e: Effect, e': Effect) {
    && e'.user == e.user && e'.payload == e.payload && e'.attempts >= e.attempts
    && (e.state == Succeeded ==> e' == e)
  }

  /** Branches move forward only, the journal keeps every row, a success is final, history is a prefix. */
  ghost predicate Grows(s: Store, s': Store) {
    && s'.local.Keys == s.local.Keys && s'.remote.Keys == s.remote.Keys && s.remote.Keys <= s.local.Keys
    && (forall p :: p in s.local ==> Anc(Official(s, p), Official(s', p)))
    && (forall p :: p in s.local ==> Anc(s.local[p], s'.local[p]))
    && (forall id :: id in s.effects ==> id in s'.effects && EffectGrows(s.effects[id], s'.effects[id]))
    && s.deliverables.Keys == s'.deliverables.Keys
    && s.landings <= s'.landings && s.contentAccepts <= s'.contentAccepts
  }

  lemma GrowsTrans(a: Store, b: Store, c: Store)
    requires Grows(a, b) && Grows(b, c)
    ensures Grows(a, c)
  {
    forall p | p in a.local
      ensures Anc(Official(a, p), Official(c, p)) && Anc(a.local[p], c.local[p])
    {
      AncTrans(Official(a, p), Official(b, p), Official(c, p));
      AncTrans(a.local[p], b.local[p], c.local[p]);
    }
  }

  /** What a call knows stays true while others act. */
  lemma CallStable(env: Env, s: Store, s': Store, call: Call)
    requires Grows(s, s') && CallOk(env, s, call)
    ensures CallOk(env, s', call)
  {
    match call.pc
    case WillPropose(_, onto) => AncTrans(onto, Official(s, call.input.project), Official(s', call.input.project));
    case WillMark(spec, commit) => AncTrans(commit, Official(s, spec.project), Official(s', spec.project));
    case WillSucceed(spec, commit) => AncTrans(commit, Official(s, spec.project), Official(s', spec.project));
    case WillReview(spec, commit) => AncTrans(commit, Official(s, spec.project), Official(s', spec.project));
    case WillAdvance(spec, commit) => AncTrans(commit, Official(s, spec.project), Official(s', spec.project));
    case WillSwap(spec, commit, _) =>
      if spec.project in s.remote { AncTrans(commit, Official(s, spec.project), Official(s', spec.project)); }
    case _ =>
  }

  lemma EffectStable(s: Store, s': Store, id: EffectId)
    requires Grows(s, s') && id in s.effects && EffectOk(s, id) && s'.effects[id] == s.effects[id]
    ensures EffectOk(s', id)
  {
    var e := s.effects[id];
    var p := e.payload.project;
    AncTrans(e.payload.expectSha, Official(s, p), Official(s', p));
    if e.state == Succeeded { AncTrans(e.result.commit, Official(s, p), Official(s', p)); }
  }

  // ---- the parts of the invariant, kept ----

  lemma JournalKept(s: Store, s': Store)
    requires JournalOk(s) && Grows(s, s')
    requires forall id :: id in s'.effects ==> (id in s.effects && s'.effects[id] == s.effects[id]) || EffectOk(s', id)
    ensures JournalOk(s')
  {
    forall id | id in s'.effects
      ensures EffectOk(s', id)
    {
      if id in s.effects && s'.effects[id] == s.effects[id] { EffectStable(s, s', id); }
    }
  }

  lemma LandingsKept(env: Env, s: Store, s': Store)
    requires LandingsOk(env, s) && Grows(s, s')
    requires forall i :: |s.landings| <= i < |s'.landings| ==> LandingOk(env, s', s'.landings[i])
    ensures LandingsOk(env, s')
  {
    forall i | 0 <= i < |s'.landings|
      ensures LandingOk(env, s', s'.landings[i])
    {
      if i < |s.landings| {
        assert LandingOk(env, s, s.landings[i]) && s'.landings[i] == s.landings[i];
      }
    }
  }

  lemma ReviewKept(s: Store, s': Store)
    requires ReviewOk(s) && Grows(s, s')
    requires forall d :: IsAccepted(s', d) ==> IsAccepted(s, d) || Accounted(s', d)
    ensures ReviewOk(s')
  {
    forall d | IsAccepted(s', d)
      ensures Accounted(s', d)
    {
      if IsAccepted(s, d) && HasSucceededEffect(s, d) {
        var w :| w in s.effects && s.effects[w].state == Succeeded && s.effects[w].payload.deliverable == d;
        assert s'.effects[w] == s.effects[w];
      }
    }
  }

  /** A step that writes the journal row of one effect and nothing else. */
  lemma RowStep(env: Env, base: map<ProjectId, Commit>, s: Store, s': Store, id: EffectId)
    requires StoreOk(env, base, s)
    requires id in s'.effects && s' == s.(effects := s.effects[id := s'.effects[id]])
    requires id in s.effects ==> EffectGrows(s.effects[id], s'.effects[id])
    requires EffectOk(s', id)
    ensures StoreOk(env, base, s') && Grows(s, s')
  {
    assert Grows(s, s');
    JournalKept(s, s');
    LandingsKept(env, s, s');
    ReviewKept(s, s');
  }

  // ---- the two moves of an official branch ----

  /** `s'` is `s` after the official branch of `l.project` moved from `l.from` to its child `l.to`. */
  predicate Lands(s: Store, s': Store, l: Landing) {
    var p := l.project;
    && s.remote.Keys <= s.local.Keys && p in s.local
    && Official(s, p) == l.from && l.to.Squash? && l.to.parent == l.from
    && s' == s.(remote := s'.remote, local := s'.local, landings := s.landings + [l])
    && (if p in s.remote then s'.remote == s.remote[p := l.to] && s'.local == s.local
        else s'.remote == s.remote && s'.local == s.local[p := l.to])
  }

  lemma LandsOfficial(s: Store, s': Store, l: Landing, q: ProjectId)
    requires Lands(s, s', l) && q in s.local
    ensures q in s'.local && Official(s', q) == if q == l.project then l.to else Official(s, q)
    ensures Anc(Official(s, q), Official(s', q)) && Anc(s.local[q], s'.local[q])
  {
    assert Anc(l.to.parent, l.to);
  }

  lemma LandsGrows(s: Store, s': Store, l: Landing)
    requires Lands(s, s', l)
    ensures Grows(s, s')
  {
    forall q | q in s.local
      ensures Anc(Official(s, q), Official(s', q)) && Anc(s.local[q], s'.local[q])
    {
      LandsOfficial(s, s', l, q);
    }
  }

  lemma LandingStep(env: Env, base: map<ProjectId, Commit>, s: Store, s': Store, l: Landing)
    requires StoreOk(env, base, s) && Lands(s, s', l) && LandingOk(env, s, l)
    ensures StoreOk(env, base, s') && Grows(s, s')
  {
    LandsGrows(s, s', l);
    LandingHistory(base, s, s', l);
    LandingBranches(s, s', l);
    JournalKept(s, s');
    assert LandingsOk(env, s') by {
      assert LandingOk(env, s', l);
      LandingsKept(env, s, s');
    }
    assert ReviewOk(s') by { ReviewKept(s, s'); }
  }

  lemma LandingHistory(base: map<ProjectId, Commit>, s: Store, s': Store, l: Landing)
    requires HistoryOk(base, s)
    requires Lands(s, s', l)
    ensures HistoryOk(base, s')
  {
    forall q | q in base
      ensures Chain(base[q], s'.landings, q, Official(s', q))
    {
      LandsOfficial(s, s', l, q);
      ChainExtend(base[q], s.landings, q, Official(s, q), l);
    }
  }

  lemma LandingBranches(s: Store, s': Store, l: Landing)
    requires BranchesOk(s) && Lands(s, s', l)
    ensures BranchesOk(s')
  {
    var p := l.project;
    assert Anc(l.to.parent, l.to);
    if p in s.remote {
      AncTrans(s.local[p], l.from, l.to);
      if p in s.inflight { AncTrans(s.inflight[p].commit, l.from, l.to); }
    }
  }

  lemma PushStep(env: Env, base: map<ProjectId, Commit>, s: Store, spec: Spec, commit: Commit)
    requires StoreOk(env, base, s) && Begun(s, spec) && spec.project in s.remote
    requires CommitOf(env, s.effects[spec.effect], commit)
    ensures StoreOk(env, base, Push(s, spec, commit)) && Grows(s, Push(s, spec, commit))
  {
    var s' := Push(s, spec, commit);
    if PushOutcome(s, spec.project, spec.onto, commit) == Moved {
      LandingStep(env, base, s, s', Landing(spec.project, spec.effect, spec.onto, commit));
    } else {
      SameStore(env, base, s, s');
    }
  }

  /** A step that leaves branches, journal, history and look-ahead alone; review states do not rise. */
  lemma SameStore(env: Env, base: map<ProjectId, Commit>, s: Store, s': Store)
    requires StoreOk(env, base, s)
    requires s' == s.(echoes := s'.echoes, inflight := s'.inflight, deliverables := s'.deliverables, contentAccepts := s'.contentAccepts)
    requires forall p :: p in s'.inflight ==>
               (p in s.inflight && s'.inflight[p] == s.inflight[p])
               || (p in s.remote && Anc(s'.inflight[p].commit, s.remote[p]))
    requires s'.deliverables.Keys == s.deliverables.Keys
    requires s.contentAccepts <= s'.contentAccepts
    requires forall d :: IsAccepted(s', d) ==> IsAccepted(s, d) || HasSucceededEffect(s, d) || d in s'.contentAccepts
    ensures StoreOk(env, base, s') && Grows(s, s')
  {
    assert Grows(s, s');
    assert forall d :: HasSucceededEffect(s, d) ==> HasSucceededEffect(s', d);
    JournalKept(s, s');
    LandingsKept(env, s, s');
    ReviewKept(s, s');
  }

  /** The local landing: the head the swap replaces is the pinned expect-sha itself. */
  lemma SwapBase(env: Env, base: map<ProjectId, Commit>, s: Store, spec: Spec, commit: Commit, cur: Commit)
    requires StoreOk(env, base, s) && Begun(s, spec) && spec.project !in s.remote
    requires CommitOf(env, s.effects[spec.effect], commit)
    requires s.local[spec.project] == cur && Anc(cur, commit) && cur != commit
    ensures cur == spec.onto == commit.parent
  {
    assert EffectOk(s, spec.effect);
    AncAntisym(cur, spec.onto);
  }

  /** The push arm's advance: the local branch catches up inside its remote. */
  lemma CatchUpGrows(s: Store, p: ProjectId, commit: Commit)
    requires s.remote.Keys <= s.local.Keys && p in s.remote && Anc(s.local[p], commit)
    ensures Grows(s, s.(local := s.local[p := commit]))
  {
    var s' := s.(local := s.local[p := commit]);
    forall q | q in s.local
      ensures Official(s', q) == Official(s, q) && Anc(s.local[q], s'.local[q])
    {
    }
  }

  lemma CatchUp(env: Env, base: map<ProjectId, Commit>, s: Store, p: ProjectId, commit: Commit)
    requires StoreOk(env, base, s) && p in s.remote
    requires Anc(s.local[p], commit) && Anc(commit, s.remote[p])
    ensures var s' := s.(local := s.local[p := commit]); StoreOk(env, base, s') && Grows(s, s')
  {
    var s' := s.(local := s.local[p := commit]);
    CatchUpGrows(s, p, commit);
    assert HistoryOk(base, s');
    assert BranchesOk(s');
    JournalKept(s, s');
    assert LandingsOk(env, s') by { LandingsKept(env, s, s'); }
    assert ReviewOk(s') by { ReviewKept(s, s'); }
  }

  lemma SwapStep(env: Env, base: map<ProjectId, Commit>, s: Store, spec: Spec, commit: Commit, cur: Commit, fault: Fault)
    requires StoreOk(env, base, s) && Begun(s, spec) && CommitOf(env, s.effects[spec.effect], commit)
    requires Anc(cur, commit) && cur != commit
    requires spec.project in s.remote ==> Anc(commit, s.remote[spec.project])
    ensures var s' := GoSwap(s, spec, commit, cur, fault).0; StoreOk(env, base, s') && Grows(s, s')
  {
    var s' := GoSwap(s, spec, commit, cur, fault).0;
    if Swaps(s, spec.project, cur, fault) {
      if spec.project in s.remote {
        CatchUp(env, base, s, spec.project, commit);
      } else {
        SwapBase(env, base, s, spec, commit, cur);
        var l := Landing(spec.project, spec.effect, cur, commit);
        assert LandingOk(env, s, l);
        LandingStep(env, base, s, s', l);
      }
    } else {
      SameStore(env, base, s, s');
    }
  }

  // ---- the store through one action of a call ----

  lemma ApproveStep(env: Env, base: map<ProjectId, Commit>, s: Store, id: EffectId, now: int)
    requires StoreOk(env, base, s) && InState(s, id, Proposed)
    ensures StoreOk(env, base, Approve(s, id, now)) && Grows(s, Approve(s, id, now))
  {
    assert EffectOk(s, id);
    RowStep(env, base, s, Approve(s, id, now), id);
  }

  lemma ExpireStep(env: Env, base: map<ProjectId, Commit>, s: Store, id: EffectId)
    requires StoreOk(env, base, s) && InState(s, id, Approved)
    ensures StoreOk(env, base, Expire(s, id)) && Grows(s, Expire(s, id))
  {
    assert EffectOk(s, id);
    RowStep(env, base, s, Expire(s, id), id);
  }

  lemma BeginStep(env: Env, base: map<ProjectId, Commit>, s: Store, id: EffectId)
    requires StoreOk(env, base, s) && InState(s, id, Approved)
    ensures StoreOk(env, base, Begin(s, id)) && Grows(s, Begin(s, id))
  {
    assert EffectOk(s, id);
    RowStep(env, base, s, Begin(s, id), id);
  }

  lemma PushArmStep(env: Env, base: map<ProjectId, Commit>, s: Store, spec: Spec, commit: Commit, fault: Fault)
    requires StoreOk(env, base, s) && Begun(s, spec) && CommitOf(env, s.effects[spec.effect], commit)
    requires spec.project in s.remote
    ensures var s' := GoPush(s, spec, commit, fault).0; StoreOk(env, base, s') && Grows(s, s')
  {
    var s' := GoPush(s, spec, commit, fault).0;
    if s' == s {
      SameStore(env, base, s, s);
    } else {
      PushStep(env, base, s, spec, commit);
    }
  }

  lemma LandStep(env: Env, base: map<ProjectId, Commit>, s: Store, spec: Spec, fault: Fault)
    requires StoreOk(env, base, s) && Begun(s, spec) && GoLand(env, s, spec, fault).0 != s
    ensures var s' := GoLand(env, s, spec, fault).0; StoreOk(env, base, s') && Grows(s, s')
  {
    var commit := Prepare(env, spec, fault).commit;
    if spec.project in s.remote {
      assert CommitOf(env, s.effects[spec.effect], commit);
      PushArmStep(env, base, s, spec, commit, fault);
    } else {
      SameStore(env, base, s, s.(echoes := s.echoes + {spec.effect}));
    }
  }

  lemma FinishStep(env: Env, base: map<ProjectId, Commit>, s: Store, id: EffectId, st: EffectState, result: EffectResult)
    requires StoreOk(env, base, s) && id in s.effects && s.effects[id].state in {Proposed, Executing}
    requires st == Failed || (st == Succeeded && s.effects[id].state == Executing && result.Recorded?
                              && s.effects[id].payload.project in s.local
                              && Anc(result.commit, Official(s, s.effects[id].payload.project)))
    ensures StoreOk(env, base, Finish(s, id, st, result)) && Grows(s, Finish(s, id, st, result))
  {
    assert EffectOk(s, id);
    RowStep(env, base, s, Finish(s, id, st, result), id);
  }

  lemma ReviewStep(env: Env, base: map<ProjectId, Commit>, s: Store, d: DeliverableId)
    requires StoreOk(env, base, s) && d in s.deliverables && HasSucceededEffect(s, d)
    ensures StoreOk(env, base, ReviewAccept(s, d)) && Grows(s, ReviewAccept(s, d))
  {
    SameStore(env, base, s, ReviewAccept(s, d));
  }

  lemma LookaheadStep(env: Env, base: map<ProjectId, Commit>, s: Store, call: Call, io: Io)
    requires StoreOk(env, base, s) && CallOk(env, s, call)
    requires call.pc.WillMark? || call.pc.WillClear?
    ensures var s' := Act(env, s, call, io).0; StoreOk(env, base, s') && Grows(s, s')
  {
    SameStore(env, base, s, Act(env, s, call, io).0);
  }

  lemma BegunStep(env: Env, base: map<ProjectId, Commit>, s: Store, spec: Spec, io: Io)
    requires StoreOk(env, base, s) && GoBegin(env, s, spec, io).0 != s
    ensures var s' := GoBegin(env, s, spec, io).0; StoreOk(env, base, s') && Grows(s, s')
  {
    if Lapsed(env, s, spec.effect, io.now) {
      ExpireStep(env, base, s, spec.effect);
    } else {
      BeginStep(env, base, s, spec.effect);
    }
  }

  lemma ActStoreBefore(env: Env, base: map<ProjectId, Commit>, s: Store, call: Call, io: Io)
    requires StoreOk(env, base, s) && CallOk(env, s, call) && Runnable(s, call, io)
    requires call.pc.WillPropose? || call.pc.WillApprove? || call.pc.WillBegin? || call.pc.WillAcceptContent?
    requires Act(env, s, call, io).0 != s
    ensures var s' := Act(env, s, call, io).0; StoreOk(env, base, s') && Grows(s, s')
  {
    match call.pc {
      case WillPropose(_, _) => RowStep(env, base, s, Act(env, s, call, io).0, io.id);
      case WillApprove(_, _, id) => ApproveStep(env, base, s, id, io.now);
      case WillBegin(spec) => BegunStep(env, base, s, spec, io);
      case WillAcceptContent => SameStore(env, base, s, ContentAccept(s, call.input.deliverable));
    }
  }

  lemma ActStoreAfter(env: Env, base: map<ProjectId, Commit>, s: Store, call: Call, io: Io)
    requires StoreOk(env, base, s) && CallOk(env, s, call) && Runnable(s, call, io)
    requires call.pc.WillSucceed? || call.pc.WillReview? || call.pc.WillFail?
    requires Act(env, s, call, io).0 != s
    ensures var s' := Act(env, s, call, io).0; StoreOk(env, base, s') && Grows(s, s')
  {
    match call.pc {
      case WillSucceed(spec, commit) => SucceedStep(env, base, s, spec, commit, io.fault);
      case WillReview(spec, commit) => ReviewedStep(env, base, s, spec, commit, io.fault);
      case WillFail(spec, reason, _) => FinishStep(env, base, s, spec.effect, Failed, Error(reason));
    }
  }

  lemma SucceedStep(env: Env, base: map<ProjectId, Commit>, s: Store, spec: Spec, commit: Commit, fault: Fault)
    requires StoreOk(env, base, s) && LandedAs(env, s, spec, commit) && GoSucceed(s, spec, commit, fault).0 != s
    ensures var s' := GoSucceed(s, spec, commit, fault).0; StoreOk(env, base, s') && Grows(s, s')
  {
    FinishStep(env, base, s, spec.effect, Succeeded, Recorded(commit, spec.project !in s.remote));
  }

  lemma ReviewedStep(env: Env, base: map<ProjectId, Commit>, s: Store, spec: Spec, commit: Commit, fault: Fault)
    requires StoreOk(env, base, s) && Begun(s, spec) && InState(s, spec.effect, Succeeded) && GoReview(s, spec, commit, fault).0 != s
    ensures var s' := GoReview(s, spec, commit, fault).0; StoreOk(env, base, s') && Grows(s, s')
  {
    assert HasSucceededEffect(s, spec.deliverable);
    ReviewStep(env, base, s, spec.deliverable);
  }

  /** One action of a call keeps the invariant of the store. */
  lemma ActStore(env: Env, base: map<ProjectId, Commit>, s: Store, call: Call, io: Io)
    requires StoreOk(env, base, s) && CallOk(env, s, call) && Runnable(s, call, io)
    ensures var s' := Act(env, s, call, io).0; StoreOk(env, base, s') && Grows(s, s')
  {
    var s' := Act(env, s, call, io).0;
    var pc := call.pc;
    if s' == s {
      SameStore(env, base, s, s);
    } else if pc.WillLand? {
      LandStep(env, base, s, pc.spec, io.fault);
    } else if pc.WillSwap? {
      SwapStep(env, base, s, pc.spec, pc.commit, pc.cur, io.fault);
    } else if pc.WillMark? || pc.WillClear? {
      LookaheadStep(env, base, s, call, io);
    } else if pc.WillSucceed? || pc.WillReview? || pc.WillFail? {
      ActStoreAfter(env, base, s, call, io);
    } else {
      ActStoreBefore(env, base, s, call, io);
    }
  }

  // ---- what the call knows after its own action ----

  lemma PushKnows(env: Env, s: Store, spec: Spec, commit: Commit, fault: Fault)
    requires Begun(s, spec) && CommitOf(env, s.effects[spec.effect], commit) && spec.project in s.remote
    ensures var (s', pc) := GoPush(s, spec, commit, fault); CallOk(env, s', Call(NoInput, pc))
  {
    var (s', pc) := GoPush(s, spec, commit, fault);
    if pc.WillMark? {
      assert Official(s', spec.project) == commit;
    }
  }

  lemma ReadLocalKnows(env: Env, s: Store, spec: Spec, commit: Commit, fault: Fault)
    requires Begun(s, spec) && CommitOf(env, s.effects[spec.effect], commit) && spec.project !in s.remote
    ensures var (s', pc) := GoReadLocal(s, spec, commit, fault); CallOk(env, s', Call(NoInput, pc))
  {
  }

  lemma LandKnows(env: Env, s: Store, spec: Spec, fault: Fault)
    requires Begun(s, spec)
    ensures var (s', pc) := GoLand(env, s, spec, fault); CallOk(env, s', Call(NoInput, pc))
  {
    var prepared := Prepare(env, spec, fault);
    if prepared.Ready? {
      if spec.project in s.remote {
        PushKnows(env, s, spec, prepared.commit, fault);
      } else {
        ReadLocalKnows(env, s, spec, prepared.commit, fault);
      }
    }
  }

  lemma ActKnowsBefore(env: Env, s: Store, call: Call, io: Io)
    requires BranchesOk(s) && CallOk(env, s, call) && Runnable(s, call, io)
    requires call.pc.WillReadLookahead? || call.pc.WillReadHead? || call.pc.WillPropose? || call.pc.WillApprove? || call.pc.WillBegin?
    ensures var (s', pc) := Act(env, s, call, io); CallOk(env, s', call.(pc := pc))
  {
  }

  lemma ActKnowsAfter(env: Env, s: Store, call: Call, io: Io)
    requires CallOk(env, s, call) && Runnable(s, call, io)
    requires call.pc.WillMark? || call.pc.WillSucceed? || call.pc.WillReview? || call.pc.WillAdvance?
    ensures var (s', pc) := Act(env, s, call, io); CallOk(env, s', call.(pc := pc))
  {
  }

  lemma SwapKnows(env: Env, s: Store, call: Call, io: Io)
    requires CallOk(env, s, call) && Runnable(s, call, io) && call.pc.WillSwap?
    ensures var (s', pc) := Act(env, s, call, io); CallOk(env, s', call.(pc := pc))
  {
  }

  lemma ActKnows(env: Env, s: Store, call: Call, io: Io)
    requires BranchesOk(s) && CallOk(env, s, call) && Runnable(s, call, io)
    ensures var (s', pc) := Act(env, s, call, io); CallOk(env, s', call.(pc := pc))
  {
    var pc := call.pc;
    if pc.WillLand? {
      LandKnows(env, s, pc.spec, io.fault);
    } else if pc.WillMark? || pc.WillSucceed? || pc.WillReview? || pc.WillAdvance? {
      ActKnowsAfter(env, s, call, io);
    } else if pc.WillSwap? {
      SwapKnows(env, s, call, io);
    } else if pc.WillReadLookahead? || pc.WillReadHead? || pc.WillPropose? || pc.WillApprove? || pc.WillBegin? {
      ActKnowsBefore(env, s, call, io);
    }
  }

  // ---- every step of the system ----

  lemma StepKeeps(env: Env, base: map<ProjectId, Commit>, w: World, st: Step)
    requires Inv(env, base, w)
    ensures Inv(env, base, Apply(env, w, st)) && Grows(w.store, Apply(env, w, st).store)
  {
    var w' := Apply(env, w, st);
    StoreStepKeeps(env, base, w, st);
    forall cid | cid in w'.calls
      ensures CallOk(env, w'.store, w'.calls[cid])
    {
      CallStepKeeps(env, base, w, st, cid);
    }
  }

  lemma StoreStepKeeps(env: Env, base: map<ProjectId, Commit>, w: World, st: Step)
    requires Inv(env, base, w)
    ensures StoreOk(env, base, Apply(env, w, st).store) && Grows(w.store, Apply(env, w, st).store)
  {
    var s, s' := w.store, Apply(env, w, st).store;
    if s' == s {
      SameStore(env, base, s, s);
    } else {
      match st {
        case Go(cid, io) => ActStore(env, base, s, w.calls[cid], io);
        case Reconcile(id) => ReconcileStep(env, base, s, id);
        case InboxApprove(id, now) => ApproveStep(env, base, s, id, now);
        case InboxDeny(id) => FinishStep(env, base, s, id, Failed, Denied);
        case _ => SameStore(env, base, s, s');
      }
    }
  }

  lemma ReconcileStep(env: Env, base: map<ProjectId, Commit>, s: Store, id: EffectId)
    requires StoreOk(env, base, s) && InState(s, id, Executing)
    ensures StoreOk(env, base, ReturnToApproved(s, id)) && Grows(s, ReturnToApproved(s, id))
  {
    assert EffectOk(s, id);
    RowStep(env, base, s, ReturnToApproved(s, id), id);
  }

  lemma CallStepKeeps(env: Env, base: map<ProjectId, Commit>, w: World, st: Step, cid: CallId)
    requires Inv(env, base, w) && cid in Apply(env, w, st).calls
    ensures CallOk(env, Apply(env, w, st).store, Apply(env, w, st).calls[cid])
  {
    var w' := Apply(env, w, st);
    if st.Go? && st.cid == cid && Runnable(w.store, w.calls[cid], st.io) {
      ActKnows(env, w.store, w.calls[cid], st.io);
    } else if cid in w.calls {
      StoreStepKeeps(env, base, w, st);
      CallStable(env, w.store, w'.store, w.calls[cid]);
    }
  }

  lemma {:induction false} RunKeeps(env: Env, base: map<ProjectId, Commit>, w: World, steps: seq<Step>)
    requires Inv(env, base, w)
    ensures Inv(env, base, Run(env, w, steps)) && Grows(w.store, Run(env, w, steps).store)
  {
    if steps == [] {
      SameStore(env, base, w.store, w.store);
    } else {
      var front := steps[..|steps| - 1];
      RunKeeps(env, base, w, front);
      StepKeeps(env, base, Run(env, w, front), steps[|steps| - 1]);
      GrowsTrans(w.store, Run(env, w, front).store, Run(env, w, steps).store);
    }
  }

  // ---- the theorems ----

  ghost function Base(w0: World): map<ProjectId, Commit>
    requires w0.store.remote.Keys <= w0.store.local.Keys
  {
    map p | p in w0.store.local :: Official(w0.store, p)
  }

  /** Everything a run from a fresh installation reaches satisfies the invariant. */
  lemma ReachableInv(env: Env, w0: World, steps: seq<Step>)
    requires Initial(w0)
    ensures Inv(env, Base(w0), Run(env, w0, steps))
  {
    assert Inv(env, Base(w0), w0);
    RunKeeps(env, Base(w0), w0, steps);
  }

  /** The official branch of every project is one chain of child commits from where it began; each link goes
      from one effect's pinned expect-sha to the commit that effect's payload determines, and stays in history. */
  lemma LandingsFormOneChain(env: Env, w0: World, steps: seq<Step>)
    requires Initial(w0)
    ensures var s := Run(env, w0, steps).store;
            && s.local.Keys == w0.store.local.Keys && s.remote.Keys == w0.store.remote.Keys
            && (forall p :: p in s.local ==> Chain(Official(w0.store, p), s.landings, p, Official(s, p)))
            && (forall l :: l in s.landings ==>
                  l.project in s.local && LandingOk(env, s, l) && l.to.parent == l.from
                  && Anc(l.to, Official(s, l.project)))
  {
    var base := Base(w0);
    ReachableInv(env, w0, steps);
    RunKeeps(env, base, w0, steps);
    var s := Run(env, w0, steps).store;
    forall l | l in s.landings
      ensures l.project in s.local && LandingOk(env, s, l) && l.to.parent == l.from && Anc(l.to, Official(s, l.project))
    {
      var i :| 0 <= i < |s.landings| && s.landings[i] == l;
      assert LandingOk(env, s, s.landings[i]) && EffectOk(s, l.effect);
      ChainReaches(base[l.project], s.landings, l.project, Official(s, l.project), i);
    }
  }

  /** At most once: no effect ever moves an official branch twice, over every interleaving of accepts, crashes,
      reconciles and re-drives, on both arms. */
  lemma AtMostOnceLanding(env: Env, w0: World, steps: seq<Step>, i: nat, j: nat)
    requires Initial(w0)
    requires i < j < |Run(env, w0, steps).store.landings|
    ensures var ls := Run(env, w0, steps).store.landings; ls[i].effect != ls[j].effect
  {
    var s := Run(env, w0, steps).store;
    ReachableInv(env, w0, steps);
    var a, b := s.landings[i], s.landings[j];
    if a.effect == b.effect {
      assert LandingOk(env, s, a) && LandingOk(env, s, b);
      assert EffectOk(s, a.effect);
      var p := a.project;
      ChainOrder(Base(w0)[p], s.landings, p, Official(s, p), i, j);
      AncDepth(a.to, b.from);
      assert false;
    }
  }

  /** Nothing landed is ever dropped: whatever happens next, branches only move forward, the journal keeps its
      rows, a success is final. */
  lemma NothingLandedIsDropped(env: Env, w0: World, steps: seq<Step>, more: seq<Step>)
    requires Initial(w0)
    ensures Grows(Run(env, w0, steps).store, Run(env, w0, steps + more).store)
  {
    var w := Run(env, w0, steps);
    ReachableInv(env, w0, steps);
    RunKeeps(env, Base(w0), w, more);
    RunConcat(env, w0, steps, more);
  }

  lemma {:induction false} RunConcat(env: Env, w: World, a: seq<Step>, b: seq<Step>)
    ensures Run(env, w, a + b) == Run(env, Run(env, w, a), b)
  {
    if b == [] {
      assert a + b == a;
    } else {
      var n := |b| - 1;
      assert (a + b)[..|a + b| - 1] == a + b[..n];
      RunConcat(env, w, a, b[..n]);
    }
  }

  predicate StaysPut(s: Store, s': Store) {
    && s'.landings == s.landings && s'.local.Keys == s.local.Keys && s'.remote == s.remote
    && forall p :: p in s.local && p !in s.remote ==> s'.local[p] == s.local[p]
  }

  /** One official branch has moved, and no other: off the expect-sha its effect pinned, onto the landed commit, for an
      effect already put in `executing`. */
  ghost predicate MovesOnce(s: Store, s': Store) {
    && |s'.landings| == |s.landings| + 1
    && s.remote.Keys <= s.local.Keys && s'.remote.Keys == s.remote.Keys && s'.local.Keys == s.local.Keys
    && var l := s'.landings[|s.landings|];
       && s'.landings == s.landings + [l]
       && l.effect in s.effects && s.effects[l.effect].attempts >= 1 && s.effects[l.effect].payload.expectSha == l.from
       && l.project in s.local && s.effects[l.effect].payload.project == l.project
       && Official(s, l.project) == l.from && Official(s', l.project) == l.to
       && l.to.Squash? && l.to.parent == l.from
       && (forall p :: p in s.local && p != l.project ==> Official(s', p) == Official(s, p))
       && (forall p :: p in s.remote ==> s'.local[p] == s.local[p])
  }

  lemma PushMoves(s: Store, spec: Spec, commit: Commit)
    requires Begun(s, spec) && spec.project in s.remote && s.remote.Keys <= s.local.Keys
    requires commit.Squash? && commit.parent == spec.onto
    ensures StaysPut(s, Push(s, spec, commit)) || MovesOnce(s, Push(s, spec, commit))
  {
  }

  lemma SwapMoves(env: Env, base: map<ProjectId, Commit>, s: Store, spec: Spec, commit: Commit, cur: Commit, fault: Fault)
    requires StoreOk(env, base, s) && Begun(s, spec) && CommitOf(env, s.effects[spec.effect], commit)
    requires Anc(cur, commit) && cur != commit
    ensures var s' := GoSwap(s, spec, commit, cur, fault).0; StaysPut(s, s') || MovesOnce(s, s')
  {
    if spec.project !in s.remote && s.local[spec.project] == cur {
      SwapBase(env, base, s, spec, commit, cur);
      LocalSwapMoves(s, spec, commit, fault);
    }
  }

  lemma LocalSwapMoves(s: Store, spec: Spec, commit: Commit, fault: Fault)
    requires Begun(s, spec) && s.remote.Keys <= s.local.Keys && spec.project !in s.remote
    requires s.local[spec.project] == spec.onto && commit.Squash? && commit.parent == spec.onto
    ensures var s' := GoSwap(s, spec, commit, spec.onto, fault).0; StaysPut(s, s') || MovesOnce(s, s')
  {
  }

  lemma LandMoves(env: Env, s: Store, spec: Spec, fault: Fault)
    requires Begun(s, spec) && s.remote.Keys <= s.local.Keys
    ensures var s' := GoLand(env, s, spec, fault).0; StaysPut(s, s') || MovesOnce(s, s')
  {
    var prepared := Prepare(env, spec, fault);
    if prepared.Ready? && spec.project in s.remote {
      PushMoves(s, spec, prepared.commit);
    }
  }

  lemma OtherActionsStayPut(env: Env, s: Store, call: Call, io: Io)
    requires Runnable(s, call, io) && !call.pc.WillLand? && !call.pc.WillSwap?
    ensures StaysPut(s, Act(env, s, call, io).0)
  {
    match call.pc {
      case WillMark(_, _) => LateActionsStayPut(env, s, call, io);
      case WillSucceed(_, _) => LateActionsStayPut(env, s, call, io);
      case WillReview(_, _) => LateActionsStayPut(env, s, call, io);
      case WillAdvance(_, _) => LateActionsStayPut(env, s, call, io);
      case WillFail(_, _, _) => LateActionsStayPut(env, s, call, io);
      case WillClear(_, _) => LateActionsStayPut(env, s, call, io);
      case WillRoute(_) => LateActionsStayPut(env, s, call, io);
      case _ => EarlyActionsStayPut(env, s, call, io);
    }
  }

  lemma LateActionsStayPut(env: Env, s: Store, call: Call, io: Io)
    requires Runnable(s, call, io)
    requires call.pc.WillMark? || call.pc.WillSucceed? || call.pc.WillReview? || call.pc.WillAdvance? || call.pc.WillFail?
             || call.pc.WillClear? || call.pc.WillRoute?
    ensures StaysPut(s, Act(env, s, call, io).0)
  {
  }

  lemma EarlyActionsStayPut(env: Env, s: Store, call: Call, io: Io)
    requires Runnable(s, call, io)
    requires call.pc.Entered? || call.pc.WillAcceptContent? || call.pc.WillReadLookahead? || call.pc.WillReadHead?
             || call.pc.WillPropose? || call.pc.WillApprove? || call.pc.WillBegin?
    ensures StaysPut(s, Act(env, s, call, io).0)
  {
  }

  lemma ActMoves(env: Env, base: map<ProjectId, Commit>, s: Store, call: Call, io: Io)
    requires StoreOk(env, base, s) && CallOk(env, s, call) && Runnable(s, call, io)
    ensures var s' := Act(env, s, call, io).0; StaysPut(s, s') || MovesOnce(s, s')
  {
    var pc := call.pc;
    if pc.WillSwap? {
      SwapMoves(env, base, s, pc.spec, pc.commit, pc.cur, io.fault);
    } else if pc.WillLand? {
      LandMoves(env, s, pc.spec, io.fault);
    } else {
      OtherActionsStayPut(env, s, call, io);
    }
  }

  /** Write-ahead: a branch moves only for an effect that has been approved and put in `executing`; no other step
      moves an official branch at all. */
  lemma WriteAhead(env: Env, w0: World, steps: seq<Step>, st: Step)
    requires Initial(w0)
    ensures var s, s' := Run(env, w0, steps).store, Run(env, w0, steps + [st]).store; StaysPut(s, s') || MovesOnce(s, s')
  {
    var w := Run(env, w0, steps);
    assert (steps + [st])[..|steps + [st]| - 1] == steps;
    ReachableInv(env, w0, steps);
    if st.Go? && st.cid in w.calls && Runnable(w.store, w.calls[st.cid], st.io) {
      ActMoves(env, Base(w0), w.store, w.calls[st.cid], st.io);
    } else {
      QuietStoreStep(env, w, st);
    }
  }

  lemma QuietStoreStep(env: Env, w: World, st: Step)
    requires !st.Go? || st.cid !in w.calls || !Runnable(w.store, w.calls[st.cid], st.io)
    ensures StaysPut(w.store, Apply(env, w, st).store)
  {
  }

  /** The journal tells the truth: a success names a commit in the branch's history, and an accepted deliverable has a
      succeeded effect naming it or was decided on the content arm. */
  lemma JournalTruth(env: Env, w0: World, steps: seq<Step>)
    requires Initial(w0)
    ensures var s := Run(env, w0, steps).store;
            && (forall id :: id in s.effects && s.effects[id].state == Succeeded ==>
                  var e := s.effects[id];
                  e.payload.project in s.local && e.result.Recorded? && Anc(e.result.commit, Official(s, e.payload.project)))
            && (forall d :: IsAccepted(s, d) ==> HasSucceededEffect(s, d) || d in s.contentAccepts)
  {
    var s := Run(env, w0, steps).store;
    ReachableInv(env, w0, steps);
    assert forall id :: id in s.effects ==> EffectOk(s, id);
  }

  /** A content accept of `d` is under way, past the read that chose its arm, or done. */
  ghost predicate ContentArmTaken(w: World, d: DeliverableId) {
    d in w.store.contentAccepts
    || exists cid :: cid in w.calls && w.calls[cid].pc.WillAcceptContent? && w.calls[cid].input.deliverable == d
  }

  /** The last mint of `d` came after its content arm was taken, and gave it a snapshot. */
  ghost predicate LateMint(env: Env, w0: World, steps: seq<Step>, d: DeliverableId) {
    steps != []
    && var front, last := steps[..|steps| - 1], steps[|steps| - 1];
       if last.Mint? && last.d == d then last.snapshot != "" && ContentArmTaken(Run(env, w0, front), d)
       else LateMint(env, w0, front, d)
  }

  lemma ActKeepsSnapshots(env: Env, s: Store, call: Call, io: Io)
    requires Runnable(s, call, io) && CallOk(env, s, call)
    ensures var (s', pc') := Act(env, s, call, io);
            && s'.deliverables.Keys == s.deliverables.Keys
            && (forall d :: d in s.deliverables ==> s'.deliverables[d].snapshot == s.deliverables[d].snapshot)
            && (s'.contentAccepts == s.contentAccepts || (call.pc.WillAcceptContent? && s'.contentAccepts == s.contentAccepts + {call.input.deliverable}))
            && (pc'.WillAcceptContent? ==> call.input.deliverable in s.deliverables && s.deliverables[call.input.deliverable].snapshot == "")
  {
    match call.pc {
      case WillLand(spec) => LandKeepsReview(env, s, spec, io.fault);
      case WillSwap(_, _, _) => LateKeepsSnapshots(env, s, call, io);
      case WillMark(_, _) => LateKeepsSnapshots(env, s, call, io);
      case WillSucceed(_, _) => LateKeepsSnapshots(env, s, call, io);
      case WillReview(_, _) => LateKeepsSnapshots(env, s, call, io);
      case WillAdvance(_, _) => LateKeepsSnapshots(env, s, call, io);
      case WillFail(_, _, _) => LateKeepsSnapshots(env, s, call, io);
      case WillClear(_, _) => LateKeepsSnapshots(env, s, call, io);
      case WillRoute(_) => LateKeepsSnapshots(env, s, call, io);
      case _ => EarlyKeepsSnapshots(env, s, call, io);
    }
  }

  lemma LateKeepsSnapshots(env: Env, s: Store, call: Call, io: Io)
    requires Runnable(s, call, io)
    requires call.pc.WillSwap? || call.pc.WillMark? || call.pc.WillSucceed? || call.pc.WillReview? || call.pc.WillAdvance?
             || call.pc.WillFail? || call.pc.WillClear? || call.pc.WillRoute?
    ensures var (s', pc') := Act(env, s, call, io);
            && s'.deliverables.Keys == s.deliverables.Keys && s'.contentAccepts == s.contentAccepts && !pc'.WillAcceptContent?
            && (forall d :: d in s.deliverables ==> s'.deliverables[d].snapshot == s.deliverables[d].snapshot)
  {
  }

  lemma EarlyKeepsSnapshots(env: Env, s: Store, call: Call, io: Io)
    requires Runnable(s, call, io) && CallOk(env, s, call)
    requires call.pc.Entered? || call.pc.WillAcceptContent? || call.pc.WillReadLookahead? || call.pc.WillReadHead?
             || call.pc.WillPropose? || call.pc.WillApprove? || call.pc.WillBegin?
    ensures var (s', pc') := Act(env, s, call, io);
            && s'.deliverables.Keys == s.deliverables.Keys
            && (forall d :: d in s.deliverables ==> s'.deliverables[d].snapshot == s.deliverables[d].snapshot)
            && (s'.contentAccepts == s.contentAccepts || (call.pc.WillAcceptContent? && s'.contentAccepts == s.contentAccepts + {call.input.deliverable}))
            && (pc'.WillAcceptContent? ==> call.input.deliverable in s.deliverables && s.deliverables[call.input.deliverable].snapshot == "")
  {
  }

  lemma LandKeepsReview(env: Env, s: Store, spec: Spec, fault: Fault)
    requires spec.project in s.local
    ensures var (s', pc') := GoLand(env, s, spec, fault);
            s'.deliverables == s.deliverables && s'.contentAccepts == s.contentAccepts && !pc'.WillAcceptContent?
  {
  }

  /** A step other than a mint of `d` leaves its snapshot alone, and takes its content arm only while it has none. */
  lemma StepKeepsContent(env: Env, base: map<ProjectId, Commit>, w: World, st: Step, d: DeliverableId)
    requires Inv(env, base, w) && d in w.store.deliverables && !(st.Mint? && st.d == d)
    ensures var w' := Apply(env, w, st);
            && d in w'.store.deliverables && w'.store.deliverables[d].snapshot == w.store.deliverables[d].snapshot
            && (w.store.deliverables[d].snapshot != "" && ContentArmTaken(w', d) ==> ContentArmTaken(w, d))
  {
    if st.Go? && st.cid in w.calls && Runnable(w.store, w.calls[st.cid], st.io) {
      assert CallOk(env, w.store, w.calls[st.cid]);
      ActKeepsSnapshots(env, w.store, w.calls[st.cid], st.io);
      var (s', pc') := Act(env, w.store, w.calls[st.cid], st.io);
      if w.store.deliverables[d].snapshot != "" && ContentArmTaken(At(w, st.cid, s', pc'), d) {
        AtKeepsContent(w, st.cid, s', pc', d);
      }
    } else {
      OutsideKeepsContent(env, w, st, d);
    }
  }

  lemma AtKeepsContent(w: World, cid: CallId, s': Store, pc': Pc, d: DeliverableId)
    requires cid in w.calls && d in w.store.deliverables && w.store.deliverables[d].snapshot != ""
    requires s'.contentAccepts == w.store.contentAccepts
             || (w.calls[cid].pc.WillAcceptContent? && s'.contentAccepts == w.store.contentAccepts + {w.calls[cid].input.deliverable})
    requires pc'.WillAcceptContent? ==> w.calls[cid].input.deliverable != d
    requires ContentArmTaken(At(w, cid, s', pc'), d)
    ensures ContentArmTaken(w, d)
  {
  }

  lemma OutsideKeepsContent(env: Env, w: World, st: Step, d: DeliverableId)
    requires d in w.store.deliverables && !(st.Mint? && st.d == d)
    requires !st.Go? || st.cid !in w.calls || !Runnable(w.store, w.calls[st.cid], st.io)
    ensures var w' := Apply(env, w, st);
            && d in w'.store.deliverables && w'.store.deliverables[d].snapshot == w.store.deliverables[d].snapshot
            && (ContentArmTaken(w', d) ==> ContentArmTaken(w, d))
  {
    var w' := Apply(env, w, st);
    assert w'.store.contentAccepts == w.store.contentAccepts;
    forall cid | cid in w'.calls && w'.calls[cid].pc.WillAcceptContent?
      ensures cid in w.calls && w'.calls[cid] == w.calls[cid]
    {
    }
  }

  lemma {:induction false} MintedLate(env: Env, w0: World, steps: seq<Step>, d: DeliverableId)
    requires Initial(w0) && d in w0.store.deliverables
    ensures var w := Run(env, w0, steps);
            && d in w.store.deliverables
            && (LateMint(env, w0, steps, d) ==> w.store.deliverables[d].snapshot != "")
            && (ContentArmTaken(w, d) && w.store.deliverables[d].snapshot != "" ==> LateMint(env, w0, steps, d))
  {
    if steps != [] {
      var front, last := steps[..|steps| - 1], steps[|steps| - 1];
      MintedLate(env, w0, front, d);
      ReachableInv(env, w0, front);
      if !(last.Mint? && last.d == d) { StepKeepsContent(env, Base(w0), Run(env, w0, front), last, d); }
    }
  }

  /** A deliverable accepted with a snapshot lacks a succeeded effect exactly when it was accepted on the content arm, no
      effect naming it succeeded, and its last mint gave it a snapshot after the content arm had read that it has none. */
  lemma SnapshotAcceptsAreJournalled(env: Env, w0: World, steps: seq<Step>, d: DeliverableId)
    requires Initial(w0)
    ensures var s := Run(env, w0, steps).store;
            AcceptedFromSnapshot(s, d) && !HasSucceededEffect(s, d)
            <==> IsAccepted(s, d) && d in s.contentAccepts && !HasSucceededEffect(s, d) && LateMint(env, w0, steps, d)
  {
    JournalTruth(env, w0, steps);
    RunKeeps(env, Base(w0), w0, steps) by { ReachableInv(env, w0, []); }
    if d in w0.store.deliverables { MintedLate(env, w0, steps, d); }
  }

  /** Such a run: a content acceptance, then a revision that pins a snapshot. */
  lemma MintAfterContentAccept(env: Env, w0: World, in_: Input, snapshot: string)
    requires Initial(w0) && in_.user != "" && in_.deliverable != "" && snapshot != ""
    requires in_.deliverable in w0.store.deliverables && w0.store.deliverables[in_.deliverable] == Deliverable(InReview, "")
    ensures var io := Io(0, "", NoFault);
            var s := Run(env, w0, [Enter(0, in_), Go(0, io), Go(0, io), Mint(in_.deliverable, snapshot)]).store;
            AcceptedFromSnapshot(s, in_.deliverable) && s.effects == map[]
  {
    var io := Io(0, "", NoFault);
    RunFour(env, w0, Enter(0, in_), Go(0, io), Go(0, io), Mint(in_.deliverable, snapshot));
    ContentAcceptEnds(env, w0, in_);
    MintAfter(env, Apply(env, Apply(env, Apply(env, w0, Enter(0, in_)), Go(0, io)), Go(0, io)), in_.deliverable, snapshot);
  }

  lemma RunTwo(env: Env, w: World, a: Step, b: Step)
    ensures Run(env, w, [a, b]) == Apply(env, Apply(env, w, a), b)
  {
    assert [a, b][..1] == [a] && [a][..0] == [];
    assert Run(env, w, [a, b]) == Apply(env, Run(env, w, [a]), b);
    assert Run(env, w, [a]) == Apply(env, Run(env, w, []), a);
  }

  lemma RunFour(env: Env, w0: World, a: Step, b: Step, c: Step, d: Step)
    ensures Run(env, w0, [a, b, c, d]) == Apply(env, Apply(env, Apply(env, Apply(env, w0, a), b), c), d)
  {
    RunConcat(env, w0, [a, b], [c, d]);
    RunTwo(env, w0, a, b);
    RunTwo(env, Run(env, w0, [a, b]), c, d);
    assert [a, b, c, d] == [a, b] + [c, d];
  }

  lemma MintAfter(env: Env, w: World, d: DeliverableId, snapshot: string)
    requires IsAccepted(w.store, d) && snapshot != ""
    ensures AcceptedFromSnapshot(Apply(env, w, Mint(d, snapshot)).store, d)
    ensures Apply(env, w, Mint(d, snapshot)).store.effects == w.store.effects
  {
  }

  lemma ContentAcceptEnds(env: Env, w0: World, in_: Input)
    requires Initial(w0) && in_.user != "" && in_.deliverable != ""
    requires in_.deliverable in w0.store.deliverables && w0.store.deliverables[in_.deliverable] == Deliverable(InReview, "")
    ensures var io := Io(0, "", NoFault);
            Apply(env, Apply(env, Apply(env, w0, Enter(0, in_)), Go(0, io)), Go(0, io)).store == ContentAccept(w0.store, in_.deliverable)
  {
    var io := Io(0, "", NoFault);
    var w1 := Apply(env, w0, Enter(0, in_));
    assert w1 == World(w0.store, map[0 := Call(in_, Entered)]);
    var w2 := Apply(env, w1, Go(0, io));
    assert w2.store == w0.store && 0 in w2.calls && w2.calls[0] == Call(in_, WillAcceptContent);
  }

  lemma RunStep(env: Env, w0: World, steps: seq<Step>, st: Step)
    ensures Run(env, w0, steps + [st]) == Apply(env, Run(env, w0, steps), st)
  {
    assert (steps + [st])[..|steps|] == steps;
  }

  // ---- review states only move on ----

  function Stage(st: ReviewState): nat {
    match st
    case InReview => 0
    case Accepted => 1
    case Superseded => 2
  }

  /** In review, then accepted, then superseded, and never back. */
  ghost predicate MovesOn(s: Store, s': Store) {
    forall d :: d in s.deliverables ==> d in s'.deliverables && Stage(s.deliverables[d].state) <= Stage(s'.deliverables[d].state)
  }

  lemma LateMovesOn(env: Env, s: Store, call: Call, io: Io)
    requires Runnable(s, call, io)
    requires call.pc.WillReview? || call.pc.WillAcceptContent?
    ensures MovesOn(s, Act(env, s, call, io).0)
  {
  }

  lemma OthersKeepReview(env: Env, s: Store, call: Call, io: Io)
    requires Runnable(s, call, io) && !call.pc.WillReview? && !call.pc.WillAcceptContent? && !call.pc.WillLand? && !call.pc.WillSwap?
    ensures Act(env, s, call, io).0.deliverables == s.deliverables
  {
  }

  lemma SwapKeepsReview(s: Store, spec: Spec, commit: Commit, cur: Commit, fault: Fault)
    requires spec.project in s.local
    ensures GoSwap(s, spec, commit, cur, fault).0.deliverables == s.deliverables
  {
  }

  lemma ActMovesOn(env: Env, s: Store, call: Call, io: Io)
    requires Runnable(s, call, io)
    ensures MovesOn(s, Act(env, s, call, io).0)
  {
    match call.pc {
      case WillReview(_, _) => LateMovesOn(env, s, call, io);
      case WillAcceptContent => LateMovesOn(env, s, call, io);
      case WillLand(spec) => LandKeepsReview(env, s, spec, io.fault);
      case WillSwap(spec, commit, cur) => SwapKeepsReview(s, spec, commit, cur, io.fault);
      case _ => OthersKeepReview(env, s, call, io);
    }
  }

  lemma StepMovesOn(env: Env, w: World, st: Step)
    ensures MovesOn(w.store, Apply(env, w, st).store)
  {
    if st.Go? && st.cid in w.calls && Runnable(w.store, w.calls[st.cid], st.io) {
      ActMovesOn(env, w.store, w.calls[st.cid], st.io);
    }
  }

  /** In every run a superseded deliverable is never accepted again and an accepted one never goes back to review. */
  lemma {:induction false} ReviewMovesOn(env: Env, w0: World, steps: seq<Step>)
    ensures MovesOn(w0.store, Run(env, w0, steps).store)
  {
    if steps != [] {
      ReviewMovesOn(env, w0, steps[..|steps| - 1]);
      StepMovesOn(env, Run(env, w0, steps[..|steps| - 1]), steps[|steps| - 1]);
    }
  }

  /** The content-pinned arm decides and touches nothing else: no effect, no branch, no look-ahead. */
  lemma ContentArmTouchesReviewOnly(env: Env, s: Store, in_: Input, io: Io, io': Io)
    requires in_.deliverable in s.deliverables && s.deliverables[in_.deliverable].snapshot == ""
    ensures var (s1, pc1) := Act(env, s, Call(in_, Entered), io);
            && s1 == s && (pc1.Returned? || pc1 == WillAcceptContent)
            && var s2 := Act(env, s, Call(in_, WillAcceptContent), io').0;
               s2.(deliverables := s.deliverables, contentAccepts := s.contentAccepts) == s
  {
  }

  /** Confluence, the safety half: on the push arm, whatever order stacked accepts reach their advance in, the
      local branch is inside its remote and the decision is never a divergence. */
  lemma AdvanceNeverDiverges(env: Env, w0: World, steps: seq<Step>, cid: CallId)
    requires Initial(w0)
    ensures var w := Run(env, w0, steps);
            && (forall p :: p in w.store.remote ==> p in w.store.local && Anc(w.store.local[p], w.store.remote[p]))
            && (cid in w.calls && w.calls[cid].pc.WillAdvance? ==>
                  var pc := w.calls[cid].pc;
                  pc.spec.project in w.store.local
                  && DecideAdvance(w.store.local[pc.spec.project], pc.commit) != Diverged)
  {
    var w := Run(env, w0, steps);
    ReachableInv(env, w0, steps);
    if cid in w.calls && w.calls[cid].pc.WillAdvance? {
      var pc := w.calls[cid].pc;
      assert CallOk(env, w.store, w.calls[cid]);
      AncLinear(pc.commit, w.store.local[pc.spec.project], w.store.remote[pc.spec.project]);
    }
  }

  /** The re-drive rebuilds from the journal row exactly the spec the accept used. */
  lemma RedriveRebuildsSpec(env: Env, s: Store, in_: Input, candidate: string, onto: Commit, id: EffectId, now: int)
    requires InState(s, id, Proposed) && s.effects[id].user == in_.user
    requires s.effects[id].payload == PayloadOf(env, in_, candidate, onto)
    ensures RebuiltSpec(id, Approve(s, id, now).effects[id]) == FreshSpec(env, in_, candidate, onto, id, now)
  {
  }
}
