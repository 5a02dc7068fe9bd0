/**
 The accept as a whole: what its answer says about the store it found and the store it leaves, whatever fails on the way,
 and, when nothing fails, which answer it gives.
 */
module AcceptAnswers {
  import opened Wrappers
  import opened AcceptWorld
  import opened AcceptSafety
  import opened AcceptSolo
  import AcceptBoot

  // ---- what an accept finds ----

  /** The input names a deliverable in review and who accepts it. */
  predicate Reviewable(s: Store, in_: Input) {
    && in_.deliverable != "" && in_.user != ""
    && in_.deliverable in s.deliverables && s.deliverables[in_.deliverable].state == InReview
  }

  /** The input names a registered project and somebody to attribute the work to. */
  predicate Attributable(s: Store, in_: Input) {
    in_.project in s.local && in_.project != "" && in_.engine != "" && in_.model != "" && in_.vendorNoreply != ""
  }

  /** What the accept is to apply cleanly to: the commit in flight on the project, or its local head. */
  function BaseOf(s: Store, p: ProjectId): Commit
    requires p in s.local
  {
    match AcceptBoot.Get(s.inflight, p)
    case Some(entry) => entry.commit
    case None => s.local[p]
  }

  /** Both parts of the look-ahead are read, or its entry alone. */
  function ProposesAt(s: Store, p: ProjectId): nat {
    if p in s.inflight then 2 else 3
  }

  predicate Comparable(a: Commit, b: Commit) { Anc(a, b) || Anc(b, a) }

  // ---- the execute phase: the card it answers ----

  /** What a merge card says is so: the base and the candidate conflict, or the branch is neither where the effect pinned it
      nor at the commit already. */
  predicate CardTrue(env: Env, s: Store, spec: Spec, reason: string) {
    match env.merge(spec.onto, spec.candidate)
    case Conflict(_) => reason == "applies-clean-collision"
    case Clean(tree) =>
      && reason == "lease-rejected"
      && var c := SquashOf(env, spec, tree);
         if spec.project in s.remote then s.remote[spec.project] != c && s.remote[spec.project] != spec.onto
         else spec.project in s.local && !Comparable(c, s.local[spec.project])
  }

  /** The commit is the candidate squashed onto the pinned base: the merged tree, signed off as the effect says. */
  predicate IsSquash(env: Env, spec: Spec, c: Commit) {
    && c.Squash? && env.merge(spec.onto, spec.candidate) == Clean(c.tree)
    && c == Squash(c.tree, spec.onto, spec.user, if spec.authorName == "" then spec.user else spec.authorName,
                   BuildMessage(spec.subject, spec.provenance, spec.trailers), spec.when / NANOS, env.signs(spec.user))
  }

  predicate SaysTrue(env: Env, s: Store, spec: Spec, out: Outcome) {
    && (out.ErrorAfter? ==> out.done.AcceptedAt?)
    && match Done(out)
       case MergeCard(reason) => CardTrue(env, s, spec, reason)
       case AcceptedAt(_, c) => IsSquash(env, spec, c)
       case _ => true
  }

  predicate StageTrue(env: Env, s: Store, spec: Spec, pc: Pc) {
    match pc
    case WillMark(_, c) => IsSquash(env, spec, c)
    case WillSucceed(_, c) => IsSquash(env, spec, c)
    case WillReview(_, c) => IsSquash(env, spec, c)
    case WillAdvance(_, c) => IsSquash(env, spec, c)
    case WillSwap(_, c, _) => IsSquash(env, spec, c)
    case WillFail(_, _, out) => SaysTrue(env, s, spec, out)
    case WillClear(_, out) => SaysTrue(env, s, spec, out)
    case WillRoute(out) => SaysTrue(env, s, spec, out)
    case Returned(out) => SaysTrue(env, s, spec, out)
    case _ => true
  }

  lemma LandSaysTrue(env: Env, s: Store, spec: Spec, fault: Fault)
    requires spec.project in s.local
    ensures StageTrue(env, s, spec, GoLand(env, s, spec, fault).1)
  {
  }

  lemma {:induction false} SoloSaysTrue(env: Env, s0: Store, s: Store, spec: Spec, call: Call, ios: nat -> Io, k: nat, lost: bool)
    requires Midway(s0, s, spec, call.pc, lost) && StageTrue(env, s0, spec, call.pc)
    ensures StageTrue(env, s0, spec, Solo(env, s, call, ios, k).1)
    decreases Rank(s, call.pc)
  {
    SoloUnfolds(env, s, call, ios, k);
    if Runnable(s, call, ios(k)) {
      RankDrops(env, s, call, ios(k));
      ActMidway(env, s0, s, spec, call, ios(k), lost);
      ActSaysTrue(env, s0, s, spec, call, ios(k), lost);
      var (s', pc') := Act(env, s, call, ios(k));
      SoloSaysTrue(env, s0, s', spec, call.(pc := pc'), ios, k + 1, lost || LosesFail(call.pc, ios(k)));
    }
  }

  lemma ActSaysTrue(env: Env, s0: Store, s: Store, spec: Spec, call: Call, io: Io, lost: bool)
    requires Midway(s0, s, spec, call.pc, lost) && StageTrue(env, s0, spec, call.pc) && Runnable(s, call, io)
    ensures StageTrue(env, s0, spec, Act(env, s, call, io).1)
  {
    if call.pc.WillLand? {
      LandSaysTrue(env, s, spec, io.fault);
    } else {
      LateSaysTrue(env, s0, s, spec, call, io, lost);
    }
  }

  lemma LateSaysTrue(env: Env, s0: Store, s: Store, spec: Spec, call: Call, io: Io, lost: bool)
    requires Midway(s0, s, spec, call.pc, lost) && StageTrue(env, s0, spec, call.pc) && Runnable(s, call, io) && !call.pc.WillLand?
    ensures StageTrue(env, s0, spec, Act(env, s, call, io).1)
  {
  }

  // ---- the execute phase, when nothing fails ----

  ghost predicate Faultless(ios: nat -> Io) {
    forall k :: ios(k).fault == NoFault
  }

  lemma FromClear(env: Env, s: Store, in_: Input, spec: Spec, out: Outcome, ios: nat -> Io, k: nat)
    requires Faultless(ios)
    ensures Solo(env, s, Call(in_, WillClear(spec, out)), ios, k).1 == Returned(out)
  {
    SoloUnfolds(env, s, Call(in_, WillClear(spec, out)), ios, k);
  }

  /** Giving up writes the failure and its reason on the executing row, if the write goes through. */
  lemma FromFail(env: Env, s: Store, in_: Input, spec: Spec, reason: string, out: Outcome, ios: nat -> Io, k: nat)
    ensures Solo(env, s, Call(in_, WillFail(spec, reason, out)), ios, k)
            == (if ios(k).fault == NoFault && spec.effect in s.effects && s.effects[spec.effect].state == Executing then
                  s.(effects := s.effects[spec.effect := s.effects[spec.effect].(state := Failed, result := Error(reason))])
                else s,
                Returned(out))
  {
    SoloUnfolds(env, s, Call(in_, WillFail(spec, reason, out)), ios, k);
  }

  lemma FromSwap(env: Env, s: Store, in_: Input, spec: Spec, c: Commit, ios: nat -> Io, k: nat)
    requires Faultless(ios) && spec.project in s.remote && spec.project in s.local
    ensures Solo(env, s, Call(in_, WillSwap(spec, c, s.local[spec.project])), ios, k).1 == Returned(AcceptedAt(spec.effect, c))
  {
    var cur := s.local[spec.project];
    SoloUnfolds(env, s, Call(in_, WillSwap(spec, c, cur)), ios, k);
    FromClear(env, GoSwap(s, spec, c, cur, NoFault).0, in_, spec, AcceptedAt(spec.effect, c), ios, k + 1);
  }

  /** What the push arm answers once the deliverable is accepted. */
  function PushedAnswer(s: Store, spec: Spec, c: Commit): Outcome
    requires spec.project in s.local
  {
    if Comparable(c, s.local[spec.project]) then AcceptedAt(spec.effect, c) else ErroredAfterLanding
  }

  lemma FromAdvance(env: Env, s: Store, in_: Input, spec: Spec, c: Commit, ios: nat -> Io, k: nat)
    requires Faultless(ios) && spec.project in s.remote && spec.project in s.local
    ensures Solo(env, s, Call(in_, WillAdvance(spec, c)), ios, k).1 == Returned(PushedAnswer(s, spec, c))
  {
    SoloUnfolds(env, s, Call(in_, WillAdvance(spec, c)), ios, k);
    FromClear(env, s, in_, spec, AcceptedAt(spec.effect, c), ios, k + 1);
    FromClear(env, s, in_, spec, ErroredAfterLanding, ios, k + 1);
    FromSwap(env, s, in_, spec, c, ios, k + 1);
  }

  lemma FromReview(env: Env, s: Store, in_: Input, spec: Spec, c: Commit, ios: nat -> Io, k: nat)
    requires Faultless(ios) && spec.project in s.local && CanAccept(s, spec.deliverable)
    ensures Solo(env, s, Call(in_, WillReview(spec, c)), ios, k).1
            == Returned(if spec.project in s.remote then PushedAnswer(s, spec, c) else AcceptedAt(spec.effect, c))
  {
    var reviewed := ReviewAccept(s, spec.deliverable);
    SoloUnfolds(env, s, Call(in_, WillReview(spec, c)), ios, k);
    if spec.project in s.remote {
      FromAdvance(env, reviewed, in_, spec, c, ios, k + 1);
    } else {
      SoloUnfolds(env, reviewed, Call(in_, WillRoute(AcceptedAt(spec.effect, c))), ios, k + 1);
    }
  }

  lemma FromSucceed(env: Env, s: Store, in_: Input, spec: Spec, c: Commit, ios: nat -> Io, k: nat)
    requires Faultless(ios) && spec.project in s.local && CanAccept(s, spec.deliverable) && InState(s, spec.effect, Executing)
    ensures Solo(env, s, Call(in_, WillSucceed(spec, c)), ios, k).1
            == Returned(if spec.project in s.remote then PushedAnswer(s, spec, c) else AcceptedAt(spec.effect, c))
  {
    SoloUnfolds(env, s, Call(in_, WillSucceed(spec, c)), ios, k);
    FromReview(env, GoSucceed(s, spec, c, NoFault).0, in_, spec, c, ios, k + 1);
  }

  lemma FromMark(env: Env, s: Store, in_: Input, spec: Spec, c: Commit, ios: nat -> Io, k: nat)
    requires Faultless(ios) && spec.project in s.local && spec.project in s.remote
    requires CanAccept(s, spec.deliverable) && InState(s, spec.effect, Executing)
    ensures Solo(env, s, Call(in_, WillMark(spec, c)), ios, k).1 == Returned(PushedAnswer(s, spec, c))
  {
    SoloUnfolds(env, s, Call(in_, WillMark(spec, c)), ios, k);
    FromSucceed(env, MarkInflight(s, spec.project, spec.effect, c), in_, spec, c, ios, k + 1);
  }

  /** What an execute phase past its begin answers when nothing fails. */
  function LandingAnswer(env: Env, s: Store, spec: Spec): Outcome
    requires spec.project in s.local
  {
    match env.merge(spec.onto, spec.candidate)
    case Conflict(_) => MergeCard("applies-clean-collision")
    case Clean(tree) =>
      var c := SquashOf(env, spec, tree);
      if spec.project in s.remote then
        if s.remote[spec.project] == c || s.remote[spec.project] == spec.onto then PushedAnswer(s, spec, c)
        else MergeCard("lease-rejected")
      else if Comparable(c, s.local[spec.project]) then AcceptedAt(spec.effect, c)
      else MergeCard("lease-rejected")
  }

  lemma FromLand(env: Env, s: Store, in_: Input, spec: Spec, ios: nat -> Io, k: nat)
    requires Faultless(ios) && spec.project in s.local && CanAccept(s, spec.deliverable) && InState(s, spec.effect, Executing)
    ensures Solo(env, s, Call(in_, WillLand(spec)), ios, k).1 == Returned(LandingAnswer(env, s, spec))
  {
    SoloUnfolds(env, s, Call(in_, WillLand(spec)), ios, k);
    match env.merge(spec.onto, spec.candidate) {
      case Conflict(_) =>
        FromFail(env, s, in_, spec, "collision", MergeCard("applies-clean-collision"), ios, k + 1);
      case Clean(tree) =>
        if spec.project in s.remote {
          FromPush(env, s, in_, spec, SquashOf(env, spec, tree), ios, k);
        } else {
          FromReadLocal(env, s, in_, spec, SquashOf(env, spec, tree), ios, k);
        }
    }
  }

  lemma FromPush(env: Env, s: Store, in_: Input, spec: Spec, c: Commit, ios: nat -> Io, k: nat)
    requires Faultless(ios) && spec.project in s.local && spec.project in s.remote
    requires CanAccept(s, spec.deliverable) && InState(s, spec.effect, Executing)
    ensures var (s', pc') := GoPush(s, spec, c, NoFault);
            Solo(env, s', Call(in_, pc'), ios, k + 1).1
            == Returned(if s.remote[spec.project] == c || s.remote[spec.project] == spec.onto then PushedAnswer(s, spec, c)
                        else MergeCard("lease-rejected"))
  {
    var (s', pc') := GoPush(s, spec, c, NoFault);
    if pc'.WillMark? {
      FromMark(env, s', in_, spec, c, ios, k + 1);
    } else {
      FromFail(env, s', in_, spec, "lease rejected", MergeCard("lease-rejected"), ios, k + 1);
    }
  }

  lemma FromReadLocal(env: Env, s: Store, in_: Input, spec: Spec, c: Commit, ios: nat -> Io, k: nat)
    requires Faultless(ios) && spec.project in s.local && spec.project !in s.remote
    requires CanAccept(s, spec.deliverable) && InState(s, spec.effect, Executing)
    ensures var (s', pc') := GoReadLocal(s, spec, c, NoFault);
            Solo(env, s', Call(in_, pc'), ios, k + 1).1
            == Returned(if Comparable(c, s.local[spec.project]) then AcceptedAt(spec.effect, c) else MergeCard("lease-rejected"))
  {
    var (s', pc') := GoReadLocal(s, spec, c, NoFault);
    if pc'.WillSucceed? {
      FromSucceed(env, s', in_, spec, c, ios, k + 1);
    } else if pc'.WillSwap? {
      SoloUnfolds(env, s', Call(in_, pc'), ios, k + 1);
      FromSucceed(env, GoSwap(s', spec, c, pc'.cur, NoFault).0, in_, spec, c, ios, k + 2);
    } else {
      FromFail(env, s', in_, spec, "default branch moved", MergeCard("lease-rejected"), ios, k + 1);
    }
  }

  /** The approval stands and its window has not passed. */
  predicate StandsAt(env: Env, s: Store, id: EffectId, now: int) {
    && id in s.effects && s.effects[id].state == AcceptWorld.Approved
    && (s.effects[id].approvedTS.Some? ==> now <= s.effects[id].approvedTS.value + env.expiry)
  }

  lemma FromBegin(env: Env, s: Store, in_: Input, spec: Spec, ios: nat -> Io, k: nat)
    requires Faultless(ios) && StandsAt(env, s, spec.effect, ios(k).now)
    ensures Solo(env, s, Call(in_, WillBegin(spec)), ios, k) == Solo(env, Begin(s, spec.effect), Call(in_, WillLand(spec)), ios, k + 1)
  {
    SoloUnfolds(env, s, Call(in_, WillBegin(spec)), ios, k);
  }

  /** An approval whose window has passed goes back to proposed; any other row that is not approved stays as it is. */
  lemma NeverBegins(env: Env, s: Store, in_: Input, spec: Spec, ios: nat -> Io, k: nat)
    requires !StandsAt(env, s, spec.effect, ios(k).now)
    ensures Solo(env, s, Call(in_, WillBegin(spec)), ios, k)
            == (if ios(k).fault == NoFault && spec.effect in s.effects && s.effects[spec.effect].state == AcceptWorld.Approved then
                  s.(effects := s.effects[spec.effect := s.effects[spec.effect].(state := Proposed, approvedTS := None)])
                else s,
                Returned(Errored))
  {
    SoloUnfolds(env, s, Call(in_, WillBegin(spec)), ios, k);
    SoloUnfolds(env, GoBegin(env, s, spec, ios(k)).0, Call(in_, Returned(Errored)), ios, k + 1);
  }

  /** What an execute phase answers when nothing fails. */
  lemma ExecuteAnswersExactly(env: Env, s: Store, in_: Input, spec: Spec, ios: nat -> Io, k: nat)
    requires Faultless(ios) && spec.project in s.local && CanAccept(s, spec.deliverable)
    ensures Solo(env, s, Call(in_, WillBegin(spec)), ios, k).1
            == Returned(if StandsAt(env, s, spec.effect, ios(k).now) then LandingAnswer(env, s, spec) else Errored)
  {
    if StandsAt(env, s, spec.effect, ios(k).now) {
      FromBegin(env, s, in_, spec, ios, k);
      FromLand(env, Begin(s, spec.effect), in_, spec, ios, k + 1);
    } else {
      NeverBegins(env, s, in_, spec, ios, k);
    }
  }

  // ---- the accept, up to its execute phase ----

  /** The deliverable pins a snapshot, and the input can carry it. */
  predicate Proposable(s: Store, in_: Input) {
    Reviewable(s, in_) && s.deliverables[in_.deliverable].snapshot != "" && Attributable(s, in_)
  }

  lemma Refuses(env: Env, s: Store, in_: Input, ios: nat -> Io)
    requires !Reviewable(s, in_) || (s.deliverables[in_.deliverable].snapshot != "" && !Attributable(s, in_))
    ensures Solo(env, s, Call(in_, Entered), ios, 0) == (s, Returned(Errored))
  {
    SoloUnfolds(env, s, Call(in_, Entered), ios, 0);
    SoloUnfolds(env, s, Call(in_, Returned(Errored)), ios, 1);
  }

  lemma ReachesContent(env: Env, s: Store, in_: Input, ios: nat -> Io)
    requires Reviewable(s, in_) && s.deliverables[in_.deliverable].snapshot == ""
    ensures Solo(env, s, Call(in_, Entered), ios, 0)
            == if ios(0).fault != NoFault then (s, Returned(Errored)) else Solo(env, s, Call(in_, WillAcceptContent), ios, 1)
  {
    SoloUnfolds(env, s, Call(in_, Entered), ios, 0);
    SoloUnfolds(env, s, Call(in_, Returned(Errored)), ios, 1);
  }

  lemma FromContent(env: Env, s: Store, in_: Input, ios: nat -> Io, k: nat)
    requires in_.deliverable in s.deliverables && s.deliverables[in_.deliverable].state == InReview
    ensures Solo(env, s, Call(in_, WillAcceptContent), ios, k)
            == if ios(k).fault != NoFault then (s, Returned(Errored))
               else (ContentAccept(s, in_.deliverable),
                     Returned(if in_.project == "" || ios(k + 1).fault == NoFault then AcceptedContent else ErrorAfter(AcceptedContent)))
  {
    var accepted := ContentAccept(s, in_.deliverable);
    SoloUnfolds(env, s, Call(in_, WillAcceptContent), ios, k);
    SoloUnfolds(env, s, Call(in_, Returned(Errored)), ios, k + 1);
    SoloUnfolds(env, accepted, Call(in_, WillRoute(AcceptedContent)), ios, k + 1);
    SoloUnfolds(env, accepted, Call(in_, Returned(AcceptedContent)), ios, k + 1);
  }

  /** The content arm: the deliverable is accepted and nothing else has happened, or nothing has happened. */
  lemma ContentArm(env: Env, s: Store, in_: Input, ios: nat -> Io)
    requires Reviewable(s, in_) && s.deliverables[in_.deliverable].snapshot == ""
    ensures var (s', pc') := Solo(env, s, Call(in_, Entered), ios, 0);
            || (!Faultless(ios) && s' == s && pc' == Returned(Errored))
            || (pc'.Returned? && Done(pc'.out) == AcceptedContent && (Faultless(ios) ==> pc'.out == AcceptedContent)
                && s' == s.(deliverables := s.deliverables[in_.deliverable := Deliverable(Accepted, "")],
                            contentAccepts := s.contentAccepts + {in_.deliverable}))
  {
    ReachesContent(env, s, in_, ios);
    FromContent(env, s, in_, ios, 1);
  }

  /** The snapshot arm reads its base, or fails at a read. */
  lemma ReachesPropose(env: Env, s: Store, in_: Input, ios: nat -> Io)
    requires Proposable(s, in_)
    ensures var candidate := s.deliverables[in_.deliverable].snapshot;
            || (!Faultless(ios) && Solo(env, s, Call(in_, Entered), ios, 0) == (s, Returned(Errored)))
            || Solo(env, s, Call(in_, Entered), ios, 0)
               == Solo(env, s, Call(in_, WillPropose(candidate, BaseOf(s, in_.project))), ios, ProposesAt(s, in_.project))
  {
    var candidate := s.deliverables[in_.deliverable].snapshot;
    SoloUnfolds(env, s, Call(in_, Entered), ios, 0);
    SoloUnfolds(env, s, Call(in_, Returned(Errored)), ios, 1);
    SoloUnfolds(env, s, Call(in_, WillReadLookahead(candidate)), ios, 1);
    SoloUnfolds(env, s, Call(in_, WillReadHead(candidate)), ios, 2);
    SoloUnfolds(env, s, Call(in_, Returned(Errored)), ios, 3);
  }

  /** The store once the effect is approved. */
  function ApprovedStore(env: Env, s: Store, in_: Input, candidate: string, onto: Commit, id: EffectId, now: int): Store {
    s.(effects := s.effects[id := Effect(in_.user, PayloadOf(env, in_, candidate, onto), AcceptWorld.Approved, Some(now), 0, NoResult)])
  }

  /** The applies-cleanly gate. */
  lemma AtThePropose(env: Env, s: Store, in_: Input, candidate: string, onto: Commit, ios: nat -> Io, k: nat)
    requires in_.project in s.local && ios(k).id !in s.effects
    ensures var r := Solo(env, s, Call(in_, WillPropose(candidate, onto)), ios, k);
            var id := ios(k).id;
            if ios(k).fault != NoFault then r == (s, Returned(Errored))
            else if env.merge(onto, candidate).Conflict? then r == (s, Returned(MergeCard("applies-clean-collision")))
            else r == Solo(env, Propose(s, id, in_.user, PayloadOf(env, in_, candidate, onto)), Call(in_, WillApprove(candidate, onto, id)), ios, k + 1)
  {
    SoloUnfolds(env, s, Call(in_, WillPropose(candidate, onto)), ios, k);
    SoloUnfolds(env, s, Call(in_, Returned(Errored)), ios, k + 1);
    SoloUnfolds(env, s, Call(in_, Returned(MergeCard("applies-clean-collision"))), ios, k + 1);
  }

  lemma AtTheApproval(env: Env, s: Store, in_: Input, candidate: string, onto: Commit, id: EffectId, ios: nat -> Io, k: nat)
    requires id !in s.effects
    ensures var proposed := Propose(s, id, in_.user, PayloadOf(env, in_, candidate, onto));
            var r := Solo(env, proposed, Call(in_, WillApprove(candidate, onto, id)), ios, k);
            if ios(k).fault != NoFault then r == (proposed, Returned(Errored))
            else r == Solo(env, ApprovedStore(env, s, in_, candidate, onto, id, ios(k).now),
                           Call(in_, WillBegin(FreshSpec(env, in_, candidate, onto, id, ios(k).now))), ios, k + 1)
  {
    var proposed := Propose(s, id, in_.user, PayloadOf(env, in_, candidate, onto));
    SoloUnfolds(env, proposed, Call(in_, WillApprove(candidate, onto, id)), ios, k);
    SoloUnfolds(env, proposed, Call(in_, Returned(Errored)), ios, k + 1);
    assert proposed.effects[id := Effect(in_.user, PayloadOf(env, in_, candidate, onto), AcceptWorld.Approved, Some(ios(k).now), 0, NoResult)]
           == ApprovedStore(env, s, in_, candidate, onto, id, ios(k).now).effects;
  }

  // ---- the whole accept ----

  /** Of the accept's effect, deliverable and project alone: every row journalled before, and the branches, look-ahead entries
      and review states of others, are as they were. */
  ghost predicate OthersKept(s: Store, s': Store, in_: Input) {
    && (forall x :: x in s.effects ==> x in s'.effects && s'.effects[x] == s.effects[x])
    && (forall p :: p != in_.project ==>
          AcceptBoot.Get(s'.local, p) == AcceptBoot.Get(s.local, p) && AcceptBoot.Get(s'.remote, p) == AcceptBoot.Get(s.remote, p)
          && AcceptBoot.Get(s'.inflight, p) == AcceptBoot.Get(s.inflight, p))
    && (forall d :: d != in_.deliverable ==> AcceptBoot.Get(s'.deliverables, d) == AcceptBoot.Get(s.deliverables, d))
  }

  /** The journal row the accept proposed: one that was not there, for this deliverable and project, pinned to the base. */
  predicate Journalled(env: Env, s: Store, s': Store, in_: Input, id: EffectId)
    requires Proposable(s, in_)
  {
    && id !in s.effects && id in s'.effects
    && var p := s'.effects[id].payload;
       && p.deliverable == in_.deliverable && p.project == in_.project && p.ref == "refs/heads/" + env.branch(in_.project)
       && p.candidate == s.deliverables[in_.deliverable].snapshot && p.expectSha == BaseOf(s, in_.project)
       && p.trailers == RenderTrailers(in_.engine, in_.model, in_.vendorNoreply) && p.authorName == in_.userName
       && p.subject == in_.subject && p.provenance == in_.provenance && p.gitProfile == in_.gitProfile
  }

  /** The commit is the deliverable's snapshot merged onto the base, in the accepting user's name at the approval's second. */
  predicate SquashFor(env: Env, s: Store, in_: Input, approved: int, c: Commit)
    requires Proposable(s, in_)
  {
    && c.Squash? && env.merge(BaseOf(s, in_.project), s.deliverables[in_.deliverable].snapshot) == Clean(c.tree)
    && c == Squash(c.tree, BaseOf(s, in_.project), in_.user, if in_.userName == "" then in_.user else in_.userName,
                   BuildMessage(in_.subject, in_.provenance, RenderTrailers(in_.engine, in_.model, in_.vendorNoreply)),
                   approved / 1_000_000_000, env.signs(in_.user))
  }

  /** What the answer of an accept says of the store found and the store left. */
  ghost predicate AnswerHolds(env: Env, s: Store, s': Store, in_: Input, approved: int, out: Outcome) {
    match Done(out)
    case AcceptedContent =>
      && Reviewable(s, in_) && s.deliverables[in_.deliverable].snapshot == ""
      && s' == s.(deliverables := s.deliverables[in_.deliverable := Deliverable(Accepted, "")],
                  contentAccepts := s.contentAccepts + {in_.deliverable})
    case AcceptedAt(id, c) =>
      && Proposable(s, in_) && Journalled(env, s, s', in_, id) && SquashFor(env, s, in_, approved, c)
      && s'.effects[id].state == Succeeded && s'.effects[id].result == Recorded(c, in_.project !in s'.remote)
      && in_.deliverable in s'.deliverables && s'.deliverables[in_.deliverable].state == Accepted
      && in_.project in s'.local && Anc(c, s'.local[in_.project])
      && (in_.project in s'.remote ==> Anc(c, s'.remote[in_.project]))
    case MergeCard(reason) =>
      && !out.ErrorAfter? && Proposable(s, in_) && SameBranches(s, s') && s'.deliverables == s.deliverables
      && var base := BaseOf(s, in_.project);
         (match env.merge(base, s.deliverables[in_.deliverable].snapshot)
          case Conflict(_) => reason == "applies-clean-collision" && s' == s
          case Clean(tree) =>
            && reason == "lease-rejected"
            && if in_.project in s.remote then s.remote[in_.project] != base
                 && (s.remote[in_.project].Squash? ==> !SquashFor(env, s, in_, approved, s.remote[in_.project]))
               else forall c :: SquashFor(env, s, in_, approved, c) ==> !Comparable(c, s.local[in_.project]))
    case Errored => !out.ErrorAfter? && SameBranches(s, s') && s'.deliverables == s.deliverables
    case ErroredAfterLanding => !out.ErrorAfter? && Proposable(s, in_)
    case ErrorAfter(_) => false
  }

  /** From the approval on. */
  lemma ApprovedAnswers(env: Env, s: Store, in_: Input, ios: nat -> Io, k: nat, id: EffectId, approved: int)
    requires Proposable(s, in_) && id !in s.effects
    ensures var candidate, onto := s.deliverables[in_.deliverable].snapshot, BaseOf(s, in_.project);
            var spec := FreshSpec(env, in_, candidate, onto, id, approved);
            env.merge(onto, candidate).Clean? ==>
              var (s', pc') := Solo(env, ApprovedStore(env, s, in_, candidate, onto, id, approved), Call(in_, WillBegin(spec)), ios, k);
              && pc'.Returned? && AnswerHolds(env, s, s', in_, approved, pc'.out) && OthersKept(s, s', in_)
              && pc'.out != AcceptedContent
  {
    var candidate, onto := s.deliverables[in_.deliverable].snapshot, BaseOf(s, in_.project);
    var spec := FreshSpec(env, in_, candidate, onto, id, approved);
    var v := ApprovedStore(env, s, in_, candidate, onto, id, approved);
    var call := Call(in_, WillBegin(spec));
    if env.merge(onto, candidate).Clean? {
      ExecuteAnswersTruly(env, v, in_, spec, ios, k);
      SoloSaysTrue(env, v, v, spec, call, ios, k, false);
      ExecuteKeepsOthers(env, s, v, in_, spec, ios, k);
      AcceptBoot.SoloKeepsRow(env, v, v, spec, call, ios, k, false, id);
      SoloKeepsPayloads(env, v, v, spec, call, ios, k, id, false);
      var (s', pc') := Solo(env, v, call, ios, k);
      TrueOfInput(env, s, v, s', in_, spec, approved, pc'.out, FailLost(env, v, call, ios, k));
    }
  }

  lemma TrueOfInput(env: Env, s: Store, v: Store, s': Store, in_: Input, spec: Spec, approved: int, out: Outcome, lost: bool)
    requires Proposable(s, in_) && spec.effect !in s.effects && v == s.(effects := v.effects)
    requires spec == FreshSpec(env, in_, s.deliverables[in_.deliverable].snapshot, BaseOf(s, in_.project), spec.effect, approved)
    requires env.merge(spec.onto, spec.candidate).Clean?
    requires AnswerTrue(v, s', spec, out, lost) && SaysTrue(env, v, spec, out)
    requires spec.effect in s'.effects && s'.effects[spec.effect].payload == PayloadOf(env, in_, spec.candidate, spec.onto)
    ensures AnswerHolds(env, s, s', in_, approved, out) && out != AcceptedContent
  {
  }

  lemma ExecuteKeepsOthers(env: Env, s: Store, v: Store, in_: Input, spec: Spec, ios: nat -> Io, k: nat)
    requires spec.project == in_.project && spec.deliverable == in_.deliverable && spec.effect !in s.effects
    requires v == s.(effects := v.effects) && forall x :: x in s.effects ==> x in v.effects && v.effects[x] == s.effects[x]
    ensures OthersKept(s, Solo(env, v, Call(in_, WillBegin(spec)), ios, k).0, in_)
  {
    var call := Call(in_, WillBegin(spec));
    var s' := Solo(env, v, call, ios, k).0;
    forall x | x in s.effects ensures x in s'.effects && s'.effects[x] == s.effects[x] {
      SoloOtherRows(env, v, v, spec, call, ios, k, x, false);
    }
    forall p | p != in_.project
      ensures AcceptBoot.Get(s'.local, p) == AcceptBoot.Get(s.local, p) && AcceptBoot.Get(s'.remote, p) == AcceptBoot.Get(s.remote, p)
      ensures AcceptBoot.Get(s'.inflight, p) == AcceptBoot.Get(s.inflight, p)
    {
      AcceptBoot.SoloApart(env, v, v, spec, call, ios, k, false, spec.effect + "'", p, spec.deliverable + "'");
    }
    forall d | d != in_.deliverable
      ensures AcceptBoot.Get(s'.deliverables, d) == AcceptBoot.Get(s.deliverables, d)
    {
      AcceptBoot.SoloApart(env, v, v, spec, call, ios, k, false, spec.effect + "'", spec.project + "'", d);
    }
  }

  /** From the proposal on. */
  lemma ProposedAnswers(env: Env, s: Store, in_: Input, ios: nat -> Io, k: nat)
    requires Proposable(s, in_) && ios(k).id !in s.effects
    ensures var (s', pc') := Solo(env, s, Call(in_, WillPropose(s.deliverables[in_.deliverable].snapshot, BaseOf(s, in_.project))), ios, k);
            pc'.Returned? && AnswerHolds(env, s, s', in_, ios(k + 1).now, pc'.out) && OthersKept(s, s', in_)
  {
    var candidate, onto := s.deliverables[in_.deliverable].snapshot, BaseOf(s, in_.project);
    AtThePropose(env, s, in_, candidate, onto, ios, k);
    if ios(k).fault == NoFault && env.merge(onto, candidate).Clean? {
      AtTheApproval(env, s, in_, candidate, onto, ios(k).id, ios, k + 1);
      if ios(k + 1).fault == NoFault {
        ApprovedAnswers(env, s, in_, ios, k + 2, ios(k).id, ios(k + 1).now);
      }
    }
  }

  /** The answer of a whole accept is true, whatever fails on the way, and a deliverable that is not in review, an incomplete
      input and an unknown project are refused with nothing stored. */
  lemma AcceptAnswersTruly(env: Env, s: Store, in_: Input, ios: nat -> Io)
    requires forall k :: ios(k).id !in s.effects
    ensures var (s', pc') := Solo(env, s, Call(in_, Entered), ios, 0);
            && pc'.Returned? && OthersKept(s, s', in_)
            && AnswerHolds(env, s, s', in_, ios(ProposesAt(s, in_.project) + 1).now, pc'.out)
            && (!Reviewable(s, in_) || (s.deliverables[in_.deliverable].snapshot != "" && !Attributable(s, in_)) ==>
                  pc'.out == Errored && s' == s)
  {
    if !Reviewable(s, in_) || (s.deliverables[in_.deliverable].snapshot != "" && !Attributable(s, in_)) {
      Refuses(env, s, in_, ios);
    } else if s.deliverables[in_.deliverable].snapshot == "" {
      ContentArm(env, s, in_, ios);
    } else {
      ReachesPropose(env, s, in_, ios);
      ProposedAnswers(env, s, in_, ios, ProposesAt(s, in_.project));
    }
  }

  /** What an accept of a snapshot answers when nothing fails, proposed and approved under `id` at `approved` and begun at
      `begun`. */
  function SnapshotAnswer(env: Env, s: Store, in_: Input, id: EffectId, approved: int, begun: int): Outcome
    requires Proposable(s, in_)
  {
    var candidate, onto := s.deliverables[in_.deliverable].snapshot, BaseOf(s, in_.project);
    if env.merge(onto, candidate).Conflict? then MergeCard("applies-clean-collision")
    else if begun > approved + env.expiry then Errored
    else LandingAnswer(env, s, FreshSpec(env, in_, candidate, onto, id, approved))
  }

  lemma SnapshotAnswersExactly(env: Env, s: Store, in_: Input, ios: nat -> Io)
    requires Faultless(ios) && Proposable(s, in_) && ios(ProposesAt(s, in_.project)).id !in s.effects
    ensures var k := ProposesAt(s, in_.project);
            Solo(env, s, Call(in_, Entered), ios, 0).1
            == Returned(SnapshotAnswer(env, s, in_, ios(k).id, ios(k + 1).now, ios(k + 2).now))
  {
    var k := ProposesAt(s, in_.project);
    var candidate, onto := s.deliverables[in_.deliverable].snapshot, BaseOf(s, in_.project);
    var id, approved := ios(k).id, ios(k + 1).now;
    ReachesPropose(env, s, in_, ios);
    AtThePropose(env, s, in_, candidate, onto, ios, k);
    AtTheApproval(env, s, in_, candidate, onto, id, ios, k + 1);
    ApprovedAnswersExactly(env, s, in_, candidate, onto, id, approved, ios, k + 2);
  }

  lemma ApprovedAnswersExactly(env: Env, s: Store, in_: Input, candidate: string, onto: Commit, id: EffectId, approved: int, ios: nat -> Io, k: nat)
    requires Faultless(ios) && in_.project in s.local && CanAccept(s, in_.deliverable)
    ensures var spec := FreshSpec(env, in_, candidate, onto, id, approved);
            Solo(env, ApprovedStore(env, s, in_, candidate, onto, id, approved), Call(in_, WillBegin(spec)), ios, k).1
            == Returned(if ios(k).now > approved + env.expiry then Errored else LandingAnswer(env, s, spec))
  {
    var v := ApprovedStore(env, s, in_, candidate, onto, id, approved);
    ExecuteAnswersExactly(env, v, in_, FreshSpec(env, in_, candidate, onto, id, approved), ios, k);
  }

  /** Which answer an accept gives when nothing fails: refused; accepted on the content arm; or what the snapshot's merge, the
      approval's window and the branches say: a collision card exactly when the snapshot does not merge onto the base. */
  lemma AcceptAnswersExactly(env: Env, s: Store, in_: Input, ios: nat -> Io)
    requires Faultless(ios) && forall k :: ios(k).id !in s.effects
    ensures var k := ProposesAt(s, in_.project);
            Solo(env, s, Call(in_, Entered), ios, 0).1
            == Returned(
              if Reviewable(s, in_) && s.deliverables[in_.deliverable].snapshot == "" then AcceptedContent
              else if Proposable(s, in_) then SnapshotAnswer(env, s, in_, ios(k).id, ios(k + 1).now, ios(k + 2).now)
              else Errored)
  {
    if !Reviewable(s, in_) || (s.deliverables[in_.deliverable].snapshot != "" && !Attributable(s, in_)) {
      Refuses(env, s, in_, ios);
    } else if s.deliverables[in_.deliverable].snapshot == "" {
      ContentArm(env, s, in_, ios);
    } else {
      SnapshotAnswersExactly(env, s, in_, ios);
    }
  }

  // ---- a fault is told ----

  /** A fault the action can meet: a mark and a look-ahead read meet none, a push none but those of its own parts. */
  predicate Fits(s: Store, pc: Pc, fault: Fault) {
    match pc
    case WillReadLookahead(_) => false
    case WillMark(_, _) => false
    case Returned(_) => false
    case WillLand(spec) => fault != NoFault && (spec.project in s.remote ==> fault != WriteFault)
    case _ => fault != NoFault
  }

  /** Some action of the call met a fault. */
  ghost predicate MetFault(env: Env, s: Store, call: Call, ios: nat -> Io, k: nat)
    decreases Rank(s, call.pc)
  {
    Runnable(s, call, ios(k))
    && (Fits(s, call.pc, ios(k).fault)
        || (RankDrops(env, s, call, ios(k));
            var (s', pc') := Act(env, s, call, ios(k));
            MetFault(env, s', call.(pc := pc'), ios, k + 1)))
  }

  /** The call will not answer accepted. */
  predicate Spoilt(pc: Pc) {
    match pc
    case WillFail(_, _, out) => !out.AcceptedAt? && !out.AcceptedContent?
    case WillClear(_, out) => !out.AcceptedAt? && !out.AcceptedContent?
    case WillRoute(out) => !out.AcceptedAt? && !out.AcceptedContent?
    case Returned(out) => !out.AcceptedAt? && !out.AcceptedContent?
    case _ => false
  }

  lemma LandSpoils(env: Env, s: Store, spec: Spec, fault: Fault)
    requires spec.project in s.local && Fits(s, WillLand(spec), fault)
    ensures Spoilt(GoLand(env, s, spec, fault).1)
  {
  }

  lemma EarlySpoils(env: Env, s: Store, call: Call, io: Io)
    requires Runnable(s, call, io) && Fits(s, call.pc, io.fault)
    requires call.pc.Entered? || call.pc.WillAcceptContent? || call.pc.WillReadHead? || call.pc.WillPropose? || call.pc.WillApprove?
             || call.pc.WillBegin?
    ensures Spoilt(Act(env, s, call, io).1)
  {
  }

  lemma LateSpoils(env: Env, s: Store, call: Call, io: Io)
    requires Runnable(s, call, io) && Fits(s, call.pc, io.fault)
    requires call.pc.WillSucceed? || call.pc.WillReview? || call.pc.WillAdvance? || call.pc.WillSwap? || call.pc.WillClear? || call.pc.WillRoute?
    ensures Spoilt(Act(env, s, call, io).1)
  {
  }

  lemma SpoiltStays(env: Env, s: Store, call: Call, io: Io)
    requires Runnable(s, call, io) && Spoilt(call.pc)
    ensures Spoilt(Act(env, s, call, io).1)
  {
  }

  /** A fail write belongs to a call that has given up. */
  predicate GivesUp(pc: Pc) { pc.WillFail? ==> Spoilt(pc) }

  lemma ActGivesUp(env: Env, s: Store, call: Call, io: Io)
    requires Runnable(s, call, io) && GivesUp(call.pc)
    ensures GivesUp(Act(env, s, call, io).1)
  {
    if call.pc.WillLand? { LandGivesUp(env, s, call.pc.spec, io.fault); }
  }

  lemma LandGivesUp(env: Env, s: Store, spec: Spec, fault: Fault)
    requires spec.project in s.local
    ensures GivesUp(GoLand(env, s, spec, fault).1)
  {
  }

  lemma ActSpoils(env: Env, s: Store, call: Call, io: Io)
    requires Runnable(s, call, io) && GivesUp(call.pc) && (Spoilt(call.pc) || Fits(s, call.pc, io.fault))
    ensures Spoilt(Act(env, s, call, io).1)
  {
    match call.pc {
      case WillLand(spec) => LandSpoils(env, s, spec, io.fault);
      case WillSucceed(_, _) => LateSpoils(env, s, call, io);
      case WillReview(_, _) => LateSpoils(env, s, call, io);
      case WillAdvance(_, _) => LateSpoils(env, s, call, io);
      case WillSwap(_, _, _) => LateSpoils(env, s, call, io);
      case WillFail(_, _, _) => SpoiltStays(env, s, call, io);
      case WillClear(_, out) => if Spoilt(call.pc) { SpoiltStays(env, s, call, io); } else { LateSpoils(env, s, call, io); }
      case WillRoute(out) => if Spoilt(call.pc) { SpoiltStays(env, s, call, io); } else { LateSpoils(env, s, call, io); }
      case _ => EarlySpoils(env, s, call, io);
    }
  }

  lemma {:induction false} SoloSpoilt(env: Env, s: Store, call: Call, ios: nat -> Io, k: nat)
    requires GivesUp(call.pc) && (Spoilt(call.pc) || MetFault(env, s, call, ios, k))
    ensures Spoilt(Solo(env, s, call, ios, k).1)
    decreases Rank(s, call.pc)
  {
    SoloUnfolds(env, s, call, ios, k);
    if Runnable(s, call, ios(k)) {
      RankDrops(env, s, call, ios(k));
      ActGivesUp(env, s, call, ios(k));
      if Spoilt(call.pc) || Fits(s, call.pc, ios(k).fault) { ActSpoils(env, s, call, ios(k)); }
      var (s', pc') := Act(env, s, call, ios(k));
      SoloSpoilt(env, s', call.(pc := pc'), ios, k + 1);
    }
  }

  /** An accept that answers accepted met no fault at any of its actions: whatever fails is told. */
  lemma AcceptedMetNoFault(env: Env, s: Store, in_: Input, ios: nat -> Io)
    requires var pc' := Solo(env, s, Call(in_, Entered), ios, 0).1; pc'.Returned? && (pc'.out.AcceptedAt? || pc'.out.AcceptedContent?)
    ensures !MetFault(env, s, Call(in_, Entered), ios, 0)
  {
    if MetFault(env, s, Call(in_, Entered), ios, 0) {
      SoloSpoilt(env, s, Call(in_, Entered), ios, 0);
      assert false;
    }
  }
}
