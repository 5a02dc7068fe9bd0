/**
 The accepter itself: the objects it works on and its methods, each proved against the run of one call through the
 atomic steps. A clock reading, a fresh identifier and a possible failure reach each step as `ios(k)`.
 */
module Accepter {
  import opened Wrappers
  import opened AcceptWorld
  import opened AcceptSafety
  import opened AcceptSolo

  class Journal {
    var effects: map<EffectId, Effect>

    predicate InState(id: EffectId, st: EffectState)
      reads this
    {
      id in effects && effects[id].state == st
    }

    method Propose(id: EffectId, user: string, payload: Payload)
      requires id !in effects
      modifies this
      ensures effects == old(effects)[id := Effect(user, payload, Proposed, None, 0, NoResult)]
    {
      effects := effects[id := Effect(user, payload, Proposed, None, 0, NoResult)];
    }

    method Approve(id: EffectId, io: Io) returns (ok: bool)
      modifies this
      ensures ok == (io.fault == NoFault && old(InState(id, Proposed)))
      ensures effects == if ok then old(effects)[id := old(effects)[id].(state := Approved, approvedTS := Some(io.now))]
                         else old(effects)
    {
      ok := io.fault == NoFault && InState(id, Proposed);
      if ok {
        effects := effects[id := effects[id].(state := Approved, approvedTS := Some(io.now))];
      }
    }

    /** Refuses a row that is not approved; a lapsed approval goes back to proposed. */
    method BeginExecute(expiry: int, id: EffectId, io: Io) returns (ok: bool)
      modifies this
      ensures var ready := io.fault == NoFault && old(InState(id, Approved));
              var lapsed := ready && old(effects)[id].approvedTS.Some? && io.now - old(effects)[id].approvedTS.value > expiry;
              && ok == (ready && !lapsed)
              && effects == if lapsed then old(effects)[id := old(effects)[id].(state := Proposed, approvedTS := None)]
                            else if ok then old(effects)[id := old(effects)[id].(state := Executing, attempts := old(effects)[id].attempts + 1)]
                            else old(effects)
    {
      ok := false;
      if io.fault == NoFault && InState(id, Approved) {
        var e := effects[id];
        if e.approvedTS.Some? && io.now - e.approvedTS.value > expiry {
          effects := effects[id := e.(state := Proposed, approvedTS := None)];
        } else {
          effects := effects[id := e.(state := Executing, attempts := e.attempts + 1)];
          ok := true;
        }
      }
    }

    method Succeed(id: EffectId, result: EffectResult, io: Io) returns (ok: bool)
      modifies this
      ensures ok == (io.fault == NoFault && old(InState(id, Executing)))
      ensures effects == if ok then old(effects)[id := old(effects)[id].(state := Succeeded, result := result)] else old(effects)
    {
      ok := io.fault == NoFault && InState(id, Executing);
      if ok {
        effects := effects[id := effects[id].(state := Succeeded, result := result)];
      }
    }

    method Fail(id: EffectId, reason: string, io: Io) returns (ok: bool)
      modifies this
      ensures ok == (io.fault == NoFault && old(InState(id, Executing)))
      ensures effects == if ok then old(effects)[id := old(effects)[id].(state := Failed, result := Error(reason))] else old(effects)
    {
      ok := io.fault == NoFault && InState(id, Executing);
      if ok {
        effects := effects[id := effects[id].(state := Failed, result := Error(reason))];
      }
    }
  }

  datatype Advance = Unchanged | Swapped | NotFastForward | Broken

  class ProjectStore {
    var remote: map<ProjectId, Commit>
    var local: map<ProjectId, Commit>

    /** A fast-forward, a no-op on an incorporated commit, or a refusal. The ref update can report an error although the
        ref has moved. */
    method AdvanceDefaultBranch(p: ProjectId, commit: Commit, ios: nat -> Io, k: nat) returns (res: Advance, moved: bool)
      requires p in local
      modifies this`local
      ensures res == if ios(k).fault != NoFault then Broken
                     else match DecideAdvance(old(local)[p], commit)
                          case Incorporated => Unchanged
                          case Diverged => NotFastForward
                          case FastForward => if ios(k + 1).fault == NoFault then Swapped else Broken
      ensures moved == (ios(k).fault == NoFault && DecideAdvance(old(local)[p], commit).FastForward?
                        && RefMoves(ios(k + 1).fault))
      ensures local == if moved then old(local)[p := commit] else old(local)
    {
      if ios(k).fault != NoFault {
        return Broken, false;
      }
      var cur := local[p];
      if Anc(commit, cur) {
        return Unchanged, false;
      }
      if !Anc(cur, commit) {
        return NotFastForward, false;
      }
      var fault := ios(k + 1).fault;
      if RefMoves(fault) {
        local := local[p := commit];
        return if fault == NoFault then Swapped else Broken, true;
      }
      return Broken, false;
    }

    /** The broker's push: the ref moves only from the expected commit. */
    method Push(p: ProjectId, lease: Commit, src: Commit, fault: Fault) returns (err: bool, moved: bool, rejected: bool)
      requires p in remote
      modifies this`remote
      ensures err == fault.TransportFault?
      ensures rejected == (!err && old(remote)[p] != src && old(remote)[p] != lease)
      ensures moved == (old(remote)[p] == lease && lease != src && (err ==> fault.moved))
      ensures remote == if moved then old(remote)[p := src] else old(remote)
    {
      err := fault.TransportFault?;
      moved := remote[p] == lease && lease != src && (err ==> fault.moved);
      rejected := !err && remote[p] != src && remote[p] != lease;
      if moved {
        remote := remote[p := src];
      }
    }
  }

  class ReviewStore {
    var deliverables: map<DeliverableId, Deliverable>

    /** Accepting an accepted deliverable again changes nothing; a superseded one is refused. */
    method Accept(d: DeliverableId, io: Io) returns (ok: bool)
      modifies this
      ensures ok == (io.fault == NoFault && d in old(deliverables) && old(deliverables)[d].state != Superseded)
      ensures deliverables == if ok then old(deliverables)[d := old(deliverables)[d].(state := Accepted)] else old(deliverables)
    {
      ok := io.fault == NoFault && d in deliverables && deliverables[d].state != Superseded;
      if ok {
        deliverables := deliverables[d := deliverables[d].(state := Accepted)];
      }
    }
  }

  class Accepter {
    const env: Env
    const journal: Journal
    const project: ProjectStore
    const review: ReviewStore
    var inflightByProject: map<ProjectId, Inflight>
    ghost var landings: seq<Landing>
    ghost var echoes: set<EffectId>
    ghost var contentAccepts: set<DeliverableId>

    constructor (env: Env, journal: Journal, project: ProjectStore, review: ReviewStore)
      ensures this.env == env && this.journal == journal && this.project == project && this.review == review
      ensures inflightByProject == map[] && landings == [] && echoes == {} && contentAccepts == {}
    {
      this.env, this.journal, this.project, this.review := env, journal, project, review;
      inflightByProject, landings, echoes, contentAccepts := map[], [], {}, {};
    }

    /** The state the atomic steps act on. */
    ghost function View(): Store
      reads this, journal, project, review
    {
      Store(journal.effects, project.remote, project.local, review.deliverables, inflightByProject, landings, echoes, contentAccepts)
    }

    /** The execution so far leaves a call at `pc`, with its `k`th action next: what the whole call does from `s` is
        what the rest of it does from here. */
    ghost predicate Reaches(s: Store, in_: Input, pc: Pc, ios: nat -> Io, k: nat, s': Store, pc': Pc, k': nat)
      reads this
    {
      Solo(env, s, Call(in_, pc), ios, k) == Solo(env, s', Call(in_, pc'), ios, k')
    }

    // ---- the look-ahead ----

    method ProjectOnto(p: ProjectId, ghost in_: Input, ghost candidate: string, ios: nat -> Io, k: nat)
      returns (onto: Option<Commit>, next: nat)
      requires p in project.local && in_.project == p
      ensures onto.Some? ==> onto.value == AcceptWorld.ProjectOnto(View(), p)
                             && Reaches(View(), in_, WillReadLookahead(candidate), ios, k, View(), WillPropose(candidate, onto.value), next)
      ensures onto.None? ==> Reaches(View(), in_, WillReadLookahead(candidate), ios, k, View(), Returned(Errored), next)
    {
      if p in inflightByProject {
        return Some(inflightByProject[p].commit), k + 1;
      }
      SoloUnfolds(env, View(), Call(in_, WillReadHead(candidate)), ios, k + 1);
      if ios(k + 1).fault != NoFault {
        return None, k + 2;
      }
      return Some(project.local[p]), k + 2;
    }

    method MarkInflight(p: ProjectId, id: EffectId, commit: Commit)
      modifies this`inflightByProject
      ensures View() == AcceptWorld.MarkInflight(old(View()), p, id, commit)
    {
      inflightByProject := inflightByProject[p := Inflight(id, commit)];
    }

    method ClearInflight(p: ProjectId, id: EffectId)
      modifies this`inflightByProject
      ensures View() == AcceptWorld.ClearInflight(old(View()), p, id)
    {
      if p in inflightByProject && inflightByProject[p].effect == id {
        inflightByProject := inflightByProject - {p};
      }
    }

    // ---- the execute phase ----

    /** Best effort: the error of the write is dropped. */
    method FailEffect(id: EffectId, reason: string, io: Io)
      modifies journal
      ensures View() == if io.fault == NoFault then AcceptWorld.FailEffect(old(View()), id, reason) else old(View())
    {
      var _ := journal.Fail(id, reason, io);
    }

    /** Succeed, accept and advance after a push; the deferred clear is the caller's. */
    method FinishPush(spec: Spec, commit: Commit, ios: nat -> Io, k: nat, ghost in_: Input)
      returns (out: Outcome, next: nat)
      requires spec.project in project.remote && spec.project in project.local
      modifies journal, project, review
      ensures Reaches(old(View()), in_, WillSucceed(spec, commit), ios, k, View(), WillClear(spec, out), next)
      ensures project.remote == old(project.remote) && project.local.Keys == old(project.local.Keys)
    {
      var ok := journal.Succeed(spec.effect, Recorded(commit, false), ios(k));
      SoloUnfolds(env, old(View()), Call(in_, WillSucceed(spec, commit)), ios, k);
      if !ok {
        return ErroredAfterLanding, k + 1;
      }
      out, next := ReviewPush(spec, commit, ios, k + 1, in_);
    }

    method ReviewPush(spec: Spec, commit: Commit, ios: nat -> Io, k: nat, ghost in_: Input)
      returns (out: Outcome, next: nat)
      requires spec.project in project.remote && spec.project in project.local
      modifies project, review
      ensures Reaches(old(View()), in_, WillReview(spec, commit), ios, k, View(), WillClear(spec, out), next)
      ensures project.remote == old(project.remote) && project.local.Keys == old(project.local.Keys)
    {
      var ok := review.Accept(spec.deliverable, ios(k));
      SoloUnfolds(env, old(View()), Call(in_, WillReview(spec, commit)), ios, k);
      if !ok {
        return ErroredAfterLanding, k + 1;
      }
      out, next := AdvancePush(spec, commit, ios, k + 1, in_);
    }

    method AdvancePush(spec: Spec, commit: Commit, ios: nat -> Io, k: nat, ghost in_: Input)
      returns (out: Outcome, next: nat)
      requires spec.project in project.remote && spec.project in project.local
      modifies project
      ensures Reaches(old(View()), in_, WillAdvance(spec, commit), ios, k, View(), WillClear(spec, out), next)
      ensures project.remote == old(project.remote) && project.local.Keys == old(project.local.Keys)
    {
      var cur := project.local[spec.project];
      var res, moved := project.AdvanceDefaultBranch(spec.project, commit, ios, k);
      SoloUnfolds(env, old(View()), Call(in_, WillAdvance(spec, commit)), ios, k);
      if ios(k).fault == NoFault && DecideAdvance(cur, commit).FastForward? {
        SoloUnfolds(env, old(View()), Call(in_, WillSwap(spec, commit, cur)), ios, k + 1);
        next := k + 2;
      } else {
        next := k + 1;
      }
      var done := AcceptedAt(spec.effect, commit);
      out := if res == Unchanged || res == Swapped then done else if moved then ErrorAfter(done) else ErroredAfterLanding;
    }

    /** A failed landing: the effect fails and the call answers. */
    method GiveUp(spec: Spec, reason: string, answer: Outcome, ios: nat -> Io, k: nat, ghost in_: Input) returns (out: Outcome)
      modifies journal
      ensures out == answer
      ensures Solo(env, old(View()), Call(in_, WillFail(spec, reason, answer)), ios, k) == (View(), Returned(answer))
    {
      SoloUnfolds(env, View(), Call(in_, WillFail(spec, reason, answer)), ios, k);
      FailEffect(spec.effect, reason, ios(k));
      out := answer;
    }

    /** The advance of the local arm, as the actions it is: a read that decides, and a swap. */
    method AdvanceLocal(spec: Spec, commit: Commit, ios: nat -> Io, k: nat, ghost in_: Input) returns (res: Advance, moved: bool, next: nat)
      requires spec.project in project.local && spec.project !in project.remote
      requires Prepare(env, spec, ios(k).fault) == Ready(commit)
      modifies this`landings, this`echoes, project`local
      ensures project.remote == old(project.remote)
      ensures Reaches(old(View()), in_, WillLand(spec), ios, k, View(),
                      if res == NotFastForward then WillFail(spec, "default branch moved", MergeCard("lease-rejected"))
                      else if res == Broken then WillFail(spec, "local landing failed", if moved then ErroredAfterLanding else Errored)
                      else WillSucceed(spec, commit), next)
    {
      var p := spec.project;
      var cur := project.local[p];
      SoloUnfolds(env, View(), Call(in_, WillLand(spec)), ios, k);
      res, moved := project.AdvanceDefaultBranch(p, commit, ios, k);
      next := k + 1;
      if ios(k).fault == NoFault && DecideAdvance(cur, commit).FastForward? {
        SoloUnfolds(env, old(View()), Call(in_, WillSwap(spec, commit, cur)), ios, k + 1);
        next := k + 2;
      }
      if moved {
        landings := landings + [Landing(p, spec.effect, cur, commit)];
      } else if res == Unchanged {
        echoes := echoes + {spec.effect};
      }
    }

    /** The landing on a project that records no remote: the advance is the landing, and it comes before succeed. */
    method LandLocal(spec: Spec, commit: Commit, ios: nat -> Io, k: nat, ghost in_: Input) returns (out: Outcome)
      requires spec.project in project.local && spec.project !in project.remote
      requires Prepare(env, spec, ios(k).fault) == Ready(commit)
      modifies this, journal, project, review
      ensures Solo(env, old(View()), Call(in_, WillLand(spec)), ios, k) == (View(), Returned(out))
    {
      var res, moved, next := AdvanceLocal(spec, commit, ios, k, in_);
      if res == NotFastForward {
        out := GiveUp(spec, "default branch moved", MergeCard("lease-rejected"), ios, next, in_);
      } else if res == Broken {
        out := GiveUp(spec, "local landing failed", if moved then ErroredAfterLanding else Errored, ios, next, in_);
      } else {
        out := FinishLocal(spec, commit, ios, next, in_);
      }
    }

    method FinishLocal(spec: Spec, commit: Commit, ios: nat -> Io, k: nat, ghost in_: Input) returns (out: Outcome)
      requires spec.project !in project.remote
      modifies journal, review
      ensures Solo(env, old(View()), Call(in_, WillSucceed(spec, commit)), ios, k) == (View(), Returned(out))
    {
      SoloUnfolds(env, View(), Call(in_, WillSucceed(spec, commit)), ios, k);
      var ok := journal.Succeed(spec.effect, Recorded(commit, true), ios(k));
      if !ok {
        return ErroredAfterLanding;
      }
      SoloUnfolds(env, View(), Call(in_, WillReview(spec, commit)), ios, k + 1);
      ok := review.Accept(spec.deliverable, ios(k + 1));
      if !ok {
        return ErroredAfterLanding;
      }
      SoloUnfolds(env, View(), Call(in_, WillRoute(AcceptedAt(spec.effect, commit))), ios, k + 2);
      out := Routed(AcceptedAt(spec.effect, commit), ios(k + 2).fault);
    }

    /** The push, with its trace in the history. */
    method PushCommit(spec: Spec, commit: Commit, fault: Fault) returns (err: bool, rejected: bool)
      requires spec.project in project.remote
      modifies this`landings, this`echoes, project`remote
      ensures err == fault.TransportFault? && !(err && rejected)
      ensures (View(), if err then WillFail(spec, "push failed", ErroredAfterLanding)
                       else if rejected then WillFail(spec, "lease rejected", MergeCard("lease-rejected"))
                       else WillMark(spec, commit))
              == GoPush(old(View()), spec, commit, fault)
    {
      ghost var known := project.remote[spec.project] == commit;
      var moved;
      err, moved, rejected := project.Push(spec.project, spec.onto, commit, fault);
      if moved {
        landings := landings + [Landing(spec.project, spec.effect, spec.onto, commit)];
      } else if known && (err ==> fault.moved) {
        echoes := echoes + {spec.effect};
      }
    }

    /** The landing on a project that records a remote. */
    method LandPush(spec: Spec, commit: Commit, ios: nat -> Io, k: nat, ghost in_: Input) returns (out: Outcome)
      requires spec.project in project.local && spec.project in project.remote
      requires Prepare(env, spec, ios(k).fault) == Ready(commit)
      modifies this, journal, project, review
      ensures Solo(env, old(View()), Call(in_, WillLand(spec)), ios, k) == (View(), Returned(out))
    {
      SoloUnfolds(env, View(), Call(in_, WillLand(spec)), ios, k);
      var err, rejected := PushCommit(spec, commit, ios(k).fault);
      if err || rejected {
        out := GiveUp(spec, if err then "push failed" else "lease rejected",
                      if err then ErroredAfterLanding else MergeCard("lease-rejected"), ios, k + 1, in_);
        return;
      }
      out := SettlePush(spec, commit, ios, k + 1, in_);
    }

    lemma ClearUnfolds(s: Store, in_: Input, spec: Spec, out: Outcome, ios: nat -> Io, k: nat)
      ensures Solo(env, s, Call(in_, WillClear(spec, out)), ios, k)
              == (AcceptWorld.ClearInflight(s, spec.project, spec.effect), Returned(Routed(out, ios(k).fault)))
    {
      SoloUnfolds(env, s, Call(in_, WillClear(spec, out)), ios, k);
    }

    lemma MarkUnfolds(s: Store, in_: Input, spec: Spec, commit: Commit, ios: nat -> Io, k: nat)
      ensures Solo(env, s, Call(in_, WillMark(spec, commit)), ios, k)
              == Solo(env, AcceptWorld.MarkInflight(s, spec.project, spec.effect, commit), Call(in_, WillSucceed(spec, commit)), ios, k + 1)
    {
      SoloUnfolds(env, s, Call(in_, WillMark(spec, commit)), ios, k);
    }

    /** In the look-ahead from the mark to the deferred clear. */
    method SettlePush(spec: Spec, commit: Commit, ios: nat -> Io, k: nat, ghost in_: Input) returns (out: Outcome)
      requires spec.project in project.local && spec.project in project.remote
      modifies this`inflightByProject, journal, project, review
      ensures Solo(env, old(View()), Call(in_, WillMark(spec, commit)), ios, k) == (View(), Returned(out))
    {
      MarkUnfolds(View(), in_, spec, commit, ios, k);
      MarkInflight(spec.project, spec.effect, commit);
      var next;
      out, next := FinishPush(spec, commit, ios, k + 1, in_);
      ClearUnfolds(View(), in_, spec, out, ios, next);
      out := Routed(out, ios(next).fault);
      ClearInflight(spec.project, spec.effect);
    }

    /** Begin before the landing, squash onto the pinned base, land on the arm the registry records. */
    method ExecuteAccept(spec: Spec, ios: nat -> Io, k: nat, ghost in_: Input) returns (out: Outcome)
      requires spec.project in project.local
      modifies this, journal, project, review
      ensures Solo(env, old(View()), Call(in_, WillBegin(spec)), ios, k) == (View(), Returned(out))
    {
      SoloUnfolds(env, View(), Call(in_, WillBegin(spec)), ios, k);
      var ok := journal.BeginExecute(env.expiry, spec.effect, ios(k));
      if !ok {
        return Errored;
      }
      out := Land(spec, ios, k + 1, in_);
    }

    method Land(spec: Spec, ios: nat -> Io, k: nat, ghost in_: Input) returns (out: Outcome)
      requires spec.project in project.local
      modifies this, journal, project, review
      ensures Solo(env, old(View()), Call(in_, WillLand(spec)), ios, k) == (View(), Returned(out))
    {
      SoloUnfolds(env, View(), Call(in_, WillLand(spec)), ios, k);
      if ios(k).fault == ReadFault {
        return Errored;
      }
      var merged := env.merge(spec.onto, spec.candidate);
      if merged.Conflict? {
        out := GiveUp(spec, "collision", MergeCard("applies-clean-collision"), ios, k + 1, in_);
        return;
      }
      if ios(k).fault == PostureFault || ios(k).fault == SquashFault {
        out := GiveUp(spec, if ios(k).fault == PostureFault then "signing posture unresolved" else "squash failed",
                      Errored, ios, k + 1, in_);
        return;
      }
      var commit := SquashOf(env, spec, merged.tree);
      if spec.project !in project.remote {
        out := LandLocal(spec, commit, ios, k, in_);
      } else {
        out := LandPush(spec, commit, ios, k, in_);
      }
    }

    // ---- the accept ----

    method AcceptPinned(in_: Input, ios: nat -> Io, k: nat) returns (out: Outcome)
      modifies this`contentAccepts, review
      ensures Solo(env, old(View()), Call(in_, WillAcceptContent), ios, k) == (View(), Returned(out))
    {
      SoloUnfolds(env, View(), Call(in_, WillAcceptContent), ios, k);
      var ok := review.Accept(in_.deliverable, ios(k));
      if !ok {
        return Errored;
      }
      contentAccepts := contentAccepts + {in_.deliverable};
      if in_.project == "" {
        return AcceptedContent;
      }
      SoloUnfolds(env, View(), Call(in_, WillRoute(AcceptedContent)), ios, k + 1);
      out := Routed(AcceptedContent, ios(k + 1).fault);
    }

    /** Propose and approve, then execute. */
    method ProposeAccept(in_: Input, candidate: string, onto: Commit, ios: nat -> Io, k: nat) returns (out: Outcome)
      requires in_.project in project.local && ios(k).id !in journal.effects
      modifies this, journal, project, review
      ensures Solo(env, old(View()), Call(in_, WillPropose(candidate, onto)), ios, k) == (View(), Returned(out))
    {
      SoloUnfolds(env, View(), Call(in_, WillPropose(candidate, onto)), ios, k);
      if ios(k).fault != NoFault {
        return Errored;
      }
      if env.merge(onto, candidate).Conflict? {
        return MergeCard("applies-clean-collision");
      }
      var id := ios(k).id;
      journal.Propose(id, in_.user, PayloadOf(env, in_, candidate, onto));
      SoloUnfolds(env, View(), Call(in_, WillApprove(candidate, onto, id)), ios, k + 1);
      var ok := journal.Approve(id, ios(k + 1));
      if !ok {
        return Errored;
      }
      out := ExecuteAccept(FreshSpec(env, in_, candidate, onto, id, ios(k + 1).now), ios, k + 2, in_);
    }

    method Accept(in_: Input, ios: nat -> Io) returns (out: Outcome)
      requires forall k :: ios(k).id !in journal.effects
      modifies this, journal, project, review
      ensures Solo(env, old(View()), Call(in_, Entered), ios, 0) == (View(), Returned(out))
    {
      SoloUnfolds(env, View(), Call(in_, Entered), ios, 0);
      if ios(0).fault != NoFault || in_.deliverable == "" || in_.user == "" {
        return Errored;
      }
      if in_.deliverable !in review.deliverables || review.deliverables[in_.deliverable].state != InReview {
        return Errored;
      }
      var candidate := review.deliverables[in_.deliverable].snapshot;
      if candidate == "" {
        out := AcceptPinned(in_, ios, 1);
        return;
      }
      if in_.project == "" || in_.engine == "" || in_.model == "" || in_.vendorNoreply == "" || in_.project !in project.local {
        return Errored;
      }
      var onto, next := ProjectOnto(in_.project, in_, candidate, ios, 1);
      if onto.None? {
        SoloUnfolds(env, View(), Call(in_, Returned(Errored)), ios, next);
        return Errored;
      }
      out := ProposeAccept(in_, candidate, onto.value, ios, next);
    }

    // ---- the crash-window re-drive ----

    /** From the journal row alone. */
    method ReDrive(id: EffectId, ios: nat -> Io) returns (out: Outcome)
      requires forall e :: e in journal.effects ==> journal.effects[e].payload.project in project.local
      modifies this, journal, project, review
      ensures Solo(env, old(View()), Call(NoInput, RedriveEntry(old(View()), id)), ios, 0) == (View(), Returned(out))
      ensures forall e :: e in journal.effects ==> journal.effects[e].payload.project in project.local
    {
      if !journal.InState(id, Approved) || journal.effects[id].approvedTS.None? {
        SoloUnfolds(env, View(), Call(NoInput, Returned(Errored)), ios, 0);
        return Errored;
      }
      ghost var s := View();
      ghost var spec := RebuiltSpec(id, journal.effects[id]);
      out := ExecuteAccept(RebuiltSpec(id, journal.effects[id]), ios, 0, NoInput);
      SoloMidway(env, s, s, spec, Call(NoInput, WillBegin(spec)), ios, 0, false);
      forall e | e in journal.effects
        ensures journal.effects[e].payload.project in project.local
      {
        SoloKeepsPayloads(env, s, s, spec, Call(NoInput, WillBegin(spec)), ios, 0, e, false);
      }
    }

    /** Re-drives the approved accept effects in the order the journal lists them. */
    method ReDriveApproved(ids: seq<EffectId>, ios: (nat, nat) -> Io) returns (n: nat, failed: bool)
      requires forall e :: e in journal.effects ==> journal.effects[e].payload.project in project.local
      modifies this, journal, project, review
      ensures Redriven(View(), n, failed) == RedriveFrom(env, old(View()), ids, ios, 0, 0)
    {
      n, failed := 0, false;
      for i := 0 to |ids|
        invariant RedriveFrom(env, old(View()), ids, ios, 0, 0) == RedriveFrom(env, View(), ids, ios, i, n)
        invariant !failed
        invariant forall e :: e in journal.effects ==> journal.effects[e].payload.project in project.local
      {
        if ids[i] in journal.effects && AcceptEffect(journal.effects[ids[i]]) {
          var out := ReDrive(ids[i], Nth(ios, i));
          if IsError(out) {
            failed := true;
            return;
          }
          n := n + 1;
        }
      }
    }
  }
}
