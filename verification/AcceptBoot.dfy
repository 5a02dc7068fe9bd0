/**
 The boot re-drive as a whole: what it does for one effect among others. The re-drives run one after the other and stop
 at the first error, so an effect fares as it would alone, or is not reached at this boot.
 */
module AcceptBoot {
  import opened Wrappers
  import opened AcceptWorld
  import opened AcceptSafety
  import opened AcceptSolo
  import AcceptLookahead
  import AcceptCrash

  // ---- what belongs to one accept ----

  function Get<K, V>(m: map<K, V>, k: K): Option<V> {
    if k in m then Some(m[k]) else None
  }

  /** The row, the branches, the look-ahead entry and the review state that one accept is about. */
  datatype Slice = Slice(
    row: Option<Effect>, remote: Option<Commit>, local: Option<Commit>, inflight: Option<Inflight>, deliverable: Option<Deliverable>)

  function SliceOf(s: Store, id: EffectId, p: ProjectId, d: DeliverableId): Slice {
    Slice(Get(s.effects, id), Get(s.remote, p), Get(s.local, p), Get(s.inflight, p), Get(s.deliverables, d))
  }

  predicate SameSlice(a: Store, b: Store, id: EffectId, p: ProjectId, d: DeliverableId) {
    SliceOf(a, id, p, d) == SliceOf(b, id, p, d)
  }

  predicate Apart(spec: Spec, id: EffectId, p: ProjectId, d: DeliverableId) {
    spec.effect != id && spec.project != p && spec.deliverable != d
  }

  /** A call in the execute phase of `spec`, or past it. */
  predicate Executes(pc: Pc, spec: Spec) {
    ((pc.WillBegin? || AcceptLookahead.Engaged(pc)) && pc.spec == spec) || pc.WillRoute?
  }

  // ---- an execute phase leaves every other accept alone ----

  lemma PushApart(s: Store, spec: Spec, commit: Commit, fault: Fault, id: EffectId, p: ProjectId, d: DeliverableId)
    requires spec.project in s.remote && Apart(spec, id, p, d)
    ensures SameSlice(s, GoPush(s, spec, commit, fault).0, id, p, d)
  {
  }

  lemma LandApart(env: Env, s: Store, spec: Spec, fault: Fault, id: EffectId, p: ProjectId, d: DeliverableId)
    requires spec.project in s.local && Apart(spec, id, p, d)
    ensures SameSlice(s, GoLand(env, s, spec, fault).0, id, p, d)
  {
    match Prepare(env, spec, fault) {
      case Stop(_) =>
      case Ready(commit) => if spec.project in s.remote { PushApart(s, spec, commit, fault, id, p, d); }
    }
  }

  lemma SwapApart(s: Store, spec: Spec, commit: Commit, cur: Commit, fault: Fault, id: EffectId, p: ProjectId, d: DeliverableId)
    requires spec.project in s.local && Apart(spec, id, p, d)
    ensures SameSlice(s, GoSwap(s, spec, commit, cur, fault).0, id, p, d)
  {
  }

  lemma RowApart(env: Env, s: Store, spec: Spec, call: Call, io: Io, id: EffectId, p: ProjectId, d: DeliverableId)
    requires Runnable(s, call, io) && Executes(call.pc, spec) && Apart(spec, id, p, d)
    requires call.pc.WillBegin? || call.pc.WillSucceed? || call.pc.WillFail?
    ensures SameSlice(s, Act(env, s, call, io).0, id, p, d)
  {
  }

  lemma LateApart(env: Env, s: Store, spec: Spec, call: Call, io: Io, id: EffectId, p: ProjectId, d: DeliverableId)
    requires Runnable(s, call, io) && Executes(call.pc, spec) && Apart(spec, id, p, d)
    requires call.pc.WillMark? || call.pc.WillReview? || call.pc.WillAdvance? || call.pc.WillClear? || call.pc.WillRoute?
    ensures SameSlice(s, Act(env, s, call, io).0, id, p, d)
  {
  }

  lemma ActApart(env: Env, s: Store, spec: Spec, call: Call, io: Io, id: EffectId, p: ProjectId, d: DeliverableId)
    requires Runnable(s, call, io) && Executes(call.pc, spec) && Apart(spec, id, p, d)
    ensures SameSlice(s, Act(env, s, call, io).0, id, p, d)
  {
    match call.pc {
      case WillLand(_) => LandApart(env, s, spec, io.fault, id, p, d);
      case WillSwap(_, commit, cur) => SwapApart(s, spec, commit, cur, io.fault, id, p, d);
      case WillBegin(_) => RowApart(env, s, spec, call, io, id, p, d);
      case WillSucceed(_, _) => RowApart(env, s, spec, call, io, id, p, d);
      case WillFail(_, _, _) => RowApart(env, s, spec, call, io, id, p, d);
      case _ => LateApart(env, s, spec, call, io, id, p, d);
    }
  }

  lemma {:induction false} SoloApart(env: Env, s0: Store, s: Store, spec: Spec, call: Call, ios: nat -> Io, k: nat, lost: bool,
                                     id: EffectId, p: ProjectId, d: DeliverableId)
    requires Midway(s0, s, spec, call.pc, lost) && Apart(spec, id, p, d)
    ensures SameSlice(s, Solo(env, s, call, ios, k).0, id, p, d)
    decreases Rank(s, call.pc)
  {
    SoloUnfolds(env, s, call, ios, k);
    if Runnable(s, call, ios(k)) {
      RankDrops(env, s, call, ios(k));
      ActMidway(env, s0, s, spec, call, ios(k), lost);
      ActApart(env, s, spec, call, ios(k), id, p, d);
      var (s', pc') := Act(env, s, call, ios(k));
      SoloApart(env, s0, s', spec, call.(pc := pc'), ios, k + 1, lost || LosesFail(call.pc, ios(k)), id, p, d);
    }
  }

  // ---- an execute phase reads nothing of any other accept ----

  predicate Alike(a: Store, b: Store, spec: Spec) {
    SameSlice(a, b, spec.effect, spec.project, spec.deliverable)
  }

  lemma RemoteAlike(a: Store, b: Store, spec: Spec, commit: Commit, la: seq<Landing>, lb: seq<Landing>)
    requires Alike(a, b, spec)
    ensures Alike(a.(remote := a.remote[spec.project := commit], landings := la),
                  b.(remote := b.remote[spec.project := commit], landings := lb), spec)
  {
  }

  lemma PushedAlike(a: Store, b: Store, spec: Spec, commit: Commit)
    requires Alike(a, b, spec) && spec.project in a.remote && spec.project in b.remote && a.remote[spec.project] == b.remote[spec.project]
    ensures PushOutcome(a, spec.project, spec.onto, commit) == PushOutcome(b, spec.project, spec.onto, commit)
    ensures Alike(Push(a, spec, commit), Push(b, spec, commit), spec)
  {
    var l := Landing(spec.project, spec.effect, spec.onto, commit);
    RemoteAlike(a, b, spec, commit, a.landings + [l], b.landings + [l]);
  }

  lemma PushAlike(a: Store, b: Store, spec: Spec, commit: Commit, fault: Fault)
    requires Alike(a, b, spec) && spec.project in a.remote
    ensures var (a', pc) := GoPush(a, spec, commit, fault);
            var (b', pc') := GoPush(b, spec, commit, fault);
            pc == pc' && Alike(a', b', spec)
  {
    assert Get(a.remote, spec.project) == Get(b.remote, spec.project);
    PushedAlike(a, b, spec, commit);
  }

  lemma LandAlike(env: Env, a: Store, b: Store, spec: Spec, fault: Fault)
    requires Alike(a, b, spec) && spec.project in a.local
    ensures var (a', pc) := GoLand(env, a, spec, fault);
            var (b', pc') := GoLand(env, b, spec, fault);
            pc == pc' && Alike(a', b', spec)
  {
    match Prepare(env, spec, fault) {
      case Stop(_) =>
      case Ready(commit) => if spec.project in a.remote { PushAlike(a, b, spec, commit, fault); }
    }
  }

  lemma LocalAlike(a: Store, b: Store, spec: Spec, commit: Commit, la: seq<Landing>, lb: seq<Landing>)
    requires Alike(a, b, spec)
    ensures Alike(a.(local := a.local[spec.project := commit], landings := la),
                  b.(local := b.local[spec.project := commit], landings := lb), spec)
  {
  }

  lemma SwapAlike(a: Store, b: Store, spec: Spec, commit: Commit, cur: Commit, fault: Fault)
    requires Alike(a, b, spec) && spec.project in a.local
    ensures var (a', pc) := GoSwap(a, spec, commit, cur, fault);
            var (b', pc') := GoSwap(b, spec, commit, cur, fault);
            pc == pc' && Alike(a', b', spec)
  {
    assert Get(a.local, spec.project) == Get(b.local, spec.project);
    assert Get(a.remote, spec.project) == Get(b.remote, spec.project);
    var l := Landing(spec.project, spec.effect, cur, commit);
    LocalAlike(a, b, spec, commit, a.landings + [l], b.landings + [l]);
    LocalAlike(a, b, spec, commit, a.landings, b.landings);
  }

  lemma EffectAlike(a: Store, b: Store, spec: Spec, e: Effect)
    requires Alike(a, b, spec)
    ensures Alike(a.(effects := a.effects[spec.effect := e]), b.(effects := b.effects[spec.effect := e]), spec)
  {
  }

  lemma SameRow(a: Store, b: Store, spec: Spec)
    requires Alike(a, b, spec)
    ensures spec.effect in a.effects <==> spec.effect in b.effects
    ensures spec.effect in a.effects ==> a.effects[spec.effect] == b.effects[spec.effect]
  {
    assert Get(a.effects, spec.effect) == Get(b.effects, spec.effect);
  }

  lemma BeginAlike(env: Env, a: Store, b: Store, spec: Spec, io: Io)
    requires Alike(a, b, spec)
    ensures var (a', pc) := GoBegin(env, a, spec, io);
            var (b', pc') := GoBegin(env, b, spec, io);
            pc == pc' && Alike(a', b', spec)
  {
    SameRow(a, b, spec);
    if InState(a, spec.effect, Approved) {
      var e := a.effects[spec.effect];
      EffectAlike(a, b, spec, e.(state := Proposed, approvedTS := None));
      EffectAlike(a, b, spec, e.(state := Executing, attempts := e.attempts + 1));
    }
  }

  lemma FinishAlike(a: Store, b: Store, spec: Spec, st: EffectState, result: EffectResult)
    requires Alike(a, b, spec) && spec.effect in a.effects
    ensures spec.effect in b.effects && Alike(Finish(a, spec.effect, st, result), Finish(b, spec.effect, st, result), spec)
  {
    SameRow(a, b, spec);
    EffectAlike(a, b, spec, a.effects[spec.effect].(state := st, result := result));
  }

  lemma SucceedAlike(a: Store, b: Store, spec: Spec, commit: Commit, fault: Fault)
    requires Alike(a, b, spec)
    ensures var (a', pc) := GoSucceed(a, spec, commit, fault);
            var (b', pc') := GoSucceed(b, spec, commit, fault);
            pc == pc' && Alike(a', b', spec)
  {
    SameRow(a, b, spec);
    assert Get(a.remote, spec.project) == Get(b.remote, spec.project);
    if InState(a, spec.effect, Executing) {
      FinishAlike(a, b, spec, Succeeded, Recorded(commit, spec.project !in a.remote));
    }
  }

  lemma FailAlike(a: Store, b: Store, spec: Spec, reason: string)
    requires Alike(a, b, spec)
    ensures Alike(FailEffect(a, spec.effect, reason), FailEffect(b, spec.effect, reason), spec)
  {
    SameRow(a, b, spec);
    if InState(a, spec.effect, Executing) {
      FinishAlike(a, b, spec, Failed, Error(reason));
    }
  }

  lemma ReviewAlike(a: Store, b: Store, spec: Spec, commit: Commit, fault: Fault)
    requires Alike(a, b, spec)
    ensures var (a', pc) := GoReview(a, spec, commit, fault);
            var (b', pc') := GoReview(b, spec, commit, fault);
            pc == pc' && Alike(a', b', spec)
  {
    assert Get(a.deliverables, spec.deliverable) == Get(b.deliverables, spec.deliverable);
    assert Get(a.remote, spec.project) == Get(b.remote, spec.project);
  }

  lemma AdvanceAlike(a: Store, b: Store, spec: Spec, commit: Commit, fault: Fault)
    requires Alike(a, b, spec) && spec.project in a.local
    ensures spec.project in b.local && GoAdvance(a, spec, commit, fault) == GoAdvance(b, spec, commit, fault)
  {
    assert Get(a.local, spec.project) == Get(b.local, spec.project);
  }

  lemma LookaheadAlike(a: Store, b: Store, spec: Spec, commit: Commit)
    requires Alike(a, b, spec)
    ensures Alike(MarkInflight(a, spec.project, spec.effect, commit), MarkInflight(b, spec.project, spec.effect, commit), spec)
    ensures Alike(ClearInflight(a, spec.project, spec.effect), ClearInflight(b, spec.project, spec.effect), spec)
  {
    assert Get(a.inflight, spec.project) == Get(b.inflight, spec.project);
  }

  lemma ActAlike(env: Env, a: Store, b: Store, spec: Spec, call: Call, io: Io)
    requires Alike(a, b, spec) && Runnable(a, call, io) && Executes(call.pc, spec)
    ensures Runnable(b, call, io)
    ensures var (a', pc) := Act(env, a, call, io);
            var (b', pc') := Act(env, b, call, io);
            pc == pc' && Alike(a', b', spec)
  {
    match call.pc {
      case WillLand(_) => LandAlike(env, a, b, spec, io.fault);
      case WillSwap(_, commit, cur) => SwapAlike(a, b, spec, commit, cur, io.fault);
      case WillBegin(_) => BeginAlike(env, a, b, spec, io);
      case WillMark(_, commit) => LookaheadAlike(a, b, spec, commit);
      case WillSucceed(_, commit) => SucceedAlike(a, b, spec, commit, io.fault);
      case WillReview(_, commit) => ReviewAlike(a, b, spec, commit, io.fault);
      case WillAdvance(_, commit) => AdvanceAlike(a, b, spec, commit, io.fault);
      case WillFail(_, reason, _) => FailAlike(a, b, spec, reason);
      case WillClear(_, _) => LookaheadAlike(a, b, spec, spec.onto);
      case WillRoute(_) =>
    }
  }

  lemma {:induction false} SoloAlike(env: Env, s0: Store, a: Store, b: Store, spec: Spec, call: Call, ios: nat -> Io, k: nat, lost: bool)
    requires Midway(s0, a, spec, call.pc, lost) && Alike(a, b, spec)
    ensures var (a', pc) := Solo(env, a, call, ios, k);
            var (b', pc') := Solo(env, b, call, ios, k);
            pc == pc' && Alike(a', b', spec)
    decreases Rank(a, call.pc)
  {
    SoloUnfolds(env, a, call, ios, k);
    SoloUnfolds(env, b, call, ios, k);
    if Runnable(a, call, ios(k)) {
      RankDrops(env, a, call, ios(k));
      ActMidway(env, s0, a, spec, call, ios(k), lost);
      ActAlike(env, a, b, spec, call, ios(k));
      var (a', pc') := Act(env, a, call, ios(k));
      SoloAlike(env, s0, a', Act(env, b, call, ios(k)).0, spec, call.(pc := pc'), ios, k + 1, lost || LosesFail(call.pc, ios(k)));
    }
  }

  // ---- the boot ----

  /** The store after the re-drive of one row alone. */
  ghost function Redrove(env: Env, s: Store, id: EffectId, ios: nat -> Io): Store {
    Solo(env, s, Call(NoInput, RedriveEntry(s, id)), ios, 0).0
  }

  predicate About(s: Store, id: EffectId, p: ProjectId, d: DeliverableId) {
    id in s.effects && s.effects[id].payload.project == p && s.effects[id].payload.deliverable == d
  }

  predicate AboutOther(s: Store, id: EffectId, p: ProjectId, d: DeliverableId) {
    id in s.effects && s.effects[id].payload.project != p && s.effects[id].payload.deliverable != d
  }

  lemma RedroveApart(env: Env, s: Store, other: EffectId, ios: nat -> Io, id: EffectId, p: ProjectId, d: DeliverableId)
    requires Redrivable(s, other) && AboutOther(s, other, p, d) && About(s, id, p, d)
    ensures SameSlice(s, Redrove(env, s, other, ios), id, p, d)
  {
    var spec := RebuiltSpec(other, s.effects[other]);
    SoloApart(env, s, s, spec, Call(NoInput, WillBegin(spec)), ios, 0, false, id, p, d);
  }

  lemma RedroveAlike(env: Env, a: Store, b: Store, id: EffectId, ios: nat -> Io, p: ProjectId, d: DeliverableId)
    requires Redrivable(a, id) && About(a, id, p, d) && SameSlice(a, b, id, p, d)
    ensures SameSlice(Redrove(env, a, id, ios), Redrove(env, b, id, ios), id, p, d)
  {
    assert Get(a.effects, id) == Get(b.effects, id);
    var spec := RebuiltSpec(id, a.effects[id]);
    SoloAlike(env, a, a, b, spec, Call(NoInput, WillBegin(spec)), ios, 0, false);
  }

  lemma {:induction false} CountRises(env: Env, s: Store, ids: seq<EffectId>, ios: (nat, nat) -> Io, i: nat, n: nat)
    ensures RedriveFrom(env, s, ids, ios, i, n).count >= n
    decreases |ids| - i
  {
    if i < |ids| {
      if ids[i] !in s.effects || !AcceptEffect(s.effects[ids[i]]) {
        CountRises(env, s, ids, ios, i + 1, n);
      } else {
        var s' := Solo(env, s, Call(NoInput, RedriveEntry(s, ids[i])), Nth(ios, i), 0).0;
        CountRises(env, s', ids, ios, i + 1, n + 1);
      }
    }
  }

  /** The rows from the `j`th on, but for the `i`th, are about other projects and deliverables than `p` and `d`. */
  predicate Separate(s: Store, ids: seq<EffectId>, j: nat, i: nat, p: ProjectId, d: DeliverableId) {
    forall a :: j <= a < |ids| ==> Redrivable(s, ids[a]) && (a != i ==> AboutOther(s, ids[a], p, d))
  }

  /** One re-drive leaves the other rows as they are to be re-driven. */
  lemma StaysSeparate(env: Env, s: Store, ids: seq<EffectId>, ios: nat -> Io, j: nat, i: nat, p: ProjectId, d: DeliverableId)
    requires j < |ids| && Separate(s, ids, j, i, p, d)
    requires forall a, b :: 0 <= a < b < |ids| ==> ids[a] != ids[b]
    ensures Separate(Redrove(env, s, ids[j], ios), ids, j + 1, i, p, d)
  {
    RedriveOne(env, s, ids[j], ios);
    var s' := Redrove(env, s, ids[j], ios);
    forall a | j + 1 <= a < |ids|
      ensures Redrivable(s', ids[a]) && (a != i ==> AboutOther(s', ids[a], p, d))
    {
      assert ids[a] != ids[j] && s'.effects[ids[a]] == s.effects[ids[a]];
    }
  }

  lemma {:induction false} BootAfter(env: Env, s: Store, ids: seq<EffectId>, ios: (nat, nat) -> Io, j: nat, n: nat,
                                     i: nat, id: EffectId, p: ProjectId, d: DeliverableId)
    requires i < j && Separate(s, ids, j, i, p, d) && About(s, id, p, d)
    requires forall a, b :: 0 <= a < b < |ids| ==> ids[a] != ids[b]
    ensures SameSlice(s, RedriveFrom(env, s, ids, ios, j, n).store, id, p, d)
    decreases |ids| - j
  {
    if j < |ids| {
      var own := Nth(ios, j);
      RedriveUnfolds(env, s, ids, ios, j, n);
      RedroveApart(env, s, ids[j], own, id, p, d);
      StaysSeparate(env, s, ids, own, j, i, p, d);
      var s' := Redrove(env, s, ids[j], own);
      assert Get(s.effects, id) == Get(s'.effects, id);
      BootAfter(env, s', ids, ios, j + 1, n + 1, i, id, p, d);
    }
  }

  /** What the boot leaves of one row's slice: its re-drive's, if it got there, and the old one otherwise. */
  ghost predicate BootSlice(env: Env, s: Store, id: EffectId, ios: nat -> Io, r: Redriven, reached: bool, p: ProjectId, d: DeliverableId) {
    SameSlice(r.store, if reached then Redrove(env, s, id, ios) else s, id, p, d)
  }

  /** What the boot from the `j`th row on does for the `i`th. */
  ghost predicate BootDoes(env: Env, s: Store, ids: seq<EffectId>, ios: (nat, nat) -> Io, j: nat, n: nat, i: nat, p: ProjectId, d: DeliverableId)
    requires j <= i < |ids|
  {
    var r := RedriveFrom(env, s, ids, ios, j, n);
    BootSlice(env, s, ids[i], Nth(ios, i), r, r.count >= n + (i - j), p, d)
  }

  /** The boot comes to the row. */
  lemma BootHere(env: Env, s: Store, ids: seq<EffectId>, ios: (nat, nat) -> Io, i: nat, n: nat, p: ProjectId, d: DeliverableId)
    requires i < |ids| && Separate(s, ids, i, i, p, d) && About(s, ids[i], p, d)
    requires forall a, b :: 0 <= a < b < |ids| ==> ids[a] != ids[b]
    ensures BootDoes(env, s, ids, ios, i, n, i, p, d)
  {
    var own := Nth(ios, i);
    RedriveUnfolds(env, s, ids, ios, i, n);
    StaysSeparate(env, s, ids, own, i, i, p, d);
    CountRises(env, s, ids, ios, i, n);
    RedroveKeepsAbout(env, s, ids[i], own, p, d);
    BootAfter(env, Redrove(env, s, ids[i], own), ids, ios, i + 1, n + 1, i, ids[i], p, d);
  }

  lemma BootOn(env: Env, s: Store, s': Store, id: EffectId, ios: nat -> Io, r: Redriven, reached: bool, p: ProjectId, d: DeliverableId)
    requires Redrivable(s, id) && About(s, id, p, d) && SameSlice(s, s', id, p, d) && BootSlice(env, s', id, ios, r, reached, p, d)
    ensures BootSlice(env, s, id, ios, r, reached, p, d)
  {
    RedroveAlike(env, s, s', id, ios, p, d);
  }

  lemma BootFirst(env: Env, s: Store, ids: seq<EffectId>, ios: (nat, nat) -> Io, j: nat, i: nat, p: ProjectId, d: DeliverableId)
    requires j < i < |ids| && Separate(s, ids, j, i, p, d) && About(s, ids[i], p, d)
    requires forall a, b :: 0 <= a < b < |ids| ==> ids[a] != ids[b]
    ensures var s' := Redrove(env, s, ids[j], Nth(ios, j));
            SameSlice(s, s', ids[i], p, d) && Separate(s', ids, j + 1, i, p, d) && About(s', ids[i], p, d)
  {
    var own := Nth(ios, j);
    RedroveApart(env, s, ids[j], own, ids[i], p, d);
    StaysSeparate(env, s, ids, own, j, i, p, d);
    assert Get(s.effects, ids[i]) == Get(Redrove(env, s, ids[j], own).effects, ids[i]);
  }

  lemma BootPast(env: Env, s: Store, ids: seq<EffectId>, ios: (nat, nat) -> Io, j: nat, n: nat, i: nat, p: ProjectId, d: DeliverableId)
    requires j < i < |ids| && Separate(s, ids, j, i, p, d) && About(s, ids[i], p, d)
    requires forall a, b :: 0 <= a < b < |ids| ==> ids[a] != ids[b]
    requires BootDoes(env, Redrove(env, s, ids[j], Nth(ios, j)), ids, ios, j + 1, n + 1, i, p, d)
    ensures BootDoes(env, s, ids, ios, j, n, i, p, d)
  {
    var s' := Redrove(env, s, ids[j], Nth(ios, j));
    var r := RedriveFrom(env, s, ids, ios, j, n);
    BootFirst(env, s, ids, ios, j, i, p, d);
    RedriveUnfolds(env, s, ids, ios, j, n);
    if r != Redriven(s', n, true) {
      BootOn(env, s, s', ids[i], Nth(ios, i), r, r.count >= n + (i - j), p, d);
    }
  }

  /** The boot re-drive of one row among rows about other projects and deliverables: if the re-drives before it reported no
      error, so that at least that many are counted, its row, branches, look-ahead and review state end as its re-drive
      alone would leave them; otherwise the boot leaves them as they were. */
  lemma {:induction false} BootRedrivesAlone(env: Env, s: Store, ids: seq<EffectId>, ios: (nat, nat) -> Io, j: nat, n: nat,
                                             i: nat, p: ProjectId, d: DeliverableId)
    requires j <= i < |ids| && Separate(s, ids, j, i, p, d) && About(s, ids[i], p, d)
    requires forall a, b :: 0 <= a < b < |ids| ==> ids[a] != ids[b]
    ensures BootDoes(env, s, ids, ios, j, n, i, p, d)
    decreases |ids| - j
  {
    if j == i {
      BootHere(env, s, ids, ios, i, n, p, d);
    } else {
      BootFirst(env, s, ids, ios, j, i, p, d);
      BootRedrivesAlone(env, Redrove(env, s, ids[j], Nth(ios, j)), ids, ios, j + 1, n + 1, i, p, d);
      BootPast(env, s, ids, ios, j, n, i, p, d);
    }
  }

  lemma RedroveKeepsAbout(env: Env, s: Store, id: EffectId, ios: nat -> Io, p: ProjectId, d: DeliverableId)
    requires Redrivable(s, id) && About(s, id, p, d)
    ensures About(Redrove(env, s, id, ios), id, p, d)
  {
    var spec := RebuiltSpec(id, s.effects[id]);
    SoloKeepsRow(env, s, s, spec, Call(NoInput, WillBegin(spec)), ios, 0, false, id);
    SoloKeepsPayloads(env, s, s, spec, Call(NoInput, WillBegin(spec)), ios, 0, id, false);
  }

  lemma {:induction false} SoloKeepsRow(env: Env, s0: Store, s: Store, spec: Spec, call: Call, ios: nat -> Io, k: nat, lost: bool, id: EffectId)
    requires Midway(s0, s, spec, call.pc, lost) && id in s.effects
    ensures id in Solo(env, s, call, ios, k).0.effects
    decreases Rank(s, call.pc)
  {
    SoloUnfolds(env, s, call, ios, k);
    if Runnable(s, call, ios(k)) {
      RankDrops(env, s, call, ios(k));
      ActMidway(env, s0, s, spec, call, ios(k), lost);
      ActKeepsRow(env, s, spec, call, ios(k), id);
      var (s', pc') := Act(env, s, call, ios(k));
      SoloKeepsRow(env, s0, s', spec, call.(pc := pc'), ios, k + 1, lost || LosesFail(call.pc, ios(k)), id);
    }
  }

  lemma ActKeepsRow(env: Env, s: Store, spec: Spec, call: Call, io: Io, id: EffectId)
    requires Runnable(s, call, io) && Executes(call.pc, spec) && id in s.effects
    ensures id in Act(env, s, call, io).0.effects
  {
    match call.pc {
      case WillLand(_) => AcceptLookahead.LandRows(env, s, spec, io.fault);
      case WillSwap(_, commit, cur) => AcceptLookahead.SwapRows(s, spec, commit, cur, io.fault);
      case _ =>
    }
  }

  // ---- a crash, and a boot with other accepts to re-drive ----

  lemma {:induction false} AloneIsSolo(env: Env, s: Store, call: Call, io: Io, n: nat, ios: nat -> Io, k: nat)
    requires Rank(s, call.pc) <= n && forall x :: ios(x) == io
    ensures Solo(env, s, call, ios, k) == (AcceptCrash.Alone(env, s, call, io, n).0, AcceptCrash.Alone(env, s, call, io, n).1.pc)
    decreases n
  {
    SoloUnfolds(env, s, call, ios, k);
    if Runnable(s, call, io) {
      RankDrops(env, s, call, io);
      AcceptCrash.AloneFrom(env, s, call, io, n);
      var (s', pc') := Act(env, s, call, io);
      AloneIsSolo(env, s', call.(pc := pc'), io, n - 1, ios, k + 1);
    } else {
      AcceptCrash.AloneStops(env, s, call, io, n);
    }
  }

  /** The same slice, but for how often the effect was tried. */
  predicate SameButAttempts(a: Store, b: Store, id: EffectId, p: ProjectId, d: DeliverableId) {
    && id in a.effects && id in b.effects && a.effects[id].(attempts := 0) == b.effects[id].(attempts := 0)
    && SliceOf(a, id, p, d).(row := None) == SliceOf(b, id, p, d).(row := None)
  }

  lemma SameEndIsSame(a: Store, b: Store, id: EffectId, p: ProjectId, d: DeliverableId)
    requires AcceptCrash.SameEnd(a, b, id)
    ensures SameButAttempts(a, b, id, p, d)
  {
  }

  /** The crash point as the reboot finds it: the accept's row approved, and about its project and deliverable. */
  lemma RebootedAbout(env: Env, s: Store, in_: Input, tree: string, io1: Io, now: int, k: nat)
    requires AcceptCrash.Acceptable(env, s, in_, tree, io1.id) && now - io1.now <= env.expiry
    requires AcceptCrash.APPROVED <= k <= AcceptCrash.LAST_BEFORE_SUCCEED
    ensures var v := AcceptCrash.Rebooted(AcceptCrash.ScriptAt(env, s, in_, tree, io1, now, k).0, io1.id);
            && About(v, io1.id, in_.project, in_.deliverable)
            && InState(v, io1.id, Approved) && v.effects[io1.id].approvedTS == Some(io1.now)
  {
    if in_.project in s.remote {
      AcceptCrash.RebootedBeforeSucceed(env, s, in_, tree, io1, now, k);
    } else {
      AcceptCrash.LocalRebooted(env, s, in_, tree, io1, now, k);
    }
  }

  /** The re-drive alone, after a crash between approve and succeed: it reaches the crash-free end of its accept exactly
      when the approval is fresh. */
  lemma RedroveReaches(env: Env, s: Store, in_: Input, tree: string, io1: Io, now: int, k: nat, io3: Io, ios: nat -> Io)
    requires AcceptCrash.Acceptable(env, s, in_, tree, io1.id) && now - io1.now <= env.expiry && io3.fault == NoFault
    requires AcceptCrash.APPROVED <= k <= AcceptCrash.LAST_BEFORE_SUCCEED && forall x :: ios(x) == io3
    ensures var v := AcceptCrash.Rebooted(AcceptCrash.ScriptAt(env, s, in_, tree, io1, now, k).0, io1.id);
            SameButAttempts(Redrove(env, v, io1.id, ios), AcceptCrash.EndOf(env, s, in_, tree, io1, now), io1.id, in_.project, in_.deliverable)
            <==> io3.now - io1.now <= env.expiry
  {
    var v := AcceptCrash.Rebooted(AcceptCrash.ScriptAt(env, s, in_, tree, io1, now, k).0, io1.id);
    var end := AcceptCrash.EndOf(env, s, in_, tree, io1, now);
    RebootedAbout(env, s, in_, tree, io1, now, k);
    AloneIsSolo(env, v, Call(NoInput, RedriveEntry(v, io1.id)), io3, 8, ios, 0);
    if io3.now - io1.now > env.expiry {
      AcceptCrash.RedriveRefused(env, v, io1.id, io3);
      AcceptCrash.EndState(env, s, in_, tree, io1, now);
    } else {
      if in_.project in s.remote {
        AcceptCrash.PushRedriveReachesEnd(env, s, in_, tree, io1, now, k, io3);
      } else {
        AcceptCrash.LocalRedriveReachesEnd(env, s, in_, tree, io1, now, k, io3);
      }
      SameEndIsSame(Redrove(env, v, io1.id, ios), end, io1.id, in_.project, in_.deliverable);
    }
  }

  /** Crash transparency at a boot that re-drives other accepts too, about other projects and deliverables, with whatever
      faults they meet. After a crash of a lone accept between approve and succeed and a reconcile that may have returned
      other rows to approved, the boot leaves the accept's row, branches, look-ahead and review state as the crash-free run
      does if and only if no re-drive before it reported an error and its approval was fresh. */
  lemma BootTransparency(env: Env, s: Store, in_: Input, tree: string, io1: Io, io2: Io, io3: Io, k: nat, v: Store,
                         ids: seq<EffectId>, i: nat, ios: (nat, nat) -> Io)
    requires AcceptCrash.Acceptable(env, s, in_, tree, io1.id) && io2.now - io1.now <= env.expiry
    requires io1.fault == NoFault && io2.fault == NoFault && io3.fault == NoFault
    requires AcceptCrash.APPROVED <= k <= AcceptCrash.LAST_BEFORE_SUCCEED
    requires var crashed := Run(env, World(s, map[]), AcceptCrash.Script(in_, io1, io2, k)).store;
             SameSlice(v, AcceptCrash.Rebooted(crashed, io1.id), io1.id, in_.project, in_.deliverable)
    requires i < |ids| && ids[i] == io1.id && Separate(v, ids, 0, i, in_.project, in_.deliverable)
    requires forall a, b :: 0 <= a < b < |ids| ==> ids[a] != ids[b]
    requires forall x :: ios(i, x) == io3
    ensures var r := RedriveFrom(env, v, ids, ios, 0, 0);
            var end := Run(env, World(s, map[]), AcceptCrash.Script(in_, io1, io2, AcceptCrash.Steps(s, in_.project))).store;
            SameButAttempts(r.store, end, io1.id, in_.project, in_.deliverable)
            <==> r.count >= i && io3.now - io1.now <= env.expiry
  {
    var p, d, id := in_.project, in_.deliverable, io1.id;
    AcceptCrash.ScriptRuns(env, s, in_, tree, io1, io2, k);
    AcceptCrash.ScriptRuns(env, s, in_, tree, io1, io2, AcceptCrash.Steps(s, p));
    var u := AcceptCrash.Rebooted(AcceptCrash.ScriptAt(env, s, in_, tree, io1, io2.now, k).0, id);
    RebootedAbout(env, s, in_, tree, io1, io2.now, k);
    assert Get(u.effects, id) == Get(v.effects, id);
    var mine := Nth(ios, i);
    BootRedrivesAlone(env, v, ids, ios, 0, 0, i, p, d);
    RedroveAlike(env, v, u, id, mine, p, d);
    RedroveReaches(env, s, in_, tree, io1, io2.now, k, io3, mine);
    AcceptCrash.EndState(env, s, in_, tree, io1, io2.now);
  }
}
