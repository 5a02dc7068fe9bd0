/**
 One call run to its end with nobody else about: the specification of the accepter's methods, and what each answer
 tells the caller.
 */
module AcceptSolo {
  import opened Wrappers
  import opened AcceptWorld
  import opened AcceptSafety
  import AcceptLookahead

  /** How many actions a call can still take. */
  function Rank(s: Store, pc: Pc): nat {
    match pc
    case Entered => 13
    case WillAcceptContent => 12
    case WillReadLookahead(_) => 12
    case WillReadHead(_) => 11
    case WillPropose(_, _) => 10
    case WillApprove(_, _, _) => 9
    case WillBegin(_) => 8
    case WillLand(_) => 7
    case WillMark(_, _) => 6
    case WillSucceed(_, _) => 5
    case WillReview(_, _) => 4
    case WillRoute(_) => 1
    case WillAdvance(spec, _) => if spec.project in s.remote then 3 else 7
    case WillSwap(spec, _, _) => if spec.project in s.remote then 2 else 6
    case WillFail(_, _, _) => 1
    case WillClear(_, _) => 1
    case Returned(_) => 0
  }

  lemma LandRank(env: Env, s: Store, spec: Spec, fault: Fault)
    requires spec.project in s.local
    ensures var (s', pc') := GoLand(env, s, spec, fault); Rank(s', pc') < 7
  {
  }

  lemma SucceedRank(s: Store, spec: Spec, commit: Commit, fault: Fault)
    ensures var (s', pc') := GoSucceed(s, spec, commit, fault); Rank(s', pc') < 5
    ensures var (s', pc') := GoReview(s, spec, commit, fault); Rank(s', pc') < 4
  {
  }

  lemma RankDrops(env: Env, s: Store, call: Call, io: Io)
    requires Runnable(s, call, io)
    ensures var (s', pc') := Act(env, s, call, io); Rank(s', pc') < Rank(s, call.pc)
  {
    match call.pc {
      case WillLand(spec) => LandRank(env, s, spec, io.fault);
      case WillSucceed(spec, commit) => SucceedRank(s, spec, commit, io.fault);
      case WillReview(spec, commit) => SucceedRank(s, spec, commit, io.fault);
      case _ =>
    }
  }

  /** The call's `k`th action has the clock reading, the fresh identifier and the fault `ios(k)`. */
  ghost function Solo(env: Env, s: Store, call: Call, ios: nat -> Io, k: nat): (Store, Pc)
    decreases Rank(s, call.pc)
  {
    if Runnable(s, call, ios(k)) then
      RankDrops(env, s, call, ios(k));
      var (s', pc') := Act(env, s, call, ios(k));
      Solo(env, s', call.(pc := pc'), ios, k + 1)
    else (s, call.pc)
  }

  function Actions(cid: CallId, ios: nat -> Io, k: nat, n: nat): seq<Step> {
    seq(n, i requires 0 <= i < n => Go(cid, ios(k + i)))
  }

  lemma FirstAction(env: Env, s: Store, calls: map<CallId, Call>, cid: CallId, call: Call, io: Io)
    requires Runnable(s, call, io)
    ensures var (s', pc') := Act(env, s, call, io);
            Run(env, World(s, calls[cid := call]), [Go(cid, io)]) == World(s', calls[cid := call.(pc := pc')])
  {
    var w := World(s, calls[cid := call]);
    assert [Go(cid, io)][..0] == [] && Run(env, w, [Go(cid, io)]) == Apply(env, w, Go(cid, io));
    assert calls[cid := call][cid := call.(pc := Act(env, s, call, io).1)] == calls[cid := call.(pc := Act(env, s, call, io).1)];
  }

  lemma ActionsCons(cid: CallId, ios: nat -> Io, k: nat, m: nat)
    ensures Actions(cid, ios, k, m + 1) == [Go(cid, ios(k))] + Actions(cid, ios, k + 1, m)
  {
  }

  lemma SoloUnfolds(env: Env, s: Store, call: Call, ios: nat -> Io, k: nat)
    ensures Solo(env, s, call, ios, k)
            == if Runnable(s, call, ios(k)) then
                 var (s', pc') := Act(env, s, call, ios(k)); Solo(env, s', call.(pc := pc'), ios, k + 1)
               else (s, call.pc)
  {
  }

  /** A call alone is one of the system's runs: what holds of every run holds of it. */
  lemma {:induction false} SoloIsRun(env: Env, s: Store, calls: map<CallId, Call>, cid: CallId, call: Call, ios: nat -> Io, k: nat)
    ensures exists n: nat :: var (s', pc') := Solo(env, s, call, ios, k);
            Run(env, World(s, calls[cid := call]), Actions(cid, ios, k, n)) == World(s', calls[cid := call.(pc := pc')])
    decreases Rank(s, call.pc)
  {
    var w := World(s, calls[cid := call]);
    var io := ios(k);
    SoloUnfolds(env, s, call, ios, k);
    var (end, last) := Solo(env, s, call, ios, k);
    if Runnable(s, call, io) {
      RankDrops(env, s, call, io);
      var (s', pc') := Act(env, s, call, io);
      var call' := call.(pc := pc');
      SoloIsRun(env, s', calls, cid, call', ios, k + 1);
      var m: nat :| Run(env, World(s', calls[cid := call']), Actions(cid, ios, k + 1, m)) == World(end, calls[cid := call'.(pc := last)]);
      FirstAction(env, s, calls, cid, call, io);
      RunConcat(env, w, [Go(cid, io)], Actions(cid, ios, k + 1, m));
      ActionsCons(cid, ios, k, m);
      assert Run(env, w, Actions(cid, ios, k, m + 1)) == World(end, calls[cid := call.(pc := last)]);
    } else {
      assert Actions(cid, ios, k, 0) == [];
      assert call.(pc := last) == call;
    }
  }

  // ---- what an answer means ----

  predicate SameBranches(s0: Store, s: Store) {
    s.remote == s0.remote && s.local == s0.local && s.landings == s0.landings
  }

  predicate RecordedAs(s: Store, spec: Spec, c: Commit) {
    InState(s, spec.effect, Succeeded) && s.effects[spec.effect].result == Recorded(c, spec.project !in s.remote)
  }

  predicate Reviewed(s: Store, spec: Spec) {
    spec.deliverable in s.deliverables && s.deliverables[spec.deliverable].state == Accepted
  }

  predicate OnBranch(s: Store, spec: Spec, c: Commit) {
    spec.project in s.local && Anc(c, Official(s, spec.project))
  }

  /** An answer is the truth about the stored state, but for a fail write that was `lost`: the row is then executing
      still. */
  predicate AnswerTrue(s0: Store, s: Store, spec: Spec, out: Outcome, lost: bool) {
    && (lost ==> InState(s, spec.effect, Executing) && !Done(out).AcceptedAt?)
    && match Done(out)
       case AcceptedAt(id, c) =>
         && id == spec.effect && RecordedAs(s, spec, c) && Reviewed(s, spec) && OnBranch(s, spec, c)
         && Anc(c, s.local[spec.project])
       case MergeCard(_) =>
         !out.ErrorAfter? && (lost || InState(s, spec.effect, Failed)) && SameBranches(s0, s) && s.deliverables == s0.deliverables
       case Errored => SameBranches(s0, s) && s.deliverables == s0.deliverables
       case ErroredAfterLanding => true
       case AcceptedContent => false
       case ErrorAfter(_) => false
  }

  /** The action is the fail write, and it fails. */
  predicate LosesFail(pc: Pc, io: Io) {
    pc.WillFail? && io.fault != NoFault
  }

  /** The call gave its effect up, and lost the write that says so. */
  ghost predicate FailLost(env: Env, s: Store, call: Call, ios: nat -> Io, k: nat)
    decreases Rank(s, call.pc)
  {
    Runnable(s, call, ios(k))
    && (LosesFail(call.pc, ios(k))
        || (RankDrops(env, s, call, ios(k));
            var (s', pc') := Act(env, s, call, ios(k));
            FailLost(env, s', call.(pc := pc'), ios, k + 1)))
  }

  /** What is known between two actions of the execute phase of `spec`, begun on `s0`. */
  predicate Midway(s0: Store, s: Store, spec: Spec, pc: Pc, lost: bool) {
    var untouched := SameBranches(s0, s) && s.deliverables == s0.deliverables;
    && (lost ==> pc.Returned?)
    && s.remote.Keys == s0.remote.Keys && s.local.Keys == s0.local.Keys
    && match pc
       case WillBegin(sp) => sp == spec && untouched
       case WillLand(sp) => sp == spec && untouched && InState(s, spec.effect, Executing)
       case WillMark(sp, c) => sp == spec && InState(s, spec.effect, Executing) && OnBranch(s, spec, c) && spec.project in s.remote
       case WillSucceed(sp, c) =>
         && sp == spec && InState(s, spec.effect, Executing) && OnBranch(s, spec, c)
       case WillReview(sp, c) => sp == spec && RecordedAs(s, spec, c) && OnBranch(s, spec, c)
       case WillAdvance(sp, c) =>
         sp == spec && RecordedAs(s, spec, c) && OnBranch(s, spec, c) && Reviewed(s, spec) && spec.project in s.remote
       case WillSwap(sp, c, _) =>
         && sp == spec && spec.project in s.local
         && if spec.project in s.remote then RecordedAs(s, spec, c) && OnBranch(s, spec, c) && Reviewed(s, spec)
            else untouched && InState(s, spec.effect, Executing)
       case WillFail(sp, _, out) =>
         && sp == spec && InState(s, spec.effect, Executing)
         && ((out.MergeCard? && untouched) || (out == Errored && untouched) || out == ErroredAfterLanding)
       case WillClear(sp, out) =>
         sp == spec && (Done(out).AcceptedAt? || out == ErroredAfterLanding) && AnswerTrue(s0, s, spec, out, false)
       case WillRoute(out) => out.AcceptedAt? && AnswerTrue(s0, s, spec, out, false)
       case Returned(out) => AnswerTrue(s0, s, spec, out, lost)
       case _ => false
  }

  lemma LandMidway(env: Env, s0: Store, s: Store, spec: Spec, fault: Fault)
    requires Midway(s0, s, spec, WillLand(spec), false) && spec.project in s.local
    ensures var (s', pc') := GoLand(env, s, spec, fault); Midway(s0, s', spec, pc', false)
  {
    match Prepare(env, spec, fault) {
      case Stop(_) =>
      case Ready(commit) =>
        if spec.project in s.remote {
          PushMidway(s0, s, spec, commit, fault);
        }
    }
  }

  lemma PushMidway(s0: Store, s: Store, spec: Spec, commit: Commit, fault: Fault)
    requires Midway(s0, s, spec, WillLand(spec), false) && spec.project in s.local && spec.project in s.remote
    ensures var (s', pc') := GoPush(s, spec, commit, fault); Midway(s0, s', spec, pc', false)
  {
  }

  lemma SwapMidway(s0: Store, s: Store, spec: Spec, commit: Commit, cur: Commit, fault: Fault)
    requires Midway(s0, s, spec, WillSwap(spec, commit, cur), false)
    ensures var (s', pc') := GoSwap(s, spec, commit, cur, fault); Midway(s0, s', spec, pc', false)
  {
  }

  lemma ActMidway(env: Env, s0: Store, s: Store, spec: Spec, call: Call, io: Io, lost: bool)
    requires Midway(s0, s, spec, call.pc, lost) && Runnable(s, call, io)
    ensures var (s', pc') := Act(env, s, call, io); Midway(s0, s', spec, pc', lost || LosesFail(call.pc, io))
  {
    match call.pc {
      case WillLand(_) => LandMidway(env, s0, s, spec, io.fault);
      case WillSwap(_, commit, cur) => SwapMidway(s0, s, spec, commit, cur, io.fault);
      case WillSucceed(_, commit) => SucceedMidway(s0, s, spec, commit, io.fault);
      case WillReview(_, commit) => ReviewMidway(s0, s, spec, commit, io.fault);
      case WillBegin(_) => BeginMidway(env, s0, s, spec, io);
      case WillMark(_, _) => OtherMidway(env, s0, s, spec, call, io, lost);
      case WillAdvance(_, _) => OtherMidway(env, s0, s, spec, call, io, lost);
      case WillFail(_, _, _) => FailMidway(env, s0, s, spec, call, io, lost);
      case WillClear(_, _) => OtherMidway(env, s0, s, spec, call, io, lost);
      case WillRoute(_) => OtherMidway(env, s0, s, spec, call, io, lost);
    }
  }

  lemma OtherMidway(env: Env, s0: Store, s: Store, spec: Spec, call: Call, io: Io, lost: bool)
    requires Midway(s0, s, spec, call.pc, lost) && Runnable(s, call, io)
    requires call.pc.WillMark? || call.pc.WillAdvance? || call.pc.WillClear? || call.pc.WillRoute?
    ensures var (s', pc') := Act(env, s, call, io); Midway(s0, s', spec, pc', lost)
  {
    match call.pc {
      case WillMark(_, _) =>
      case WillAdvance(_, _) =>
      case WillClear(_, _) =>
      case WillRoute(_) =>
    }
  }

  lemma FailMidway(env: Env, s0: Store, s: Store, spec: Spec, call: Call, io: Io, lost: bool)
    requires Midway(s0, s, spec, call.pc, lost) && Runnable(s, call, io) && call.pc.WillFail?
    ensures var (s', pc') := Act(env, s, call, io); Midway(s0, s', spec, pc', LosesFail(call.pc, io))
  {
  }

  lemma BeginMidway(env: Env, s0: Store, s: Store, spec: Spec, io: Io)
    requires Midway(s0, s, spec, WillBegin(spec), false)
    ensures var (s', pc') := GoBegin(env, s, spec, io); Midway(s0, s', spec, pc', false)
  {
  }

  lemma SucceedMidway(s0: Store, s: Store, spec: Spec, commit: Commit, fault: Fault)
    requires Midway(s0, s, spec, WillSucceed(spec, commit), false)
    ensures var (s', pc') := GoSucceed(s, spec, commit, fault); Midway(s0, s', spec, pc', false)
  {
  }

  lemma ReviewMidway(s0: Store, s: Store, spec: Spec, commit: Commit, fault: Fault)
    requires Midway(s0, s, spec, WillReview(spec, commit), false)
    ensures var (s', pc') := GoReview(s, spec, commit, fault); Midway(s0, s', spec, pc', false)
  {
  }

  lemma {:induction false} SoloMidway(env: Env, s0: Store, s: Store, spec: Spec, call: Call, ios: nat -> Io, k: nat, lost: bool)
    requires Midway(s0, s, spec, call.pc, lost)
    ensures var (s', pc') := Solo(env, s, call, ios, k); Midway(s0, s', spec, pc', lost || FailLost(env, s, call, ios, k))
    decreases Rank(s, call.pc)
  {
    if Runnable(s, call, ios(k)) {
      RankDrops(env, s, call, ios(k));
      ActMidway(env, s0, s, spec, call, ios(k), lost);
      var (s', pc') := Act(env, s, call, ios(k));
      SoloMidway(env, s0, s', spec, call.(pc := pc'), ios, k + 1, lost || LosesFail(call.pc, ios(k)));
    }
  }

  /** An execute phase never gets stuck: it answers, whatever fails on the way. */
  lemma {:induction false} SoloReturns(env: Env, s0: Store, s: Store, spec: Spec, call: Call, ios: nat -> Io, k: nat, lost: bool)
    requires Midway(s0, s, spec, call.pc, lost) && spec.project in s.local
    ensures Solo(env, s, call, ios, k).1.Returned?
    decreases Rank(s, call.pc)
  {
    if Runnable(s, call, ios(k)) {
      RankDrops(env, s, call, ios(k));
      ActMidway(env, s0, s, spec, call, ios(k), lost);
      var (s', pc') := Act(env, s, call, ios(k));
      SoloReturns(env, s0, s', spec, call.(pc := pc'), ios, k + 1, lost || LosesFail(call.pc, ios(k)));
    }
  }

  /** Whatever fails on the way, the answer of an execute phase is true: accepted means recorded, reviewed and on both
      branches; a merge card means nothing moved, and the effect failed exactly when its fail write, whose error nobody
      sees, went through: without it the effect is executing still; a plain error means nothing moved. */
  lemma ExecuteAnswersTruly(env: Env, s: Store, in_: Input, spec: Spec, ios: nat -> Io, k: nat)
    requires spec.project in s.local
    ensures var call := Call(in_, WillBegin(spec));
            var (s', pc') := Solo(env, s, call, ios, k);
            var lost := FailLost(env, s, call, ios, k);
            && pc'.Returned? && AnswerTrue(s, s', spec, pc'.out, lost)
            && (pc'.out.MergeCard? ==> InState(s', spec.effect, if lost then Executing else Failed))
  {
    SoloMidway(env, s, s, spec, Call(in_, WillBegin(spec)), ios, k, false);
    SoloReturns(env, s, s, spec, Call(in_, WillBegin(spec)), ios, k, false);
  }

  // ---- the boot re-drive ----

  /** An execute phase writes its own row and no other. */
  lemma {:induction false} SoloOtherRows(env: Env, s0: Store, s: Store, spec: Spec, call: Call, ios: nat -> Io, k: nat, id: EffectId, lost: bool)
    requires Midway(s0, s, spec, call.pc, lost) && id in s.effects && id != spec.effect
    ensures var s' := Solo(env, s, call, ios, k).0; id in s'.effects && s'.effects[id] == s.effects[id]
    decreases Rank(s, call.pc)
  {
    if Runnable(s, call, ios(k)) {
      RankDrops(env, s, call, ios(k));
      ActMidway(env, s0, s, spec, call, ios(k), lost);
      AcceptLookahead.OneRow(env, s, call, ios(k), id);
      var (s', pc') := Act(env, s, call, ios(k));
      SoloOtherRows(env, s0, s', spec, call.(pc := pc'), ios, k + 1, id, lost || LosesFail(call.pc, ios(k)));
    }
  }

  /** An approved or executing row carries its approval time. */
  predicate Dated(e: Effect) {
    e.state in {Approved, Executing} ==> e.approvedTS.Some?
  }

  ghost predicate PayloadsKept(s: Store, s': Store) {
    forall id :: id in s'.effects ==>
      id in s.effects && s'.effects[id].payload == s.effects[id].payload && (Dated(s.effects[id]) ==> Dated(s'.effects[id]))
  }

  lemma RowKeepsPayloads(s: Store, s': Store, id: EffectId)
    requires id in s.effects && id in s'.effects && s'.effects == s.effects[id := s'.effects[id]]
    requires s'.effects[id].payload == s.effects[id].payload && (Dated(s.effects[id]) ==> Dated(s'.effects[id]))
    ensures PayloadsKept(s, s')
  {
  }

  lemma WriterKeepsPayloads(env: Env, s: Store, call: Call, io: Io)
    requires Runnable(s, call, io) && (call.pc.WillBegin? || call.pc.WillSucceed? || call.pc.WillFail?)
    ensures PayloadsKept(s, Act(env, s, call, io).0)
  {
    var s' := Act(env, s, call, io).0;
    if s'.effects != s.effects {
      RowKeepsPayloads(s, s', call.pc.spec.effect);
    }
  }

  lemma OthersKeepRows(env: Env, s: Store, call: Call, io: Io)
    requires Runnable(s, call, io)
    requires call.pc.WillMark? || call.pc.WillReview? || call.pc.WillAdvance? || call.pc.WillClear? || call.pc.WillRoute?
    ensures Act(env, s, call, io).0.effects == s.effects
  {
  }

  lemma ActKeepsPayloads(env: Env, s: Store, call: Call, io: Io)
    requires Runnable(s, call, io) && (call.pc.WillBegin? || call.pc.WillRoute? || AcceptLookahead.Engaged(call.pc))
    ensures PayloadsKept(s, Act(env, s, call, io).0)
  {
    match call.pc {
      case WillLand(spec) => AcceptLookahead.LandRows(env, s, spec, io.fault);
      case WillSwap(spec, commit, cur) => AcceptLookahead.SwapRows(s, spec, commit, cur, io.fault);
      case WillBegin(_) => WriterKeepsPayloads(env, s, call, io);
      case WillSucceed(_, _) => WriterKeepsPayloads(env, s, call, io);
      case WillFail(_, _, _) => WriterKeepsPayloads(env, s, call, io);
      case _ => OthersKeepRows(env, s, call, io);
    }
  }

  /** An execute phase adds no row, rewrites no payload and takes no approval time from a row it leaves executing. */
  lemma {:induction false} SoloKeepsPayloads(env: Env, s0: Store, s: Store, spec: Spec, call: Call, ios: nat -> Io, k: nat, id: EffectId, lost: bool)
    requires Midway(s0, s, spec, call.pc, lost) && id in Solo(env, s, call, ios, k).0.effects
    ensures id in s.effects && Solo(env, s, call, ios, k).0.effects[id].payload == s.effects[id].payload
    ensures Dated(s.effects[id]) ==> Dated(Solo(env, s, call, ios, k).0.effects[id])
    decreases Rank(s, call.pc)
  {
    if Runnable(s, call, ios(k)) {
      RankDrops(env, s, call, ios(k));
      ActMidway(env, s0, s, spec, call, ios(k), lost);
      var (s', pc') := Act(env, s, call, ios(k));
      SoloKeepsPayloads(env, s0, s', spec, call.(pc := pc'), ios, k + 1, id, lost || LosesFail(call.pc, ios(k)));
      ActKeepsPayloads(env, s, call, ios(k));
    }
  }

  predicate AcceptEffect(e: Effect) {
    e.payload.deliverable != "" && e.payload.project != ""
  }

  predicate IsError(out: Outcome) {
    out == Errored || out == ErroredAfterLanding || out.ErrorAfter?
  }

  /** What the `i`th re-drive of a boot meets. */
  function Nth(ios: (nat, nat) -> Io, i: nat): nat -> Io {
    (k: nat) => ios(i, k)
  }

  datatype Redriven = Redriven(store: Store, count: nat, failed: bool)

  /** The re-drives of `ids[i..]`, one after the other, stopping at the first error; `n` were done before. */
  ghost function RedriveFrom(env: Env, s: Store, ids: seq<EffectId>, ios: (nat, nat) -> Io, i: nat, n: nat): Redriven
    decreases |ids| - i
  {
    if i >= |ids| then Redriven(s, n, false)
    else if ids[i] !in s.effects || !AcceptEffect(s.effects[ids[i]]) then RedriveFrom(env, s, ids, ios, i + 1, n)
    else
      var (s', pc') := Solo(env, s, Call(NoInput, RedriveEntry(s, ids[i])), Nth(ios, i), 0);
      if pc'.Returned? && IsError(pc'.out) then Redriven(s', n, true)
      else RedriveFrom(env, s', ids, ios, i + 1, n + 1)
  }

  /** The rows among `ids[i..]` whose re-drive lost its fail write. */
  ghost function LostFrom(env: Env, s: Store, ids: seq<EffectId>, ios: (nat, nat) -> Io, i: nat): set<EffectId>
    decreases |ids| - i
  {
    if i >= |ids| then {}
    else if ids[i] !in s.effects || !AcceptEffect(s.effects[ids[i]]) then LostFrom(env, s, ids, ios, i + 1)
    else
      var call := Call(NoInput, RedriveEntry(s, ids[i]));
      var own := Nth(ios, i);
      LostFrom(env, Solo(env, s, call, own, 0).0, ids, ios, i + 1) + if FailLost(env, s, call, own, 0) then {ids[i]} else {}
  }

  predicate Redrivable(s: Store, id: EffectId) {
    && InState(s, id, Approved) && s.effects[id].approvedTS.Some?
    && s.effects[id].payload.project in s.local && s.effects[id].payload.project != "" && s.effects[id].payload.deliverable != ""
  }

  /** The row is listed as approved and is no accept's. */
  predicate Foreign(s: Store, id: EffectId) {
    id in s.effects && (s.effects[id].payload.deliverable == "" || s.effects[id].payload.project == "")
  }

  predicate Settled(s: Store, id: EffectId) {
    InState(s, id, Succeeded) || InState(s, id, Failed)
  }

  /** What a reconcile makes re-drivable: the row of an effect begun and neither recorded nor failed. */
  predicate LeftOver(s: Store, id: EffectId) {
    InState(s, id, Executing) && Redrivable(ReturnToApproved(s, id), id)
  }

  /** What a re-drive without an error leaves behind: its row settled, if and only if it did not lose its fail write, and
      otherwise left over for the next boot; every other row as it was. */
  lemma RedriveOne(env: Env, s: Store, id: EffectId, ios: nat -> Io)
    requires Redrivable(s, id)
    ensures var call := Call(NoInput, RedriveEntry(s, id));
            var (s', pc') := Solo(env, s, call, ios, 0);
            && pc'.Returned? && s'.local.Keys == s.local.Keys
            && (!IsError(pc'.out) ==> (Settled(s', id) <==> !FailLost(env, s, call, ios, 0)))
            && (FailLost(env, s, call, ios, 0) ==> LeftOver(s', id))
            && (forall x :: x in s.effects && x != id ==> x in s'.effects && s'.effects[x] == s.effects[x])
  {
    var spec := RebuiltSpec(id, s.effects[id]);
    var call := Call(NoInput, WillBegin(spec));
    ExecuteAnswersTruly(env, s, NoInput, spec, ios, 0);
    SoloMidway(env, s, s, spec, call, ios, 0, false);
    if FailLost(env, s, call, ios, 0) { SoloKeepsPayloads(env, s, s, spec, call, ios, 0, id, false); }
    forall x | x in s.effects && x != id
      ensures var s' := Solo(env, s, call, ios, 0).0; x in s'.effects && s'.effects[x] == s.effects[x]
    {
      SoloOtherRows(env, s, s, spec, call, ios, 0, x, false);
    }
  }

  lemma RedriveUnfolds(env: Env, s: Store, ids: seq<EffectId>, ios: (nat, nat) -> Io, i: nat, n: nat)
    requires i < |ids| && Redrivable(s, ids[i])
    ensures var own := Nth(ios, i);
            var call := Call(NoInput, RedriveEntry(s, ids[i]));
            var (s', pc') := Solo(env, s, call, own, 0);
            && RedriveFrom(env, s, ids, ios, i, n)
               == (if pc'.Returned? && IsError(pc'.out) then Redriven(s', n, true) else RedriveFrom(env, s', ids, ios, i + 1, n + 1))
            && LostFrom(env, s, ids, ios, i)
               == LostFrom(env, s', ids, ios, i + 1) + if FailLost(env, s, call, own, 0) then {ids[i]} else {}
  {
  }

  /** How many of `ids[i..]` are accepts. */
  function Accepts(s: Store, ids: seq<EffectId>, i: nat): nat
    decreases |ids| - i
  {
    if i >= |ids| then 0 else (if Foreign(s, ids[i]) then 0 else 1) + Accepts(s, ids, i + 1)
  }

  lemma {:induction false} AcceptsStay(s: Store, s': Store, ids: seq<EffectId>, i: nat)
    requires forall a :: i <= a < |ids| ==> ids[a] in s.effects && ids[a] in s'.effects && s'.effects[ids[a]] == s.effects[ids[a]]
    ensures Accepts(s', ids, i) == Accepts(s, ids, i)
    decreases |ids| - i
  {
    if i < |ids| { AcceptsStay(s, s', ids, i + 1); }
  }

  lemma {:induction false} AllAccepts(s: Store, ids: seq<EffectId>, i: nat)
    requires i <= |ids| && forall a :: i <= a < |ids| ==> Redrivable(s, ids[a])
    ensures Accepts(s, ids, i) == |ids| - i
    decreases |ids| - i
  {
    if i < |ids| { AllAccepts(s, ids, i + 1); }
  }

  /** A boot re-drive of `ids[i..]` that reports no error has counted each accept once, has touched no other row, and has
      settled exactly the accepts that did not lose their fail write: those it leaves over. */
  ghost predicate BootLeaves(s: Store, ids: seq<EffectId>, i: nat, n: nat, r: Redriven, lost: set<EffectId>)
    requires i <= |ids|
  {
    && (forall x :: x in s.effects && (x !in ids[i..] || Foreign(s, x)) ==> x in r.store.effects && r.store.effects[x] == s.effects[x])
    && r.count <= n + Accepts(s, ids, i) && r.store.local.Keys == s.local.Keys
    && (!r.failed ==>
          && r.count == n + Accepts(s, ids, i)
          && (forall a :: i <= a < |ids| && !Foreign(s, ids[a]) ==> (Settled(r.store, ids[a]) <==> ids[a] !in lost))
          && (forall x :: x in lost ==> x in ids[i..] && LeftOver(r.store, x)))
  }

  lemma BootStepKeeps(s: Store, s': Store, ids: seq<EffectId>, i: nat, n: nat, r: Redriven, lost: set<EffectId>)
    requires i < |ids| && BootLeaves(s', ids, i + 1, n + 1, r, lost) && !Foreign(s, ids[i])
    requires forall x :: x in s.effects && x != ids[i] ==> x in s'.effects && s'.effects[x] == s.effects[x]
    ensures forall x :: x in s.effects && (x !in ids[i..] || Foreign(s, x)) ==> x in r.store.effects && r.store.effects[x] == s.effects[x]
  {
    assert ids[i..] == [ids[i]] + ids[i + 1..];
    forall x | x in s.effects && (x !in ids[i..] || Foreign(s, x))
      ensures x in r.store.effects && r.store.effects[x] == s.effects[x]
    {
      assert x != ids[i] && s'.effects[x] == s.effects[x];
      assert x !in ids[i + 1..] || Foreign(s', x);
    }
  }

  lemma BootStepSettles(s: Store, s': Store, ids: seq<EffectId>, i: nat, n: nat, r: Redriven, lost: set<EffectId>, here: bool)
    requires i < |ids| && BootLeaves(s', ids, i + 1, n + 1, r, lost) && Listed(s, ids, i) && !r.failed
    requires forall a, b :: 0 <= a < b < |ids| ==> ids[a] != ids[b]
    requires ids[i] in s'.effects && s'.local.Keys == s.local.Keys
    requires (Settled(s', ids[i]) <==> !here) && (here ==> LeftOver(s', ids[i]))
    requires forall x :: x in s.effects && x != ids[i] ==> x in s'.effects && s'.effects[x] == s.effects[x]
    ensures var all := lost + if here then {ids[i]} else {};
            && (forall a :: i <= a < |ids| && !Foreign(s, ids[a]) ==> (Settled(r.store, ids[a]) <==> ids[a] !in all))
            && (forall x :: x in all ==> x in ids[i..] && LeftOver(r.store, x))
  {
    assert ids[i..] == [ids[i]] + ids[i + 1..];
    assert ids[i] !in ids[i + 1..];
    assert r.store.effects[ids[i]] == s'.effects[ids[i]];
    forall a | i < a < |ids| && !Foreign(s, ids[a])
      ensures Settled(r.store, ids[a]) <==> ids[a] !in lost
    {
      assert ids[a] != ids[i] && s'.effects[ids[a]] == s.effects[ids[a]];
    }
  }

  lemma BootStep(s: Store, s': Store, ids: seq<EffectId>, i: nat, n: nat, r: Redriven, lost: set<EffectId>, here: bool)
    requires i < |ids| && BootLeaves(s', ids, i + 1, n + 1, r, lost) && Listed(s, ids, i) && !Foreign(s, ids[i])
    requires forall a, b :: 0 <= a < b < |ids| ==> ids[a] != ids[b]
    requires ids[i] in s'.effects && s'.local.Keys == s.local.Keys
    requires (Settled(s', ids[i]) <==> !here) && (here ==> LeftOver(s', ids[i]))
    requires forall x :: x in s.effects && x != ids[i] ==> x in s'.effects && s'.effects[x] == s.effects[x]
    ensures BootLeaves(s, ids, i, n, r, lost + if here then {ids[i]} else {})
  {
    BootStepKeeps(s, s', ids, i, n, r, lost);
    AcceptsStay(s, s', ids, i + 1);
    if !r.failed { BootStepSettles(s, s', ids, i, n, r, lost, here); }
  }

  /** The journal lists approved rows: accepts that can be re-driven, and others. */
  ghost predicate Listed(s: Store, ids: seq<EffectId>, i: nat) {
    forall a :: i <= a < |ids| ==> ids[a] in s.effects && (Foreign(s, ids[a]) || Redrivable(s, ids[a]))
  }

  lemma ForeignSkipped(env: Env, s: Store, ids: seq<EffectId>, ios: (nat, nat) -> Io, i: nat, n: nat)
    requires i < |ids| && Foreign(s, ids[i])
    ensures RedriveFrom(env, s, ids, ios, i, n) == RedriveFrom(env, s, ids, ios, i + 1, n)
    ensures LostFrom(env, s, ids, ios, i) == LostFrom(env, s, ids, ios, i + 1)
  {
  }

  lemma BootSkips(s: Store, ids: seq<EffectId>, i: nat, n: nat, r: Redriven, lost: set<EffectId>)
    requires i < |ids| && Foreign(s, ids[i]) && BootLeaves(s, ids, i + 1, n, r, lost)
    ensures BootLeaves(s, ids, i, n, r, lost)
  {
    assert ids[i..] == [ids[i]] + ids[i + 1..];
  }

  /** One more accept in front of a boot re-drive. */
  lemma BootOver(env: Env, s: Store, ids: seq<EffectId>, ios: (nat, nat) -> Io, i: nat, n: nat)
    requires i < |ids| && Redrivable(s, ids[i]) && Listed(s, ids, i)
    requires forall a, b :: 0 <= a < b < |ids| ==> ids[a] != ids[b]
    requires var s' := Solo(env, s, Call(NoInput, RedriveEntry(s, ids[i])), Nth(ios, i), 0).0;
             BootLeaves(s', ids, i + 1, n + 1, RedriveFrom(env, s', ids, ios, i + 1, n + 1), LostFrom(env, s', ids, ios, i + 1))
    ensures BootLeaves(s, ids, i, n, RedriveFrom(env, s, ids, ios, i, n), LostFrom(env, s, ids, ios, i))
  {
    var call := Call(NoInput, RedriveEntry(s, ids[i]));
    var lost := FailLost(env, s, call, Nth(ios, i), 0);
    RedriveOne(env, s, ids[i], Nth(ios, i));
    RedriveUnfolds(env, s, ids, ios, i, n);
    var (s', pc') := Solo(env, s, call, Nth(ios, i), 0);
    if IsError(pc'.out) {
      assert ids[i] in ids[i..];
    } else {
      BootStep(s, s', ids, i, n, RedriveFrom(env, s, ids, ios, i, n), LostFrom(env, s', ids, ios, i + 1), lost);
    }
  }

  lemma StaysListed(env: Env, s: Store, ids: seq<EffectId>, ios: nat -> Io, i: nat)
    requires i < |ids| && Redrivable(s, ids[i]) && Listed(s, ids, i)
    requires forall a, b :: 0 <= a < b < |ids| ==> ids[a] != ids[b]
    ensures Listed(Solo(env, s, Call(NoInput, RedriveEntry(s, ids[i])), ios, 0).0, ids, i + 1)
  {
    RedriveOne(env, s, ids[i], ios);
    var s' := Solo(env, s, Call(NoInput, RedriveEntry(s, ids[i])), ios, 0).0;
    forall a | i + 1 <= a < |ids| ensures ids[a] in s'.effects && (Foreign(s', ids[a]) || Redrivable(s', ids[a])) {
      assert ids[a] != ids[i] && s'.effects[ids[a]] == s.effects[ids[a]];
    }
  }

  lemma {:induction false} RedriveSettles(env: Env, s: Store, ids: seq<EffectId>, ios: (nat, nat) -> Io, i: nat, n: nat)
    requires i <= |ids| && Listed(s, ids, i)
    requires forall a, b :: 0 <= a < b < |ids| ==> ids[a] != ids[b]
    ensures BootLeaves(s, ids, i, n, RedriveFrom(env, s, ids, ios, i, n), LostFrom(env, s, ids, ios, i))
    decreases |ids| - i
  {
    if i < |ids| && Foreign(s, ids[i]) {
      RedriveSettles(env, s, ids, ios, i + 1, n);
      ForeignSkipped(env, s, ids, ios, i, n);
      BootSkips(s, ids, i, n, RedriveFrom(env, s, ids, ios, i, n), LostFrom(env, s, ids, ios, i));
    } else if i < |ids| {
      StaysListed(env, s, ids, Nth(ios, i), i);
      RedriveSettles(env, Solo(env, s, Call(NoInput, RedriveEntry(s, ids[i])), Nth(ios, i), 0).0, ids, ios, i + 1, n + 1);
      BootOver(env, s, ids, ios, i, n);
    }
  }

  // ---- the next boot ----

  /** The journal's reconcile of the rows `ids`. */
  function ReconcileAll(s: Store, ids: seq<EffectId>): Store {
    if ids == [] then s else ReturnToApproved(ReconcileAll(s, ids[..|ids| - 1]), ids[|ids| - 1])
  }

  lemma {:induction false} ReconcileReturns(s: Store, ids: seq<EffectId>, x: EffectId)
    requires x in s.effects
    ensures var s' := ReconcileAll(s, ids);
            && s'.local == s.local && x in s'.effects
            && s'.effects[x] == if x in ids && InState(s, x, Executing) then s.effects[x].(state := Approved) else s.effects[x]
  {
    if ids != [] {
      ReconcileReturns(s, ids[..|ids| - 1], x);
      assert ids == ids[..|ids| - 1] + [ids[|ids| - 1]];
    }
  }

  lemma LeftOverReturns(s: Store, ids: seq<EffectId>, x: EffectId)
    requires x in ids && LeftOver(s, x)
    ensures Redrivable(ReconcileAll(s, ids), x)
  {
    ReconcileReturns(s, ids, x);
  }

  lemma SettledStays(s: Store, ids: seq<EffectId>, x: EffectId)
    requires x !in ids && x in s.effects
    ensures x in ReconcileAll(s, ids).effects && (Settled(ReconcileAll(s, ids), x) <==> Settled(s, x))
  {
    ReconcileReturns(s, ids, x);
  }

  /** Two boots: the rows the first re-drive left over are picked up by the reconcile and the re-drive of the next, and
      when neither reports an error every row of the first is settled but those whose fail write was lost twice. */
  lemma NextBootPicksUp(env: Env, s: Store, ids: seq<EffectId>, ios: (nat, nat) -> Io, again: seq<EffectId>, ios': (nat, nat) -> Io, x: EffectId)
    requires forall a, b :: 0 <= a < b < |ids| ==> ids[a] != ids[b]
    requires forall a, b :: 0 <= a < b < |again| ==> again[a] != again[b]
    requires forall a :: 0 <= a < |ids| ==> Redrivable(s, ids[a])
    requires !RedriveFrom(env, s, ids, ios, 0, 0).failed
    requires forall y :: y in again <==> y in LostFrom(env, s, ids, ios, 0)
    requires x in ids
    ensures var s1 := ReconcileAll(RedriveFrom(env, s, ids, ios, 0, 0).store, again);
            var r := RedriveFrom(env, s1, again, ios', 0, 0);
            && (x in again ==> Redrivable(s1, x))
            && (!r.failed ==> r.count == |again| && (Settled(r.store, x) <==> x !in LostFrom(env, s1, again, ios', 0)))
  {
    var s0 := RedriveFrom(env, s, ids, ios, 0, 0).store;
    var s1 := ReconcileAll(s0, again);
    RedriveSettles(env, s, ids, ios, 0, 0);
    var i :| 0 <= i < |ids| && ids[i] == x;
    assert Settled(s0, ids[i]) <==> x !in again;
    forall a | 0 <= a < |again|
      ensures Redrivable(s1, again[a])
    {
      assert again[a] in again;
      LeftOverReturns(s0, again, again[a]);
    }
    SecondBoot(env, s0, again, ios', x);
  }

  lemma SecondBoot(env: Env, s0: Store, again: seq<EffectId>, ios: (nat, nat) -> Io, x: EffectId)
    requires forall a, b :: 0 <= a < b < |again| ==> again[a] != again[b]
    requires forall a :: 0 <= a < |again| ==> Redrivable(ReconcileAll(s0, again), again[a])
    requires x in again || Settled(s0, x)
    ensures var s1 := ReconcileAll(s0, again);
            var r := RedriveFrom(env, s1, again, ios, 0, 0);
            && (x in again ==> Redrivable(s1, x))
            && (!r.failed ==> r.count == |again| && (Settled(r.store, x) <==> x !in LostFrom(env, s1, again, ios, 0)))
  {
    var s1 := ReconcileAll(s0, again);
    RedriveSettles(env, s1, again, ios, 0, 0);
    AllAccepts(s1, again, 0);
    if x in again {
      var a :| 0 <= a < |again| && again[a] == x;
    } else {
      SettledStays(s0, again, x);
      assert x !in again[0..];
    }
  }
}
