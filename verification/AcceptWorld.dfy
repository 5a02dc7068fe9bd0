/**
 The accept protocol's state and its atomic steps (internal/accept/accept.go over
 internal/gates/effects.go, internal/project/accept.go and internal/review/accept.go).

 A commit is a value: git names it by its content, so two commits are one commit exactly when they
 are equal, and the parent link is a structural sub-term.
 */
module AcceptWorld {
  import opened Wrappers

  type ProjectId = string
  type EffectId = string
  type DeliverableId = string
  type CallId = nat

  // ---- commits ----

  datatype Commit =
    | Root(id: string)
    | Squash(tree: string, parent: Commit, user: string, author: string, message: string, second: int, signed: bool)

  datatype MergeResult = Clean(tree: string) | Conflict(report: string)

  /** The ancestor-or-equal order `git merge-base --is-ancestor` decides. */
  predicate Anc(a: Commit, b: Commit) {
    a == b || (b.Squash? && Anc(a, b.parent))
  }

  function Depth(c: Commit): nat {
    if c.Squash? then 1 + Depth(c.parent) else 0
  }

  // ---- facts held fixed during a run ----

  /** `merge` is git merge-tree, a function of the two commits; `signs` is a user's structural signing
      posture; `branch` a project's default branch; `expiry` the approval window. */
  datatype Env = Env(
    merge: (Commit, string) -> MergeResult,
    signs: string -> bool,
    branch: ProjectId -> string,
    expiry: int)

  // ---- the effect journal ----

  datatype Payload = Payload(
    expectSha: Commit, candidate: string, trailers: string, ref: string, deliverable: DeliverableId,
    project: ProjectId, authorName: string, subject: string, provenance: string, gitProfile: string)

  datatype EffectState = Proposed | Approved | Executing | Succeeded | Failed

  datatype EffectResult = NoResult | Recorded(commit: Commit, landedLocally: bool) | Error(reason: string) | Denied

  datatype Effect = Effect(
    user: string, payload: Payload, state: EffectState, approvedTS: Option<int>, attempts: nat, result: EffectResult)

  // ---- the rest of the stored state ----

  datatype ReviewState = InReview | Accepted | Superseded

  /** `snapshot` is the current revision's snapshot commit; "" is a revision that pins content. */
  datatype Deliverable = Deliverable(state: ReviewState, snapshot: string)

  datatype Inflight = Inflight(effect: EffectId, commit: Commit)

  /** One move of a project's official branch: the remote's protected ref, or the local default branch
      of a project that records no remote. Kept as history only; no step reads it. */
  datatype Landing = Landing(project: ProjectId, effect: EffectId, from: Commit, to: Commit)

  /** The projects are the keys of `local`; a project records a remote iff it is a key of `remote`.
      `echoes` and `contentAccepts` are history: the effects whose push or local landing found the branch already there,
      and the deliverables accepted on the content arm. */
  datatype Store = Store(
    effects: map<EffectId, Effect>,
    remote: map<ProjectId, Commit>,
    local: map<ProjectId, Commit>,
    deliverables: map<DeliverableId, Deliverable>,
    inflight: map<ProjectId, Inflight>,
    landings: seq<Landing>,
    echoes: set<EffectId>,
    contentAccepts: set<DeliverableId>)

  /** The branch an accept lands on. */
  function Official(s: Store, p: ProjectId): Commit
    requires p in s.local
  {
    if p in s.remote then s.remote[p] else s.local[p]
  }

  // ---- the execute phase's inputs ----

  datatype Spec = Spec(
    effect: EffectId, project: ProjectId, deliverable: DeliverableId, user: string, authorName: string,
    onto: Commit, candidate: string, trailers: string, ref: string, subject: string, provenance: string,
    gitProfile: string, when: int)

  datatype Input = Input(
    deliverable: DeliverableId, user: string, userName: string, project: ProjectId, subject: string,
    provenance: string, engine: string, model: string, vendorNoreply: string, gitProfile: string)

  function RenderTrailers(engine: string, model: string, vendorNoreply: string): string {
    "Co-Authored-By: " + engine + " " + model + " <" + vendorNoreply + ">\n" +
    "Assisted-by: " + engine + " (" + model + ") via Sinet"
  }

  function BuildMessage(subject: string, provenance: string, trailers: string): string {
    var head := (if subject == "" then "chore: accept reviewed deliverable" else subject) + "\n";
    var body := if provenance == "" then head else head + "\n" + provenance + "\n";
    body + "\n" + trailers + "\n"
  }

  function PayloadOf(env: Env, in_: Input, candidate: string, onto: Commit): Payload {
    Payload(onto, candidate, RenderTrailers(in_.engine, in_.model, in_.vendorNoreply),
            "refs/heads/" + env.branch(in_.project), in_.deliverable, in_.project, in_.userName,
            in_.subject, in_.provenance, in_.gitProfile)
  }

  /** What a fresh accept hands to the execute phase. */
  function FreshSpec(env: Env, in_: Input, candidate: string, onto: Commit, id: EffectId, approvedTS: int): Spec {
    Spec(id, in_.project, in_.deliverable, in_.user, in_.userName, onto, candidate,
         RenderTrailers(in_.engine, in_.model, in_.vendorNoreply), "refs/heads/" + env.branch(in_.project),
         in_.subject, in_.provenance, in_.gitProfile, approvedTS)
  }

  /** What a re-drive rebuilds from the journal row alone. */
  function RebuiltSpec(id: EffectId, e: Effect): Spec
    requires e.approvedTS.Some?
  {
    var p := e.payload;
    Spec(id, p.project, p.deliverable, e.user, p.authorName, p.expectSha, p.candidate, p.trailers, p.ref,
         p.subject, p.provenance, p.gitProfile, e.approvedTS.value)
  }

  const NANOS := 1_000_000_000

  /** The platform squash: content-addressed, so a function of its inputs. A commit records whole seconds. */
  function SquashOf(env: Env, spec: Spec, tree: string): Commit {
    Squash(tree, spec.onto, spec.user, if spec.authorName == "" then spec.user else spec.authorName,
           BuildMessage(spec.subject, spec.provenance, spec.trailers), spec.when / NANOS, env.signs(spec.user))
  }

  // ---- atomic actions on the stored state ----

  function Propose(s: Store, id: EffectId, user: string, payload: Payload): Store {
    s.(effects := s.effects[id := Effect(user, payload, Proposed, None, 0, NoResult)])
  }

  predicate InState(s: Store, id: EffectId, st: EffectState) {
    id in s.effects && s.effects[id].state == st
  }

  function Approve(s: Store, id: EffectId, now: int): Store
    requires InState(s, id, Proposed)
  {
    s.(effects := s.effects[id := s.effects[id].(state := Approved, approvedTS := Some(now))])
  }

  /** The approval has outlived its window. */
  predicate Lapsed(env: Env, s: Store, id: EffectId, now: int)
    requires id in s.effects
  {
    s.effects[id].approvedTS.Some? && now - s.effects[id].approvedTS.value > env.expiry
  }

  function Expire(s: Store, id: EffectId): Store
    requires id in s.effects
  {
    s.(effects := s.effects[id := s.effects[id].(state := Proposed, approvedTS := None)])
  }

  function Begin(s: Store, id: EffectId): Store
    requires id in s.effects
  {
    var e := s.effects[id];
    s.(effects := s.effects[id := e.(state := Executing, attempts := e.attempts + 1)])
  }

  function Finish(s: Store, id: EffectId, st: EffectState, result: EffectResult): Store
    requires id in s.effects
  {
    s.(effects := s.effects[id := s.effects[id].(state := st, result := result)])
  }

  /** A row that is not executing stays as it is. */
  function FailEffect(s: Store, id: EffectId, reason: string): Store {
    if InState(s, id, Executing) then Finish(s, id, Failed, Error(reason)) else s
  }

  function ReturnToApproved(s: Store, id: EffectId): Store {
    if InState(s, id, Executing) then s.(effects := s.effects[id := s.effects[id].(state := Approved)]) else s
  }

  /** The compare-and-swap push. Git finds a ref that already holds the source up to date before it
      looks at the lease. */
  datatype PushResult = Moved | UpToDate | Rejected

  function PushOutcome(s: Store, p: ProjectId, lease: Commit, commit: Commit): PushResult
    requires p in s.remote
  {
    if s.remote[p] == commit then UpToDate else if s.remote[p] == lease then Moved else Rejected
  }

  function Push(s: Store, spec: Spec, commit: Commit): Store
    requires spec.project in s.remote
  {
    match PushOutcome(s, spec.project, spec.onto, commit)
    case Moved => s.(remote := s.remote[spec.project := commit],
                     landings := s.landings + [Landing(spec.project, spec.effect, spec.onto, commit)])
    case UpToDate => s.(echoes := s.echoes + {spec.effect})
    case Rejected => s
  }

  /** What AdvanceDefaultBranch decides from the local head it read. */
  datatype AdvanceDecision = Incorporated | FastForward | Diverged

  function DecideAdvance(cur: Commit, commit: Commit): AdvanceDecision {
    if Anc(commit, cur) then Incorporated else if Anc(cur, commit) then FastForward else Diverged
  }

  function MarkInflight(s: Store, p: ProjectId, id: EffectId, commit: Commit): Store {
    s.(inflight := s.inflight[p := Inflight(id, commit)])
  }

  function ClearInflight(s: Store, p: ProjectId, id: EffectId): Store {
    if p in s.inflight && s.inflight[p].effect == id then s.(inflight := s.inflight - {p}) else s
  }

  /** The applies-cleanly base for a project. */
  function ProjectOnto(s: Store, p: ProjectId): Commit
    requires p in s.local
  {
    if p in s.inflight then s.inflight[p].commit else s.local[p]
  }

  predicate CanAccept(s: Store, d: DeliverableId) {
    d in s.deliverables && s.deliverables[d].state != Superseded
  }

  function ReviewAccept(s: Store, d: DeliverableId): Store
    requires d in s.deliverables
  {
    s.(deliverables := s.deliverables[d := s.deliverables[d].(state := Accepted)])
  }

  /** The content arm's whole effect. */
  function ContentAccept(s: Store, d: DeliverableId): Store
    requires d in s.deliverables
  {
    ReviewAccept(s, d).(contentAccepts := s.contentAccepts + {d})
  }

  // ---- calls ----

  datatype Outcome =
    | AcceptedAt(effect: EffectId, commit: Commit) // landed and accepted
    | AcceptedContent                 // the content-pinned arm
    | MergeCard(reason: string)
    | Errored                         // an error before anything landed
    | ErroredAfterLanding             // an error once the official branch may carry the commit
    | ErrorAfter(done: Outcome)       // an error, although all that `done` reports has happened

  /** What the call has brought about, whichever way it answers. */
  function Done(out: Outcome): Outcome {
    if out.ErrorAfter? then out.done else out
  }

  /** Where a call stands between two atomic actions; each constructor names the next action. */
  datatype Pc =
    | Entered
    | WillAcceptContent
    | WillReadLookahead(candidate: string)
    | WillReadHead(candidate: string)
    | WillPropose(candidate: string, onto: Commit)
    | WillApprove(candidate: string, onto: Commit, id: EffectId)
    | WillBegin(spec: Spec)
    | WillLand(spec: Spec)
    | WillMark(spec: Spec, commit: Commit)
    | WillSucceed(spec: Spec, commit: Commit)
    | WillReview(spec: Spec, commit: Commit)
    | WillAdvance(spec: Spec, commit: Commit)
    | WillSwap(spec: Spec, commit: Commit, cur: Commit)
    | WillFail(spec: Spec, reason: string, out: Outcome)
    | WillClear(spec: Spec, out: Outcome)
    | WillRoute(out: Outcome)
    | Returned(out: Outcome)

  datatype Call = Call(input: Input, pc: Pc)

  datatype World = World(store: Store, calls: map<CallId, Call>)

  /** What the world outside the process does during one action: a push or a ref update can report an error once the
      ref has `moved`. */
  datatype Fault = NoFault | ReadFault | PostureFault | SquashFault | TransportFault(moved: bool) | WriteFault

  /** A clock reading, a fresh identifier, a fault. */
  datatype Io = Io(now: int, id: EffectId, fault: Fault)

  datatype Step =
    | Enter(cid: CallId, input: Input)
    | Redrive(cid: CallId, id: EffectId)
    | Go(cid: CallId, io: Io)
    | Crash
    | Reconcile(id: EffectId)
    | InboxApprove(id: EffectId, now: int)
    | InboxDeny(id: EffectId)
    | Mint(d: DeliverableId, snapshot: string)
    | Supersede(d: DeliverableId)

  function At(w: World, cid: CallId, s: Store, pc: Pc): World
    requires cid in w.calls
  {
    World(s, w.calls[cid := w.calls[cid].(pc := pc)])
  }

  const NoInput := Input("", "", "", "", "", "", "", "", "", "")

  // ---- one action of a call ----

  /** The first read: the deliverable, its state and the arm its revision selects. */
  function GoEnter(s: Store, in_: Input, fault: Fault): Pc {
    if fault != NoFault || in_.deliverable == "" || in_.user == "" || in_.deliverable !in s.deliverables then Returned(Errored)
    else
      var d := s.deliverables[in_.deliverable];
      if d.state != InReview then Returned(Errored)
      else if d.snapshot == "" then WillAcceptContent
      else if in_.project == "" || in_.engine == "" || in_.model == "" || in_.vendorNoreply == ""
              || in_.project !in s.local then Returned(Errored)
      else WillReadLookahead(d.snapshot)
  }

  /** Merge, sign and squash touch no stored state: they end the call, or name the commit to land. */
  datatype Prepared = Ready(commit: Commit) | Stop(pc: Pc)

  function Prepare(env: Env, spec: Spec, fault: Fault): Prepared {
    if fault == ReadFault then Stop(Returned(Errored))
    else match env.merge(spec.onto, spec.candidate)
      case Conflict(_) => Stop(WillFail(spec, "collision", MergeCard("applies-clean-collision")))
      case Clean(tree) =>
        if fault == PostureFault then Stop(WillFail(spec, "signing posture unresolved", Errored))
        else if fault == SquashFault then Stop(WillFail(spec, "squash failed", Errored))
        else Ready(SquashOf(env, spec, tree))
  }

  /** The push arm of the landing. */
  function GoPush(s: Store, spec: Spec, commit: Commit, fault: Fault): (Store, Pc)
    requires spec.project in s.remote
  {
    if fault.TransportFault? then
      (if fault.moved then Push(s, spec, commit) else s, WillFail(spec, "push failed", ErroredAfterLanding))
    else match PushOutcome(s, spec.project, spec.onto, commit)
      case Rejected => (s, WillFail(spec, "lease rejected", MergeCard("lease-rejected")))
      case _ => (Push(s, spec, commit), WillMark(spec, commit))
  }

  /** The first half of the local landing: read the head and decide. */
  function GoReadLocal(s: Store, spec: Spec, commit: Commit, fault: Fault): (Store, Pc)
    requires spec.project in s.local
  {
    if fault != NoFault then (s, WillFail(spec, "local landing failed", Errored))
    else match DecideAdvance(s.local[spec.project], commit)
    case Incorporated => (s.(echoes := s.echoes + {spec.effect}), WillSucceed(spec, commit))
    case FastForward => (s, WillSwap(spec, commit, s.local[spec.project]))
    case Diverged => (s, WillFail(spec, "default branch moved", MergeCard("lease-rejected")))
  }

  function GoLand(env: Env, s: Store, spec: Spec, fault: Fault): (Store, Pc)
    requires spec.project in s.local
  {
    match Prepare(env, spec, fault)
    case Stop(pc) => (s, pc)
    case Ready(commit) =>
      if spec.project in s.remote then GoPush(s, spec, commit, fault) else GoReadLocal(s, spec, commit, fault)
  }

  /** The second half of an advance: the ref update is itself a compare-and-swap on the head it read. */
  function GoSwap(s: Store, spec: Spec, commit: Commit, cur: Commit, fault: Fault): (Store, Pc)
    requires spec.project in s.local
  {
    var p := spec.project;
    var done := AcceptedAt(spec.effect, commit);
    if p in s.remote then
      if !Swaps(s, p, cur, fault) then (s, WillClear(spec, ErroredAfterLanding))
      else (s.(local := s.local[p := commit]), WillClear(spec, if fault == NoFault then done else ErrorAfter(done)))
    else
      if !Swaps(s, p, cur, fault) then (s, WillFail(spec, "local landing failed", Errored))
      else (s.(local := s.local[p := commit], landings := s.landings + [Landing(p, spec.effect, cur, commit)]),
            if fault == NoFault then WillSucceed(spec, commit)
            else WillFail(spec, "local landing failed", ErroredAfterLanding))
  }

  /** A ref update that nothing stops takes place, whatever it then reports. */
  predicate RefMoves(fault: Fault) {
    fault == NoFault || (fault.TransportFault? && fault.moved)
  }

  predicate Swaps(s: Store, p: ProjectId, cur: Commit, fault: Fault)
    requires p in s.local
  {
    s.local[p] == cur && RefMoves(fault)
  }

  function GoBegin(env: Env, s: Store, spec: Spec, io: Io): (Store, Pc) {
    if io.fault != NoFault || !InState(s, spec.effect, Approved) then (s, Returned(Errored))
    else if Lapsed(env, s, spec.effect, io.now) then (Expire(s, spec.effect), Returned(Errored))
    else (Begin(s, spec.effect), WillLand(spec))
  }

  /** After a landing every early return still runs the deferred clear on the push arm. */
  function AfterLanding(s: Store, spec: Spec, out: Outcome): Pc {
    if spec.project in s.remote then WillClear(spec, out) else Returned(out)
  }

  function GoSucceed(s: Store, spec: Spec, commit: Commit, fault: Fault): (Store, Pc) {
    if fault != NoFault || !InState(s, spec.effect, Executing) then (s, AfterLanding(s, spec, ErroredAfterLanding))
    else (Finish(s, spec.effect, Succeeded, Recorded(commit, spec.project !in s.remote)), WillReview(spec, commit))
  }

  function GoReview(s: Store, spec: Spec, commit: Commit, fault: Fault): (Store, Pc) {
    if fault != NoFault || !CanAccept(s, spec.deliverable) then (s, AfterLanding(s, spec, ErroredAfterLanding))
    else (ReviewAccept(s, spec.deliverable),
          if spec.project in s.remote then WillAdvance(spec, commit) else WillRoute(AcceptedAt(spec.effect, commit)))
  }

  /** Routing the project's active runs stores nothing here; its failure makes an accept that went through answer an
      error. */
  function Routed(out: Outcome, fault: Fault): Outcome {
    if fault != NoFault && (out.AcceptedAt? || out.AcceptedContent?) then ErrorAfter(out) else out
  }

  function GoAdvance(s: Store, spec: Spec, commit: Commit, fault: Fault): Pc
    requires spec.project in s.local
  {
    if fault != NoFault then WillClear(spec, ErroredAfterLanding)
    else match DecideAdvance(s.local[spec.project], commit)
      case Incorporated => WillClear(spec, AcceptedAt(spec.effect, commit))
      case FastForward => WillSwap(spec, commit, s.local[spec.project])
      case Diverged => WillClear(spec, ErroredAfterLanding)
  }

  function GoPropose(env: Env, s: Store, in_: Input, candidate: string, onto: Commit, io: Io): (Store, Pc) {
    if io.fault != NoFault then (s, Returned(Errored))
    else match env.merge(onto, candidate)
      case Conflict(_) => (s, Returned(MergeCard("applies-clean-collision")))
      case Clean(_) =>
        (Propose(s, io.id, in_.user, PayloadOf(env, in_, candidate, onto)), WillApprove(candidate, onto, io.id))
  }

  function GoApprove(env: Env, s: Store, in_: Input, pc: Pc, io: Io): (Store, Pc)
    requires pc.WillApprove?
  {
    if io.fault != NoFault || !InState(s, pc.id, Proposed) then (s, Returned(Errored))
    else (Approve(s, pc.id, io.now), WillBegin(FreshSpec(env, in_, pc.candidate, pc.onto, pc.id, io.now)))
  }

  /** Whether the action can run at all: identifiers are fresh, and a project once registered stays. */
  predicate Runnable(s: Store, call: Call, io: Io) {
    match call.pc
    case WillReadLookahead(_) => call.input.project in s.local
    case WillReadHead(_) => call.input.project in s.local
    case WillPropose(_, _) => io.id !in s.effects && call.input.project in s.local
    case WillLand(spec) => spec.project in s.local
    case WillAdvance(spec, _) => spec.project in s.local
    case WillSwap(spec, _, _) => spec.project in s.local
    case Returned(_) => false
    case _ => true
  }

  function Act(env: Env, s: Store, call: Call, io: Io): (Store, Pc)
    requires Runnable(s, call, io)
  {
    var in_ := call.input;
    match call.pc
    case Entered => (s, GoEnter(s, in_, io.fault))
    case WillAcceptContent =>
      if io.fault != NoFault || !CanAccept(s, in_.deliverable) then (s, Returned(Errored))
      else (ContentAccept(s, in_.deliverable),
            if in_.project == "" then Returned(AcceptedContent) else WillRoute(AcceptedContent))
    case WillReadLookahead(candidate) =>
      (s, if in_.project in s.inflight then WillPropose(candidate, s.inflight[in_.project].commit)
          else WillReadHead(candidate))
    case WillReadHead(candidate) =>
      (s, if io.fault != NoFault then Returned(Errored) else WillPropose(candidate, s.local[in_.project]))
    case WillPropose(candidate, onto) => GoPropose(env, s, in_, candidate, onto, io)
    case WillApprove(_, _, _) => GoApprove(env, s, in_, call.pc, io)
    case WillBegin(spec) => GoBegin(env, s, spec, io)
    case WillLand(spec) => GoLand(env, s, spec, io.fault)
    case WillMark(spec, commit) => (MarkInflight(s, spec.project, spec.effect, commit), WillSucceed(spec, commit))
    case WillSucceed(spec, commit) => GoSucceed(s, spec, commit, io.fault)
    case WillReview(spec, commit) => GoReview(s, spec, commit, io.fault)
    case WillAdvance(spec, commit) => (s, GoAdvance(s, spec, commit, io.fault))
    case WillSwap(spec, commit, cur) => GoSwap(s, spec, commit, cur, io.fault)
    case WillFail(spec, reason, out) =>
      (if io.fault == NoFault then FailEffect(s, spec.effect, reason) else s, Returned(out))
    case WillClear(spec, out) => (ClearInflight(s, spec.project, spec.effect), Returned(Routed(out, io.fault)))
    case WillRoute(out) => (s, Returned(Routed(out, io.fault)))
  }

  /** Where a re-drive starts: from the journal row, or nowhere. */
  function RedriveEntry(s: Store, id: EffectId): Pc {
    if InState(s, id, Approved) && s.effects[id].approvedTS.Some? then WillBegin(RebuiltSpec(id, s.effects[id]))
    else Returned(Errored)
  }

  // ---- one step of the whole system ----

  /** A step that cannot run leaves the world as it is. */
  function Apply(env: Env, w: World, st: Step): World {
    var s := w.store;
    match st
    case Enter(cid, in_) => if cid in w.calls then w else w.(calls := w.calls[cid := Call(in_, Entered)])
    case Redrive(cid, id) =>
      if cid in w.calls then w else w.(calls := w.calls[cid := Call(NoInput, RedriveEntry(s, id))])
    case Go(cid, io) =>
      if cid in w.calls && Runnable(s, w.calls[cid], io) then
        var (s', pc) := Act(env, s, w.calls[cid], io);
        At(w, cid, s', pc)
      else w
    case Crash => World(s.(inflight := map[]), map[])
    case Reconcile(id) => w.(store := ReturnToApproved(s, id))
    case InboxApprove(id, now) => if InState(s, id, Proposed) then w.(store := Approve(s, id, now)) else w
    case InboxDeny(id) => if InState(s, id, Proposed) then w.(store := Finish(s, id, Failed, Denied)) else w
    case Mint(d, snapshot) =>
      if d in s.deliverables then
        w.(store := s.(deliverables := s.deliverables[d := s.deliverables[d].(snapshot := snapshot)]))
      else w
    case Supersede(d) =>
      if d in s.deliverables && s.deliverables[d].state == Accepted then
        w.(store := s.(deliverables := s.deliverables[d := s.deliverables[d].(state := Superseded)]))
      else w
  }

  function Run(env: Env, w: World, steps: seq<Step>): World {
    if steps == [] then w else Apply(env, Run(env, w, steps[..|steps| - 1]), steps[|steps| - 1])
  }

  /** A fresh installation: nothing journalled, nothing in flight, every local branch inside its remote. */
  predicate Initial(w: World) {
    && w.calls == map[]
    && w.store.effects == map[]
    && w.store.inflight == map[]
    && w.store.landings == []
    && w.store.echoes == {} && w.store.contentAccepts == {}
    && w.store.remote.Keys <= w.store.local.Keys
    && (forall p :: p in w.store.remote ==> Anc(w.store.local[p], w.store.remote[p]))
    && (forall d :: d in w.store.deliverables ==> w.store.deliverables[d].state != Accepted)
  }
}
