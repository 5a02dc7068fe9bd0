/**
 Answers to effect cards taken apart: the scan of the decision log, the journal's act and the decision row are separate
 steps, and the journal's own reversions, drift and other answers fall anywhere between them.
 */
module CoApprovalSteps {
  import opened Wrappers
  import opened CoApproval

  /** A request whose guards have passed: the card was open, the caller authorised and confirmed, the hash the card's. */
  datatype Request = Request(c: Caller, id: string, hash: string, approves: bool)

  /** Where an answer stands between its steps; `scanned` is the clock its scan read. */
  datatype Pending =
    | WillScan(req: Request)
    | WillAct(req: Request, already: bool, scanned: int)
    | WillRecord(req: Request)

  /** `asked` is history: the requests whose guards have passed. */
  datatype World = World(store: Store, pending: map<nat, Pending>, asked: set<Request>)

  datatype Step =
    | Open(rid: nat, c: Caller, id: string, body: Body, batched: bool, pin: PinCheck)
    | Scan(rid: nat, now: int)
    | Act(rid: nat, now: int, fails: bool)
    | Record(rid: nat, now: int, fails: bool)
    | Abandon(rid: nat)
    | Journal(step: CoApproval.Step)

  function Close(w: World, rid: nat): World { w.(pending := w.pending - {rid}) }

  function Put(w: World, rid: nat, p: Pending): World { w.(pending := w.pending[rid := p]) }

  /** The guards, on the card as it is read. */
  predicate Passes(s: Store, c: Caller, id: string, body: Body, batched: bool, pin: PinCheck) {
    && id in s.effects && MayAnswer(c, s.effects[id]) && s.effects[id].state == Proposed
    && body.answer.Json? && body.answer.action in {APPROVE, DENY}
    && !Blank(body.pinned) && body.pinned == s.effects[id].hash && !batched && pin == PinGood
  }

  function DoScan(env: Env, w: World, rid: nat, req: Request, now: int): World
    requires req.id in w.store.effects
  {
    if !req.approves then Put(w, rid, WillAct(req, false, now))
    else
      var e := w.store.effects[req.id];
      var a := ApprovalsOf(w.store.log, req.id, e, now, env.expiry);
      var already := AlreadyRecorded(req.c, e, a);
      if Completes(req.c, e, a) then Put(w, rid, WillAct(req, already, now))
      else if already then Close(w, rid)
      else Put(w, rid, WillRecord(req))
  }

  /** The journal judges the row as it is now. */
  function DoAct(env: Env, w: World, rid: nat, req: Request, already: bool, now: int, fails: bool): World {
    var s := w.store;
    if fails || req.c.user == "" || !In(s, req.id, Proposed) then Close(w, rid)
    else if !req.approves then Put(w, rid, WillRecord(req)).(store := JournalDeny(s, req.id))
    else if env.hash(s.effects[req.id].payload) != s.effects[req.id].hash then Close(w, rid)
    else
      var acted := w.(store := JournalApprove(s, req.id, req.c.user, now));
      if already then Close(acted, rid) else Put(acted, rid, WillRecord(req))
  }

  function RowOfRequest(req: Request, now: int): Row {
    Row(now, Some(Decision(req.c.user, req.c.operator, CardId(req.id), if req.approves then APPROVE else DENY, req.hash, Some(now))))
  }

  function Next(env: Env, w: World, st: Step): World {
    match st
    case Open(rid, c, id, body, batched, pin) =>
      if rid !in w.pending && Passes(w.store, c, id, body, batched, pin) then
        var req := Request(c, id, body.pinned, body.answer.action == APPROVE);
        Put(w, rid, WillScan(req)).(asked := w.asked + {req})
      else w
    case Scan(rid, now) =>
      if rid in w.pending && w.pending[rid].WillScan? && w.pending[rid].req.id in w.store.effects then
        DoScan(env, w, rid, w.pending[rid].req, now)
      else w
    case Act(rid, now, fails) =>
      if rid in w.pending && w.pending[rid].WillAct? then
        DoAct(env, w, rid, w.pending[rid].req, w.pending[rid].already, now, fails)
      else w
    case Record(rid, now, fails) =>
      if rid in w.pending && w.pending[rid].WillRecord? then
        if fails then Close(w, rid)
        else Close(w, rid).(store := w.store.(log := w.store.log + [RowOfRequest(w.pending[rid].req, now)]))
      else w
    case Abandon(rid) => if rid in w.pending then Close(w, rid) else w
    case Journal(step) => if step.Answer? then w else w.(store := Apply(env, w.store, step))
  }

  function Run(env: Env, w: World, steps: seq<Step>): World {
    if steps == [] then w else Next(env, Run(env, w, steps[..|steps| - 1]), steps[|steps| - 1])
  }

  predicate Fresh(w: World) {
    CoApproval.Initial(w.store) && w.pending == map[] && w.asked == {}
  }

  // ---- what the steps keep ----

  /** The request was asked on this card and this hash, by somebody who may answer it. */
  predicate Known(w: World, req: Request) {
    && req in w.asked && req.id in w.store.effects
    && req.hash == w.store.effects[req.id].hash && MayAnswer(req.c, w.store.effects[req.id])
  }

  /** The conjunction held when the request scanned. */
  ghost predicate Conjoined(env: Env, s: Store, req: Request, scanned: int)
    requires req.id in s.effects
  {
    var e := s.effects[req.id];
    && (req.c.user == e.owner || SignedByOwner(s.log, req.id, e, scanned, env.expiry))
    && (e.run == "" ==> req.c.operator || SignedByOperator(s.log, req.id, e, scanned, env.expiry))
  }

  ghost predicate PendingOk(env: Env, w: World, p: Pending) {
    Known(w, p.req) && (p.WillAct? && p.req.approves ==> Conjoined(env, w.store, p.req, p.scanned))
  }

  /** The row was written for a request that was opened of its actor, for its hash. */
  ghost predicate RowOk(w: World, r: Row) {
    r.body.Some? && "effect:" <= r.body.value.cardId ==>
      var d := r.body.value;
      && d.decidedAt == Some(r.ts) && d.decision in {APPROVE, DENY}
      && Request(Caller(d.actor, d.actorIsOperator), d.cardId[|"effect:"|..], d.hash, d.decision == APPROVE) in w.asked
  }

  ghost predicate Inv(env: Env, w: World) {
    && (forall rid :: rid in w.pending ==> PendingOk(env, w, w.pending[rid]))
    && (forall r :: r in w.store.log ==> RowOk(w, r))
  }

  /** What no step takes back. */
  ghost predicate Later(w: World, w': World) {
    && w.asked <= w'.asked && w.store.log <= w'.store.log
    && (forall id :: id in w.store.effects ==>
          && id in w'.store.effects && w'.store.effects[id].hash == w.store.effects[id].hash
          && w'.store.effects[id].owner == w.store.effects[id].owner && w'.store.effects[id].run == w.store.effects[id].run)
  }

  lemma NextIsLater(env: Env, w: World, st: Step)
    ensures Later(w, Next(env, w, st))
  {
    match st {
      case Act(rid, now, fails) =>
        if rid in w.pending && w.pending[rid].WillAct? {
          ActIsLater(env, w, rid, w.pending[rid].req, w.pending[rid].already, now, fails);
        }
      case Journal(step) => if !step.Answer? { JournalIsLater(env, w, step); }
      case _ =>
    }
  }

  lemma ActIsLater(env: Env, w: World, rid: nat, req: Request, already: bool, now: int, fails: bool)
    ensures Later(w, DoAct(env, w, rid, req, already, now, fails))
  {
  }

  lemma JournalIsLater(env: Env, w: World, step: CoApproval.Step)
    requires !step.Answer?
    ensures Later(w, w.(store := Apply(env, w.store, step)))
  {
  }

  lemma PendingStays(env: Env, w: World, w': World, p: Pending)
    requires Later(w, w') && PendingOk(env, w, p)
    ensures PendingOk(env, w', p)
  {
    assert forall r :: r in w.store.log ==> r in w'.store.log;
  }

  lemma InvStamped(env: Env, w: World)
    requires Inv(env, w)
    ensures Stamped(w.store.log)
  {
    forall r, id | r in w.store.log && r.body.Some? && r.body.value.cardId == CardId(id)
      ensures r.body.value.decidedAt == Some(r.ts)
    {
      assert RowOk(w, r) && "effect:" <= CardId(id);
    }
  }

  lemma ScanKeeps(env: Env, w: World, rid: nat, req: Request, now: int)
    requires Inv(env, w) && Known(w, req)
    ensures Inv(env, DoScan(env, w, rid, req, now))
  {
    InvStamped(env, w);
    ScanIsWhole(w.store.log, req.id, w.store.effects[req.id], now, env.expiry);
  }

  lemma RowStays(w: World, w': World, r: Row)
    requires Later(w, w') && RowOk(w, r)
    ensures RowOk(w', r)
  {
  }

  lemma NewRowOk(env: Env, w: World, st: Step, r: Row)
    requires Inv(env, w) && r in Next(env, w, st).store.log && !st.Scan?
    ensures RowOk(Next(env, w, st), r)
  {
    NextIsLater(env, w, st);
    if r in w.store.log {
      RowStays(w, Next(env, w, st), r);
    } else {
      match st {
        case Record(rid, now, _) =>
          assert PendingOk(env, w, w.pending[rid]);
          assert CardId(w.pending[rid].req.id)[|"effect:"|..] == w.pending[rid].req.id;
        case Journal(step) => assert step.OtherRow? && Unrelated(r);
      }
    }
  }

  lemma StepKeeps(env: Env, w: World, st: Step)
    requires Inv(env, w)
    ensures Inv(env, Next(env, w, st))
  {
    var w' := Next(env, w, st);
    NextIsLater(env, w, st);
    forall rid | rid in w.pending ensures PendingOk(env, w', w.pending[rid]) {
      PendingStays(env, w, w', w.pending[rid]);
    }
    if st.Scan? && st.rid in w.pending && w.pending[st.rid].WillScan? {
      assert PendingOk(env, w, w.pending[st.rid]);
      ScanKeeps(env, w, st.rid, w.pending[st.rid].req, st.now);
    } else if !st.Scan? {
      forall r | r in w'.store.log ensures RowOk(w', r) {
        NewRowOk(env, w, st, r);
      }
    }
  }

  lemma {:induction false} RunKeeps(env: Env, w0: World, steps: seq<Step>)
    requires Fresh(w0)
    ensures Inv(env, Run(env, w0, steps))
  {
    if steps != [] {
      RunKeeps(env, w0, steps[..|steps| - 1]);
      StepKeeps(env, Run(env, w0, steps[..|steps| - 1]), steps[|steps| - 1]);
    }
  }

  // ---- the conjunction, whatever falls between the steps of an answer ----

  ghost predicate PassedAt(env: Env, w0: World, steps: seq<Step>, k: nat, req: Request)
    requires k < |steps|
  {
    var st := steps[k];
    && st.Open? && st.c == req.c && st.id == req.id && st.body.pinned == req.hash
    && Passes(Run(env, w0, steps[..k]).store, st.c, st.id, st.body, st.batched, st.pin)
    && (req.approves <==> st.body.answer.action == APPROVE)
  }

  ghost predicate WasPassed(env: Env, w0: World, steps: seq<Step>, req: Request) {
    exists k :: 0 <= k < |steps| && PassedAt(env, w0, steps, k, req)
  }

  /** Every request on record passed the guards of the open card at some step. */
  lemma {:induction false} AskedHasPassed(env: Env, w0: World, steps: seq<Step>, req: Request)
    requires Fresh(w0) && req in Run(env, w0, steps).asked
    ensures WasPassed(env, w0, steps, req)
  {
    var n := |steps| - 1;
    var front := steps[..n];
    if req in Run(env, w0, front).asked {
      AskedHasPassed(env, w0, front, req);
      var k :| 0 <= k < |front| && PassedAt(env, w0, front, k, req);
      assert front[..k] == steps[..k];
      assert PassedAt(env, w0, steps, k, req);
    } else {
      assert PassedAt(env, w0, steps, n, req);
    }
  }

  /** A signature that counts was given by a request of its actor that passed the guards of this card, for this hash, and
      is no older than the window. */
  ghost predicate Signer(env: Env, w0: World, steps: seq<Step>, id: string, e: Effect, now: int, r: Row) {
    && Signature(r, id, e.hash, now, env.expiry) && now - r.ts <= env.expiry
    && WasPassed(env, w0, steps, Request(Caller(r.body.value.actor, r.body.value.actorIsOperator), id, e.hash, true))
  }

  ghost predicate OwnerSigned(env: Env, w0: World, steps: seq<Step>, id: string, e: Effect, now: int) {
    exists r :: r in Run(env, w0, steps).store.log && Signer(env, w0, steps, id, e, now, r) && r.body.value.actor == e.owner
  }

  ghost predicate OperatorSigned(env: Env, w0: World, steps: seq<Step>, id: string, e: Effect, now: int) {
    exists r :: r in Run(env, w0, steps).store.log && Signer(env, w0, steps, id, e, now, r) && r.body.value.actorIsOperator
  }

  lemma SignatureHasSigner(env: Env, w0: World, steps: seq<Step>, id: string, e: Effect, now: int, r: Row)
    requires Fresh(w0) && r in Run(env, w0, steps).store.log && Signature(r, id, e.hash, now, env.expiry)
    ensures Signer(env, w0, steps, id, e, now, r)
  {
    RunKeeps(env, w0, steps);
    var d := r.body.value;
    assert RowOk(Run(env, w0, steps), r) && "effect:" <= d.cardId && d.cardId[|"effect:"|..] == id;
    AskedHasPassed(env, w0, steps, Request(Caller(d.actor, d.actorIsOperator), id, e.hash, true));
  }

  /** Only the act of an approving request takes an effect from proposed to approved. */
  lemma OnlyActsApprove(env: Env, w: World, st: Step, id: string)
    requires In(w.store, id, Proposed) && In(Next(env, w, st).store, id, Approved)
    ensures st.Act? && st.rid in w.pending && w.pending[st.rid].WillAct?
    ensures w.pending[st.rid].req.id == id && w.pending[st.rid].req.approves
    ensures env.hash(w.store.effects[id].payload) == w.store.effects[id].hash
  {
    if st.Journal? && !st.step.Answer? { JournalApprovesNothing(env, w.store, st.step, id); }
  }

  lemma JournalApprovesNothing(env: Env, s: Store, step: CoApproval.Step, id: string)
    requires In(s, id, Proposed) && !step.Answer?
    ensures !In(Apply(env, s, step), id, Approved)
  {
  }

  /** The needed signatures at the clock `now`: the acting caller's own, or one given by a request that passed. */
  ghost predicate Backed(env: Env, w0: World, steps: seq<Step>, req: Request, e: Effect, now: int) {
    && (req.c.user == e.owner || OwnerSigned(env, w0, steps, req.id, e, now))
    && (e.run == "" ==> req.c.operator || OperatorSigned(env, w0, steps, req.id, e, now))
  }

  lemma ConjoinedIsBacked(env: Env, w0: World, steps: seq<Step>, req: Request, now: int)
    requires Fresh(w0) && req.id in Run(env, w0, steps).store.effects
    ensures var s := Run(env, w0, steps).store; Conjoined(env, s, req, now) <==> Backed(env, w0, steps, req, s.effects[req.id], now)
  {
    var s := Run(env, w0, steps).store;
    var e := s.effects[req.id];
    if SignedByOwner(s.log, req.id, e, now, env.expiry) {
      var r :| r in s.log && Signature(r, req.id, e.hash, now, env.expiry) && r.body.value.actor == e.owner;
      SignatureHasSigner(env, w0, steps, req.id, e, now, r);
    }
    if SignedByOperator(s.log, req.id, e, now, env.expiry) {
      var r :| r in s.log && Signature(r, req.id, e.hash, now, env.expiry) && r.body.value.actorIsOperator;
      SignatureHasSigner(env, w0, steps, req.id, e, now, r);
    }
  }

  /** The step takes the effect from proposed to approved. */
  predicate Approving(env: Env, w: World, st: Step, id: string) {
    In(w.store, id, Proposed) && In(Next(env, w, st).store, id, Approved)
  }

  /** The cycle-scoped conjunction with the steps of answers interleaved: over every run with reversions, drift and other
      answers between any scan, act and row, an effect leaves proposed for approved only by the act of an approving
      request that passed the guards of its card, for the hash on the row, and whose scan found its owner, and at
      platform level also an operator, to have signed that hash within the window of the scan, or to be acting; each
      signature was itself a request that passed. The payload has that hash at the act. */
  lemma ApprovedOnlyWhenConjoined(env: Env, w0: World, steps: seq<Step>, st: Step, id: string)
    requires Fresh(w0) && Approving(env, Run(env, w0, steps), st, id)
    ensures var w := Run(env, w0, steps);
            var e := w.store.effects[id];
            && st.Act? && st.rid in w.pending && w.pending[st.rid].WillAct?
            && var WillAct(req, _, scanned) := w.pending[st.rid];
               && req.id == id && req.approves && req.hash == e.hash == env.hash(e.payload)
               && WasPassed(env, w0, steps, req) && Backed(env, w0, steps, req, e, scanned)
  {
    var w := Run(env, w0, steps);
    RunKeeps(env, w0, steps);
    OnlyActsApprove(env, w, st, id);
    assert PendingOk(env, w, w.pending[st.rid]);
    AskedHasPassed(env, w0, steps, w.pending[st.rid].req);
    ConjoinedIsBacked(env, w0, steps, w.pending[st.rid].req, w.pending[st.rid].scanned);
  }

  /** The needed signatures, no older than `age` at the clock `now`. */
  ghost predicate BackedWithin(env: Env, w0: World, steps: seq<Step>, req: Request, e: Effect, now: int, age: int) {
    var log := Run(env, w0, steps).store.log;
    && (req.c.user == e.owner
        || exists r :: r in log && Signer(env, w0, steps, req.id, e, r.ts, r) && r.body.value.actor == e.owner && now - r.ts <= age)
    && (e.run == "" ==>
          || req.c.operator
          || exists r :: r in log && Signer(env, w0, steps, req.id, e, r.ts, r) && r.body.value.actorIsOperator && now - r.ts <= age)
  }

  lemma SignerAge(env: Env, w0: World, steps: seq<Step>, id: string, e: Effect, now: int, r: Row)
    requires Fresh(w0) && r in Run(env, w0, steps).store.log && env.expiry >= 0
    ensures Signer(env, w0, steps, id, e, now, r) <==> Signer(env, w0, steps, id, e, r.ts, r) && now - r.ts <= env.expiry
  {
    RunKeeps(env, w0, steps);
    assert RowOk(Run(env, w0, steps), r);
    if r.body.Some? && r.body.value.cardId == CardId(id) { assert "effect:" <= CardId(id); }
  }

  lemma BackedIsWithin(env: Env, w0: World, steps: seq<Step>, req: Request, e: Effect, now: int)
    requires Fresh(w0) && env.expiry >= 0
    ensures Backed(env, w0, steps, req, e, now) <==> BackedWithin(env, w0, steps, req, e, now, env.expiry)
  {
    var log := Run(env, w0, steps).store.log;
    forall r | r in log
      ensures Signer(env, w0, steps, req.id, e, now, r)
              <==> Signer(env, w0, steps, req.id, e, r.ts, r) && now - r.ts <= env.expiry
    {
      SignerAge(env, w0, steps, req.id, e, now, r);
    }
  }

  /** How old the signatures behind an approval are at its act: at most the window and what has passed since the scan. The
      conjunction holds at the act itself exactly when each needed signature has one no older than the window by then, and
      so whenever the act comes no later than its scan. */
  lemma ActWindow(env: Env, w0: World, steps: seq<Step>, st: Step, id: string)
    requires Fresh(w0) && env.expiry >= 0 && Approving(env, Run(env, w0, steps), st, id)
    ensures var w := Run(env, w0, steps);
            var e := w.store.effects[id];
            && st.Act? && st.rid in w.pending && w.pending[st.rid].WillAct?
            && var WillAct(req, _, scanned) := w.pending[st.rid];
               && req.id == id
               && BackedWithin(env, w0, steps, req, e, st.now, env.expiry + (st.now - scanned))
               && (Conjoined(env, w.store, req, st.now) <==> BackedWithin(env, w0, steps, req, e, st.now, env.expiry))
               && (st.now <= scanned ==> Conjoined(env, w.store, req, st.now))
  {
    ApprovedOnlyWhenConjoined(env, w0, steps, st, id);
    var w := Run(env, w0, steps);
    var WillAct(req, _, scanned) := w.pending[st.rid];
    var e := w.store.effects[id];
    BackedIsWithin(env, w0, steps, req, e, scanned);
    ConjoinedIsBacked(env, w0, steps, req, st.now);
    BackedIsWithin(env, w0, steps, req, e, st.now);
    assert BackedWithin(env, w0, steps, req, e, st.now, env.expiry + (st.now - scanned));
  }

  // ---- one act per cycle ----

  /** An act is one verb on a proposed effect, which it settles, or nothing. */
  lemma ActActs(env: Env, w: World, rid: nat, req: Request, already: bool, now: int, fails: bool)
    ensures var s, s' := w.store, DoAct(env, w, rid, req, already, now, fails).store;
            || s' == s
            || (In(s, req.id, Proposed) && s'.verbs in {s.verbs + [Approves(req.id)], s.verbs + [Denies(req.id)]}
                && req.id in s'.effects && s'.effects == s.effects[req.id := s'.effects[req.id]] && s'.effects[req.id].state != Proposed)
  {
  }

  lemma ActBalances(env: Env, w: World, rid: nat, req: Request, already: bool, now: int, fails: bool, id: string)
    ensures var s, s' := w.store, DoAct(env, w, rid, req, already, now, fails).store;
            Balance(s'.verbs, id) - Decided(s', id) == Balance(s.verbs, id) - Decided(s, id)
  {
    ActActs(env, w, rid, req, already, now, fails);
    BalanceSnoc(w.store.verbs, Approves(req.id), id);
    BalanceSnoc(w.store.verbs, Denies(req.id), id);
  }

  lemma NextBalances(env: Env, w: World, st: Step, id: string)
    ensures var s, s' := w.store, Next(env, w, st).store;
            Balance(s'.verbs, id) - Decided(s', id) == Balance(s.verbs, id) - Decided(s, id)
  {
    match st {
      case Act(rid, _, _) =>
        if rid in w.pending && w.pending[rid].WillAct? {
          ActBalances(env, w, rid, w.pending[rid].req, w.pending[rid].already, st.now, st.fails, id);
        }
      case Journal(step) => StepBalances(env, w.store, step, id);
      case _ =>
    }
  }

  /** However the steps of answers interleave, the journal sees one approve or deny per proposal cycle. */
  lemma {:induction false} OneActPerCycleInterleaved(env: Env, w0: World, steps: seq<Step>, id: string)
    requires Fresh(w0)
    ensures var s := Run(env, w0, steps).store; Balance(s.verbs, id) == Decided(s, id)
  {
    if steps != [] {
      OneActPerCycleInterleaved(env, w0, steps[..|steps| - 1], id);
      NextBalances(env, Run(env, w0, steps[..|steps| - 1]), steps[|steps| - 1], id);
    }
  }

  // ---- run without interruption, an answer is the one step ----

  /** Open, scan, act and record in a row. */
  function Straight(env: Env, w: World, rid: nat, c: Caller, id: string, body: Body, batched: bool, io: Io): World {
    var w1 := Next(env, w, Open(rid, c, id, body, batched, io.pin));
    var w2 := Next(env, w1, Scan(rid, io.scan));
    var w3 := Next(env, w2, Act(rid, io.act, io.journalFails));
    Next(env, w3, Record(rid, io.record, io.appendFails))
  }

  /** An answer whose steps nothing falls between is the answer taken as one step. */
  lemma StraightIsAnswer(env: Env, w: World, rid: nat, c: Caller, id: string, body: Body, batched: bool, io: Io)
    requires rid !in w.pending
    ensures Straight(env, w, rid, c, id, body, batched, io).store == AnswerEffect(env, w.store, c, id, body, batched, io).0
  {
    var w1 := Next(env, w, Open(rid, c, id, body, batched, io.pin));
    if Passes(w.store, c, id, body, batched, io.pin) {
      assert rid in w1.pending && w1.pending[rid] == WillScan(Request(c, id, body.pinned, body.answer.action == APPROVE));
    } else {
      assert w1 == w;
    }
  }

  // ---- the window is the scan's ----

  lemma {:induction false} RunConcat(env: Env, w: World, a: seq<Step>, b: seq<Step>)
    ensures Run(env, w, a + b) == Run(env, Run(env, w, a), b)
  {
    if b == [] {
      assert a + b == a;
    } else {
      var n := |b| - 1;
      assert (a + b)[..|a + b| - 1] == a + b[..n];
      RunConcat(env, w, a, b[..n]);
    }
  }

  lemma RunTwo(env: Env, w: World, a: Step, b: Step)
    ensures Run(env, w, [a, b]) == Next(env, Next(env, w, a), b)
  {
    assert [a, b][..1] == [a] && [a][..0] == [];
    assert Run(env, w, [a, b]) == Next(env, Run(env, w, [a]), b);
    assert Run(env, w, [a]) == Next(env, Run(env, w, []), a);
  }

  function Yes(env: Env, rid: nat, c: Caller, id: string, payload: string): Step {
    Open(rid, c, id, Body(env.hash(payload), Json("", APPROVE)), false, PinGood)
  }

  function ApprovalOf(env: Env, c: Caller, id: string, payload: string): Request {
    Request(c, id, env.hash(payload), true)
  }

  predicate TwoSigners(env: Env, owner: string, op: string, payload: string) {
    owner != op && owner != "" && op != "" && !Blank(env.hash(payload)) && env.expiry >= 0
  }

  /** A platform-level effect is proposed and its owner signs at the clock 0. */
  function Signing(env: Env, id: string, owner: string, payload: string): seq<Step> {
    [Journal(CoApproval.Step.Propose(id, owner, "", payload)), Yes(env, 0, Caller(owner, false), id, payload)]
    + [Scan(0, 0), Record(0, 0, false)]
  }

  /** Two requests of an operator open and scan at the last moment of the window. */
  function Scanning(env: Env, id: string, op: string, payload: string): seq<Step> {
    [Yes(env, 1, Caller(op, true), id, payload), Yes(env, 2, Caller(op, true), id, payload)]
    + [Scan(1, env.expiry), Scan(2, env.expiry)]
  }

  /** The effect is proposed with its owner's signature of the clock 0 on record. */
  ghost predicate Signed(env: Env, w: World, id: string, owner: string, payload: string) {
    && id in w.store.effects && w.store.effects[id] == CoApproval.Fresh(env, owner, payload)
    && w.store.log == [RowOf(env, Caller(owner, false), id, payload, 0)]
  }

  lemma OwnerOpens(env: Env, w0: World, id: string, owner: string, op: string, payload: string)
    requires Fresh(w0) && TwoSigners(env, owner, op, payload)
    ensures var w := Next(env, Next(env, w0, Journal(CoApproval.Step.Propose(id, owner, "", payload))), Yes(env, 0, Caller(owner, false), id, payload));
            && w.pending == map[0 := WillScan(ApprovalOf(env, Caller(owner, false), id, payload))]
            && id in w.store.effects && w.store.effects[id] == CoApproval.Fresh(env, owner, payload) && w.store.log == []
  {
  }

  lemma OwnerSigns(env: Env, w: World, id: string, owner: string, op: string, payload: string)
    requires w.pending == map[0 := WillScan(ApprovalOf(env, Caller(owner, false), id, payload))] && TwoSigners(env, owner, op, payload)
    requires id in w.store.effects && w.store.effects[id] == CoApproval.Fresh(env, owner, payload) && w.store.log == []
    ensures var w' := Next(env, Next(env, w, Scan(0, 0)), Record(0, 0, false));
            w'.pending == map[] && Signed(env, w', id, owner, payload)
  {
    assert ApprovalsOf([], id, w.store.effects[id], 0, env.expiry) == EffectApprovals(true, false, "", false, "");
    var w1 := Next(env, w, Scan(0, 0));
    assert w1 == Put(w, 0, WillRecord(ApprovalOf(env, Caller(owner, false), id, payload)));
  }

  lemma BothOpen(env: Env, w: World, id: string, owner: string, op: string, payload: string)
    requires w.pending == map[] && Signed(env, w, id, owner, payload) && TwoSigners(env, owner, op, payload)
    ensures var req := ApprovalOf(env, Caller(op, true), id, payload);
            var w' := Next(env, Next(env, w, Yes(env, 1, Caller(op, true), id, payload)), Yes(env, 2, Caller(op, true), id, payload));
            w'.store == w.store && w'.pending == map[1 := WillScan(req), 2 := WillScan(req)]
  {
  }

  lemma BothScan(env: Env, w: World, id: string, owner: string, op: string, payload: string)
    requires Signed(env, w, id, owner, payload) && TwoSigners(env, owner, op, payload)
    requires var p := WillScan(ApprovalOf(env, Caller(op, true), id, payload)); w.pending == map[1 := p, 2 := p]
    ensures var p := WillAct(ApprovalOf(env, Caller(op, true), id, payload), false, env.expiry);
            var w' := Next(env, Next(env, w, Scan(1, env.expiry)), Scan(2, env.expiry));
            w'.store == w.store && w'.pending == map[1 := p, 2 := p]
  {
    var e := w.store.effects[id];
    assert w.store.log[..0] == [];
    assert ApprovalsOf([], id, e, env.expiry, env.expiry) == EffectApprovals(true, false, "", false, "");
    assert ApprovalsOf(w.store.log, id, e, env.expiry, env.expiry) == EffectApprovals(true, true, owner, false, "");
  }

  /** The run: the owner signs at 0, two requests of the operator scan at the last moment of the window, the first acts,
      its approval expires and the effect goes back to proposed. */
  function StaleRun(env: Env, id: string, owner: string, op: string, payload: string, at: int): seq<Step> {
    Signing(env, id, owner, payload) + Scanning(env, id, op, payload)
    + [Act(1, env.expiry, false), Journal(CoApproval.Step.Begin(id, at))]
  }

  lemma SigningEnds(env: Env, w0: World, id: string, owner: string, op: string, payload: string)
    requires Fresh(w0) && TwoSigners(env, owner, op, payload)
    ensures var w := Run(env, w0, Signing(env, id, owner, payload)); w.pending == map[] && Signed(env, w, id, owner, payload)
  {
    var propose, open := Journal(CoApproval.Step.Propose(id, owner, "", payload)), Yes(env, 0, Caller(owner, false), id, payload);
    RunConcat(env, w0, [propose, open], [Scan(0, 0), Record(0, 0, false)]);
    RunTwo(env, w0, propose, open);
    OwnerOpens(env, w0, id, owner, op, payload);
    RunTwo(env, Run(env, w0, [propose, open]), Scan(0, 0), Record(0, 0, false));
    OwnerSigns(env, Run(env, w0, [propose, open]), id, owner, op, payload);
  }

  lemma ScanningEnds(env: Env, w: World, id: string, owner: string, op: string, payload: string)
    requires w.pending == map[] && Signed(env, w, id, owner, payload) && TwoSigners(env, owner, op, payload)
    ensures var p := WillAct(ApprovalOf(env, Caller(op, true), id, payload), false, env.expiry);
            var w' := Run(env, w, Scanning(env, id, op, payload));
            w'.store == w.store && w'.pending == map[1 := p, 2 := p]
  {
    var one, two := Yes(env, 1, Caller(op, true), id, payload), Yes(env, 2, Caller(op, true), id, payload);
    RunConcat(env, w, [one, two], [Scan(1, env.expiry), Scan(2, env.expiry)]);
    RunTwo(env, w, one, two);
    BothOpen(env, w, id, owner, op, payload);
    RunTwo(env, Run(env, w, [one, two]), Scan(1, env.expiry), Scan(2, env.expiry));
    BothScan(env, Run(env, w, [one, two]), id, owner, op, payload);
  }

  lemma ActAndReturn(env: Env, w: World, id: string, owner: string, op: string, payload: string, at: int)
    requires Signed(env, w, id, owner, payload) && op != "" && at > 2 * env.expiry
    requires var p := WillAct(ApprovalOf(env, Caller(op, true), id, payload), false, env.expiry); w.pending == map[1 := p, 2 := p]
    ensures var w' := Next(env, Next(env, w, Act(1, env.expiry, false)), Journal(CoApproval.Step.Begin(id, at)));
            Signed(env, w', id, owner, payload) && 2 in w'.pending && w'.pending[2] == w.pending[2]
  {
    var w1 := Next(env, w, Act(1, env.expiry, false));
    assert w1.store == JournalApprove(w.store, id, op, env.expiry);
    assert 2 in w1.pending && w1.pending[2] == w.pending[2];
  }

  lemma StaleRunEnds(env: Env, w0: World, id: string, owner: string, op: string, payload: string, at: int)
    requires Fresh(w0) && TwoSigners(env, owner, op, payload) && at > 2 * env.expiry
    ensures var w := Run(env, w0, StaleRun(env, id, owner, op, payload, at));
            && Signed(env, w, id, owner, payload)
            && 2 in w.pending && w.pending[2] == WillAct(ApprovalOf(env, Caller(op, true), id, payload), false, env.expiry)
  {
    var first, second := Signing(env, id, owner, payload), Scanning(env, id, op, payload);
    SigningEnds(env, w0, id, owner, op, payload);
    RunConcat(env, w0, first, second);
    ScanningEnds(env, Run(env, w0, first), id, owner, op, payload);
    var act, begin := Act(1, env.expiry, false), Journal(CoApproval.Step.Begin(id, at));
    RunConcat(env, w0, first + second, [act, begin]);
    RunTwo(env, Run(env, w0, first + second), act, begin);
    ActAndReturn(env, Run(env, w0, first + second), id, owner, op, payload, at);
  }

  /** The bound on the age is reached, for any delay past the expiry: in this run the second request approves at `at`, on
      its scan of the cycle before, when the owner's only signature is as old as the window and the whole delay since the
      scan, and the conjunction no longer holds. */
  lemma StaleScanApproves(env: Env, w0: World, id: string, owner: string, op: string, payload: string, at: int)
    requires Fresh(w0) && TwoSigners(env, owner, op, payload) && at > 2 * env.expiry
    ensures var w := Run(env, w0, StaleRun(env, id, owner, op, payload, at));
            && Approving(env, w, Act(2, at, false), id)
            && w.pending[2].WillAct? && w.pending[2].scanned == env.expiry && w.pending[2].req.c == Caller(op, true)
            && (forall r :: r in w.store.log ==> at - r.ts == env.expiry + (at - w.pending[2].scanned))
            && !Conjoined(env, w.store, w.pending[2].req, at)
  {
    StaleRunEnds(env, w0, id, owner, op, payload, at);
  }
}
