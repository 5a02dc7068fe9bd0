/**
 Answers to the approval inbox (internal/api/approvals.go) over the effect journal (internal/gates/effects.go):
 signatures recomputed from the decision log, the journal's own reversions between them, and batches.
 Every answer is one step; its three clock readings, its PIN check and its failures are inputs.
 */
module CoApproval {
  import opened Wrappers

  // ---- stored state ----

  datatype EffectState = Proposed | Approved | Executing | Succeeded | Failed | Unknown

  /** `hash` is the canonical payload hash recorded when the effect was proposed; `run` is "" at platform level. */
  datatype Effect = Effect(
    owner: string, run: string, payload: string, hash: string, state: EffectState, approver: string, approvedTS: int,
    denied: bool)

  datatype Decision = Decision(
    actor: string, actorIsOperator: bool, cardId: string, decision: string, hash: string, decidedAt: Option<int>)

  /** One `decision.recorded` row; None is a payload that does not decode. */
  datatype Row = Row(ts: int, body: Option<Decision>)

  datatype Tier = Low | Medium | High

  datatype Ask = Ask(owner: string, tier: Tier, hash: string, answered: Option<string>, status: string)

  /** The journal's approvals, denials and returns to proposed, kept as history only. */
  datatype Verb = Approves(effect: string) | Denies(effect: string) | Returns(effect: string)

  datatype Store = Store(effects: map<string, Effect>, asks: map<string, Ask>, log: seq<Row>, verbs: seq<Verb>)

  /** `hash` is the canonical hash of a payload, `expiry` the approval window. */
  datatype Env = Env(hash: string -> string, expiry: int)

  // ---- requests ----

  datatype Caller = Caller(user: string, operator: bool)

  datatype Answer = Absent | BadJson | Json(canonical: string, action: string)

  datatype Body = Body(pinned: string, answer: Answer)

  datatype PinCheck = PinMissing | PinUnavailable | PinWrong | PinGood

  /** The clock as the scan, the journal and the decision row read it, and what the surroundings do. */
  datatype Io = Io(scan: int, act: int, record: int, pin: PinCheck, journalFails: bool, appendFails: bool, intakeOk: bool)

  datatype Refusal =
    | NotFound | Forbidden | BadRequest | Stale | NotBatchable | PinRequired | PinRejected | AlreadyAnswered
    | JournalRefused | PayloadDrift | AppendFailed | IntakeRefused | NotAnswerable

  datatype EffectApprovals = EffectApprovals(
    platformLevel: bool, ownerApproved: bool, ownerBy: string, operatorApproved: bool, operatorBy: string)

  datatype Reply =
    | Applied(state: EffectState)
    | Recorded(approvals: EffectApprovals)
    | AskAnswered
    | AlreadyDecided
    | Refused(why: Refusal)

  const APPROVE := "approve"
  const DENY := "deny"

  function CardId(id: string): string { "effect:" + id }

  predicate Blank(s: string) { forall i :: 0 <= i < |s| ==> s[i] in {' ', '\t', '\n', '\r'} }

  // ---- signatures ----

  /** A signature belongs to the cycle whose payload hash it was given for, inside the approval window. */
  predicate CountsForCycle(d: Decision, hash: string, now: int, expiry: int) {
    d.hash != "" && d.hash == hash && d.decidedAt.Some? && now - d.decidedAt.value <= expiry
  }

  predicate Signature(r: Row, id: string, hash: string, now: int, expiry: int) {
    && r.body.Some? && r.body.value.cardId == CardId(id) && r.body.value.decision == APPROVE
    && CountsForCycle(r.body.value, hash, now, expiry)
  }

  predicate Scanned(r: Row, now: int, expiry: int) { r.ts >= now - expiry }

  /** The co-approval state the bounded scan of `log` derives. */
  function ApprovalsOf(log: seq<Row>, id: string, e: Effect, now: int, expiry: int): EffectApprovals {
    if log == [] then EffectApprovals(e.run == "", false, "", false, "")
    else
      var a, r := ApprovalsOf(log[..|log| - 1], id, e, now, expiry), log[|log| - 1];
      if Scanned(r, now, expiry) && Signature(r, id, e.hash, now, expiry) then Sign(a, r.body.value, e.owner) else a
  }

  function Sign(a: EffectApprovals, d: Decision, owner: string): EffectApprovals {
    var b := if d.actor == owner then a.(ownerApproved := true, ownerBy := d.actor) else a;
    if d.actorIsOperator then b.(operatorApproved := true, operatorBy := d.actor) else b
  }

  // ---- answering an effect ----

  function Record(s: Store, c: Caller, id: string, e: Effect, action: string, now: int): Store {
    s.(log := s.log + [Row(now, Some(Decision(c.user, c.operator, CardId(id), action, e.hash, Some(now))))])
  }

  function JournalApprove(s: Store, id: string, user: string, now: int): Store
    requires id in s.effects
  {
    s.(effects := s.effects[id := s.effects[id].(state := Approved, approver := user, approvedTS := now)],
       verbs := s.verbs + [Approves(id)])
  }

  function JournalDeny(s: Store, id: string): Store
    requires id in s.effects
  {
    s.(effects := s.effects[id := s.effects[id].(state := Failed, denied := true)], verbs := s.verbs + [Denies(id)])
  }

  /** What an answer to a settled effect reads back. */
  function ResolvedEffect(e: Effect, action: string): Reply {
    var denied := e.state == Failed && e.denied;
    var approved := e.state in {Approved, Executing, Succeeded, Unknown} || (e.state == Failed && !denied);
    if (action == APPROVE && approved) || (action == DENY && denied) then AlreadyDecided else Refused(AlreadyAnswered)
  }

  function DenyEffect(s: Store, c: Caller, id: string, io: Io): (Store, Reply)
    requires id in s.effects
  {
    if io.journalFails || c.user == "" then (s, Refused(JournalRefused))
    else
      var denied := JournalDeny(s, id);
      if io.appendFails then (denied, Refused(AppendFailed))
      else (Record(denied, c, id, s.effects[id], DENY, io.record), Applied(Failed))
  }

  predicate AlreadyRecorded(c: Caller, e: Effect, a: EffectApprovals) {
    (c.user == e.owner && a.ownerApproved) || (c.operator && a.operatorApproved)
  }

  /** Whether the acting signature completes the conjunction. */
  predicate Completes(c: Caller, e: Effect, a: EffectApprovals) {
    && (a.ownerApproved || c.user == e.owner)
    && (a.platformLevel ==> a.operatorApproved || c.operator)
  }

  function ApproveEffect(env: Env, s: Store, c: Caller, id: string, io: Io): (Store, Reply)
    requires id in s.effects
  {
    var e := s.effects[id];
    var a := ApprovalsOf(s.log, id, e, io.scan, env.expiry);
    var signed := Sign(a, Decision(c.user, c.operator, CardId(id), APPROVE, e.hash, None), e.owner);
    if !Completes(c, e, a) then
      if AlreadyRecorded(c, e, a) then (s, Recorded(a))
      else if io.appendFails then (s, Refused(AppendFailed))
      else (Record(s, c, id, e, APPROVE, io.record), Recorded(signed))
    else if io.journalFails || c.user == "" then (s, Refused(JournalRefused))
    else if env.hash(e.payload) != e.hash then (s, Refused(PayloadDrift))
    else
      var approved := JournalApprove(s, id, c.user, io.act);
      if AlreadyRecorded(c, e, a) then (approved, Applied(Approved))
      else if io.appendFails then (approved, Refused(AppendFailed))
      else (Record(approved, c, id, e, APPROVE, io.record), Applied(Approved))
  }

  /** The owner always; an operator on a platform-level effect. */
  predicate MayAnswer(c: Caller, e: Effect) {
    (c.operator && e.run == "") || c.user == e.owner
  }

  function StepUp(pin: PinCheck): Option<Refusal> {
    match pin
    case PinGood => None
    case PinMissing => Some(PinRequired)
    case _ => Some(PinRejected)
  }

  function AnswerEffect(env: Env, s: Store, c: Caller, id: string, body: Body, batched: bool, io: Io): (Store, Reply) {
    if id !in s.effects then (s, Refused(NotFound))
    else
      var e := s.effects[id];
      if !MayAnswer(c, e) then (s, Refused(Forbidden))
      else if !body.answer.Json? || body.answer.action !in {APPROVE, DENY} then (s, Refused(BadRequest))
      else if e.state != Proposed then (s, ResolvedEffect(e, body.answer.action))
      else if Blank(body.pinned) then (s, Refused(BadRequest))
      else if body.pinned != e.hash then (s, Refused(Stale))
      else if batched then (s, Refused(NotBatchable))
      else if StepUp(io.pin).Some? then (s, Refused(StepUp(io.pin).value))
      else if body.answer.action == DENY then DenyEffect(s, c, id, io)
      else ApproveEffect(env, s, c, id, io)
  }

  // ---- answering an ask ----

  function ResolvedAsk(stored: string, answer: Answer): Reply {
    if !answer.Json? then Refused(BadRequest)
    else if stored != "" && stored == answer.canonical then AlreadyDecided
    else Refused(AlreadyAnswered)
  }

  function AnswerAsk(s: Store, c: Caller, id: string, body: Body, batched: bool, io: Io): (Store, Reply) {
    if id !in s.asks then (s, Refused(NotFound))
    else
      var ask := s.asks[id];
      if c.user != ask.owner then (s, Refused(Forbidden))
      else if ask.answered.Some? then (s, ResolvedAsk(ask.answered.value, body.answer))
      else if Blank(body.pinned) then (s, Refused(BadRequest))
      else if body.pinned != ask.hash then (s, Refused(Stale))
      else if batched && ask.tier != Low then (s, Refused(NotBatchable))
      else if ask.tier == High && StepUp(io.pin).Some? then (s, Refused(StepUp(io.pin).value))
      else if !body.answer.Json? then (s, Refused(BadRequest))
      else if !io.intakeOk then (s, Refused(IntakeRefused))
      else (s.(asks := s.asks[id := ask.(answered := Some(body.answer.canonical), status := "answered")]), AskAnswered)
  }

  /** Everything up to the first colon, and everything after it. */
  function Cut(route: string): Option<(string, string)> {
    if route == "" then None
    else if route[0] == ':' then Some(("", route[1..]))
    else match Cut(route[1..])
      case None => None
      case Some((kind, native)) => Some(([route[0]] + kind, native))
  }

  function ApplyAnswer(env: Env, s: Store, c: Caller, route: string, body: Body, batched: bool, io: Io): (Store, Reply) {
    match Cut(route)
    case None => (s, Refused(BadRequest))
    case Some((kind, native)) =>
      if native == "" then (s, Refused(BadRequest))
      else if kind == "ask" then AnswerAsk(s, c, native, body, batched, io)
      else if kind == "effect" then AnswerEffect(env, s, c, native, body, batched, io)
      else (s, Refused(NotAnswerable))
  }

  datatype Item = Item(route: string, body: Body)

  const BATCH_CAP := 100

  /** One answer after the other, each with its own outcome. */
  function Fold(env: Env, s: Store, c: Caller, items: seq<Item>, ios: nat -> Io): (Store, seq<Reply>) {
    if items == [] then (s, [])
    else
      var n := |items| - 1;
      var (s1, replies) := Fold(env, s, c, items[..n], ios);
      var (s2, reply) := ApplyAnswer(env, s1, c, items[n].route, items[n].body, true, ios(n));
      (s2, replies + [reply])
  }

  // ---- what a derived signature is ----

  ghost predicate SignedByOwner(log: seq<Row>, id: string, e: Effect, now: int, expiry: int) {
    exists r :: r in log && Signature(r, id, e.hash, now, expiry) && r.body.value.actor == e.owner
  }

  ghost predicate SignedByOperator(log: seq<Row>, id: string, e: Effect, now: int, expiry: int) {
    exists r :: r in log && Signature(r, id, e.hash, now, expiry) && r.body.value.actorIsOperator
  }

  /** What counts as a signature, on the row's own fields: an approval of this card, for this hash, which is not empty, and
      decided no longer ago than the window. */
  lemma CountsExactly(r: Row, id: string, hash: string, now: int, expiry: int)
    ensures Signature(r, id, hash, now, expiry) <==>
            && r.body.Some? && r.body.value.cardId == "effect:" + id && r.body.value.decision == "approve"
            && r.body.value.hash == hash != "" && r.body.value.decidedAt.Some? && r.body.value.decidedAt.value >= now - expiry
  {
  }

  /** Every decodable row about an effect card carries its decision time as its timestamp. */
  ghost predicate Stamped(log: seq<Row>) {
    forall r, id :: r in log && r.body.Some? && r.body.value.cardId == CardId(id) ==> r.body.value.decidedAt == Some(r.ts)
  }

  /** The bounded scan reads exactly the signatures the whole log holds. */
  lemma {:induction false} ScanIsWhole(log: seq<Row>, id: string, e: Effect, now: int, expiry: int)
    requires Stamped(log)
    ensures var a := ApprovalsOf(log, id, e, now, expiry);
            && (a.ownerApproved <==> SignedByOwner(log, id, e, now, expiry))
            && (a.operatorApproved <==> SignedByOperator(log, id, e, now, expiry))
            && (a.platformLevel <==> e.run == "")
            && (a.ownerApproved ==> a.ownerBy == e.owner)
  {
    if log != [] {
      var front, r := log[..|log| - 1], log[|log| - 1];
      assert log == front + [r];
      ScanIsWhole(front, id, e, now, expiry);
      assert Signature(r, id, e.hash, now, expiry) ==> Scanned(r, now, expiry);
      assert SignedByOwner(log, id, e, now, expiry)
             <==> SignedByOwner(front, id, e, now, expiry) || (Signature(r, id, e.hash, now, expiry) && r.body.value.actor == e.owner);
      assert SignedByOperator(log, id, e, now, expiry)
             <==> SignedByOperator(front, id, e, now, expiry) || (Signature(r, id, e.hash, now, expiry) && r.body.value.actorIsOperator);
    }
  }

  // ---- one answer, exactly ----

  predicate In(s: Store, id: string, st: EffectState) { id in s.effects && s.effects[id].state == st }

  /** The request is an authorised, confirmed, individually given answer to the card as it stands. */
  predicate Valid(s: Store, c: Caller, id: string, body: Body, batched: bool, io: Io) {
    && id in s.effects && s.effects[id].state == Proposed
    && (c.user == s.effects[id].owner || (c.operator && s.effects[id].run == ""))
    && Quotes(body.pinned, s.effects[id].hash) && !batched && io.pin == PinGood
  }

  /** The answer quotes the card's hash, and the hash is not white space. */
  predicate Quotes(pinned: string, hash: string) {
    pinned == hash && exists i :: 0 <= i < |pinned| && pinned[i] !in {' ', '\t', '\n', '\r'}
  }

  /** The conjunction: the owner, and for a platform-level effect an operator too, has signed the hash on the row,
      either inside the window or by this request. */
  ghost predicate Conjunction(env: Env, s: Store, c: Caller, id: string, now: int)
    requires id in s.effects
  {
    var e := s.effects[id];
    && (c.user == e.owner || SignedByOwner(s.log, id, e, now, env.expiry))
    && (e.run == "" ==> c.operator || SignedByOperator(s.log, id, e, now, env.expiry))
  }

  /** The caller's own signature, as owner or as operator, is inside the window at `now`. */
  ghost predicate OwnSignature(s: Store, c: Caller, id: string, now: int, expiry: int)
    requires id in s.effects
  {
    || (c.user == s.effects[id].owner && SignedByOwner(s.log, id, s.effects[id], now, expiry))
    || (c.operator && SignedByOperator(s.log, id, s.effects[id], now, expiry))
  }

  /** An answer approves exactly when it is valid, approves, completes the conjunction, the payload still has the
      recorded hash and the journal does not fail; every other answer leaves the effect proposed or denies it. */
  lemma ApprovesExactly(env: Env, s: Store, c: Caller, id: string, body: Body, batched: bool, io: Io)
    requires Stamped(s.log) && id in s.effects && s.effects[id].state == Proposed
    ensures var s' := AnswerEffect(env, s, c, id, body, batched, io).0;
            && id in s'.effects
            && (s'.effects[id].state == Approved <==>
                Valid(s, c, id, body, batched, io) && body.answer.Json? && body.answer.action == APPROVE
                && Conjunction(env, s, c, id, io.scan) && env.hash(s.effects[id].payload) == s.effects[id].hash
                && !io.journalFails && c.user != "")
            && (s'.effects[id].state == Failed <==>
                Valid(s, c, id, body, batched, io) && body.answer.Json? && body.answer.action == DENY
                && !io.journalFails && c.user != "")
            && s'.effects[id].state in {Proposed, Approved, Failed}
  {
    ScanIsWhole(s.log, id, s.effects[id], io.scan, env.expiry);
  }

  /** A settled effect never changes through an answer: the same decision is read back, any other is refused. */
  lemma SettledStays(env: Env, s: Store, c: Caller, id: string, body: Body, batched: bool, io: Io)
    requires id in s.effects && s.effects[id].state != Proposed
    ensures var (s', reply) := AnswerEffect(env, s, c, id, body, batched, io);
            && s' == s
            && (reply == AlreadyDecided ==> MayAnswer(c, s.effects[id]) && body.answer.Json?)
            && (MayAnswer(c, s.effects[id]) && body.answer.Json? && body.answer.action == APPROVE ==>
                  (reply == AlreadyDecided <==> !(s.effects[id].state == Failed && s.effects[id].denied)))
            && (MayAnswer(c, s.effects[id]) && body.answer.Json? && body.answer.action == DENY ==>
                  (reply == AlreadyDecided <==> s.effects[id].state == Failed && s.effects[id].denied))
            && (reply == AlreadyDecided || reply.Refused?)
  {
  }

  /** An approval that does not complete the conjunction is recorded, and the reply tells who has signed by then. */
  lemma RecordsExactly(env: Env, s: Store, c: Caller, id: string, body: Body, batched: bool, io: Io)
    requires Stamped(s.log) && id in s.effects && s.effects[id].state == Proposed
    ensures var e := s.effects[id];
            var (s', reply) := AnswerEffect(env, s, c, id, body, batched, io);
            && (reply.Recorded? <==>
                  && Valid(s, c, id, body, batched, io) && body.answer.Json? && body.answer.action == APPROVE
                  && !Conjunction(env, s, c, id, io.scan) && (OwnSignature(s, c, id, io.scan, env.expiry) || !io.appendFails))
            && (reply.Recorded? ==>
                  && s'.effects == s.effects && s'.verbs == s.verbs && s'.asks == s.asks
                  && s'.log == (if OwnSignature(s, c, id, io.scan, env.expiry) then s.log
                                else s.log + [Row(io.record, Some(Decision(c.user, c.operator, "effect:" + id, APPROVE, e.hash, Some(io.record))))])
                  && reply.approvals.platformLevel == (e.run == "")
                  && (reply.approvals.ownerApproved <==> c.user == e.owner || SignedByOwner(s.log, id, e, io.scan, env.expiry))
                  && (reply.approvals.operatorApproved <==> c.operator || SignedByOperator(s.log, id, e, io.scan, env.expiry)))
  {
    ScanIsWhole(s.log, id, s.effects[id], io.scan, env.expiry);
  }

  /** The decision row of an answer. */
  function AnswerRow(c: Caller, id: string, action: string, hash: string, now: int): Row {
    Row(now, Some(Decision(c.user, c.operator, "effect:" + id, action, hash, Some(now))))
  }

  /** What an approving answer writes: the journal's act on its own row, its verb, and the decision row unless an own
      signature is on record already or the append fails. */
  lemma ApprovalWrites(env: Env, s: Store, c: Caller, id: string, body: Body, batched: bool, io: Io)
    requires Stamped(s.log) && In(s, id, Proposed) && In(AnswerEffect(env, s, c, id, body, batched, io).0, id, Approved)
    ensures var e := s.effects[id];
            var (s', reply) := AnswerEffect(env, s, c, id, body, batched, io);
            && s'.effects == s.effects[id := e.(state := Approved, approver := c.user, approvedTS := io.act)]
            && s'.verbs == s.verbs + [Approves(id)]
            && (if OwnSignature(s, c, id, io.scan, env.expiry) then s'.log == s.log && reply == Applied(Approved)
                else if io.appendFails then s'.log == s.log && reply == Refused(AppendFailed)
                else s'.log == s.log + [AnswerRow(c, id, "approve", e.hash, io.record)] && reply == Applied(Approved))
  {
    ScanIsWhole(s.log, id, s.effects[id], io.scan, env.expiry);
  }

  /** What a denying answer writes, and that any other answer leaves the journal alone. */
  lemma DenialWrites(env: Env, s: Store, c: Caller, id: string, body: Body, batched: bool, io: Io)
    requires In(s, id, Proposed)
    ensures var e := s.effects[id];
            var (s', reply) := AnswerEffect(env, s, c, id, body, batched, io);
            && (In(s', id, Failed) ==>
                  && s'.effects == s.effects[id := e.(state := Failed, denied := true)] && s'.verbs == s.verbs + [Denies(id)]
                  && (if io.appendFails then s'.log == s.log && reply == Refused(AppendFailed)
                      else s'.log == s.log + [AnswerRow(c, id, "deny", e.hash, io.record)] && reply == Applied(Failed)))
            && (In(s', id, Proposed) ==> s'.effects == s.effects && s'.verbs == s.verbs)
  {
  }

  /** A refused answer has changed nothing, unless the journal acted and only the row of that act could not be written. */
  lemma RefusedKeeps(env: Env, s: Store, c: Caller, id: string, body: Body, batched: bool, io: Io)
    ensures var (s', reply) := AnswerEffect(env, s, c, id, body, batched, io);
            && s'.asks == s.asks
            && (reply.Refused? ==>
                  || s' == s
                  || (reply.why == AppendFailed && io.appendFails && s'.log == s.log
                      && id in s'.effects && s'.effects == s.effects[id := s'.effects[id]] && In(s, id, Proposed)
                      && s'.effects[id].state in {Approved, Failed}))
            && (reply == Refused(NotFound) <==> id !in s.effects)
            && (reply == Refused(Forbidden) <==>
                  id in s.effects && c.user != s.effects[id].owner && !(c.operator && s.effects[id].run == ""))
  {
  }

  // ---- one answer to an ask, exactly ----

  /** An open ask is answered exactly by its owner, quoting its hash, on its own unless its tier is low, confirmed by PIN if
      its tier is high, with an answer that decodes and that the intake accepts. It then holds that answer and nothing else
      has changed; any other request is refused and changes nothing. */
  lemma AnswersAskExactly(s: Store, c: Caller, id: string, body: Body, batched: bool, io: Io)
    requires id in s.asks && s.asks[id].answered.None?
    ensures var ask := s.asks[id];
            var (s', reply) := AnswerAsk(s, c, id, body, batched, io);
            && (reply == AskAnswered <==>
                  && c.user == ask.owner && Quotes(body.pinned, ask.hash)
                  && (batched ==> ask.tier == Low) && (ask.tier == High ==> io.pin == PinGood)
                  && body.answer.Json? && io.intakeOk)
            && (reply == AskAnswered ==>
                  s' == Store(s.effects, s.asks[id := Ask(ask.owner, ask.tier, ask.hash, Some(body.answer.canonical), "answered")], s.log, s.verbs))
            && (reply != AskAnswered ==> reply.Refused? && s' == s)
            && (reply == Refused(Forbidden) <==> c.user != ask.owner)
  {
  }

  lemma SettledAskStays(s: Store, c: Caller, id: string, body: Body, batched: bool, io: Io)
    requires id in s.asks && s.asks[id].answered.Some?
    ensures var (s', reply) := AnswerAsk(s, c, id, body, batched, io);
            && s' == s && (reply == AlreadyDecided || reply.Refused?)
            && (reply == AlreadyDecided <==> c.user == s.asks[id].owner && body.answer.Json? && body.answer.canonical != ""
                                             && body.answer.canonical == s.asks[id].answered.value)
  {
  }

  // ---- repeats ----

  /** Later, and with one more row of the acting caller, the scan derives no signature it did not derive before. */
  lemma LaterScan(log: seq<Row>, r: Row, id: string, e: Effect, now: int, later: int, expiry: int)
    requires Stamped(log + [r]) && now <= later
    ensures var a, b := ApprovalsOf(log, id, e, now, expiry), ApprovalsOf(log + [r], id, e, later, expiry);
            && (b.ownerApproved ==> a.ownerApproved || (Signature(r, id, e.hash, later, expiry) && r.body.value.actor == e.owner))
            && (b.operatorApproved ==> a.operatorApproved || (Signature(r, id, e.hash, later, expiry) && r.body.value.actorIsOperator))
            && (Signature(r, id, e.hash, later, expiry) && r.body.value.actor == e.owner ==> b.ownerApproved)
            && (Signature(r, id, e.hash, later, expiry) && r.body.value.actorIsOperator ==> b.operatorApproved)
  {
    assert forall x :: x in log ==> x in log + [r];
    ScanIsWhole(log, id, e, now, expiry);
    ScanIsWhole(log + [r], id, e, later, expiry);
    assert r in log + [r];
  }

  lemma RepeatedSignature(env: Env, s: Store, c: Caller, id: string, io: Io, io2: Io)
    requires Stamped(s.log) && id in s.effects && MayAnswer(c, s.effects[id]) && s.effects[id].hash != ""
    requires ApproveEffect(env, s, c, id, io).1.Recorded? && ApproveEffect(env, s, c, id, io).0 != s
    requires io.scan <= io2.scan && io2.scan - io.record <= env.expiry
    ensures var s1 := ApproveEffect(env, s, c, id, io).0;
            s1.effects == s.effects && ApproveEffect(env, s1, c, id, io2).0 == s1 && ApproveEffect(env, s1, c, id, io2).1.Recorded?
  {
    var e := s.effects[id];
    var r := Row(io.record, Some(Decision(c.user, c.operator, CardId(id), APPROVE, e.hash, Some(io.record))));
    LaterScan(s.log, r, id, e, io.scan, io2.scan, env.expiry);
    ScanIsWhole(s.log, id, e, io.scan, env.expiry);
    ScanIsWhole(s.log + [r], id, e, io2.scan, env.expiry);
  }

  /** An answer that took effect, given again while its row is inside the window, changes nothing, adds no row and is
      not refused. */
  lemma RepeatChangesNothing(env: Env, s: Store, c: Caller, id: string, body: Body, batched: bool, io: Io, io2: Io)
    requires Stamped(s.log) && io2.pin == PinGood
    requires var (s1, reply) := AnswerEffect(env, s, c, id, body, batched, io); !reply.Refused? && (s1 != s || reply == AlreadyDecided)
    requires io.scan <= io2.scan && io2.scan - io.record <= env.expiry
    ensures var s1 := AnswerEffect(env, s, c, id, body, batched, io).0;
            var (s2, reply) := AnswerEffect(env, s1, c, id, body, batched, io2);
            s2 == s1 && !reply.Refused?
  {
    if s.effects[id].state == Proposed && body.answer.action == APPROVE && ApproveEffect(env, s, c, id, io).1.Recorded? {
      RepeatedSignature(env, s, c, id, io, io2);
    }
  }

  lemma ScanNeverGains(log: seq<Row>, id: string, e: Effect, now: int, later: int, expiry: int)
    requires Stamped(log) && now <= later
    ensures var a, b := ApprovalsOf(log, id, e, now, expiry), ApprovalsOf(log, id, e, later, expiry);
            (b.ownerApproved ==> a.ownerApproved) && (b.operatorApproved ==> a.operatorApproved) && a.platformLevel == b.platformLevel
  {
    ScanIsWhole(log, id, e, now, expiry);
    ScanIsWhole(log, id, e, later, expiry);
  }

  /** An answer that only found an older signature of its own, given again, changes nothing and is not refused exactly
      while that signature is inside the window; afterwards it signs anew, or fails to. */
  lemma RepeatOnOlderSignature(env: Env, s: Store, c: Caller, id: string, body: Body, batched: bool, io: Io, io2: Io)
    requires Stamped(s.log) && io2.pin == PinGood && io.scan <= io2.scan
    requires AnswerEffect(env, s, c, id, body, batched, io).1.Recorded? && AnswerEffect(env, s, c, id, body, batched, io).0 == s
    ensures id in s.effects && OwnSignature(s, c, id, io.scan, env.expiry)
    ensures var (s2, reply) := AnswerEffect(env, s, c, id, body, batched, io2);
            (s2 == s && !reply.Refused? <==> OwnSignature(s, c, id, io2.scan, env.expiry))
            && (OwnSignature(s, c, id, io2.scan, env.expiry) || io2.appendFails
                || s2 == Record(s, c, id, s.effects[id], APPROVE, io2.record))
  {
    ScanIsWhole(s.log, id, s.effects[id], io.scan, env.expiry);
    ScanIsWhole(s.log, id, s.effects[id], io2.scan, env.expiry);
    ScanNeverGains(s.log, id, s.effects[id], io.scan, io2.scan, env.expiry);
  }

  // ---- batches ----

  /** A batch never touches an effect, the journal or the log, nor an ask above the low tier. */
  lemma {:induction false} BatchKeepsAboveLow(env: Env, s: Store, c: Caller, items: seq<Item>, ios: nat -> Io)
    ensures var (s', replies) := Fold(env, s, c, items, ios);
            && s'.effects == s.effects && s'.log == s.log && s'.verbs == s.verbs && s'.asks.Keys == s.asks.Keys
            && (forall id :: id in s.asks ==> s'.asks[id] == s.asks[id] || (s.asks[id].tier == Low && s'.asks[id].tier == Low))
            && |replies| == |items|
  {
    if items != [] {
      BatchKeepsAboveLow(env, s, c, items[..|items| - 1], ios);
    }
  }

  /** A member of a batch fares as it would alone, if it is an ask of the low tier. */
  lemma BatchedIsDirect(env: Env, s: Store, c: Caller, route: string, body: Body, io: Io)
    requires Cut(route).Some? && Cut(route).value.0 == "ask"
    requires Cut(route).value.1 in s.asks && s.asks[Cut(route).value.1].tier == Low
    ensures ApplyAnswer(env, s, c, route, body, true, io) == ApplyAnswer(env, s, c, route, body, false, io)
  {
  }

  /** A batch is its parts: answering two lists in one batch or in two is the same. */
  lemma {:induction false} FoldConcat(env: Env, s: Store, c: Caller, a: seq<Item>, b: seq<Item>, ios: nat -> Io)
    ensures var (s1, r1) := Fold(env, s, c, a, ios);
            var (s2, r2) := Fold(env, s1, c, b, (k: nat) => ios(|a| + k));
            Fold(env, s, c, a + b, ios) == (s2, r1 + r2)
  {
    if b == [] {
      assert a + b == a;
      var r1 := Fold(env, s, c, a, ios).1;
      assert r1 + [] == r1;
    } else {
      var n := |b| - 1;
      FoldConcat(env, s, c, a, b[..n], ios);
      assert (a + b)[..|a + b| - 1] == a + b[..n] && (a + b)[|a + b| - 1] == b[n];
      var (s1, r1) := Fold(env, s, c, a, ios);
      var tail := (k: nat) => ios(|a| + k);
      var (s2, r2) := Fold(env, s1, c, b[..n], tail);
      var (s3, reply) := ApplyAnswer(env, s2, c, b[n].route, b[n].body, true, ios(|a| + n));
      assert tail(n) == ios(|a| + n);
      assert Fold(env, s1, c, b, tail) == (s3, r2 + [reply]);
      assert r1 + r2 + [reply] == r1 + (r2 + [reply]);
    }
  }

  /** The card's route names the card: cutting it gives the kind and the id back. */
  lemma {:induction false} CutRoute(kind: string, id: string)
    requires ':' !in kind
    ensures Cut(kind + ":" + id) == Some((kind, id))
  {
    var route := kind + ":" + id;
    if kind == "" {
      assert route[1..] == id;
    } else {
      CutRoute(kind[1..], id);
      assert route[1..] == kind[1..] + ":" + id;
      assert [kind[0]] + kind[1..] == kind;
    }
  }

  /** The one path serves two kinds of card, each by its own answer; any other route is refused and changes nothing. */
  lemma RoutesByKind(env: Env, s: Store, c: Caller, route: string, body: Body, batched: bool, io: Io)
    ensures forall id :: id != "" && route == "ask:" + id ==>
              ApplyAnswer(env, s, c, route, body, batched, io) == AnswerAsk(s, c, id, body, batched, io)
    ensures forall id :: id != "" && route == "effect:" + id ==>
              ApplyAnswer(env, s, c, route, body, batched, io) == AnswerEffect(env, s, c, id, body, batched, io)
    ensures (forall id :: id != "" ==> route != "ask:" + id && route != "effect:" + id) ==>
              ApplyAnswer(env, s, c, route, body, batched, io).0 == s
              && ApplyAnswer(env, s, c, route, body, batched, io).1 in {Refused(BadRequest), Refused(NotAnswerable)}
  {
    forall id ensures route == "ask:" + id ==> Cut(route) == Some(("ask", id))
      ensures route == "effect:" + id ==> Cut(route) == Some(("effect", id))
    {
      if route == "ask:" + id { CutRoute("ask", id); assert route == "ask" + ":" + id; }
      if route == "effect:" + id { CutRoute("effect", id); assert route == "effect" + ":" + id; }
    }
    CutJoins(route);
  }

  lemma {:induction false} CutJoins(route: string)
    ensures Cut(route).Some? ==> route == Cut(route).value.0 + ":" + Cut(route).value.1
  {
    if route != "" && route[0] != ':' {
      CutJoins(route[1..]);
      if Cut(route).Some? {
        var (kind, native) := Cut(route[1..]).value;
        assert route == [route[0]] + route[1..] == [route[0]] + kind + ":" + native;
      }
    }
  }

  // ---- runs ----

  datatype Step =
    | Answer(c: Caller, id: string, body: Body, batched: bool, io: Io)
    | AnswerTheAsk(c: Caller, id: string, body: Body, batched: bool, io: Io)
    | Propose(id: string, owner: string, run: string, payload: string)
    | Rewrite(id: string, payload: string)
    | Begin(id: string, now: int)
    | Reconcile(id: string)
    | Finish(id: string, state: EffectState)
    | OtherRow(row: Row)

  /** The row is not about an effect card. */
  predicate Unrelated(r: Row) {
    r.body.Some? ==> !("effect:" <= r.body.value.cardId)
  }

  /** The journal's begin: an expired or a drifted approval goes back to proposed. */
  function BeginExecute(env: Env, s: Store, id: string, now: int): Store
    requires id in s.effects && s.effects[id].state == Approved
  {
    var e := s.effects[id];
    if now - e.approvedTS > env.expiry || env.hash(e.payload) != e.hash then
      s.(effects := s.effects[id := e.(state := Proposed, approver := "", approvedTS := 0)], verbs := s.verbs + [Returns(id)])
    else s.(effects := s.effects[id := e.(state := Executing)])
  }

  function Apply(env: Env, s: Store, st: Step): Store {
    match st
    case Answer(c, id, body, batched, io) => AnswerEffect(env, s, c, id, body, batched, io).0
    case AnswerTheAsk(c, id, body, batched, io) => AnswerAsk(s, c, id, body, batched, io).0
    case Propose(id, owner, run, payload) =>
      if id in s.effects then s
      else s.(effects := s.effects[id := Effect(owner, run, payload, env.hash(payload), Proposed, "", 0, false)])
    case Rewrite(id, payload) =>
      if id in s.effects then s.(effects := s.effects[id := s.effects[id].(payload := payload)]) else s
    case Begin(id, now) => if In(s, id, Approved) then BeginExecute(env, s, id, now) else s
    case Reconcile(id) =>
      if In(s, id, Executing) then s.(effects := s.effects[id := s.effects[id].(state := Approved)]) else s
    case Finish(id, state) =>
      if In(s, id, Executing) && state in {Succeeded, Failed, Unknown} then
        s.(effects := s.effects[id := s.effects[id].(state := state)])
      else s
    case OtherRow(row) => if Unrelated(row) then s.(log := s.log + [row]) else s
  }

  function Run(env: Env, s: Store, steps: seq<Step>): Store {
    if steps == [] then s else Apply(env, Run(env, s, steps[..|steps| - 1]), steps[|steps| - 1])
  }

  predicate Initial(s: Store) {
    s.effects == map[] && s.log == [] && s.verbs == []
  }

  /** When the journal begins an approved effect: exactly while its approval is inside the window and its payload undrifted;
      otherwise the effect goes back to proposed, its approval gone, and either way nothing else changes. */
  lemma BeginsExactly(env: Env, s: Store, id: string, now: int)
    requires In(s, id, Approved)
    ensures var e, s' := s.effects[id], Apply(env, s, Begin(id, now));
            if now <= e.approvedTS + env.expiry && env.hash(e.payload) == e.hash then s' == s.(effects := s.effects[id := e.(state := Executing)])
            else s' == s.(effects := s.effects[id := Effect(e.owner, e.run, e.payload, e.hash, Proposed, "", 0, e.denied)],
                          verbs := s.verbs + [Returns(id)])
  {
  }

  lemma StepStamped(env: Env, s: Store, st: Step)
    requires Stamped(s.log)
    ensures Stamped(Apply(env, s, st).log)
  {
  }

  lemma {:induction false} RunStamped(env: Env, s: Store, steps: seq<Step>)
    requires Initial(s)
    ensures Stamped(Run(env, s, steps).log)
  {
    if steps != [] {
      RunStamped(env, s, steps[..|steps| - 1]);
      StepStamped(env, Run(env, s, steps[..|steps| - 1]), steps[|steps| - 1]);
    }
  }

  /** Step `k` of the run is the answer that signed row `r`: by that actor, in that role, for that hash, confirmed, given
      on the open card. */
  ghost predicate SignedAt(env: Env, s0: Store, steps: seq<Step>, k: nat, r: Row)
    requires k < |steps| && r.body.Some?
  {
    var d, st := r.body.value, steps[k];
    && st.Answer? && CardId(st.id) == d.cardId && st.c.user == d.actor && st.c.operator == d.actorIsOperator
    && Valid(Run(env, s0, steps[..k]), st.c, st.id, st.body, st.batched, st.io)
    && st.body.answer.Json? && st.body.answer.action == d.decision && st.body.pinned == d.hash
    && d.decidedAt == Some(st.io.record)
  }

  /** What a step appends: nothing, an unrelated row, or the row of a valid answer to the open card. */
  lemma AppendsOnlySignatures(env: Env, s: Store, st: Step)
    ensures var log := Apply(env, s, st).log;
            || log == s.log
            || (st.OtherRow? && Unrelated(st.row) && log == s.log + [st.row])
            || (st.Answer? && Valid(s, st.c, st.id, st.body, st.batched, st.io) && st.body.answer.Json?
                && log == s.log + [Row(st.io.record, Some(Decision(st.c.user, st.c.operator, CardId(st.id),
                                                                   st.body.answer.action, st.body.pinned, Some(st.io.record))))])
  {
  }

  /** Step `k` appended `r`. */
  ghost predicate WroteHere(env: Env, s0: Store, steps: seq<Step>, k: nat, r: Row)
    requires k < |steps|
  {
    Run(env, s0, steps[..k + 1]).log == Run(env, s0, steps[..k]).log + [r]
  }

  ghost predicate SomeSigner(env: Env, s0: Store, steps: seq<Step>, r: Row)
    requires r.body.Some?
  {
    exists k :: 0 <= k < |steps| && SignedAt(env, s0, steps, k, r) && WroteHere(env, s0, steps, k, r)
  }

  /** Every decision row about an effect card was written by a valid answer of that actor to that card. */
  lemma {:induction false} RowsAreSignatures(env: Env, s0: Store, steps: seq<Step>, r: Row)
    requires Initial(s0) && r in Run(env, s0, steps).log && r.body.Some? && "effect:" <= r.body.value.cardId
    ensures SomeSigner(env, s0, steps, r)
  {
    if steps != [] {
      var n := |steps| - 1;
      var front := steps[..n];
      AppendsOnlySignatures(env, Run(env, s0, front), steps[n]);
      if r in Run(env, s0, front).log {
        RowsAreSignatures(env, s0, front, r);
        var k :| 0 <= k < |front| && SignedAt(env, s0, front, k, r) && WroteHere(env, s0, front, k, r);
        assert steps[..k] == front[..k] && steps[..k + 1] == front[..k + 1];
        assert SignedAt(env, s0, steps, k, r) && WroteHere(env, s0, steps, k, r);
      } else {
        assert steps[..n + 1] == steps;
        assert SignedAt(env, s0, steps, n, r) && WroteHere(env, s0, steps, n, r);
      }
    }
  }

  /** A signature that counts now was given by a valid approve of that card, for the hash now on the row, no longer ago
      than the window. */
  ghost predicate GaveSignature(env: Env, s0: Store, steps: seq<Step>, k: nat, id: string, hash: string, now: int)
    requires k < |steps|
  {
    var st := steps[k];
    && st.Answer? && st.id == id && Valid(Run(env, s0, steps[..k]), st.c, id, st.body, st.batched, st.io)
    && st.body.answer.Json? && st.body.answer.action == APPROVE && st.body.pinned == hash
    && now - st.io.record <= env.expiry
  }

  ghost predicate OwnerGave(env: Env, s0: Store, steps: seq<Step>, id: string, e: Effect, now: int) {
    exists k :: 0 <= k < |steps| && GaveSignature(env, s0, steps, k, id, e.hash, now) && steps[k].c.user == e.owner
  }

  ghost predicate OperatorGave(env: Env, s0: Store, steps: seq<Step>, id: string, e: Effect, now: int) {
    exists k :: 0 <= k < |steps| && GaveSignature(env, s0, steps, k, id, e.hash, now) && steps[k].c.operator
  }

  lemma SignatureWasGiven(env: Env, s0: Store, steps: seq<Step>, id: string, e: Effect, now: int, r: Row) returns (k: nat)
    requires Initial(s0) && r in Run(env, s0, steps).log && Signature(r, id, e.hash, now, env.expiry)
    ensures k < |steps| && GaveSignature(env, s0, steps, k, id, e.hash, now)
    ensures steps[k].c.user == r.body.value.actor && steps[k].c.operator == r.body.value.actorIsOperator
  {
    RowsAreSignatures(env, s0, steps, r);
    k :| 0 <= k < |steps| && SignedAt(env, s0, steps, k, r);
    assert CardId(steps[k].id)[7..] == CardId(id)[7..];
  }

  /** The cycle-scoped conjunction, over every run with drift, expiry, reconciliation and any answers in between: an
      effect leaves proposed for approved only by a valid approve, and only when its owner, and for a platform-level
      effect also an operator, has validly signed the hash now on the row no longer ago than the window, or does so
      by this answer; and the payload still has that hash. */
  lemma ApprovedOnlyWhenSigned(env: Env, s0: Store, steps: seq<Step>, st: Step, id: string)
    requires Initial(s0) && In(Run(env, s0, steps), id, Proposed) && In(Apply(env, Run(env, s0, steps), st), id, Approved)
    ensures var s := Run(env, s0, steps);
            var e := s.effects[id];
            && st.Answer? && st.id == id && Valid(s, st.c, id, st.body, st.batched, st.io)
            && st.body.answer.Json? && st.body.answer.action == APPROVE && st.body.pinned == e.hash == env.hash(e.payload)
            && (st.c.user == e.owner || OwnerGave(env, s0, steps, id, e, st.io.scan))
            && (e.run == "" ==> st.c.operator || OperatorGave(env, s0, steps, id, e, st.io.scan))
  {
    var s := Run(env, s0, steps);
    var e := s.effects[id];
    RunStamped(env, s0, steps);
    OnlyAnswersApprove(env, s, st, id);
    ApprovesExactly(env, s, st.c, id, st.body, st.batched, st.io);
    if st.c.user != e.owner {
      var r :| r in s.log && Signature(r, id, e.hash, st.io.scan, env.expiry) && r.body.value.actor == e.owner;
      var k := SignatureWasGiven(env, s0, steps, id, e, st.io.scan, r);
    }
    if e.run == "" && !st.c.operator {
      var r :| r in s.log && Signature(r, id, e.hash, st.io.scan, env.expiry) && r.body.value.actorIsOperator;
      var k := SignatureWasGiven(env, s0, steps, id, e, st.io.scan, r);
    }
  }

  lemma OnlyAnswersApprove(env: Env, s: Store, st: Step, id: string)
    requires In(s, id, Proposed) && In(Apply(env, s, st), id, Approved)
    ensures st.Answer? && st.id == id
  {
  }

  // ---- one act per proposal cycle ----

  /** Approvals and denials of an effect, less its returns to proposed. */
  function Balance(verbs: seq<Verb>, id: string): int {
    if verbs == [] then 0
    else
      var v := verbs[|verbs| - 1];
      Balance(verbs[..|verbs| - 1], id) + if v.effect != id then 0 else if v.Returns? then -1 else 1
  }

  lemma BalanceSnoc(verbs: seq<Verb>, v: Verb, id: string)
    ensures Balance(verbs + [v], id) == Balance(verbs, id) + if v.effect != id then 0 else if v.Returns? then -1 else 1
  {
    assert (verbs + [v])[..|verbs|] == verbs;
  }

  function Decided(s: Store, id: string): int {
    if id in s.effects && s.effects[id].state != Proposed then 1 else 0
  }

  /** A step acts on one effect, if at all, and exactly when it takes it out of proposed or back. */
  lemma StepBalances(env: Env, s: Store, st: Step, id: string)
    ensures var s' := Apply(env, s, st);
            Balance(s'.verbs, id) - Decided(s', id) == Balance(s.verbs, id) - Decided(s, id)
  {
    match st {
      case Answer(_, _, _, _, _) => AnswerBalances(env, s, st, id);
      case Begin(x, _) => BalanceSnoc(s.verbs, Returns(x), id);
      case _ =>
    }
  }

  /** An answer makes one act of the journal on a proposed effect, or none. */
  lemma AnswerActs(env: Env, s: Store, c: Caller, id: string, body: Body, batched: bool, io: Io)
    ensures var s' := AnswerEffect(env, s, c, id, body, batched, io).0;
            || (s'.verbs == s.verbs && s'.effects == s.effects)
            || (In(s, id, Proposed) && s'.verbs in {s.verbs + [Approves(id)], s.verbs + [Denies(id)]}
                && id in s'.effects && s'.effects == s.effects[id := s'.effects[id]] && s'.effects[id].state != Proposed)
  {
  }

  lemma AnswerBalances(env: Env, s: Store, st: Step, id: string)
    requires st.Answer?
    ensures var s' := Apply(env, s, st);
            Balance(s'.verbs, id) - Decided(s', id) == Balance(s.verbs, id) - Decided(s, id)
  {
    AnswerActs(env, s, st.c, st.id, st.body, st.batched, st.io);
    BalanceSnoc(s.verbs, Approves(st.id), id);
    BalanceSnoc(s.verbs, Denies(st.id), id);
  }

  /** The journal sees one approve or deny per proposal cycle: at every point of every run the acts on an effect
      outnumber its returns by one if it is decided and by none if it is proposed. */
  lemma {:induction false} OneActPerCycle(env: Env, s0: Store, steps: seq<Step>, id: string)
    requires Initial(s0)
    ensures var s := Run(env, s0, steps); Balance(s.verbs, id) == Decided(s, id)
  {
    if steps != [] {
      OneActPerCycle(env, s0, steps[..|steps| - 1], id);
      StepBalances(env, Run(env, s0, steps[..|steps| - 1]), steps[|steps| - 1], id);
    }
  }

  // ---- what survives an expiry ----

  function Lo(st: Step): Option<int> {
    match st
    case Answer(_, _, _, _, io) => Some(io.scan)
    case Begin(_, now) => Some(now)
    case _ => None
  }

  function Hi(st: Step): Option<int> {
    match st
    case Answer(_, _, _, _, io) => Some(io.record)
    case Begin(_, now) => Some(now)
    case _ => None
  }

  /** One clock that never goes back: within an answer and from step to step. */
  ghost predicate Clocked(steps: seq<Step>) {
    && (forall i :: 0 <= i < |steps| && steps[i].Answer? ==> steps[i].io.scan <= steps[i].io.act <= steps[i].io.record)
    && (forall i, j :: 0 <= i < j < |steps| && Hi(steps[i]).Some? && Lo(steps[j]).Some? ==> Hi(steps[i]).value <= Lo(steps[j]).value)
  }

  predicate Standing(s: Store, id: string) {
    In(s, id, Approved) || In(s, id, Executing)
  }

  ghost predicate ApprovingStep(env: Env, s0: Store, steps: seq<Step>, k: nat, id: string)
    requires k < |steps|
  {
    && steps[k].Answer? && steps[k].id == id
    && In(Run(env, s0, steps[..k]), id, Proposed) && In(Run(env, s0, steps[..k + 1]), id, Approved)
  }

  /** The approval an effect stands on: given at step `m`, at the time on the row, and held ever since. */
  ghost predicate StandsOn(env: Env, s0: Store, steps: seq<Step>, m: nat, id: string) {
    && m < |steps| && ApprovingStep(env, s0, steps, m, id)
    && id in Run(env, s0, steps).effects && Run(env, s0, steps).effects[id].approvedTS == steps[m].io.act
    && (forall k :: m < k <= |steps| ==> Standing(Run(env, s0, steps[..k]), id))
  }

  lemma StandingStep(env: Env, s: Store, st: Step, id: string)
    requires Standing(Apply(env, s, st), id)
    ensures Standing(s, id) ==> Apply(env, s, st).effects[id].approvedTS == s.effects[id].approvedTS
    ensures !Standing(s, id) ==> In(s, id, Proposed) && In(Apply(env, s, st), id, Approved)
    ensures !Standing(s, id) ==> st.Answer? && st.id == id && Apply(env, s, st).effects[id].approvedTS == st.io.act
  {
  }

  lemma {:induction false} FindApproval(env: Env, s0: Store, steps: seq<Step>, id: string) returns (m: nat)
    requires Initial(s0) && Standing(Run(env, s0, steps), id)
    ensures StandsOn(env, s0, steps, m, id)
  {
    var n := |steps| - 1;
    var front := steps[..n];
    assert steps[..|steps|] == steps;
    StandingStep(env, Run(env, s0, front), steps[n], id);
    if Standing(Run(env, s0, front), id) {
      m := FindApproval(env, s0, front, id);
      StandsLonger(env, s0, steps, m, id);
    } else {
      m := n;
      assert steps[..n + 1] == steps;
    }
  }

  lemma StandsLonger(env: Env, s0: Store, steps: seq<Step>, m: nat, id: string)
    requires steps != [] && StandsOn(env, s0, steps[..|steps| - 1], m, id) && Standing(Run(env, s0, steps), id)
    requires Run(env, s0, steps).effects[id].approvedTS == Run(env, s0, steps[..|steps| - 1]).effects[id].approvedTS
    ensures StandsOn(env, s0, steps, m, id)
  {
    var front := steps[..|steps| - 1];
    assert front[..m] == steps[..m] && front[..m + 1] == steps[..m + 1];
    forall k | m < k <= |steps| ensures Standing(Run(env, s0, steps[..k]), id) {
      if k == |steps| {
        assert steps[..k] == steps;
      } else {
        assert steps[..k] == front[..k];
      }
    }
  }

  ghost predicate SomeSignature(s: Store, id: string, now: int, expiry: int)
    requires id in s.effects
  {
    exists r :: r in s.log && Signature(r, id, s.effects[id].hash, now, expiry)
  }

  /** The approving answer at step `k` wrote its own row. */
  ghost predicate WroteRow(env: Env, s0: Store, steps: seq<Step>, k: nat)
    requires k < |steps|
  {
    Run(env, s0, steps[..k + 1]).log != Run(env, s0, steps[..k]).log
  }

  ghost predicate LateRow(env: Env, s0: Store, steps: seq<Step>, id: string, now: int) {
    exists k :: 0 <= k < |steps| && ApprovingStep(env, s0, steps, k, id) && WroteRow(env, s0, steps, k)
                && now - steps[k].io.record <= env.expiry
  }

  lemma {:induction false} LogGrows(env: Env, s0: Store, steps: seq<Step>, k: nat, r: Row, id: string)
    requires k <= |steps| && r in Run(env, s0, steps[..k]).log && id in Run(env, s0, steps[..k]).effects
    ensures r in Run(env, s0, steps).log
    ensures id in Run(env, s0, steps).effects && Run(env, s0, steps).effects[id].hash == Run(env, s0, steps[..k]).effects[id].hash
  {
    if k == |steps| {
      assert steps[..k] == steps;
    } else {
      var n := |steps| - 1;
      assert steps[..n][..k] == steps[..k];
      LogGrows(env, s0, steps[..n], k, r, id);
      AppendsOnlySignatures(env, Run(env, s0, steps[..n]), steps[n]);
      HashStays(env, Run(env, s0, steps[..n]), steps[n], id);
    }
  }

  /** The recorded hash is the proposal's for good: neither drift nor a return to proposed rewrites it. */
  lemma HashStays(env: Env, s: Store, st: Step, id: string)
    requires id in s.effects
    ensures id in Apply(env, s, st).effects && Apply(env, s, st).effects[id].hash == s.effects[id].hash
  {
  }

  /** Which signature outlives an approval that expires, exactly: one does if and only if the answer that completed the
      conjunction stamped its own row late enough after the approval for the row to be inside the window still. */
  lemma ExpirySurvivors(env: Env, s0: Store, steps: seq<Step>, id: string, now: int)
    requires Initial(s0) && Clocked(steps + [Begin(id, now)])
    requires In(Run(env, s0, steps), id, Approved) && now - Run(env, s0, steps).effects[id].approvedTS > env.expiry
    ensures var s' := Apply(env, Run(env, s0, steps), Begin(id, now));
            In(s', id, Proposed) && (SomeSignature(s', id, now, env.expiry) <==> LateRow(env, s0, steps, id, now))
  {
    BeginReturns(env, Run(env, s0, steps), id, now);
    if SomeSignature(Run(env, s0, steps), id, now, env.expiry) {
      var r :| r in Run(env, s0, steps).log && Signature(r, id, Run(env, s0, steps).effects[id].hash, now, env.expiry);
      var m := FindApproval(env, s0, steps, id);
      SurvivorIsLate(env, s0, steps, id, now, m, r);
    }
    if LateRow(env, s0, steps, id, now) {
      var k :| 0 <= k < |steps| && ApprovingStep(env, s0, steps, k, id) && WroteRow(env, s0, steps, k)
               && now - steps[k].io.record <= env.expiry;
      var r := LateRowCounts(env, s0, steps, id, now, k);
    }
  }

  lemma BeginReturns(env: Env, s: Store, id: string, now: int)
    requires In(s, id, Approved) && now - s.effects[id].approvedTS > env.expiry
    ensures var s' := Apply(env, s, Begin(id, now));
            In(s', id, Proposed) && (SomeSignature(s', id, now, env.expiry) <==> SomeSignature(s, id, now, env.expiry))
  {
  }

  lemma StampedBefore(steps: seq<Step>, i: nat, j: nat)
    requires Clocked(steps) && i < |steps| && j < |steps| && steps[i].Answer? && steps[j].Answer?
    ensures i < j ==> steps[i].io.record <= steps[j].io.scan <= steps[j].io.act
  {
    if i < j {
      assert Hi(steps[i]).value <= Lo(steps[j]).value;
    }
  }

  lemma StandsAt(env: Env, s0: Store, steps: seq<Step>, m: nat, id: string, k: nat)
    requires StandsOn(env, s0, steps, m, id) && k <= |steps|
    ensures m < k ==> Standing(Run(env, s0, steps[..k]), id)
  {
  }

  lemma SurvivorIsLate(env: Env, s0: Store, steps: seq<Step>, id: string, now: int, m: nat, r: Row)
    requires Initial(s0) && Clocked(steps + [Begin(id, now)]) && StandsOn(env, s0, steps, m, id)
    requires In(Run(env, s0, steps), id, Approved) && now - Run(env, s0, steps).effects[id].approvedTS > env.expiry
    requires r in Run(env, s0, steps).log && Signature(r, id, Run(env, s0, steps).effects[id].hash, now, env.expiry)
    ensures LateRow(env, s0, steps, id, now)
  {
    var all := steps + [Begin(id, now)];
    RowsAreSignatures(env, s0, steps, r);
    var k :| 0 <= k < |steps| && SignedAt(env, s0, steps, k, r) && WroteHere(env, s0, steps, k, r);
    assert CardId(steps[k].id)[7..] == CardId(id)[7..];
    assert all[k] == steps[k] && all[m] == steps[m];
    StampedBefore(all, k, m);
    StandsAt(env, s0, steps, m, id, k);
    assert k == m;
  }

  lemma LateRowCounts(env: Env, s0: Store, steps: seq<Step>, id: string, now: int, k: nat) returns (r: Row)
    requires Initial(s0) && k < |steps| && ApprovingStep(env, s0, steps, k, id) && WroteRow(env, s0, steps, k)
    requires now - steps[k].io.record <= env.expiry && id in Run(env, s0, steps).effects
    ensures r in Run(env, s0, steps).log && Signature(r, id, Run(env, s0, steps).effects[id].hash, now, env.expiry)
  {
    var s, st := Run(env, s0, steps[..k]), steps[k];
    assert steps[..k + 1][..k] == steps[..k];
    AppendsOnlySignatures(env, s, st);
    RunStamped(env, s0, steps[..k]);
    ApprovesExactly(env, s, st.c, id, st.body, st.batched, st.io);
    r := Row(st.io.record, Some(Decision(st.c.user, st.c.operator, CardId(id), APPROVE, st.body.pinned, Some(st.io.record))));
    LogGrows(env, s0, steps, k + 1, r, id);
  }

  // ---- a signature that carries into the next cycle ----

  function Yes(env: Env, c: Caller, id: string, payload: string, scan: int, record: int): Step {
    Answer(c, id, Body(env.hash(payload), Json("", APPROVE)), false, Io(scan, scan, record, PinGood, false, false, true))
  }

  function RowOf(env: Env, c: Caller, id: string, payload: string, now: int): Row {
    Row(now, Some(Decision(c.user, c.operator, CardId(id), APPROVE, env.hash(payload), Some(now))))
  }

  /** The owner signs, the operator completes, and the row of the completing answer is stamped a tick after the
      approval. */
  function LateCycle(id: string, env: Env, owner: string, op: string, payload: string): seq<Step> {
    [Propose(id, owner, "", payload), Yes(env, Caller(owner, false), id, payload, 0, 0), Yes(env, Caller(op, true), id, payload, 0, 1)]
  }

  function Fresh(env: Env, owner: string, payload: string): Effect {
    Effect(owner, "", payload, env.hash(payload), Proposed, "", 0, false)
  }

  lemma OwnerSigns(env: Env, s: Store, id: string, owner: string, payload: string)
    requires id in s.effects && s.effects[id] == Fresh(env, owner, payload) && s.log == []
    requires owner != "" && !Blank(env.hash(payload))
    ensures var s' := Apply(env, s, Yes(env, Caller(owner, false), id, payload, 0, 0));
            s'.effects == s.effects && s'.log == [RowOf(env, Caller(owner, false), id, payload, 0)]
  {
    assert ApprovalsOf([], id, s.effects[id], 0, env.expiry) == EffectApprovals(true, false, "", false, "");
  }

  lemma OperatorCompletes(env: Env, s: Store, id: string, owner: string, op: string, payload: string)
    requires id in s.effects && s.effects[id] == Fresh(env, owner, payload)
    requires s.log == [RowOf(env, Caller(owner, false), id, payload, 0)]
    requires owner != op && op != "" && !Blank(env.hash(payload)) && env.expiry >= 1
    ensures var s' := Apply(env, s, Yes(env, Caller(op, true), id, payload, 0, 1));
            && id in s'.effects && s'.effects[id] == s.effects[id].(state := Approved, approver := op, approvedTS := 0)
            && s'.log == s.log + [RowOf(env, Caller(op, true), id, payload, 1)]
  {
    var e := s.effects[id];
    assert s.log[..0] == [];
    assert ApprovalsOf([], id, e, 0, env.expiry) == EffectApprovals(true, false, "", false, "");
    assert ApprovalsOf(s.log, id, e, 0, env.expiry) == EffectApprovals(true, true, owner, false, "");
  }

  lemma LateCycleEnds(env: Env, s0: Store, id: string, owner: string, op: string, payload: string)
    requires Initial(s0) && owner != op && owner != "" && op != "" && !Blank(env.hash(payload)) && env.expiry >= 1
    ensures var s := Run(env, s0, LateCycle(id, env, owner, op, payload));
            && id in s.effects && s.effects[id] == Fresh(env, owner, payload).(state := Approved, approver := op, approvedTS := 0)
            && s.log == [RowOf(env, Caller(owner, false), id, payload, 0), RowOf(env, Caller(op, true), id, payload, 1)]
  {
    var steps := LateCycle(id, env, owner, op, payload);
    RunSnoc(env, s0, [], steps[0]);
    RunSnoc(env, s0, [] + [steps[0]], steps[1]);
    RunSnoc(env, s0, [] + [steps[0]] + [steps[1]], steps[2]);
    assert steps == [] + [steps[0]] + [steps[1]] + [steps[2]];
    var s1 := Apply(env, s0, steps[0]);
    OwnerSigns(env, s1, id, owner, payload);
    OperatorCompletes(env, Apply(env, s1, steps[1]), id, owner, op, payload);
  }

  lemma RunSnoc(env: Env, s: Store, steps: seq<Step>, st: Step)
    ensures Run(env, s, steps + [st]) == Apply(env, Run(env, s, steps), st)
  {
    assert (steps + [st])[..|steps|] == steps;
  }

  lemma LastSigns(log: seq<Row>, r: Row, id: string, e: Effect, now: int, expiry: int)
    requires Signature(r, id, e.hash, now, expiry) && r.ts >= now - expiry && r.body.value.actorIsOperator
    ensures ApprovalsOf(log + [r], id, e, now, expiry).operatorApproved
    ensures ApprovalsOf(log + [r], id, e, now, expiry).platformLevel <==> e.run == ""
  {
    assert (log + [r])[..|log|] == log;
    PlatformLevel(log, id, e, now, expiry);
  }

  lemma {:induction false} PlatformLevel(log: seq<Row>, id: string, e: Effect, now: int, expiry: int)
    ensures ApprovalsOf(log, id, e, now, expiry).platformLevel <==> e.run == ""
  {
    if log != [] { PlatformLevel(log[..|log| - 1], id, e, now, expiry); }
  }

  /** When the approval expires that row still counts, and the owner alone completes the next cycle: the operator has
      not answered since the effect went back to proposed. */
  lemma LateSignatureCarries(env: Env, s0: Store, id: string, owner: string, op: string, payload: string)
    requires Initial(s0) && owner != op && owner != "" && op != "" && !Blank(env.hash(payload)) && env.expiry >= 1
    ensures var s := Run(env, s0, LateCycle(id, env, owner, op, payload));
            var later := env.expiry + 1;
            var returned := Apply(env, s, Begin(id, later));
            && In(s, id, Approved) && In(returned, id, Proposed)
            && In(Apply(env, returned, Yes(env, Caller(owner, false), id, payload, later, later)), id, Approved)
  {
    LateCycleEnds(env, s0, id, owner, op, payload);
    var s := Run(env, s0, LateCycle(id, env, owner, op, payload));
    var later := env.expiry + 1;
    var returned := Apply(env, s, Begin(id, later));
    var r := RowOf(env, Caller(op, true), id, payload, 1);
    assert returned.log == [RowOf(env, Caller(owner, false), id, payload, 0)] + [r];
    LastSigns([RowOf(env, Caller(owner, false), id, payload, 0)], r, id, returned.effects[id], later, env.expiry);
  }
}
