/** The answer verbs over their stores, proved against the answer steps of CoApproval. */
module ApprovalServer {
  import opened Wrappers
  import opened CoApproval

  class EffectJournal {
    var effects: map<string, Effect>
    ghost var verbs: seq<Verb>

    predicate IsProposed(id: string)
      reads this
    {
      id in effects && effects[id].state == Proposed
    }

    /** Proposed to approved, if the payload still has the recorded hash; any other row is refused. */
    method Approve(env: Env, id: string, user: string, io: Io) returns (refused: Option<Refusal>)
      modifies this
      ensures refused == if io.journalFails || user == "" || !old(IsProposed(id)) then Some(JournalRefused)
                         else if env.hash(old(effects)[id].payload) != old(effects)[id].hash then Some(PayloadDrift) else None
      ensures refused.Some? ==> effects == old(effects) && verbs == old(verbs)
      ensures refused.None? ==> effects == old(effects)[id := old(effects)[id].(state := Approved, approver := user, approvedTS := io.act)]
      ensures refused.None? ==> verbs == old(verbs) + [Approves(id)]
    {
      if io.journalFails || user == "" || !IsProposed(id) {
        return Some(JournalRefused);
      }
      if env.hash(effects[id].payload) != effects[id].hash {
        return Some(PayloadDrift);
      }
      effects := effects[id := effects[id].(state := Approved, approver := user, approvedTS := io.act)];
      verbs := verbs + [Approves(id)];
      return None;
    }

    method Deny(id: string, user: string, io: Io) returns (ok: bool)
      modifies this
      ensures ok == !(io.journalFails || user == "" || !old(IsProposed(id)))
      ensures effects == if ok then old(effects)[id := old(effects)[id].(state := Failed, denied := true)] else old(effects)
      ensures verbs == if ok then old(verbs) + [Denies(id)] else old(verbs)
    {
      ok := !(io.journalFails || user == "" || !IsProposed(id));
      if ok {
        effects := effects[id := effects[id].(state := Failed, denied := true)];
        verbs := verbs + [Denies(id)];
      }
    }
  }

  class DecisionLog {
    var rows: seq<Row>

    method Append(row: Row, fails: bool) returns (ok: bool)
      modifies this
      ensures ok == !fails && rows == if ok then old(rows) + [row] else old(rows)
    {
      ok := !fails;
      if ok {
        rows := rows + [row];
      }
    }
  }

  class AskStore {
    var asks: map<string, Ask>
  }

  class Server {
    const env: Env
    const journal: EffectJournal
    const log: DecisionLog
    const pending: AskStore

    constructor (env: Env, journal: EffectJournal, log: DecisionLog, pending: AskStore)
      ensures this.env == env && this.journal == journal && this.log == log && this.pending == pending
    {
      this.env, this.journal, this.log, this.pending := env, journal, log, pending;
    }

    ghost function View(): Store
      reads journal, log, pending
    {
      Store(journal.effects, pending.asks, log.rows, journal.verbs)
    }

    /** One pass over the decision rows inside the window. */
    method DeriveApprovals(id: string, e: Effect, now: int) returns (a: EffectApprovals)
      ensures a == ApprovalsOf(log.rows, id, e, now, env.expiry)
    {
      a := EffectApprovals(e.run == "", false, "", false, "");
      for n := 0 to |log.rows|
        invariant a == ApprovalsOf(log.rows[..n], id, e, now, env.expiry)
      {
        assert log.rows[..n + 1][..n] == log.rows[..n];
        var r := log.rows[n];
        if r.ts < now - env.expiry || r.body.None? {
          continue;
        }
        var d := r.body.value;
        if d.cardId != CardId(id) || d.decision != APPROVE {
          continue;
        }
        if !CountsForCycle(d, e.hash, now, env.expiry) {
          continue;
        }
        if d.actor == e.owner {
          a := a.(ownerApproved := true, ownerBy := d.actor);
        }
        if d.actorIsOperator {
          a := a.(operatorApproved := true, operatorBy := d.actor);
        }
      }
      assert log.rows[..|log.rows|] == log.rows;
    }

    method RecordDecision(c: Caller, id: string, hash: string, action: string, io: Io) returns (ok: bool)
      modifies log
      ensures ok == !io.appendFails
      ensures log.rows == if ok then old(log.rows) + [Row(io.record, Some(Decision(c.user, c.operator, CardId(id), action, hash, Some(io.record))))]
                          else old(log.rows)
    {
      ok := log.Append(Row(io.record, Some(Decision(c.user, c.operator, CardId(id), action, hash, Some(io.record)))), io.appendFails);
    }

    /** The journal's denial first, its row after it. */
    method Deny(c: Caller, id: string, io: Io) returns (reply: Reply)
      requires id in journal.effects && journal.effects[id].state == Proposed
      modifies journal, log
      ensures (View(), reply) == DenyEffect(old(View()), c, id, io)
    {
      var hash := journal.effects[id].hash;
      var ok := journal.Deny(id, c.user, io);
      if !ok {
        return Refused(JournalRefused);
      }
      ok := RecordDecision(c, id, hash, DENY, io);
      reply := if ok then Applied(Failed) else Refused(AppendFailed);
    }

    /** A signature that completes nothing is recorded on its own; one that completes the conjunction is recorded once
        the journal has approved. */
    method Approve(c: Caller, id: string, io: Io) returns (reply: Reply)
      requires id in journal.effects && journal.effects[id].state == Proposed
      modifies journal, log
      ensures (View(), reply) == ApproveEffect(env, old(View()), c, id, io)
    {
      var e := journal.effects[id];
      var a := DeriveApprovals(id, e, io.scan);
      var already := (c.user == e.owner && a.ownerApproved) || (c.operator && a.operatorApproved);
      var ownerSigned := a.ownerApproved || c.user == e.owner;
      var operatorSigned := a.operatorApproved || c.operator;
      if !ownerSigned || (a.platformLevel && !operatorSigned) {
        if !already {
          var ok := RecordDecision(c, id, e.hash, APPROVE, io);
          if !ok {
            return Refused(AppendFailed);
          }
          if c.user == e.owner {
            a := a.(ownerApproved := true, ownerBy := c.user);
          }
          if c.operator {
            a := a.(operatorApproved := true, operatorBy := c.user);
          }
        }
        return Recorded(a);
      }
      var refused := journal.Approve(env, id, c.user, io);
      if refused.Some? {
        return Refused(refused.value);
      }
      if !already {
        var ok := RecordDecision(c, id, e.hash, APPROVE, io);
        if !ok {
          return Refused(AppendFailed);
        }
      }
      return Applied(Approved);
    }

    method AnswerEffect(c: Caller, id: string, body: Body, batched: bool, io: Io) returns (reply: Reply)
      modifies journal, log
      ensures (View(), reply) == CoApproval.AnswerEffect(env, old(View()), c, id, body, batched, io)
    {
      if id !in journal.effects {
        return Refused(NotFound);
      }
      var e := journal.effects[id];
      if !(c.operator && e.run == "") && e.owner != c.user {
        return Refused(Forbidden);
      }
      if !body.answer.Json? || (body.answer.action != APPROVE && body.answer.action != DENY) {
        return Refused(BadRequest);
      }
      if e.state != Proposed {
        return ResolvedEffect(e, body.answer.action);
      }
      if Blank(body.pinned) {
        return Refused(BadRequest);
      }
      if body.pinned != e.hash {
        return Refused(Stale);
      }
      if batched {
        return Refused(NotBatchable);
      }
      var refused := StepUp(io.pin);
      if refused.Some? {
        return Refused(refused.value);
      }
      if body.answer.action == DENY {
        reply := Deny(c, id, io);
      } else {
        reply := Approve(c, id, io);
      }
    }

    method AnswerAsk(c: Caller, id: string, body: Body, batched: bool, io: Io) returns (reply: Reply)
      modifies pending
      ensures (View(), reply) == CoApproval.AnswerAsk(old(View()), c, id, body, batched, io)
    {
      if id !in pending.asks {
        return Refused(NotFound);
      }
      var ask := pending.asks[id];
      if c.user != ask.owner {
        return Refused(Forbidden);
      }
      if ask.answered.Some? {
        return ResolvedAsk(ask.answered.value, body.answer);
      }
      if Blank(body.pinned) {
        return Refused(BadRequest);
      }
      if body.pinned != ask.hash {
        return Refused(Stale);
      }
      if batched && ask.tier != Low {
        return Refused(NotBatchable);
      }
      if ask.tier == High && StepUp(io.pin).Some? {
        return Refused(StepUp(io.pin).value);
      }
      if !body.answer.Json? {
        return Refused(BadRequest);
      }
      if !io.intakeOk {
        return Refused(IntakeRefused);
      }
      pending.asks := pending.asks[id := ask.(answered := Some(body.answer.canonical), status := "answered")];
      return AskAnswered;
    }

    /** The one path every answer takes, direct or in a batch. */
    method ApplyAnswer(c: Caller, route: string, body: Body, batched: bool, io: Io) returns (reply: Reply)
      modifies journal, log, pending
      ensures (View(), reply) == CoApproval.ApplyAnswer(env, old(View()), c, route, body, batched, io)
    {
      var cut := Cut(route);
      if cut.None? || cut.value.1 == "" {
        return Refused(BadRequest);
      }
      if cut.value.0 == "ask" {
        reply := AnswerAsk(c, cut.value.1, body, batched, io);
      } else if cut.value.0 == "effect" {
        reply := AnswerEffect(c, cut.value.1, body, batched, io);
      } else {
        reply := Refused(NotAnswerable);
      }
    }

    /** Refused outright when empty or over the bound; otherwise each item in turn. */
    method AnswerBatch(c: Caller, items: seq<Item>, ios: nat -> Io) returns (outcomes: Option<seq<Reply>>)
      modifies journal, log, pending
      ensures outcomes.None? <==> items == [] || |items| > BATCH_CAP
      ensures outcomes.None? ==> View() == old(View())
      ensures outcomes.Some? ==> (View(), outcomes.value) == Fold(env, old(View()), c, items, ios)
    {
      if items == [] || |items| > BATCH_CAP {
        return None;
      }
      var out: seq<Reply> := [];
      for n := 0 to |items|
        invariant (View(), out) == Fold(env, old(View()), c, items[..n], ios)
      {
        assert items[..n + 1][..n] == items[..n];
        var reply := ApplyAnswer(c, items[n].route, items[n].body, true, ios(n));
        out := out + [reply];
      }
      assert items[..|items|] == items;
      return Some(out);
    }
  }
}
