/** No landed commit is attributed to nobody: the trailers are checked before the proposal and pinned in its payload. */
module AcceptAttribution {
  import opened AcceptWorld
  import opened AcceptSafety
  import AcceptLookahead
  import AcceptSolo

  /** Rendered from an engine, a model and a vendor address, none of them empty. */
  ghost predicate Attributed(trailers: string) {
    exists engine, model, vendor :: && engine != "" && model != "" && vendor != ""
      && trailers == "Co-Authored-By: " + engine + " " + model + " <" + vendor + ">\nAssisted-by: " + engine + " (" + model + ") via Sinet"
  }

  lemma TrailersName(engine: string, model: string, vendor: string)
    requires engine != "" && model != "" && vendor != ""
    ensures Attributed(RenderTrailers(engine, model, vendor))
  {
    assert RenderTrailers(engine, model, vendor)
           == "Co-Authored-By: " + engine + " " + model + " <" + vendor + ">\nAssisted-by: " + engine + " (" + model + ") via Sinet";
  }

  predicate Checked(in_: Input) { in_.engine != "" && in_.model != "" && in_.vendorNoreply != "" }

  predicate CallChecked(call: Call) {
    call.pc.WillReadLookahead? || call.pc.WillReadHead? || call.pc.WillPropose? ==> Checked(call.input)
  }

  ghost predicate RowsAttributed(s: Store) {
    forall id :: id in s.effects ==> Attributed(s.effects[id].payload.trailers)
  }

  ghost predicate AttributionOk(w: World) {
    RowsAttributed(w.store) && forall cid :: cid in w.calls ==> CallChecked(w.calls[cid])
  }

  lemma ExecutionIsPastChecks(env: Env, s: Store, call: Call, io: Io)
    requires Runnable(s, call, io) && (call.pc.WillBegin? || AcceptLookahead.Engaged(call.pc))
    ensures CallChecked(call.(pc := Act(env, s, call, io).1))
  {
    match call.pc {
      case WillLand(spec) => AcceptSolo.LandRank(env, s, spec, io.fault);
      case _ =>
    }
  }

  lemma ActAttributes(env: Env, s: Store, call: Call, io: Io)
    requires Runnable(s, call, io) && RowsAttributed(s) && CallChecked(call)
    ensures var (s', pc') := Act(env, s, call, io); RowsAttributed(s') && CallChecked(call.(pc := pc'))
  {
    if call.pc.WillBegin? || AcceptLookahead.Engaged(call.pc) {
      AcceptSolo.ActKeepsPayloads(env, s, call, io);
      ExecutionIsPastChecks(env, s, call, io);
    } else if call.pc.WillPropose? {
      TrailersName(call.input.engine, call.input.model, call.input.vendorNoreply);
    }
  }

  lemma StepAttributes(env: Env, w: World, st: Step)
    requires AttributionOk(w)
    ensures AttributionOk(Apply(env, w, st))
  {
    if st.Go? && st.cid in w.calls && Runnable(w.store, w.calls[st.cid], st.io) {
      AcceptLookahead.ActingCall(env, w, st.cid, st.io);
      ActAttributes(env, w.store, w.calls[st.cid], st.io);
    }
  }

  lemma {:induction false} RunAttributes(env: Env, w0: World, steps: seq<Step>)
    requires Initial(w0)
    ensures AttributionOk(Run(env, w0, steps))
  {
    if steps != [] {
      RunAttributes(env, w0, steps[..|steps| - 1]);
      StepAttributes(env, Run(env, w0, steps[..|steps| - 1]), steps[|steps| - 1]);
    }
  }

  predicate EndsWith(s: string, suffix: string) { |suffix| <= |s| && s[|s| - |suffix|..] == suffix }

  /** The message: the subject or the stock one, the provenance if there is any, the trailers, a blank line between. */
  lemma MessageParts(subject: string, provenance: string, trailers: string)
    ensures var m := BuildMessage(subject, provenance, trailers);
            var head := if subject == "" then "chore: accept reviewed deliverable" else subject;
            && m == (if provenance == "" then head + "\n\n" + trailers + "\n" else head + "\n\n" + provenance + "\n\n" + trailers + "\n")
            && head + "\n" <= m && EndsWith(m, "\n" + trailers + "\n")
  {
    var head := (if subject == "" then "chore: accept reviewed deliverable" else subject) + "\n";
    var body := if provenance == "" then head else head + "\n" + provenance + "\n";
    var tail := "\n" + trailers + "\n";
    assert BuildMessage(subject, provenance, trailers) == body + tail;
    assert head <= body;
  }

  /** Over every run: each commit that landed on an official branch opens with its subject line, closes with its
      effect's pinned trailers, and those name an engine, a model and a vendor address. */
  lemma LandedCommitsAreAttributed(env: Env, w0: World, steps: seq<Step>, i: nat)
    requires Initial(w0) && i < |Run(env, w0, steps).store.landings|
    ensures var s := Run(env, w0, steps).store;
            var l := s.landings[i];
            && l.effect in s.effects && l.to.Squash?
            && Attributed(s.effects[l.effect].payload.trailers)
            && EndsWith(l.to.message, "\n" + s.effects[l.effect].payload.trailers + "\n")
            && l.to.user == s.effects[l.effect].user && l.to.parent == s.effects[l.effect].payload.expectSha
  {
    ReachableInv(env, w0, steps);
    RunAttributes(env, w0, steps);
    var s := Run(env, w0, steps).store;
    assert LandingOk(env, s, s.landings[i]);
    var p := s.effects[s.landings[i].effect].payload;
    MessageParts(p.subject, p.provenance, p.trailers);
  }
}
