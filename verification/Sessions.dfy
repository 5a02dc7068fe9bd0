/**
 The session table (internal/auth/session.go, internal/auth/auth.go): minted with a sweep, deleted on sight once
 expired, revoked by logout and by a PIN change; and the history reading it equals.
 */
module Sessions {
  import opened Wrappers

  const DAY: int := 86_400_000_000_000
  const TTL: int := 30 * DAY

  /** The stored key of a token; a digest collides with no other. */
  datatype TokenId = Sha256(token: string)

  datatype Session = Session(user: string, expires: int)

  type Table = map<TokenId, Session>

  /** `SetPin` is a PIN change that went through; `keep` is "" or the token that stays. */
  datatype Call =
    | Mint(user: string, token: string, now: int)
    | Validate(token: string, now: int)
    | Logout(token: string, now: int)
    | SetPin(target: string, keep: string, now: int)

  // ---- one call ----

  function Swept(t: Table, now: int): Table {
    map id | id in t && now < t[id].expires :: t[id]
  }

  /** The user, and the table without the row if it is seen expired. */
  function Resolve(t: Table, token: string, now: int): (Option<string>, Table) {
    var id := Sha256(token);
    if token == "" || id !in t then (None, t)
    else if now < t[id].expires then (Some(t[id].user), t)
    else (None, t - {id})
  }

  function Revoked(t: Table, target: string, keep: string): Table {
    map id | id in t && (t[id].user != target || (keep != "" && id == Sha256(keep))) :: t[id]
  }

  function Apply(t: Table, c: Call): Table {
    match c
    case Mint(user, token, now) => Swept(t, now)[Sha256(token) := Session(user, now + TTL)]
    case Validate(token, now) => Resolve(t, token, now).1
    case Logout(token, now) =>
      var (user, t') := Resolve(t, token, now);
      if user.Some? then t' - {Sha256(token)} else t'
    case SetPin(target, keep, _) => Revoked(t, target, keep)
  }

  function Run(calls: seq<Call>): Table {
    if calls == [] then map[] else Apply(Run(calls[..|calls| - 1]), calls[|calls| - 1])
  }

  // ---- one call, exactly ----

  /** What each call leaves in the table. After a mint no expired row is left, and the new token is there for its user for
      thirty days; a PIN change leaves exactly the rows of others and the kept token's; an empty token is nobody's. */
  lemma CallLeaves(t: Table, c: Call, id: TokenId)
    ensures c.Mint? ==>
              (id in Apply(t, c) <==> id == Sha256(c.token) || (id in t && t[id].expires > c.now))
              && Apply(t, c)[Sha256(c.token)] == Session(c.user, c.now + 30 * 24 * 3600 * 1_000_000_000)
    ensures c.SetPin? ==> (id in Apply(t, c) <==> id in t && (t[id].user == c.target ==> c.keep != "" && id == Sha256(c.keep)))
    ensures c.Validate? ==> (id in Apply(t, c) <==> id in t && (c.token != "" && id == Sha256(c.token) ==> t[id].expires > c.now))
    ensures c.Logout? ==> (id in Apply(t, c) <==> id in t && (c.token != "" ==> id != Sha256(c.token)))
    ensures id in Apply(t, c) && !(c.Mint? && id == Sha256(c.token)) ==> Apply(t, c)[id] == t[id]
  {
  }

  /** Whose a token is: its row's user while the row is there and not expired. */
  lemma ResolvesExactly(t: Table, token: string, user: string, now: int)
    ensures Resolve(t, token, now).0 == Some(user)
            <==> token != "" && Sha256(token) in t && t[Sha256(token)].user == user && now < t[Sha256(token)].expires
  {
  }

  // ---- the history reading ----

  /** Tokens are random: never empty, never drawn twice. The clock never goes back. */
  ghost predicate Orderly(calls: seq<Call>) {
    && (forall k :: 0 <= k < |calls| && calls[k].Mint? ==> calls[k].token != "")
    && (forall i, j :: 0 <= i < j < |calls| && calls[i].Mint? && calls[j].Mint? ==> calls[i].token != calls[j].token)
    && (forall i, j :: 0 <= i < j < |calls| ==> calls[i].now <= calls[j].now)
  }

  predicate Revokes(c: Call, token: string, user: string) {
    (c.Logout? && c.token == token) || (c.SetPin? && c.target == user && c.keep != token)
  }

  /** Call `k` minted the token for `user`, and no later call revoked it. */
  ghost predicate MintStands(calls: seq<Call>, k: nat, token: string, user: string)
    requires k < |calls|
  {
    && calls[k].Mint? && calls[k].token == token && calls[k].user == user
    && (forall j :: k < j < |calls| ==> !Revokes(calls[j], token, user))
  }

  /** The token was minted for the user less than a session's life ago, and nothing has revoked it since. */
  ghost predicate Live(calls: seq<Call>, token: string, user: string, now: int) {
    exists k :: 0 <= k < |calls| && MintStands(calls, k, token, user) && now < calls[k].now + 30 * 24 * 3600 * 1_000_000_000
  }

  /** Every row is a standing mint, and every standing mint is a row or over. */
  ghost predicate Agrees(t: Table, calls: seq<Call>) {
    && (forall id :: id in t ==> exists k :: 0 <= k < |calls| && MintStands(calls, k, id.token, t[id].user) && t[id].expires == calls[k].now + TTL)
    && (forall k :: 0 <= k < |calls| && calls[k].Mint? && MintStands(calls, k, calls[k].token, calls[k].user) ==>
          Sha256(calls[k].token) in t || calls[k].now + TTL <= calls[|calls| - 1].now)
  }

  lemma StandsBefore(calls: seq<Call>, c: Call, k: nat, token: string, user: string)
    requires k < |calls|
    ensures MintStands(calls + [c], k, token, user) <==> MintStands(calls, k, token, user) && !Revokes(c, token, user)
  {
    var all := calls + [c];
    assert all[|calls|] == c;
    forall j | 0 <= j < |calls| ensures all[j] == calls[j] {
    }
  }

  /** A row of the new table: the one just minted, or an old row whose mint the call leaves standing. */
  lemma RowsKept(t: Table, c: Call, id: TokenId)
    requires id in Apply(t, c)
    ensures (c.Mint? && id == Sha256(c.token) && Apply(t, c)[id] == Session(c.user, c.now + TTL))
            || (id in t && Apply(t, c)[id] == t[id] && (c.Mint? ==> c.token != id.token)
                && (c.Logout? && id.token != "" ==> c.token != id.token)
                && (c.SetPin? && id.token != "" ==> !Revokes(c, id.token, t[id].user)))
  {
  }

  /** A row that goes was expired or revoked. */
  lemma RowsLost(t: Table, c: Call, id: TokenId)
    requires id in t && id !in Apply(t, c)
    ensures t[id].expires <= c.now || (id.token != "" ==> Revokes(c, id.token, t[id].user))
  {
  }

  lemma CallAgrees(t: Table, calls: seq<Call>, c: Call)
    requires Agrees(t, calls) && Orderly(calls + [c])
    ensures Agrees(Apply(t, c), calls + [c])
  {
    var all, t' := calls + [c], Apply(t, c);
    var n := |calls|;
    assert all[n] == c && forall j :: 0 <= j < n ==> all[j] == calls[j];
    forall id | id in t'
      ensures exists k :: 0 <= k < |all| && MintStands(all, k, id.token, t'[id].user) && t'[id].expires == all[k].now + TTL
    {
      RowsKept(t, c, id);
      if c.Mint? && id == Sha256(c.token) {
        assert MintStands(all, n, id.token, t'[id].user);
      } else {
        var k :| 0 <= k < n && MintStands(calls, k, id.token, t[id].user) && t[id].expires == calls[k].now + TTL;
        assert id.token != "" by { assert all[k].Mint?; }
        StandsBefore(calls, c, k, id.token, t[id].user);
        assert MintStands(all, k, id.token, t'[id].user);
      }
    }
    forall k | 0 <= k < |all| && all[k].Mint? && MintStands(all, k, all[k].token, all[k].user) && Sha256(all[k].token) !in t'
      ensures all[k].now + TTL <= all[|all| - 1].now
    {
      MintOver(t, calls, c, k);
    }
  }

  lemma MintOver(t: Table, calls: seq<Call>, c: Call, k: nat)
    requires Agrees(t, calls) && Orderly(calls + [c])
    requires var all := calls + [c];
             k < |all| && all[k].Mint? && MintStands(all, k, all[k].token, all[k].user) && Sha256(all[k].token) !in Apply(t, c)
    ensures (calls + [c])[k].now + TTL <= c.now
  {
    var all, n := calls + [c], |calls|;
    assert all[n] == c && forall j :: 0 <= j < n ==> all[j] == calls[j];
    assert k < n;
    var id := Sha256(calls[k].token);
    StandsBefore(calls, c, k, calls[k].token, calls[k].user);
    if id in t {
      var m :| 0 <= m < n && MintStands(calls, m, id.token, t[id].user) && t[id].expires == calls[m].now + TTL;
      SameMint(all, k, m);
      RowsLost(t, c, id);
    } else {
      assert calls[|calls| - 1].now <= c.now by { assert all[n - 1].now <= all[n].now; }
    }
  }

  lemma SameMint(calls: seq<Call>, k: nat, m: nat)
    requires Orderly(calls) && k < |calls| && m < |calls|
    requires calls[k].Mint? && calls[m].Mint? && calls[k].token == calls[m].token
    ensures k == m
  {
  }

  lemma {:induction false} RunAgrees(calls: seq<Call>)
    requires Orderly(calls)
    ensures Agrees(Run(calls), calls)
  {
    if calls != [] {
      var front, c := calls[..|calls| - 1], calls[|calls| - 1];
      assert calls == front + [c];
      RunAgrees(front);
      CallAgrees(Run(front), front, c);
    }
  }

  /** Lazy sweeping cannot be seen: whatever sweeps and deletions on sight happened in between, a token resolves to a
      user exactly when it was minted for that user less than 30 days ago and neither logged out since nor revoked by a
      PIN change that did not keep it. */
  lemma SweepingIsInvisible(calls: seq<Call>, token: string, user: string, now: int)
    requires Orderly(calls) && (calls != [] ==> calls[|calls| - 1].now <= now)
    ensures Resolve(Run(calls), token, now).0 == Some(user) <==> Live(calls, token, user, now)
  {
    RunAgrees(calls);
    var t, id := Run(calls), Sha256(token);
    if Resolve(t, token, now).0 == Some(user) {
      var k :| 0 <= k < |calls| && MintStands(calls, k, id.token, t[id].user) && t[id].expires == calls[k].now + TTL;
      assert Live(calls, token, user, now);
    }
    if Live(calls, token, user, now) {
      var k :| 0 <= k < |calls| && MintStands(calls, k, token, user) && now < calls[k].now + TTL;
      assert token != "" && id in t;
      var m :| 0 <= m < |calls| && MintStands(calls, m, id.token, t[id].user) && t[id].expires == calls[m].now + TTL;
      SameMint(calls, k, m);
    }
  }

  /** Validating is not an act: no later answer depends on it. */
  lemma ValidatingLeavesNoTrace(calls: seq<Call>, token: string, at: int, other: string, user: string, now: int)
    requires Orderly(calls + [Validate(token, at)]) && at <= now
    ensures Resolve(Run(calls + [Validate(token, at)]), other, now).0 == Some(user) <==> Resolve(Run(calls), other, now).0 == Some(user)
  {
    var c := Validate(token, at);
    var all := calls + [c];
    assert all[|calls|] == c && forall j :: 0 <= j < |calls| ==> all[j] == calls[j];
    SweepingIsInvisible(all, other, user, now);
    SweepingIsInvisible(calls, other, user, now);
    forall k | 0 <= k < |calls| ensures MintStands(all, k, other, user) <==> MintStands(calls, k, other, user) {
      StandsBefore(calls, c, k, other, user);
    }
  }

  // ---- the store ----

  class SessionStore {
    var sessions: Table

    constructor ()
      ensures sessions == map[]
    {
      sessions := map[];
    }

    method CollectExpired(now: int) returns (expired: seq<TokenId>)
      ensures forall id :: id in expired <==> id in sessions && sessions[id].expires <= now
    {
      expired := [];
      var left := sessions.Keys;
      while left != {}
        invariant left <= sessions.Keys
        invariant forall id :: id in expired <==> id in sessions && id !in left && sessions[id].expires <= now
        decreases |left|
      {
        var id :| id in left;
        left := left - {id};
        if now >= sessions[id].expires {
          expired := expired + [id];
        }
      }
    }

    /** Collects the expired ids, then deletes them. */
    method SweepExpired(now: int)
      modifies this
      ensures sessions == Swept(old(sessions), now)
    {
      var expired := CollectExpired(now);
      for n := 0 to |expired|
        invariant forall id :: id in sessions <==> id in old(sessions) && id !in expired[..n]
        invariant forall id :: id in sessions ==> sessions[id] == old(sessions)[id]
      {
        assert expired[..n + 1] == expired[..n] + [expired[n]];
        sessions := sessions - {expired[n]};
      }
      assert expired[..|expired|] == expired;
    }

    method MintSession(user: string, token: string, now: int)
      modifies this
      ensures sessions == Apply(old(sessions), Mint(user, token, now))
    {
      SweepExpired(now);
      sessions := sessions[Sha256(token) := Session(user, now + TTL)];
    }

    method ValidateToken(token: string, now: int) returns (user: Option<string>)
      modifies this
      ensures (user, sessions) == Resolve(old(sessions), token, now)
    {
      if token == "" || Sha256(token) !in sessions {
        return None;
      }
      var s := sessions[Sha256(token)];
      if now >= s.expires {
        sessions := sessions - {Sha256(token)};
        return None;
      }
      return Some(s.user);
    }

    method LogoutToken(token: string, now: int) returns (ok: bool)
      modifies this
      ensures sessions == Apply(old(sessions), Logout(token, now))
      ensures ok == Resolve(old(sessions), token, now).0.Some?
    {
      var user := ValidateToken(token, now);
      ok := user.Some?;
      if ok {
        sessions := sessions - {Sha256(token)};
      }
    }

    method RevokeOnPinSet(target: string, keep: string, ghost now: int)
      modifies this
      ensures sessions == Apply(old(sessions), SetPin(target, keep, now))
    {
      sessions := map id | id in sessions && (sessions[id].user != target || (keep != "" && id == Sha256(keep))) :: sessions[id];
    }
  }
}
