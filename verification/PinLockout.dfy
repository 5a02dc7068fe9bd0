/**
 PIN verification with its lockout (internal/auth/auth.go): the counter and the lock as login and step-up share them,
 and how many wrong PINs a serialised caller can have checked.
 */
module PinLockout {
  import opened Wrappers

  const MAX_ATTEMPTS := 5
  const MINUTE: int := 60_000_000_000
  const LOCKOUT: int := 15 * MINUTE
  const MIN_PIN := 4
  const MAX_PIN := 128

  /** `pinHash` is "" while no PIN is set. */
  datatype User = User(operator: bool, pinHash: string, attempts: nat, lockedUntil: Option<int>)

  datatype Reason = UnknownUser | Locked | NoPin | BadPin(attempts: nat, locked: bool)

  datatype Event = AttemptFailed(user: string, kind: string, reason: Reason) | Proved(user: string, kind: string) | PinSet(user: string, actor: string)

  datatype Store = Store(users: map<string, User>, events: seq<Event>)

  /** `verify` is the argon2id check; None is a stored credential it cannot interpret. */
  datatype Env = Env(verify: (string, string) -> Option<bool>)

  datatype Outcome = Ok | InvalidCredentials | PinLocked | BadHash | Refused

  /** One call: a login or a step-up, which differ only in the event they write, or a PIN set. `read` is the clock when
      the credential is read, `write` when a failure is recorded. */
  datatype Call =
    | Attempt(user: string, kind: string, pin: string, read: int, write: int)
    | SetPin(actor: string, target: string, pin: string, hash: string, now: int)

  // ---- one attempt ----

  function Cleared(u: User): User { u.(attempts := 0, lockedUntil := None) }

  function Log(s: Store, e: Event): Store { s.(events := s.events + [e]) }

  function Put(s: Store, id: string, u: User): Store { s.(users := s.users[id := u]) }

  /** Counts the failure and engages the lock at the ceiling. */
  function RecordFailure(s: Store, id: string, kind: string, write: int): (Store, Outcome)
    requires id in s.users
  {
    var u := s.users[id];
    var n := u.attempts + 1;
    if n >= MAX_ATTEMPTS then
      (Log(Put(s, id, u.(attempts := n, lockedUntil := Some(write + LOCKOUT))), AttemptFailed(id, kind, BadPin(n, true))), PinLocked)
    else (Log(Put(s, id, u.(attempts := n)), AttemptFailed(id, kind, BadPin(n, false))), InvalidCredentials)
  }

  /** The lock is over: it is cleared with the counter that fed it before the PIN is looked at. */
  function Unlocked(s: Store, id: string): Store
    requires id in s.users
  {
    if s.users[id].lockedUntil.Some? then Put(s, id, Cleared(s.users[id])) else s
  }

  predicate LockHolds(u: User, now: int) { u.lockedUntil.Some? && now < u.lockedUntil.value }

  function Authenticate(env: Env, s: Store, id: string, kind: string, pin: string, read: int, write: int): (Store, Outcome) {
    if id !in s.users then (Log(s, AttemptFailed("platform", kind, UnknownUser)), InvalidCredentials)
    else if LockHolds(s.users[id], read) then (Log(s, AttemptFailed(id, kind, Locked)), PinLocked)
    else
      var t := Unlocked(s, id);
      if t.users[id].pinHash == "" then (Log(t, AttemptFailed(id, kind, NoPin)), InvalidCredentials)
      else match env.verify(pin, t.users[id].pinHash)
        case None => (t, BadHash)
        case Some(false) => RecordFailure(t, id, kind, write)
        case Some(true) => (t, Ok)
  }

  /** A proof resets the counter together with its event. */
  function TryPin(env: Env, s: Store, id: string, kind: string, pin: string, read: int, write: int): (Store, Outcome) {
    var (t, out) := Authenticate(env, s, id, kind, pin, read, write);
    if out == Ok && id in t.users then (Log(Put(t, id, Cleared(t.users[id])), Proved(id, kind)), Ok) else (t, out)
  }

  /** Long enough, short enough, no control character. */
  predicate Acceptable(pin: string) {
    MIN_PIN <= |pin| <= MAX_PIN && forall i :: 0 <= i < |pin| ==> !(pin[i] as int < 0x20 || 0x7f <= pin[i] as int < 0xa0)
  }

  function SetUserPin(s: Store, actor: string, target: string, pin: string, hash: string): (Store, Outcome) {
    if !Acceptable(pin) || target !in s.users then (s, Refused)
    else if actor != target && (actor !in s.users || !s.users[actor].operator) then (s, Refused)
    else (Log(Put(s, target, Cleared(s.users[target]).(pinHash := hash)), PinSet(target, actor)), Ok)
  }

  function Apply(env: Env, s: Store, c: Call): (Store, Outcome) {
    match c
    case Attempt(id, kind, pin, read, write) => TryPin(env, s, id, kind, pin, read, write)
    case SetPin(actor, target, pin, hash, _) => SetUserPin(s, actor, target, pin, hash)
  }

  function Run(env: Env, s: Store, calls: seq<Call>): Store {
    if calls == [] then s else Apply(env, Run(env, s, calls[..|calls| - 1]), calls[|calls| - 1]).0
  }

  // ---- the counter and the lock ----

  /** The counter stands at the ceiling exactly while a lock is on the row. */
  predicate UserOk(u: User) {
    u.attempts <= MAX_ATTEMPTS && (u.attempts == MAX_ATTEMPTS <==> u.lockedUntil.Some?)
  }

  ghost predicate Valid(s: Store) {
    forall id :: id in s.users ==> UserOk(s.users[id])
  }

  lemma CallKeeps(env: Env, s: Store, c: Call)
    requires Valid(s)
    ensures Valid(Apply(env, s, c).0) && Apply(env, s, c).0.users.Keys == s.users.Keys
  {
  }

  lemma {:induction false} RunKeeps(env: Env, s: Store, calls: seq<Call>)
    requires Valid(s)
    ensures Valid(Run(env, s, calls)) && Run(env, s, calls).users.Keys == s.users.Keys
  {
    if calls != [] {
      RunKeeps(env, s, calls[..|calls| - 1]);
      CallKeeps(env, Run(env, s, calls[..|calls| - 1]), calls[|calls| - 1]);
    }
  }

  // ---- one call, exactly ----

  /** No lock is on the row, or it is over. */
  predicate Free(u: User, now: int) {
    u.lockedUntil.None? || now >= u.lockedUntil.value
  }

  /** The call is `user`'s right PIN on a free row: the one attempt that may succeed. */
  predicate Proves(env: Env, s: Store, c: Call, user: string) {
    && c.Attempt? && c.user == user && user in s.users && Free(s.users[user], c.read)
    && s.users[user].pinHash != "" && env.verify(c.pin, s.users[user].pinHash) == Some(true)
  }

  /** An attempt succeeds exactly on a known user's free row with a PIN set that the PIN verifies against. Then the counter
      and the lock are gone and the proof is the one event. */
  lemma OkExactly(env: Env, s: Store, c: Call)
    requires c.Attempt?
    ensures var (s', out) := Apply(env, s, c);
            && (out == Ok <==> Proves(env, s, c, c.user))
            && (out == Ok ==>
                  && s'.users == s.users[c.user := s.users[c.user].(attempts := 0, lockedUntil := None)]
                  && s'.events == s.events + [Proved(c.user, c.kind)])
  {
  }

  /** Under a held lock nothing is looked at but the clock: whatever the PIN, the answer is locked, the row stays, and the
      attempt is on record. */
  lemma HeldLockLocks(env: Env, s: Store, c: Call)
    requires c.Attempt? && c.user in s.users && !Free(s.users[c.user], c.read)
    ensures Apply(env, s, c) == (Store(s.users, s.events + [AttemptFailed(c.user, c.kind, Locked)]), PinLocked)
  {
  }

  /** Every other attempt fails, each with its own answer and event, and touches no row but the caller's. */
  lemma OtherwiseFails(env: Env, s: Store, c: Call)
    requires c.Attempt? && !Proves(env, s, c, c.user) && (c.user in s.users ==> Free(s.users[c.user], c.read))
    ensures var (s', out) := Apply(env, s, c);
            && (c.user !in s.users ==>
                  out == InvalidCredentials && s'.users == s.users && s'.events == s.events + [AttemptFailed("platform", c.kind, UnknownUser)])
            && (c.user in s.users ==>
                  var u := s.users[c.user];
                  var spent := if u.lockedUntil.Some? then 0 else u.attempts;
                  && c.user in s'.users && s'.users == s.users[c.user := s'.users[c.user]]
                  && (u.pinHash == "" ==>
                        && out == InvalidCredentials && s'.events == s.events + [AttemptFailed(c.user, c.kind, NoPin)]
                        && s'.users[c.user] == u.(attempts := spent, lockedUntil := None))
                  && (u.pinHash != "" && env.verify(c.pin, u.pinHash).None? ==>
                        out == BadHash && s'.events == s.events && s'.users[c.user] == u.(attempts := spent, lockedUntil := None))
                  && (u.pinHash != "" && env.verify(c.pin, u.pinHash).Some? ==>
                        var n := spent + 1;
                        && out == (if n >= 5 then PinLocked else InvalidCredentials)
                        && s'.events == s.events + [AttemptFailed(c.user, c.kind, BadPin(n, n >= 5))]
                        && s'.users[c.user] == u.(attempts := n, lockedUntil := if n >= 5 then Some(c.write + 15 * MINUTE) else None)))
  {
  }

  /** A PIN is set exactly by its owner or an operator, on a known user, when it has 4 to 128 characters and no control
      character among them. Then the target's lockout is over, and nobody else's row changes. */
  lemma SetExactly(env: Env, s: Store, c: Call)
    requires c.SetPin?
    ensures var (s', out) := Apply(env, s, c);
            && (out == Ok <==>
                  && c.target in s.users && (c.actor == c.target || (c.actor in s.users && s.users[c.actor].operator))
                  && 4 <= |c.pin| <= 128
                  && forall i :: 0 <= i < |c.pin| ==> ' ' <= c.pin[i] < 127 as char || c.pin[i] >= 160 as char)
            && (out == Ok ==>
                  && s'.users == s.users[c.target := User(s.users[c.target].operator, c.hash, 0, None)]
                  && s'.events == s.events + [PinSet(c.target, c.actor)])
            && (out != Ok ==> out == Refused && s' == s)
  {
  }

  // ---- wrong PINs checked ----

  /** The call had a wrong PIN of `user` checked. */
  predicate WrongPin(env: Env, s: Store, c: Call, user: string) {
    && c.Attempt? && c.user == user && user in s.users && Free(s.users[user], c.read)
    && s.users[user].pinHash != "" && env.verify(c.pin, s.users[user].pinHash) == Some(false)
  }

  /** A wrong PIN is checked exactly when the failure is on record with its reason. */
  lemma WrongPinIsLogged(env: Env, s: Store, c: Call, user: string)
    requires user != "platform"
    ensures WrongPin(env, s, c, user) <==>
            exists kind, n, locked :: Apply(env, s, c).0.events == s.events + [AttemptFailed(user, kind, BadPin(n, locked))]
  {
    var events := Apply(env, s, c).0.events;
    if WrongPin(env, s, c, user) {
      var n := Unlocked(s, user).users[user].attempts + 1;
      assert events == s.events + [AttemptFailed(user, c.kind, BadPin(n, n >= MAX_ATTEMPTS))];
    }
    if kind, n, locked :| events == s.events + [AttemptFailed(user, kind, BadPin(n, locked))] {
      assert events[|events| - 1] == AttemptFailed(user, kind, BadPin(n, locked));
    }
  }

  /** When the wrong PINs of `user` were checked during `calls`. */
  function WrongTimes(env: Env, s: Store, calls: seq<Call>, user: string): seq<int> {
    if calls == [] then []
    else
      var front, c := calls[..|calls| - 1], calls[|calls| - 1];
      WrongTimes(env, s, front, user) + if WrongPin(env, Run(env, s, front), c, user) then [c.read] else []
  }

  /** Neither a proof nor a new PIN of `user`. */
  predicate Quiet(env: Env, s: Store, c: Call, user: string) {
    !Proves(env, s, c, user) && (c.SetPin? ==> c.target != user)
  }

  ghost predicate Undisturbed(env: Env, s: Store, calls: seq<Call>, user: string) {
    forall k :: 0 <= k < |calls| ==> Quiet(env, Run(env, s, calls[..k]), calls[k], user)
  }

  function First(c: Call): int { if c.Attempt? then c.read else c.now }
  function Last(c: Call): int { if c.Attempt? then c.write else c.now }

  /** Serialised calls on a clock that never goes back. */
  ghost predicate Clocked(calls: seq<Call>) {
    && (forall k :: 0 <= k < |calls| ==> First(calls[k]) <= Last(calls[k]))
    && (forall i, j :: 0 <= i < j < |calls| ==> Last(calls[i]) <= First(calls[j]))
  }

  /** What the row and the clock say about the wrong PINs so far: a lock outlives the last of them by the lockout; an
      unlocked counter of `k` means the wrong PIN before the last `k` had its lock, which is over. */
  predicate Paced(u: User, times: seq<int>, now: int) {
    var n := |times|;
    && Spaced(times, now)
    && (match u.lockedUntil
        case Some(until) => n > 0 ==> until >= times[n - 1] + LOCKOUT
        case None => n > u.attempts ==> now >= times[n - 1 - u.attempts] + LOCKOUT)
  }

  lemma CallPaces(env: Env, s: Store, c: Call, user: string, times: seq<int>, now: int)
    requires Valid(s) && user in s.users && Paced(s.users[user], times, now) && Quiet(env, s, c, user)
    requires now <= First(c) <= Last(c)
    ensures var times' := times + if WrongPin(env, s, c, user) then [c.read] else [];
            Paced(Apply(env, s, c).0.users[user], times', Last(c))
  {
    var u := s.users[user];
    if WrongPin(env, s, c, user) {
      WrongRow(env, s, c, user);
      WrongPinPaces(u, c.read, c.write, times, now);
    } else {
      QuietRow(env, s, c, user);
      QuietPaces(u, Apply(env, s, c).0.users[user], times, now, First(c), Last(c));
      assert times + [] == times;
    }
  }

  lemma QuietPaces(u: User, u': User, times: seq<int>, now: int, first: int, last: int)
    requires UserOk(u) && Paced(u, times, now) && now <= first <= last
    requires u' == u || (u.lockedUntil.Some? && first >= u.lockedUntil.value && u' == Cleared(u))
    ensures Paced(u', times, last)
  {
  }

  lemma WrongRow(env: Env, s: Store, c: Call, user: string)
    requires WrongPin(env, s, c, user)
    ensures var u := s.users[user];
            var k := if u.lockedUntil.Some? then 0 else u.attempts;
            Apply(env, s, c).0.users[user]
            == u.(attempts := k + 1, lockedUntil := if k + 1 >= MAX_ATTEMPTS then Some(c.write + LOCKOUT) else None)
  {
  }

  lemma QuietRow(env: Env, s: Store, c: Call, user: string)
    requires user in s.users && Quiet(env, s, c, user) && !WrongPin(env, s, c, user)
    ensures var u := s.users[user];
            && user in Apply(env, s, c).0.users
            && (Apply(env, s, c).0.users[user] == u
                || (u.lockedUntil.Some? && First(c) >= u.lockedUntil.value && Apply(env, s, c).0.users[user] == Cleared(u)))
  {
  }

  lemma WrongPinPaces(u: User, read: int, write: int, times: seq<int>, now: int)
    requires UserOk(u) && Paced(u, times, now) && now <= read <= write && !LockHolds(u, read)
    ensures var k := if u.lockedUntil.Some? then 0 else u.attempts;
            Paced(u.(attempts := k + 1, lockedUntil := if k + 1 >= MAX_ATTEMPTS then Some(write + LOCKOUT) else None),
                  times + [read], write)
  {
    var n := |times|;
    var k := if u.lockedUntil.Some? then 0 else u.attempts;
    assert n > k ==> read >= times[n - 1 - k] + LOCKOUT;
    SpacedExtends(times, now, read, k);
    var times' := times + [read];
    assert |times'| > k + 1 ==> times'[|times'| - 1 - (k + 1)] == times[n - 1 - k];
  }

  /** The wrong PINs so far: in time order, none later than `now`, and any six of them spread over a lockout. */
  predicate Spaced(times: seq<int>, now: int) {
    && (forall i :: 0 <= i < |times| ==> times[i] <= now)
    && (forall i, j :: 0 <= i < j < |times| ==> times[i] <= times[j])
    && (forall i :: 0 <= i && i + MAX_ATTEMPTS < |times| ==> times[i + MAX_ATTEMPTS] >= times[i] + LOCKOUT)
  }

  lemma SpacedExtends(times: seq<int>, now: int, read: int, k: nat)
    requires Spaced(times, now) && now <= read && k < MAX_ATTEMPTS
    requires |times| > k ==> read >= times[|times| - 1 - k] + LOCKOUT
    ensures Spaced(times + [read], read)
  {
    var n, times' := |times|, times + [read];
    if n >= MAX_ATTEMPTS && k + 1 < MAX_ATTEMPTS {
      assert times[n - MAX_ATTEMPTS] <= times[n - 1 - k];
    }
    forall i | 0 <= i && i + MAX_ATTEMPTS < |times'|
      ensures times'[i + MAX_ATTEMPTS] >= times'[i] + LOCKOUT
    {
      if i + MAX_ATTEMPTS == n { assert times'[i] == times[n - MAX_ATTEMPTS]; }
    }
  }

  lemma UndisturbedFront(env: Env, s: Store, calls: seq<Call>, user: string)
    requires calls != [] && Undisturbed(env, s, calls, user)
    ensures Undisturbed(env, s, calls[..|calls| - 1], user)
    ensures Quiet(env, Run(env, s, calls[..|calls| - 1]), calls[|calls| - 1], user)
  {
    var front := calls[..|calls| - 1];
    forall k | 0 <= k < |front| ensures Quiet(env, Run(env, s, front[..k]), front[k], user) {
      assert front[..k] == calls[..k];
    }
  }

  lemma {:induction false} RunPaces(env: Env, s: Store, calls: seq<Call>, user: string, from: int)
    requires Valid(s) && user in s.users && Clocked(calls) && Undisturbed(env, s, calls, user)
    requires calls != [] ==> from <= First(calls[0])
    ensures user in Run(env, s, calls).users
    ensures Paced(Run(env, s, calls).users[user], WrongTimes(env, s, calls, user), if calls == [] then from else Last(calls[|calls| - 1]))
  {
    RunKeeps(env, s, calls);
    if calls != [] {
      var n := |calls| - 1;
      var front := calls[..n];
      UndisturbedFront(env, s, calls, user);
      RunPaces(env, s, front, user, from);
      RunKeeps(env, s, front);
      CallPaces(env, Run(env, s, front), calls[n], user, WrongTimes(env, s, front, user),
                if front == [] then from else Last(front[|front| - 1]));
    }
  }

  lemma {:induction false} Spread(times: seq<int>, q: nat)
    requires forall i :: 0 <= i && i + MAX_ATTEMPTS < |times| ==> times[i + MAX_ATTEMPTS] >= times[i] + LOCKOUT
    requires MAX_ATTEMPTS * q < |times|
    ensures times[MAX_ATTEMPTS * q] >= times[0] + q * LOCKOUT
  {
    if q > 0 { Spread(times, q - 1); }
  }

  lemma PacedBound(u: User, times: seq<int>, now: int, span: nat)
    requires Paced(u, times, now) && (times != [] ==> times[|times| - 1] - times[0] <= span)
    ensures |times| <= MAX_ATTEMPTS * (span / LOCKOUT + 1)
  {
    var q := span / LOCKOUT + 1;
    assert q * LOCKOUT > span;
    assert forall i :: 0 <= i < |times| ==> times[i] <= times[|times| - 1];
    if |times| > MAX_ATTEMPTS * q {
      Spread(times, q);
    }
  }

  /** The rate bound: whatever went before, serialised calls within `span` with no proof and no new PIN of the user
      have at most five wrong PINs checked per started quarter of an hour, login and step-up together. */
  lemma LockoutRate(env: Env, s0: Store, before: seq<Call>, calls: seq<Call>, user: string, span: nat)
    requires Valid(s0) && user in s0.users
    requires var s := Run(env, s0, before); Undisturbed(env, s, calls, user)
    requires Clocked(calls) && (calls != [] ==> First(calls[|calls| - 1]) - First(calls[0]) <= span)
    ensures |WrongTimes(env, Run(env, s0, before), calls, user)| <= MAX_ATTEMPTS * (span / LOCKOUT + 1)
  {
    RunKeeps(env, s0, before);
    RateFrom(env, Run(env, s0, before), calls, user, span);
  }

  lemma RateFrom(env: Env, s: Store, calls: seq<Call>, user: string, span: nat)
    requires Valid(s) && user in s.users && Undisturbed(env, s, calls, user)
    requires Clocked(calls) && (calls != [] ==> First(calls[|calls| - 1]) - First(calls[0]) <= span)
    ensures |WrongTimes(env, s, calls, user)| <= MAX_ATTEMPTS * (span / LOCKOUT + 1)
  {
    var times := WrongTimes(env, s, calls, user);
    if calls != [] {
      RunPaces(env, s, calls, user, First(calls[0]));
      TimesInside(env, s, calls, user);
      var now := Last(calls[|calls| - 1]);
      assert times != [] ==> times[|times| - 1] - times[0] <= span;
      PacedBound(Run(env, s, calls).users[user], times, now, span);
    }
  }

  lemma {:induction false} TimesInside(env: Env, s: Store, calls: seq<Call>, user: string)
    requires Clocked(calls) && calls != []
    ensures forall i :: 0 <= i < |WrongTimes(env, s, calls, user)| ==>
              First(calls[0]) <= WrongTimes(env, s, calls, user)[i] <= First(calls[|calls| - 1])
  {
    var n := |calls| - 1;
    if n > 0 { TimesInside(env, s, calls[..n], user); }
  }

  // ---- the bound is attained ----

  function Burst(user: string, pin: string, at: int, n: nat): seq<Call> {
    seq(n, _ => Attempt(user, "login", pin, at, at))
  }

  /** Five wrong PINs at the start of every lockout period. */
  function Bursts(user: string, pin: string, q: nat): seq<Call> {
    if q == 0 then Burst(user, pin, 0, MAX_ATTEMPTS) else Bursts(user, pin, q - 1) + Burst(user, pin, q * LOCKOUT, MAX_ATTEMPTS)
  }

  predicate Guessable(env: Env, s: Store, user: string, pin: string) {
    user in s.users && s.users[user].pinHash != "" && env.verify(pin, s.users[user].pinHash) == Some(false)
  }

  lemma {:induction false} BurstCounts(env: Env, s: Store, user: string, pin: string, at: int, n: nat)
    requires Guessable(env, s, user, pin) && n <= MAX_ATTEMPTS && !LockHolds(s.users[user], at)
    requires s.users[user].lockedUntil.Some? || s.users[user].attempts == 0
    ensures var calls := Burst(user, pin, at, n);
            && |WrongTimes(env, s, calls, user)| == n
            && Guessable(env, Run(env, s, calls), user, pin)
            && (0 < n ==> Run(env, s, calls).users[user].attempts == n)
            && Run(env, s, calls).users[user].lockedUntil
               == (if n == 0 then s.users[user].lockedUntil else if n < MAX_ATTEMPTS then None else Some(at + LOCKOUT))
            && (n == 0 ==> Run(env, s, calls) == s)
  {
    if n > 0 {
      BurstCounts(env, s, user, pin, at, n - 1);
      assert Burst(user, pin, at, n)[..n - 1] == Burst(user, pin, at, n - 1);
      WrongRow(env, Run(env, s, Burst(user, pin, at, n - 1)), Attempt(user, "login", pin, at, at), user);
    }
  }

  lemma {:induction false} RunConcat(env: Env, s: Store, a: seq<Call>, b: seq<Call>)
    ensures Run(env, s, a + b) == Run(env, Run(env, s, a), b)
  {
    if b == [] {
      assert a + b == a;
    } else {
      RunConcat(env, s, a, b[..|b| - 1]);
      assert (a + b)[..|a + b| - 1] == a + b[..|b| - 1];
    }
  }

  lemma {:induction false} WrongTimesConcat(env: Env, s: Store, a: seq<Call>, b: seq<Call>, user: string)
    ensures WrongTimes(env, s, a + b, user) == WrongTimes(env, s, a, user) + WrongTimes(env, Run(env, s, a), b, user)
  {
    var times := WrongTimes(env, s, a, user);
    if b == [] {
      assert a + b == a;
      assert times + [] == times;
    } else {
      var front, c := b[..|b| - 1], b[|b| - 1];
      WrongTimesConcat(env, s, a, front, user);
      RunConcat(env, s, a, front);
      assert (a + b)[..|a + b| - 1] == a + front && (a + b)[|a + b| - 1] == c;
      var more := WrongTimes(env, Run(env, s, a), front, user);
      var last := if WrongPin(env, Run(env, s, a + front), c, user) then [c.read] else [];
      assert times + more + last == times + (more + last);
    }
  }

  /** The bound of LockoutRate is reached: `q` lockouts long, bursts of five get 5 * (q + 1) wrong PINs checked. */
  lemma {:induction false} RateAttained(env: Env, s: Store, user: string, pin: string, q: nat)
    requires Guessable(env, s, user, pin) && s.users[user].lockedUntil.None? && s.users[user].attempts == 0
    ensures var calls := Bursts(user, pin, q);
            && |WrongTimes(env, s, calls, user)| == MAX_ATTEMPTS * (q + 1)
            && Guessable(env, Run(env, s, calls), user, pin)
            && Run(env, s, calls).users[user].lockedUntil == Some(q * LOCKOUT + LOCKOUT)
  {
    if q == 0 {
      BurstCounts(env, s, user, pin, 0, MAX_ATTEMPTS);
    } else {
      RateAttained(env, s, user, pin, q - 1);
      var front := Bursts(user, pin, q - 1);
      BurstCounts(env, Run(env, s, front), user, pin, q * LOCKOUT, MAX_ATTEMPTS);
      RunConcat(env, s, front, Burst(user, pin, q * LOCKOUT, MAX_ATTEMPTS));
      WrongTimesConcat(env, s, front, Burst(user, pin, q * LOCKOUT, MAX_ATTEMPTS), user);
    }
  }

  /** A lock is set exactly by the call that brings the counter to the ceiling. */
  lemma LockSetAtCeiling(env: Env, s: Store, c: Call, user: string)
    requires Valid(s) && user in s.users
    ensures var u, u' := s.users[user], Apply(env, s, c).0.users[user];
            && (u'.lockedUntil.Some? && u'.lockedUntil != u.lockedUntil ==>
                  WrongPin(env, s, c, user) && u'.attempts == MAX_ATTEMPTS && u'.lockedUntil == Some(c.write + LOCKOUT))
            && (WrongPin(env, s, c, user) && u.lockedUntil.None? && u.attempts == MAX_ATTEMPTS - 1 ==>
                  u'.lockedUntil == Some(c.write + LOCKOUT))
            && (WrongPin(env, s, c, user) ==> (u'.lockedUntil.Some? <==> u'.attempts == MAX_ATTEMPTS))
  {
  }

  // ---- the store's methods ----

  class CredentialStore {
    const env: Env
    var users: map<string, User>
    var events: seq<Event>

    constructor (env: Env, users: map<string, User>)
      ensures this.env == env && View() == Store(users, [])
    {
      this.env, this.users, this.events := env, users, [];
    }

    function View(): Store
      reads this
    {
      Store(users, events)
    }

    method AuthenticatePIN(id: string, kind: string, pin: string, read: int, write: int) returns (out: Outcome)
      modifies this
      ensures (View(), out) == Authenticate(env, old(View()), id, kind, pin, read, write)
    {
      if id !in users {
        events := events + [AttemptFailed("platform", kind, UnknownUser)];
        return InvalidCredentials;
      }
      if users[id].lockedUntil.Some? {
        if read < users[id].lockedUntil.value {
          events := events + [AttemptFailed(id, kind, Locked)];
          return PinLocked;
        }
        users := users[id := users[id].(attempts := 0, lockedUntil := None)];
      }
      if users[id].pinHash == "" {
        events := events + [AttemptFailed(id, kind, NoPin)];
        return InvalidCredentials;
      }
      var ok := env.verify(pin, users[id].pinHash);
      if ok.None? {
        return BadHash;
      }
      if !ok.value {
        out := RecordPINFailure(id, kind, write);
        return;
      }
      return Ok;
    }

    method RecordPINFailure(id: string, kind: string, write: int) returns (out: Outcome)
      requires id in users
      modifies this
      ensures (View(), out) == RecordFailure(old(View()), id, kind, write)
    {
      users := users[id := users[id].(attempts := users[id].attempts + 1)];
      var n := users[id].attempts;
      var locked := n >= MAX_ATTEMPTS;
      if locked {
        users := users[id := users[id].(lockedUntil := Some(write + LOCKOUT))];
      }
      assert users == old(users)[id := users[id]];
      events := events + [AttemptFailed(id, kind, BadPin(n, locked))];
      out := if locked then PinLocked else InvalidCredentials;
    }

    method ResetPINCounter(id: string)
      requires id in users
      modifies this`users
      ensures users == old(users)[id := Cleared(old(users)[id])]
    {
      users := users[id := users[id].(attempts := 0, lockedUntil := None)];
    }

    /** Login and step-up: authenticate, then reset and log the proof. */
    method VerifyPIN(id: string, kind: string, pin: string, read: int, write: int) returns (out: Outcome)
      modifies this
      ensures (View(), out) == TryPin(env, old(View()), id, kind, pin, read, write)
    {
      out := AuthenticatePIN(id, kind, pin, read, write);
      if out == Ok {
        ResetPINCounter(id);
        events := events + [Proved(id, kind)];
      }
    }

    method SetPIN(actor: string, target: string, pin: string, hash: string) returns (out: Outcome)
      modifies this
      ensures (View(), out) == SetUserPin(old(View()), actor, target, pin, hash)
    {
      if !Acceptable(pin) || target !in users {
        return Refused;
      }
      if actor != target {
        if actor !in users || !users[actor].operator {
          return Refused;
        }
      }
      users := users[target := users[target].(pinHash := hash, attempts := 0, lockedUntil := None)];
      events := events + [PinSet(target, actor)];
      return Ok;
    }
  }
}
