/** The stored PIN credential (internal/auth/pin.go): its printer and its parser. */
module PhcString {
  import opened Wrappers
  import opened Decimal
  import opened Base64

  const VERSION := 19
  const MAX_MEMORY: nat := 0x10_0000
  const MAX_TIME: nat := 64
  const MAX_THREADS: nat := 16
  const MAX_U32: nat := 0xffff_ffff
  const MAX_U8: nat := 255
  const MAX_INT: nat := 0x7fff_ffff_ffff_ffff
  const KEY_LENGTH: nat := 32

  /** argon2id: PIN, salt, time, memory, threads, key length. */
  type Kdf = (string, seq<Byte>, nat, nat, nat, nat) -> seq<Byte>

  ghost predicate KdfOk(kdf: Kdf) {
    forall pin, salt, t, m, p, n :: |kdf(pin, salt, t, m, p, n)| == n
  }

  // ---- printing ----

  function Join(fields: seq<string>): string
    requires fields != []
  {
    if |fields| == 1 then fields[0] else fields[0] + "$" + Join(fields[1..])
  }

  function Encode(kdf: Kdf, pin: string, salt: seq<Byte>, t: nat, m: nat, p: nat): string {
    Join(["", "argon2id", "v=" + Dec(VERSION), Params(t, m, p), Base64.Encode(salt),
          Base64.Encode(kdf(pin, salt, t, m, p, KEY_LENGTH))])
  }

  function Params(t: nat, m: nat, p: nat): string {
    "m=" + Dec(m) + (",t=" + Dec(t) + (",p=" + Dec(p)))
  }

  // ---- parsing ----

  function Split(s: string): (parts: seq<string>)
    ensures parts != []
  {
    if s == "" then [""]
    else
      var rest := Split(s[1..]);
      if s[0] == '$' then [""] + rest else [[s[0]] + rest[0]] + rest[1..]
  }

  /** How long the leading run of digits is. */
  function DigitRun(s: string): (n: nat)
    ensures n <= |s| && AllDigits(s[..n]) && (n < |s| ==> !IsDigit(s[n]))
  {
    if s == "" || !IsDigit(s[0]) then 0
    else
      var n := 1 + DigitRun(s[1..]);
      assert s[..n] == [s[0]] + s[1..][..n - 1];
      n
  }

  /** A literal, then an unsigned number no larger than `max`; what follows is left over. */
  function Scan(s: string, literal: string, max: nat): Option<(nat, string)> {
    if !(literal <= s) then None
    else
      var rest := s[|literal|..];
      var n := DigitRun(rest);
      if n == 0 || Value(rest[..n]) > max then None else Some((Value(rest[..n]), rest[n..]))
  }

  /** The version is scanned as a signed number: a sign before it is accepted. */
  function ScanVersion(s: string): Option<int> {
    if !("v=" <= s) then None
    else
      var negative := "v=-" <= s;
      var rest := if negative || "v=+" <= s then s[3..] else s[2..];
      var scanned := Scan(rest, "", if negative then MAX_INT + 1 else MAX_INT);
      if scanned.None? then None
      else
        var n: int := scanned.value.0;
        Some(if negative then -n else n)
  }

  datatype Credential = Credential(t: nat, m: nat, p: nat, salt: seq<Byte>, key: seq<Byte>)

  predicate InCeilings(t: nat, m: nat, p: nat) {
    0 < m <= MAX_MEMORY && 0 < t <= MAX_TIME && 0 < p <= MAX_THREADS
  }

  /** Input left over after the last number is ignored. */
  function ScanParams(s: string): Option<(nat, nat, nat)> {
    match Scan(s, "m=", MAX_U32)
    case None => None
    case Some((m, afterM)) =>
      match Scan(afterM, ",t=", MAX_U32)
      case None => None
      case Some((t, afterT)) =>
        match Scan(afterT, ",p=", MAX_U8)
        case None => None
        case Some((p, _)) => if InCeilings(t, m, p) then Some((t, m, p)) else None
  }

  function ParseFields(fields: seq<string>): Option<Credential> {
    if |fields| != 6 || fields[0] != "" || fields[1] != "argon2id" then None
    else if ScanVersion(fields[2]) != Some(VERSION) then None
    else match ScanParams(fields[3])
      case None => None
      case Some((t, m, p)) =>
        match Decode(fields[4])
        case None => None
        case Some(salt) =>
          match Decode(fields[5])
          case None => None
          case Some(key) => if key == [] then None else Some(Credential(t, m, p, salt, key))
  }

  function Parse(phc: string): Option<Credential> {
    ParseFields(Split(phc))
  }

  /** None is a malformed credential. */
  function Verify(kdf: Kdf, pin: string, phc: string): Option<bool> {
    match Parse(phc)
    case None => None
    case Some(c) => Some(kdf(pin, c.salt, c.t, c.m, c.p, |c.key|) == c.key)
  }

  // ---- separators ----

  predicate Plain(s: string) { '$' !in s }

  lemma {:induction false} SplitField(field: string, rest: string)
    requires Plain(field)
    ensures Split(field + "$" + rest) == [field] + Split(rest)
  {
    var s := field + "$" + rest;
    if field == "" {
      assert s[1..] == rest;
    } else {
      SplitField(field[1..], rest);
      assert s[1..] == field[1..] + "$" + rest;
      assert [field[0]] + field[1..] == field;
      assert ([field[1..]] + Split(rest))[1..] == Split(rest);
    }
  }

  lemma {:induction false} SplitLast(field: string)
    requires Plain(field)
    ensures Split(field) == [field]
  {
    if field != "" {
      SplitLast(field[1..]);
      assert [field[0]] + field[1..] == field;
    }
  }

  lemma DigitsPlain(s: string)
    requires AllDigits(s) || Symbols(s)
    ensures Plain(s)
  {
  }

  lemma ParamsPlain(t: nat, m: nat, p: nat)
    ensures Plain(Params(t, m, p))
  {
    ValueDec(m);
    ValueDec(t);
    ValueDec(p);
    DigitsPlain(Dec(m));
    DigitsPlain(Dec(t));
    DigitsPlain(Dec(p));
  }

  /** Fields that do not contain the separator come back as they were joined. */
  lemma {:induction false} SplitJoin(fields: seq<string>)
    requires fields != [] && forall i :: 0 <= i < |fields| ==> Plain(fields[i])
    ensures Split(Join(fields)) == fields
  {
    if |fields| == 1 {
      SplitLast(fields[0]);
    } else {
      SplitJoin(fields[1..]);
      SplitField(fields[0], Join(fields[1..]));
      assert fields == [fields[0]] + fields[1..];
    }
  }

  /** No field of a printed credential can contain the separator. */
  lemma EncodeSplits(kdf: Kdf, pin: string, salt: seq<Byte>, t: nat, m: nat, p: nat)
    ensures Split(Encode(kdf, pin, salt, t, m, p))
            == ["", "argon2id", "v=" + Dec(VERSION), Params(t, m, p), Base64.Encode(salt),
                Base64.Encode(kdf(pin, salt, t, m, p, KEY_LENGTH))]
  {
    EncodeSymbols(salt);
    EncodeSymbols(kdf(pin, salt, t, m, p, KEY_LENGTH));
    ParamsPlain(t, m, p);
    ValueDec(VERSION);
    DigitsPlain(Dec(VERSION));
    DigitsPlain(Base64.Encode(salt));
    DigitsPlain(Base64.Encode(kdf(pin, salt, t, m, p, KEY_LENGTH)));
    SplitJoin(["", "argon2id", "v=" + Dec(VERSION), Params(t, m, p), Base64.Encode(salt),
               Base64.Encode(kdf(pin, salt, t, m, p, KEY_LENGTH))]);
  }

  // ---- numbers ----

  lemma {:induction false} RunOfDigits(digits: string, rest: string)
    requires AllDigits(digits) && (rest == "" || !IsDigit(rest[0]))
    ensures DigitRun(digits + rest) == |digits|
  {
    if digits != "" {
      RunOfDigits(digits[1..], rest);
      assert (digits + rest)[1..] == digits[1..] + rest;
    }
  }

  /** A printed number is scanned back, if it fits. */
  lemma ScanDec(literal: string, n: nat, rest: string, max: nat)
    requires rest == "" || !IsDigit(rest[0])
    ensures Scan(literal + (Dec(n) + rest), literal, max) == if n <= max then Some((n, rest)) else None
  {
    ValueDec(n);
    RunOfDigits(Dec(n), rest);
    var s := literal + (Dec(n) + rest);
    assert s[|literal|..] == Dec(n) + rest;
    assert (Dec(n) + rest)[..|Dec(n)|] == Dec(n) && (Dec(n) + rest)[|Dec(n)|..] == rest;
  }

  lemma VersionScans()
    ensures ScanVersion("v=" + Dec(VERSION)) == Some(VERSION)
  {
    var s := "v=" + Dec(VERSION);
    ValueDec(VERSION);
    assert s[2] == Dec(VERSION)[0];
    assert s[2..] == Dec(VERSION) == "" + (Dec(VERSION) + "");
    ScanDec("", VERSION, "", MAX_INT);
  }

  /** The parameters are recovered exactly when they are inside the ceilings. */
  lemma ParamsScan(t: nat, m: nat, p: nat)
    ensures ScanParams(Params(t, m, p)) == if InCeilings(t, m, p) then Some((t, m, p)) else None
  {
    var afterT := ",p=" + (Dec(p) + "");
    var afterM := ",t=" + (Dec(t) + afterT);
    assert Dec(p) + "" == Dec(p);
    assert Params(t, m, p) == "m=" + (Dec(m) + afterM);
    ScanDec("m=", m, afterM, MAX_U32);
    ScanDec(",t=", t, afterT, MAX_U32);
    ScanDec(",p=", p, "", MAX_U8);
  }

  // ---- the credential ----

  /** For every PIN, every salt and all parameters, parsing a printed credential recovers exactly what was printed when
      the parameters are inside the decode ceilings, and calls it malformed otherwise. */
  lemma ParseEncode(kdf: Kdf, pin: string, salt: seq<Byte>, t: nat, m: nat, p: nat)
    requires KdfOk(kdf)
    ensures Parse(Encode(kdf, pin, salt, t, m, p))
            == if InCeilings(t, m, p) then Some(Credential(t, m, p, salt, kdf(pin, salt, t, m, p, KEY_LENGTH))) else None
  {
    EncodeSplits(kdf, pin, salt, t, m, p);
    VersionScans();
    ParamsScan(t, m, p);
    RoundTrip(salt);
    RoundTrip(kdf(pin, salt, t, m, p, KEY_LENGTH));
  }

  /** A stored credential verifies the PIN it was made for, and another one exactly if the two derive the same key. */
  lemma VerifyEncode(kdf: Kdf, pin: string, other: string, salt: seq<Byte>, t: nat, m: nat, p: nat)
    requires KdfOk(kdf)
    ensures Verify(kdf, other, Encode(kdf, pin, salt, t, m, p))
            == if !InCeilings(t, m, p) then None
               else Some(kdf(other, salt, t, m, p, KEY_LENGTH) == kdf(pin, salt, t, m, p, KEY_LENGTH))
    ensures Verify(kdf, pin, Encode(kdf, pin, salt, t, m, p)) == Some(true) <==> InCeilings(t, m, p)
  {
    ParseEncode(kdf, pin, salt, t, m, p);
  }

  // ---- what is accepted ----

  /** The literal, the digits of `n`, and what does not go on with a digit. */
  predicate Leads(s: string, literal: string, digits: string, rest: string, n: nat) {
    && s == literal + (digits + rest) && digits != "" && AllDigits(digits) && Value(digits) == n
    && (rest == "" || !IsDigit(rest[0]))
  }

  lemma ScansLeading(s: string, literal: string, max: nat, digits: string, rest: string, n: nat)
    requires Leads(s, literal, digits, rest, n)
    ensures Scan(s, literal, max) == if n <= max then Some((n, rest)) else None
  {
    RunOfDigits(digits, rest);
    assert s[|literal|..] == digits + rest;
    assert (digits + rest)[..|digits|] == digits && (digits + rest)[|digits|..] == rest;
  }

  lemma ScannedLeads(s: string, literal: string, max: nat) returns (digits: string)
    requires Scan(s, literal, max).Some?
    ensures var (n, rest) := Scan(s, literal, max).value; n <= max && Leads(s, literal, digits, rest, n)
  {
    var tail := s[|literal|..];
    digits := tail[..DigitRun(tail)];
    assert s == literal + tail && tail == digits + tail[DigitRun(tail)..];
  }

  /** The version field: the number 19 after an optional plus sign, whatever follows. */
  ghost predicate VersionField(s: string) {
    exists digits, rest :: Leads(s, "v=", digits, rest, 19) || Leads(s, "v=+", digits, rest, 19)
  }

  lemma VersionScanned(s: string) returns (digits: string, rest: string)
    requires ScanVersion(s) == Some(VERSION)
    ensures Leads(s, "v=", digits, rest, 19) || Leads(s, "v=+", digits, rest, 19)
  {
    var signed := "v=+" <= s;
    var tail := if signed then s[3..] else s[2..];
    assert s == (if signed then "v=+" else "v=") + tail;
    digits := ScannedLeads(tail, "", MAX_INT);
    rest := Scan(tail, "", MAX_INT).value.1;
    assert tail == digits + rest;
  }

  lemma UnsignedScans(s: string, digits: string, rest: string)
    requires Leads(s, "v=", digits, rest, 19)
    ensures ScanVersion(s) == Some(VERSION)
  {
    assert s[2..] == digits + rest == "" + (digits + rest) && s[2] == digits[0];
    ScansLeading(s[2..], "", MAX_INT, digits, rest, 19);
  }

  lemma SignedScans(s: string, digits: string, rest: string)
    requires Leads(s, "v=+", digits, rest, 19)
    ensures ScanVersion(s) == Some(VERSION)
  {
    assert s[3..] == digits + rest == "" + (digits + rest) && s[2] == '+';
    ScansLeading(s[3..], "", MAX_INT, digits, rest, 19);
  }

  lemma VersionExactly(s: string)
    ensures ScanVersion(s) == Some(VERSION) <==> VersionField(s)
  {
    if ScanVersion(s) == Some(VERSION) {
      var digits, rest := VersionScanned(s);
    }
    if digits, rest :| Leads(s, "v=", digits, rest, 19) { UnsignedScans(s, digits, rest); }
    if digits, rest :| Leads(s, "v=+", digits, rest, 19) { SignedScans(s, digits, rest); }
  }

  /** The parameters field: memory, time and threads in that order, each inside its ceiling, whatever follows. */
  ghost predicate ParamsField(s: string, t: nat, m: nat, p: nat) {
    && 0 < m <= 1_048_576 && 0 < t <= 64 && 0 < p <= 16
    && exists dm, dt, dp, afterM, afterT, rest ::
         Leads(s, "m=", dm, afterM, m) && Leads(afterM, ",t=", dt, afterT, t) && Leads(afterT, ",p=", dp, rest, p)
  }

  lemma ParamsExactly(s: string, t: nat, m: nat, p: nat)
    ensures ScanParams(s) == Some((t, m, p)) <==> ParamsField(s, t, m, p)
  {
    if ScanParams(s) == Some((t, m, p)) {
      var dm := ScannedLeads(s, "m=", MAX_U32);
      var afterM := Scan(s, "m=", MAX_U32).value.1;
      var dt := ScannedLeads(afterM, ",t=", MAX_U32);
      var afterT := Scan(afterM, ",t=", MAX_U32).value.1;
      var dp := ScannedLeads(afterT, ",p=", MAX_U8);
      assert Leads(s, "m=", dm, afterM, m) && Leads(afterM, ",t=", dt, afterT, t);
    }
    if ParamsField(s, t, m, p) {
      var dm, dt, dp, afterM, afterT, rest :| Leads(s, "m=", dm, afterM, m) && Leads(afterM, ",t=", dt, afterT, t)
                                              && Leads(afterT, ",p=", dp, rest, p);
      ScansLeading(s, "m=", MAX_U32, dm, afterM, m);
      ScansLeading(afterM, ",t=", MAX_U32, dt, afterT, t);
      ScansLeading(afterT, ",p=", MAX_U8, dp, rest, p);
    }
  }

  lemma {:induction false} JoinSplit(s: string)
    ensures Join(Split(s)) == s && forall i :: 0 <= i < |Split(s)| ==> Plain(Split(s)[i])
  {
    if s != "" {
      var rest := Split(s[1..]);
      JoinSplit(s[1..]);
      assert s == [s[0]] + s[1..];
      if s[0] == '$' {
        assert ([""] + rest)[1..] == rest;
      } else {
        var parts := [[s[0]] + rest[0]] + rest[1..];
        assert parts[1..] == rest[1..];
        assert Plain(rest[0]) && Plain([s[0]] + rest[0]);
      }
    }
  }

  /** The fields of a credential: six, the first empty, the second the algorithm's name. */
  predicate Fields(fields: seq<string>, c: Credential) {
    && |fields| == 6 && fields[0] == "" && fields[1] == "argon2id"
    && Decode(fields[4]) == Some(c.salt) && Decode(fields[5]) == Some(c.key) && c.key != []
  }

  /** What is accepted as a credential, exactly: six fields joined by separators, the algorithm's name, the version, the
      parameters inside their ceilings, and a salt and a key that decode, the key not empty. */
  lemma ParsesExactly(phc: string, c: Credential)
    ensures Parse(phc) == Some(c) <==>
            exists fields :: Fields(fields, c) && (forall i :: 0 <= i < |fields| ==> Plain(fields[i])) && phc == Join(fields)
                             && VersionField(fields[2]) && ParamsField(fields[3], c.t, c.m, c.p)
  {
    JoinSplit(phc);
    if Parse(phc) == Some(c) {
      FieldsExactly(Split(phc), c);
    }
    if fields :| Fields(fields, c) && (forall i :: 0 <= i < |fields| ==> Plain(fields[i])) && phc == Join(fields)
                 && VersionField(fields[2]) && ParamsField(fields[3], c.t, c.m, c.p) {
      SplitJoin(fields);
      FieldsExactly(fields, c);
    }
  }

  lemma FieldsExactly(fields: seq<string>, c: Credential)
    ensures ParseFields(fields) == Some(c)
            <==> Fields(fields, c) && VersionField(fields[2]) && ParamsField(fields[3], c.t, c.m, c.p)
  {
    if |fields| == 6 {
      VersionExactly(fields[2]);
      ParamsExactly(fields[3], c.t, c.m, c.p);
      if ScanParams(fields[3]).Some? {
        var (t, m, p) := ScanParams(fields[3]).value;
        ParamsExactly(fields[3], t, m, p);
      }
    }
  }

  /** A PIN verifies against whatever is accepted exactly if it derives the stored key, at the stored parameters and length. */
  lemma VerifiesExactly(kdf: Kdf, pin: string, phc: string, c: Credential)
    ensures Parse(phc) == Some(c) ==> Verify(kdf, pin, phc) == Some(kdf(pin, c.salt, c.t, c.m, c.p, |c.key|) == c.key)
    ensures Verify(kdf, pin, phc) == None <==> Parse(phc) == None
  {
  }
}
