/** The managed-admin ticket: normalization, canonical bytes and the signature over them. */
module ManagedAdminTicket {
  import opened JsonText
  import opened ManagedAdminPolicy
  import opened Texts
  import opened Wrappers

  datatype Ticket = Ticket(
    v: int,
    targetId: Text,
    deviceId: Text,
    program: Text,
    argv: seq<Text>,
    cwd: Text,
    timeoutMs: int,
    nonce: Text,
    issuedAt: int,
    expiresAt: int)

  /** A parsed request body. A missing field is `Missing`. */
  datatype Json =
    | Missing
    | Null
    | Bool(b: bool)
    | Int(n: int)
    | Fraction(x: real)
    | Str(s: Text)
    | Arr(items: seq<Json>)
    | Obj(fields: map<string, Json>)
  {
    function Field(name: string): Json {
      if Obj? && name in fields then fields[name] else Missing
    }
  }

  /** JavaScript's String(x ?? "") and Number(x); `number` is None unless the result is an integer. */
  datatype Coercions = Coercions(text: Json -> Text, number: Json -> Option<int>) {
    ghost predicate Lawful() {
      && (forall s: Text {:trigger Str(s)} :: text(Str(s)) == s)
      && (forall n: int {:trigger Int(n)} :: number(Int(n)) == Some(n))
    }
  }

  datatype TicketError =
    | TicketInvalid
    | VersionInvalid
    | TargetInvalid
    | DeviceInvalid
    | ProgramInvalid
    | ArgvInvalid
    | ArgumentInvalid
    | CwdInvalid
    | TimeoutInvalid
    | NonceInvalid
    | ExpiryInvalid

  predicate IsIdPoint(p: Point) { IsLower(p) || IsDigit(p) || p == '-' as int }

  predicate IsDevicePoint(p: Point) { IsAlnum(p) || p == '_' as int || p == '-' as int }

  predicate IsProgramPoint(p: Point) { IsAlnum(p) || p in Ascii("_.+-") }

  predicate IsNoncePoint(p: Point) { IsDigit(p) || Within(p, 'a', 'f') }

  predicate IsTargetId(t: Text) {
    2 <= |t| <= 64 && (IsLower(t[0]) || IsDigit(t[0])) && forall i | 0 <= i < |t| :: IsIdPoint(t[i])
  }

  predicate IsDeviceId(t: Text) {
    12 <= |t| <= 84 && Ascii("dev_") <= t && forall i | 0 <= i < |t| :: IsDevicePoint(t[i])
  }

  predicate IsProgram(t: Text) {
    1 <= |t| <= 80 && forall i | 0 <= i < |t| :: IsProgramPoint(t[i])
  }

  predicate IsNonce(t: Text) {
    32 <= |t| <= 128 && forall i | 0 <= i < |t| :: IsNoncePoint(t[i])
  }

  predicate IsArgument(t: Text) {
    Utf8Length(t) <= 16384 && SingleLine(t)
  }

  predicate IsTimeout(n: int) {
    1000 <= n <= 120000
  }

  const MAX_LIFE_MS := 120000

  predicate IsLifetime(issuedAt: int, expiresAt: int) {
    issuedAt < expiresAt <= issuedAt + MAX_LIFE_MS
  }

  predicate Normal(t: Ticket) {
    && t.v == 1
    && IsTargetId(t.targetId) && IsDeviceId(t.deviceId) && IsProgram(t.program)
    && |t.argv| <= 80 && (forall i | 0 <= i < |t.argv| :: IsArgument(t.argv[i]))
    && CwdWellFormed(t.cwd)
    && IsTimeout(t.timeoutMs) && IsNonce(t.nonce) && IsLifetime(t.issuedAt, t.expiresAt)
  }

  function Texted(items: seq<Json>, c: Coercions): seq<Text> {
    seq(|items|, i requires 0 <= i < |items| => c.text(items[i]))
  }

  /** The coerced fields, before any check. `argv` is None unless the body holds an array. */
  datatype Draft = Draft(
    v: Option<int>, targetId: Text, deviceId: Text, program: Text, argv: Option<seq<Text>>, cwd: Text,
    timeoutMs: Option<int>, nonce: Text, issuedAt: Option<int>, expiresAt: Option<int>)

  function Coerce(raw: Json, c: Coercions): Draft {
    Draft(
      c.number(raw.Field("v")), c.text(raw.Field("target_id")), c.text(raw.Field("device_id")),
      c.text(raw.Field("program")),
      if raw.Field("argv").Arr? then Some(Texted(raw.Field("argv").items, c)) else None,
      c.text(raw.Field("cwd")), c.number(raw.Field("timeout_ms")), c.text(raw.Field("nonce")),
      c.number(raw.Field("issued_at")), c.number(raw.Field("expires_at")))
  }

  function Validate(d: Draft): Result<Ticket, TicketError> {
    if d.v != Some(1) then Err(VersionInvalid)
    else if !IsTargetId(d.targetId) then Err(TargetInvalid)
    else if !IsDeviceId(d.deviceId) then Err(DeviceInvalid)
    else if !IsProgram(d.program) then Err(ProgramInvalid)
    else if d.argv.None? || |d.argv.value| > 80 then Err(ArgvInvalid)
    else if exists i | 0 <= i < |d.argv.value| :: !IsArgument(d.argv.value[i]) then Err(ArgumentInvalid)
    else if !CwdWellFormed(d.cwd) then Err(CwdInvalid)
    else if d.timeoutMs.None? || !IsTimeout(d.timeoutMs.value) then Err(TimeoutInvalid)
    else if !IsNonce(d.nonce) then Err(NonceInvalid)
    else if d.issuedAt.None? || d.expiresAt.None? || !IsLifetime(d.issuedAt.value, d.expiresAt.value) then
      Err(ExpiryInvalid)
    else
      Ok(Ticket(1, d.targetId, d.deviceId, d.program, d.argv.value, d.cwd, d.timeoutMs.value, d.nonce,
        d.issuedAt.value, d.expiresAt.value))
  }

  function Normalize(raw: Json, c: Coercions): Result<Ticket, TicketError> {
    if raw.Obj? then Validate(Coerce(raw, c)) else Err(TicketInvalid)
  }

  /** The object a ticket is on the wire. */
  function ToJson(t: Ticket): Json {
    Obj(map[
      "v" := Int(t.v), "target_id" := Str(t.targetId), "device_id" := Str(t.deviceId), "program" := Str(t.program),
      "argv" := Arr(seq(|t.argv|, i requires 0 <= i < |t.argv| => Str(t.argv[i]))),
      "cwd" := Str(t.cwd), "timeout_ms" := Int(t.timeoutMs), "nonce" := Str(t.nonce),
      "issued_at" := Int(t.issuedAt), "expires_at" := Int(t.expiresAt)])
  }

  /** Whatever the body, only a normal ticket comes out. */
  lemma NormalizeYieldsNormal(raw: Json, c: Coercions)
    ensures Normalize(raw, c).Ok? ==> Normal(Normalize(raw, c).value)
  {
  }

  lemma CoercePrinted(t: Ticket, c: Coercions)
    requires c.Lawful()
    ensures Coerce(ToJson(t), c) == Draft(Some(t.v), t.targetId, t.deviceId, t.program, Some(t.argv), t.cwd,
                                          Some(t.timeoutMs), t.nonce, Some(t.issuedAt), Some(t.expiresAt))
  {
    assert Texted(ToJson(t).Field("argv").items, c) == t.argv;
  }

  /** Normalization accepts a printed ticket exactly when it is normal, and then returns it unchanged. */
  lemma NormalizePrinted(t: Ticket, c: Coercions)
    requires c.Lawful()
    ensures Normalize(ToJson(t), c) == Ok(t) <==> Normal(t)
    ensures Normalize(ToJson(t), c).Ok? <==> Normal(t)
  {
    CoercePrinted(t, c);
  }

  lemma NormalizeIdempotent(raw: Json, c: Coercions)
    requires c.Lawful() && Normalize(raw, c).Ok?
    ensures Normalize(ToJson(Normalize(raw, c).value), c) == Normalize(raw, c)
  {
    NormalizeYieldsNormal(raw, c);
    NormalizePrinted(Normalize(raw, c).value, c);
  }

  /* Canonical bytes. */

  function CanonicalBytes(t: Ticket): seq<Byte> {
    Lit("{\"v\":") + (Decimal(t.v) + TargetTail(t))
  }

  function TargetTail(t: Ticket): seq<Byte> {
    Lit(",\"target_id\":") + (Quote(t.targetId) + (
    Lit(",\"device_id\":") + (Quote(t.deviceId) + (
    Lit(",\"program\":") + (Quote(t.program) + ArgvTail(t))))))
  }

  function ArgvTail(t: Ticket): seq<Byte> {
    Lit(",\"argv\":[") + (Items(t.argv) + (
    Lit(",\"cwd\":") + (Quote(t.cwd) + TimeTail(t))))
  }

  function TimeTail(t: Ticket): seq<Byte> {
    Lit(",\"timeout_ms\":") + (Decimal(t.timeoutMs) + (
    Lit(",\"nonce\":") + (Quote(t.nonce) + (
    Lit(",\"issued_at\":") + (Decimal(t.issuedAt) + (
    Lit(",\"expires_at\":") + (Decimal(t.expiresAt) + Lit("}"))))))))
  }

  function ReadTime(b: seq<Byte>): Option<(int, Text, int, int)> {
    var b :- Expect(Lit(",\"timeout_ms\":"), b);
    var (timeoutMs, b) :- ReadInt(b);
    var b :- Expect(Lit(",\"nonce\":"), b);
    var (nonce, b) :- ReadText(b);
    var b :- Expect(Lit(",\"issued_at\":"), b);
    var (issuedAt, b) :- ReadInt(b);
    var b :- Expect(Lit(",\"expires_at\":"), b);
    var (expiresAt, b) :- ReadInt(b);
    if b == Lit("}") then Some((timeoutMs, nonce, issuedAt, expiresAt)) else None
  }

  function ReadArgv(b: seq<Byte>): Option<(seq<Text>, Text, seq<Byte>)> {
    var b :- Expect(Lit(",\"argv\":["), b);
    var (argv, b) :- ReadItems(b);
    var b :- Expect(Lit(",\"cwd\":"), b);
    var (cwd, b) :- ReadText(b);
    Some((argv, cwd, b))
  }

  function ReadIds(b: seq<Byte>): Option<(Text, Text, Text, seq<Byte>)> {
    var b :- Expect(Lit(",\"target_id\":"), b);
    var (targetId, b) :- ReadText(b);
    var b :- Expect(Lit(",\"device_id\":"), b);
    var (deviceId, b) :- ReadText(b);
    var b :- Expect(Lit(",\"program\":"), b);
    var (program, b) :- ReadText(b);
    Some((targetId, deviceId, program, b))
  }

  function ReadTicket(b: seq<Byte>): Option<Ticket> {
    var b :- Expect(Lit("{\"v\":"), b);
    var (v, b) :- ReadInt(b);
    var (targetId, deviceId, program, b) :- ReadIds(b);
    var (argv, cwd, b) :- ReadArgv(b);
    var (timeoutMs, nonce, issuedAt, expiresAt) :- ReadTime(b);
    Some(Ticket(v, targetId, deviceId, program, argv, cwd, timeoutMs, nonce, issuedAt, expiresAt))
  }

  /** A fixed piece followed by a quoted text reads back. */
  lemma PieceThenText(piece: seq<Byte>, t: Text, rest: seq<Byte>)
    ensures Expect(piece, piece + (Quote(t) + rest)) == Some(Quote(t) + rest)
    ensures ReadText(Quote(t) + rest) == Some((t, rest))
  {
    ExpectPiece(piece, Quote(t) + rest);
    ReadTextOfQuote(t, rest);
  }

  lemma PieceThenInt(piece: seq<Byte>, n: int, rest: seq<Byte>)
    requires rest != [] && !IsDigit(rest[0])
    ensures Expect(piece, piece + (Decimal(n) + rest)) == Some(Decimal(n) + rest)
    ensures ReadInt(Decimal(n) + rest) == Some((n, rest))
  {
    ExpectPiece(piece, Decimal(n) + rest);
    ReadIntOfDecimal(n, rest);
  }

  lemma ReadTimeTail(t: Ticket)
    ensures ReadTime(TimeTail(t)) == Some((t.timeoutMs, t.nonce, t.issuedAt, t.expiresAt))
  {
    var d := Lit("}");
    var c := Lit(",\"expires_at\":") + (Decimal(t.expiresAt) + d);
    var b := Lit(",\"issued_at\":") + (Decimal(t.issuedAt) + c);
    var a := Lit(",\"nonce\":") + (Quote(t.nonce) + b);
    assert d[0] == 0x7D && c[0] == 0x2C && a[0] == 0x2C;
    PieceThenInt(Lit(",\"timeout_ms\":"), t.timeoutMs, a);
    PieceThenText(Lit(",\"nonce\":"), t.nonce, b);
    PieceThenInt(Lit(",\"issued_at\":"), t.issuedAt, c);
    PieceThenInt(Lit(",\"expires_at\":"), t.expiresAt, d);
  }

  lemma ReadArgvTail(t: Ticket)
    ensures ReadArgv(ArgvTail(t)) == Some((t.argv, t.cwd, TimeTail(t)))
  {
    var a := Lit(",\"cwd\":") + (Quote(t.cwd) + TimeTail(t));
    ExpectPiece(Lit(",\"argv\":["), Items(t.argv) + a);
    ReadItemsOfItems(t.argv, a);
    PieceThenText(Lit(",\"cwd\":"), t.cwd, TimeTail(t));
  }

  lemma ReadIdsTail(t: Ticket)
    ensures ReadIds(TargetTail(t)) == Some((t.targetId, t.deviceId, t.program, ArgvTail(t)))
  {
    var b := Lit(",\"program\":") + (Quote(t.program) + ArgvTail(t));
    var a := Lit(",\"device_id\":") + (Quote(t.deviceId) + b);
    PieceThenText(Lit(",\"target_id\":"), t.targetId, a);
    PieceThenText(Lit(",\"device_id\":"), t.deviceId, b);
    PieceThenText(Lit(",\"program\":"), t.program, ArgvTail(t));
  }

  lemma TailStartsWithComma(t: Ticket)
    ensures TargetTail(t) != [] && TargetTail(t)[0] == 0x2C
  {
  }

  /** The canonical bytes of any ticket read back as that ticket. */
  lemma CanonicalRoundTrip(t: Ticket)
    ensures ReadTicket(CanonicalBytes(t)) == Some(t)
  {
    TailStartsWithComma(t);
    PieceThenInt(Lit("{\"v\":"), t.v, TargetTail(t));
    ReadIdsTail(t);
    ReadArgvTail(t);
    ReadTimeTail(t);
  }

  lemma CanonicalInjective(t: Ticket, u: Ticket)
    requires CanonicalBytes(t) == CanonicalBytes(u)
    ensures t == u
  {
    CanonicalRoundTrip(t);
    CanonicalRoundTrip(u);
  }

  /* Signatures, symbolic: a signature is the key and the message it was made from. */

  datatype Key = Derived(secret: Text)

  datatype Signature = Signed(key: Key, message: seq<Byte>) | Malformed(text: Text)

  /** None where signing throws: a short secret or a ticket that does not normalize. */
  function Sign(t: Ticket, secret: Text): Option<Signature> {
    if Units(secret) >= 32 && Normal(t) then Some(Signed(Derived(secret), CanonicalBytes(t))) else None
  }

  predicate Verify(t: Ticket, signature: Signature, authority: Key) {
    Normal(t) && signature == Signed(authority, CanonicalBytes(t))
  }

  lemma SignedVerifies(t: Ticket, secret: Text)
    requires Sign(t, secret).Some?
    ensures Verify(t, Sign(t, secret).value, Derived(secret))
  {
  }

  /** One signature fixes all ten fields: of the tickets normalized from any two bodies at most one verifies. */
  lemma OneSignatureOneTicket(a: Json, b: Json, c: Coercions, signature: Signature, authority: Key)
    requires Normalize(a, c).Ok? && Normalize(b, c).Ok?
    requires Verify(Normalize(a, c).value, signature, authority)
    requires Verify(Normalize(b, c).value, signature, authority)
    ensures Normalize(a, c).value == Normalize(b, c).value
  {
    CanonicalInjective(Normalize(a, c).value, Normalize(b, c).value);
  }
}
