/**
 Connection-bound approvals as a state machine: what each operation answers and what it leaves behind.
 Keyed digests of bindings and bearers are ideal, and identifiers of new records are fresh.
 */
module Approvals {
  import opened Options

  const MAX_BEARERS: nat := 8
  const MAX_ATTEMPTS: nat := 32

  datatype Status = Pending | Approved | Denied | Consumed | Expired

  datatype Mechanism = Form | DelegatedAgent

  // `arguments` is the canonical text of the arguments.
  datatype Binding = Binding(
    sourceProfile: string,
    profile: string,
    upstream: string,
    operation: string,
    requestCorrelation: Option<string>,
    name: string,
    displayName: string,
    arguments: string)

  // HMAC values as ideal digests: of everything in the binding but its label, and of a bearer.
  datatype BindingDigest = BindingDigest(session: string, target: Binding)
  datatype TokenDigest = TokenDigest(token: string)

  function DigestOf(session: string, b: Binding): BindingDigest {
    BindingDigest(session, b.(displayName := ""))
  }

  datatype Record = Record(
    id: string,
    status: Status,
    sourceProfile: string,
    profile: string,
    upstream: string,
    operation: string,
    name: string,
    mechanism: Mechanism,
    sessionId: string,
    tokenDigests: seq<TokenDigest>,
    bindingDigest: BindingDigest,
    expiresAt: int)

  datatype Summary = Summary(
    id: string,
    status: Status,
    sourceProfile: string,
    profile: string,
    upstream: string,
    operation: string,
    name: string,
    mechanism: Mechanism,
    expiresAt: int)

  function SummaryOf(r: Record): Summary {
    Summary(r.id, r.status, r.sourceProfile, r.profile, r.upstream, r.operation, r.name, r.mechanism, r.expiresAt)
  }

  datatype Limits = Limits(ttl: int, maxRecords: int)

  datatype State = State(records: seq<Record>, expiredTransitions: seq<Summary>, session: string)

  datatype Error = MechanismMismatch | LimitExceeded | ConfirmationRequired | ApprovalExpired | Invalid | NotPending

  datatype Reply =
    | Failed(error: Error)
    | Issued(token: string, approval: Summary, created: bool)
    | Decided(approval: Summary)
    | Nothing
    | Listed(transitions: seq<Summary>)

  /** `now` is the clock of the expiry check, `later` the one the new record's deadline is taken from. */
  datatype Op =
    | Request(binding: Binding, mechanism: Mechanism, isSafe: string -> bool, now: int, later: int, newId: string,
      tokens: nat -> string)
    | Approve(token: string, now: int)
    | Deny(token: string, now: int)
    | ApproveAndConsume(token: string, binding: Binding, now: int)
    | Consume(binding: Binding, mechanism: Mechanism, now: int)
    | Expire(now: int)
    | Revoke(id: string)
    | BeginSession(newSession: string)
    | TakeExpired
    | RestoreExpired(transitions: seq<Summary>)

  predicate IsTerminal(s: Status) {
    s == Denied || s == Consumed || s == Expired
  }

  /// ## Expiry

  predicate IsDue(r: Record, session: string, now: int) {
    r.sessionId == session && (r.status == Pending || r.status == Approved) && r.expiresAt <= now
  }

  function ExpireRecord(r: Record, session: string, now: int): Record {
    if IsDue(r, session, now) then r.(status := Expired) else r
  }

  function ExpireRecords(rs: seq<Record>, session: string, now: int): (out: seq<Record>)
    ensures |out| == |rs| && forall i :: 0 <= i < |rs| ==> out[i] == ExpireRecord(rs[i], session, now)
  {
    if rs == [] then [] else [ExpireRecord(rs[0], session, now)] + ExpireRecords(rs[1..], session, now)
  }

  function Transitions(rs: seq<Record>, session: string, now: int): seq<Summary> {
    if rs == [] then []
    else
      (if IsDue(rs[0], session, now) then [SummaryOf(rs[0].(status := Expired))] else [])
      + Transitions(rs[1..], session, now)
  }

  function ExpireState(st: State, now: int): State {
    st.(records := ExpireRecords(st.records, st.session, now),
        expiredTransitions := st.expiredTransitions + Transitions(st.records, st.session, now))
  }

  /// ## Looking records up, oldest first

  function FirstWhere(rs: seq<Record>, p: Record -> bool): (i: nat)
    ensures i <= |rs| && (i < |rs| ==> p(rs[i])) && forall k :: 0 <= k < i ==> !p(rs[k])
  {
    if rs == [] || p(rs[0]) then 0 else FirstWhere(rs[1..], p) + 1
  }

  function IsPendingFor(session: string, digest: BindingDigest): Record -> bool {
    (r: Record) => r.sessionId == session && r.status == Pending && r.bindingDigest == digest
  }

  function IsApprovedFor(session: string, digest: BindingDigest, m: Mechanism): Record -> bool {
    (r: Record) => r.sessionId == session && r.status == Approved && r.mechanism == m && r.bindingDigest == digest
  }

  function HasToken(token: string): Record -> bool {
    (r: Record) => TokenDigest(token) in r.tokenDigests
  }

  function Live(rs: seq<Record>): seq<Record> {
    if rs == [] then []
    else (if IsTerminal(rs[0].status) then [] else [rs[0]]) + Live(rs[1..])
  }

  function Without(rs: seq<Record>, id: string): seq<Record> {
    if rs == [] then []
    else (if rs[0].id == id then [] else [rs[0]]) + Without(rs[1..], id)
  }

  /// ## Bearers

  // The first acceptable one of at most 32 bearers.
  function FirstSafe(tokens: nat -> string, isSafe: string -> bool, attempt: nat): (i: nat)
    requires attempt <= MAX_ATTEMPTS
    ensures attempt <= i <= MAX_ATTEMPTS && (i < MAX_ATTEMPTS ==> isSafe(tokens(i)))
    ensures forall k :: attempt <= k < i ==> !isSafe(tokens(k))
    decreases MAX_ATTEMPTS - attempt
  {
    if attempt == MAX_ATTEMPTS || isSafe(tokens(attempt)) then attempt else FirstSafe(tokens, isSafe, attempt + 1)
  }

  function IssueToken(r: Record, created: bool, isSafe: string -> bool, tokens: nat -> string): (Record, Reply) {
    if |r.tokenDigests| >= MAX_BEARERS then (r, Failed(LimitExceeded))
    else
      var i := FirstSafe(tokens, isSafe, 0);
      if i == MAX_ATTEMPTS then (r, Failed(ConfirmationRequired))
      else
        var issued := r.(tokenDigests := r.tokenDigests + [TokenDigest(tokens(i))]);
        (issued, Issued(tokens(i), SummaryOf(issued), created))
  }

  /// ## Operations

  function NewRecord(st: State, op: Op, limits: Limits): Record
    requires op.Request?
  {
    Record(op.newId, Pending, op.binding.sourceProfile, op.binding.profile, op.binding.upstream, op.binding.operation,
           op.binding.displayName, op.mechanism, st.session, [],
           DigestOf(st.session, op.binding), op.later + limits.ttl)
  }

  function StepRequest(limits: Limits, st: State, op: Op): (State, Reply)
    requires op.Request?
  {
    var due := ExpireState(st, op.now);
    var i := FirstWhere(due.records, IsPendingFor(st.session, DigestOf(st.session, op.binding)));
    if i < |due.records| then
      if due.records[i].mechanism != op.mechanism then (due, Failed(MechanismMismatch))
      else
        var (r, reply) := IssueToken(due.records[i], false, op.isSafe, op.tokens);
        (due.(records := due.records[i := r]), reply)
    else
      var live := due.(records := Live(due.records));
      if |live.records| >= limits.maxRecords then (live, Failed(LimitExceeded))
      else
        var (r, reply) := IssueToken(NewRecord(st, op, limits), true, op.isSafe, op.tokens);
        if reply.Failed? then (live, reply) else (live.(records := live.records + [r]), reply)
  }

  // requirePending: the record a bearer decides, or why it cannot.
  function Decidable(st: State, token: string): Option<Error> {
    var i := FirstWhere(st.records, HasToken(token));
    if i < |st.records| && st.records[i].status == Expired then Some(ApprovalExpired)
    else if i == |st.records| || st.records[i].sessionId != st.session then Some(Invalid)
    else if st.records[i].status != Pending then Some(NotPending)
    else None
  }

  function Update(st: State, i: nat, status: Status): (State, Reply)
    requires i < |st.records|
  {
    var r := st.records[i].(status := status);
    (st.(records := st.records[i := r]), Decided(SummaryOf(r)))
  }

  function StepDecide(st: State, token: string, now: int, status: Status): (State, Reply) {
    var due := ExpireState(st, now);
    var error := Decidable(due, token);
    if error.Some? then (due, Failed(error.value)) else Update(due, FirstWhere(due.records, HasToken(token)), status)
  }

  function StepApproveAndConsume(st: State, op: Op): (State, Reply)
    requires op.ApproveAndConsume?
  {
    var due := ExpireState(st, op.now);
    var error := Decidable(due, op.token);
    var i := FirstWhere(due.records, HasToken(op.token));
    if error.Some? then (due, Failed(error.value))
    else if due.records[i].mechanism != Form then (due, Failed(MechanismMismatch))
    else if due.records[i].bindingDigest != DigestOf(st.session, op.binding) then (due, Failed(Invalid))
    else Update(due, i, Consumed)
  }

  function StepConsume(st: State, op: Op): (State, Reply)
    requires op.Consume?
  {
    var due := ExpireState(st, op.now);
    var i := FirstWhere(due.records, IsApprovedFor(st.session, DigestOf(st.session, op.binding), op.mechanism));
    if i == |due.records| then (due, Nothing) else Update(due, i, Consumed)
  }

  function Step(limits: Limits, st: State, op: Op): (State, Reply) {
    match op
    case Request(_, _, _, _, _, _, _) => StepRequest(limits, st, op)
    case Approve(token, now) => StepDecide(st, token, now, Approved)
    case Deny(token, now) => StepDecide(st, token, now, Denied)
    case ApproveAndConsume(_, _, _) => StepApproveAndConsume(st, op)
    case Consume(_, _, _) => StepConsume(st, op)
    case Expire(now) => (ExpireState(st, now), Listed(Transitions(st.records, st.session, now)))
    case Revoke(id) => (st.(records := Without(st.records, id)), Nothing)
    case BeginSession(newSession) => (State([], [], newSession), Nothing)
    case TakeExpired => (st.(expiredTransitions := []), Listed(st.expiredTransitions))
    case RestoreExpired(transitions) => (st.(expiredTransitions := transitions + st.expiredTransitions), Nothing)
  }
}
