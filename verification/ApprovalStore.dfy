/**
 The approval store: its methods change the records in place, and each one does what the state machine says.
 */
module ApprovalStore {
  import opened Options
  import opened Approvals

  class Store {
    const limits: Limits
    var records: seq<Record>
    var expiredTransitions: seq<Summary>
    var sessionId: string

    ghost function View(): State
      reads this
    {
      State(records, expiredTransitions, sessionId)
    }

    constructor (limits: Limits, session: string)
      requires limits.ttl > 0 && limits.maxRecords > 0
      ensures View() == State([], [], session) && this.limits == limits
    {
      this.limits := limits;
      records, expiredTransitions, sessionId := [], [], session;
    }

    /** A store with usable limits, or none. */
    static method Open(ttl: int, maxRecords: int, session: string) returns (store: Option<Store>)
      ensures store.Some? <==> ttl > 0 && maxRecords > 0
      ensures store.Some? ==>
        && fresh(store.value) && store.value.View() == State([], [], session)
        && store.value.limits == Limits(ttl, maxRecords)
    {
      if ttl <= 0 || maxRecords <= 0 { return None; }
      var made := new Store(Limits(ttl, maxRecords), session);
      return Some(made);
    }

    method Begin(session: string)
      modifies this
      ensures View() == Step(limits, old(View()), BeginSession(session)).0
    {
      records, expiredTransitions, sessionId := [], [], session;
    }

    method ExpireDue(now: int) returns (expired: seq<Summary>)
      modifies this
      ensures View() == ExpireState(old(View()), now) && expired == Transitions(old(records), sessionId, now)
    {
      expired := [];
      var i := 0;
      ghost var before := records;
      assert before[0..] == before;
      while i < |records|
        invariant 0 <= i <= |records| == |before| && sessionId == old(sessionId)
        invariant forall k :: 0 <= k < |records| ==>
          records[k] == if k < i then ExpireRecord(before[k], sessionId, now) else before[k]
        invariant expired + Transitions(before[i..], sessionId, now) == Transitions(before, sessionId, now)
        invariant expiredTransitions == old(expiredTransitions) + expired
      {
        assert before[i..][1..] == before[i + 1..];
        if IsDue(records[i], sessionId, now) {
          var due := records[i].(status := Expired);
          records := records[i := due];
          expired := expired + [SummaryOf(due)];
          expiredTransitions := expiredTransitions + [SummaryOf(due)];
        }
        i := i + 1;
      }
      assert before[i..] == [] && expired + [] == expired;
      assert records == ExpireRecords(before, sessionId, now);
    }

    method DiscardTerminal()
      modifies this`records
      ensures records == Live(old(records))
    {
      ghost var before := records;
      var kept: seq<Record> := [];
      var i := 0;
      assert before[0..] == before;
      while i < |records|
        invariant 0 <= i <= |records| && records == before
        invariant kept + Live(before[i..]) == Live(before)
      {
        assert before[i..][1..] == before[i + 1..];
        if !IsTerminal(records[i].status) { kept := kept + [records[i]]; }
        i := i + 1;
      }
      assert before[i..] == [] && kept + [] == kept;
      records := kept;
    }

    // issueToken, for the record at an index: up to 32 attempts at an acceptable bearer.
    method Issue(index: nat, created: bool, isSafe: string -> bool, tokens: nat -> string) returns (reply: Reply)
      requires index < |records|
      modifies this`records
      ensures var (r, answer) := IssueToken(old(records)[index], created, isSafe, tokens);
        records == old(records)[index := r] && reply == answer
    {
      if |records[index].tokenDigests| >= MAX_BEARERS { return Failed(LimitExceeded); }
      var attempt := 0;
      while attempt < MAX_ATTEMPTS
        invariant 0 <= attempt <= MAX_ATTEMPTS && records == old(records)
        invariant FirstSafe(tokens, isSafe, 0) == FirstSafe(tokens, isSafe, attempt)
      {
        if isSafe(tokens(attempt)) {
          var r := records[index].(tokenDigests := records[index].tokenDigests + [TokenDigest(tokens(attempt))]);
          records := records[index := r];
          return Issued(tokens(attempt), SummaryOf(r), created);
        }
        attempt := attempt + 1;
      }
      return Failed(ConfirmationRequired);
    }

    method RequestApproval(binding: Binding, mechanism: Mechanism, isSafe: string -> bool, now: int, later: int,
                           newId: string, tokens: nat -> string)
      returns (reply: Reply)
      modifies this
      ensures (View(), reply) == Step(limits, old(View()),
        Request(binding, mechanism, isSafe, now, later, newId, tokens))
    {
      hide ExpireRecords, Transitions, FirstWhere, IssueToken, Live;
      var _ := ExpireDue(now);
      var digest := DigestOf(sessionId, binding);
      var pending := FirstWhere(records, IsPendingFor(sessionId, digest));
      if pending < |records| {
        if records[pending].mechanism != mechanism { return Failed(MechanismMismatch); }
        reply := Issue(pending, false, isSafe, tokens);
        return;
      }
      DiscardTerminal();
      if |records| >= limits.maxRecords { return Failed(LimitExceeded); }
      var record := Record(newId, Pending, binding.sourceProfile, binding.profile, binding.upstream, binding.operation,
                           binding.displayName, mechanism, sessionId, [], digest, later + limits.ttl);
      reply := Admit(record, isSafe, tokens);
    }

    // A new record stays only if a bearer could be issued for it.
    method Admit(record: Record, isSafe: string -> bool, tokens: nat -> string) returns (reply: Reply)
      modifies this`records
      ensures var (r, answer) := IssueToken(record, true, isSafe, tokens);
        reply == answer && records == if answer.Failed? then old(records) else old(records) + [r]
    {
      ghost var live := records;
      records := records + [record];
      ghost var r := IssueToken(record, true, isSafe, tokens).0;
      assert (live + [record])[|live| := r] == live + [r];
      reply := Issue(|records| - 1, true, isSafe, tokens);
      if reply.Failed? { records := records[..|records| - 1]; }
    }

    // requirePending: the index of the record the bearer decides, or the error.
    method RequirePending(token: string, now: int) returns (index: nat, error: Option<Error>)
      modifies this
      ensures View() == ExpireState(old(View()), now) && error == Decidable(View(), token)
      ensures index == FirstWhere(records, HasToken(token)) && (error.None? ==> index < |records|)
    {
      var _ := ExpireDue(now);
      index := FirstWhere(records, HasToken(token));
      if index < |records| && records[index].status == Expired { return index, Some(ApprovalExpired); }
      if index == |records| || records[index].sessionId != sessionId { return index, Some(Invalid); }
      if records[index].status != Pending { return index, Some(NotPending); }
      return index, None;
    }

    method Decide(token: string, now: int, approve: bool) returns (reply: Reply)
      modifies this
      ensures (View(), reply) == Step(limits, old(View()), if approve then Approve(token, now) else Deny(token, now))
    {
      var i, error := RequirePending(token, now);
      if error.Some? { return Failed(error.value); }
      records := records[i := records[i].(status := if approve then Approved else Denied)];
      return Decided(SummaryOf(records[i]));
    }

    method ApproveAndClaim(token: string, binding: Binding, now: int) returns (reply: Reply)
      modifies this
      ensures (View(), reply) == Step(limits, old(View()), ApproveAndConsume(token, binding, now))
    {
      var i, error := RequirePending(token, now);
      if error.Some? { return Failed(error.value); }
      if records[i].mechanism != Form { return Failed(MechanismMismatch); }
      if records[i].bindingDigest != DigestOf(sessionId, binding) { return Failed(Invalid); }
      records := records[i := records[i].(status := Consumed)];
      return Decided(SummaryOf(records[i]));
    }

    method Claim(binding: Binding, mechanism: Mechanism, now: int) returns (reply: Reply)
      modifies this
      ensures (View(), reply) == Step(limits, old(View()), Consume(binding, mechanism, now))
    {
      var _ := ExpireDue(now);
      var i := FirstWhere(records, IsApprovedFor(sessionId, DigestOf(sessionId, binding), mechanism));
      if i == |records| { return Nothing; }
      records := records[i := records[i].(status := Consumed)];
      return Decided(SummaryOf(records[i]));
    }

    method RevokeRecord(id: string)
      modifies this`records
      ensures View() == Step(limits, old(View()), Revoke(id)).0
    {
      records := Without(records, id);
    }

    method TakeTransitions() returns (transitions: seq<Summary>)
      modifies this`expiredTransitions
      ensures (View(), Listed(transitions)) == Step(limits, old(View()), TakeExpired)
    {
      transitions := expiredTransitions;
      expiredTransitions := [];
    }

    method RestoreTransitions(transitions: seq<Summary>)
      modifies this`expiredTransitions
      ensures View() == Step(limits, old(View()), RestoreExpired(transitions)).0
    {
      expiredTransitions := transitions + expiredTransitions;
    }
  }

  /**
   writeExpiredApprovalTransitions of the owning server: transitions are written down one by one, and the first one
   that cannot be written goes back in front of the queue with all behind it. None is lost, repeated or reordered.
   */
  method WriteExpiredTransitions(store: Store, writes: nat -> bool) returns (written: seq<Summary>, ok: bool)
    modifies store
    ensures written + store.expiredTransitions == old(store.expiredTransitions)
    ensures ok <==> forall i :: 0 <= i < |old(store.expiredTransitions)| ==> writes(i)
    ensures ok ==> store.expiredTransitions == []
    ensures store.records == old(store.records) && store.sessionId == old(store.sessionId)
  {
    var expired := store.TakeTransitions();
    written := [];
    var index := 0;
    while index < |expired|
      invariant 0 <= index <= |expired| && written == expired[..index] && store.expiredTransitions == []
      invariant forall i :: 0 <= i < index ==> writes(i)
      invariant store.records == old(store.records) && store.sessionId == old(store.sessionId)
    {
      if !writes(index) {
        store.RestoreTransitions(expired[index..]);
        return written, false;
      }
      written := written + [expired[index]];
      index := index + 1;
    }
    return written, true;
  }
}
