/**
 What every run of approval operations keeps, whatever the order, the bearers and the clock.
 */
module ApprovalLaws {
  import opened Options
  import opened Approvals

  /** What an approval is for: a binding within a session, and the way it is confirmed. */
  datatype Key = Key(digest: BindingDigest, mechanism: Mechanism)

  function KeyOf(r: Record): Key {
    Key(r.bindingDigest, r.mechanism)
  }

  /**
   What has happened so far: the approvals given and the ones consumed, the final status of every record that
   reached one, the identifiers handed out, and for the current session the expiries in order, those the owning
   server has written down, and the batch it is writing.
   */
  datatype History = History(
    approved: multiset<Key>,
    consumed: multiset<Key>,
    ended: map<string, Status>,
    used: set<string>,
    expiries: seq<Summary>,
    written: seq<Summary>,
    batch: seq<Summary>)

  const NOTHING: History := History(multiset{}, multiset{}, map[], {}, [], [], [])

  /** The operations of the store and, between them, the server writing down one transition of its batch. */
  datatype Action = Store(op: Op) | WriteOne

  predicate Allowed(h: History, a: Action) {
    match a
    case WriteOne => h.batch != []
    case Store(op) =>
      && (op.Request? ==> op.newId !in h.used)
      && (op.TakeExpired? ==> h.batch == [])
      && (op.BeginSession? ==> h.batch == [])
      && (op.RestoreExpired? ==> op.transitions == h.batch)
  }

  function Ended(rs: seq<Record>): map<string, Status> {
    if rs == [] then map[]
    else if IsTerminal(rs[0].status) then Ended(rs[1..])[rs[0].id := rs[0].status]
    else Ended(rs[1..])
  }

  function Ids(rs: seq<Record>): set<string> {
    set r | r in rs :: r.id
  }

  function ApprovedKeys(rs: seq<Record>): multiset<Key> {
    if rs == [] then multiset{}
    else (if rs[0].status == Approved then multiset{KeyOf(rs[0])} else multiset{}) + ApprovedKeys(rs[1..])
  }

  function Clock(op: Op): Option<int> {
    match op
    case Request(_, _, _, now, _, _, _) => Some(now)
    case Approve(_, now) => Some(now)
    case Deny(_, now) => Some(now)
    case ApproveAndConsume(_, _, now) => Some(now)
    case Consume(_, _, now) => Some(now)
    case Expire(now) => Some(now)
    case _ => None
  }

  /** The records as the rest of the operation sees them. */
  function Due(st: State, op: Op): State {
    if Clock(op).Some? then ExpireState(st, Clock(op).value) else st
  }

  // The key a successful decision or consumption is about: that of the record decided, or of the operation asked for.
  function DecidedKey(st: State, op: Op): Key
    requires Decision(op)
  {
    if op.Consume? then Key(DigestOf(st.session, op.binding), op.mechanism)
    else
      var due := Due(st, op);
      var i := FirstWhere(due.records, HasToken(op.token));
      if i < |due.records| then KeyOf(due.records[i])
      else Key(BindingDigest("", Binding("", "", "", "", None, "", "", "")), Form)
  }

  predicate Decision(op: Op) {
    op.Approve? || op.ApproveAndConsume? || op.Consume?
  }

  function Seen(h: History, rs: seq<Record>): History {
    h.(ended := h.ended + Ended(rs), used := h.used + Ids(rs))
  }

  function SeenExpiry(h: History, st: State, due: State): History {
    if |st.expiredTransitions| > |due.expiredTransitions| then h
    else Seen(h, due.records).(expiries := h.expiries + due.expiredTransitions[|st.expiredTransitions|..])
  }

  function Remember(limits: Limits, st: State, h: History, op: Op): History {
    var due := Due(st, op);
    var (after, reply) := Step(limits, st, op);
    var now := Seen(if Clock(op).Some? then SeenExpiry(h, st, due) else h, after.records);
    if reply.Decided? && Decision(op) then
      var key := DecidedKey(st, op);
      now.(approved := if op.Consume? then now.approved else now.approved + multiset{key},
           consumed := if op.Approve? then now.consumed else now.consumed + multiset{key})
    else if op.BeginSession? then now.(expiries := [], written := [])
    else if op.TakeExpired? then now.(batch := st.expiredTransitions)
    else if op.RestoreExpired? then now.(batch := [])
    else now
  }

  function Act(limits: Limits, st: State, h: History, a: Action): (State, History) {
    match a
    case Store(op) => (Step(limits, st, op).0, Remember(limits, st, h, op))
    case WriteOne =>
      if h.batch == [] then (st, h)
      else (st, h.(written := h.written + [h.batch[0]], batch := h.batch[1..]))
  }

  /// ## What is kept

  ghost predicate Records(limits: Limits, st: State) {
    && |st.records| <= limits.maxRecords
    && (forall i :: 0 <= i < |st.records| ==>
          st.records[i].sessionId == st.session && |st.records[i].tokenDigests| <= MAX_BEARERS)
    && Distinct(st.records)
  }

  // No two records share an identifier, and no two pending ones a binding.
  ghost predicate Distinct(rs: seq<Record>) {
    forall i, k :: 0 <= i < k < |rs| ==> Differ(rs[i], rs[k])
  }

  predicate Differ(a: Record, b: Record) {
    a.id != b.id && (a.status == Pending && b.status == Pending ==> a.bindingDigest != b.bindingDigest)
  }

  ghost predicate Balanced(st: State, h: History) {
    ApprovedKeys(st.records) + h.consumed <= h.approved
  }

  ghost predicate Final(st: State, h: History) {
    && h.ended.Keys <= h.used
    && (forall i :: 0 <= i < |st.records| ==>
          var r := st.records[i];
          && r.id in h.used
          && if IsTerminal(r.status) then r.id in h.ended && h.ended[r.id] == r.status else r.id !in h.ended)
  }

  ghost predicate Delivered(st: State, h: History) {
    && h.expiries == h.written + h.batch + st.expiredTransitions
    && (forall i :: 0 <= i < |h.expiries| ==> h.expiries[i].id in h.ended && h.ended[h.expiries[i].id] == Expired)
    && DistinctIds(h.expiries)
    && (forall i :: 0 <= i < |st.records| && st.records[i].status == Expired ==> Listed(h.expiries, st.records[i].id))
  }

  ghost predicate DistinctIds(ts: seq<Summary>) {
    forall i, k :: 0 <= i < k < |ts| ==> ts[i].id != ts[k].id
  }

  ghost predicate Listed(ts: seq<Summary>, id: string) {
    exists i :: 0 <= i < |ts| && ts[i].id == id
  }

  ghost predicate Inv(limits: Limits, st: State, h: History) {
    Records(limits, st) && Balanced(st, h) && Final(st, h) && Delivered(st, h)
  }

  /// ## Small steps

  lemma {:induction false} EndedHas(rs: seq<Record>)
    ensures forall id :: id in Ended(rs) <==> exists i :: 0 <= i < |rs| && rs[i].id == id && IsTerminal(rs[i].status)
    ensures (forall i, k :: 0 <= i < k < |rs| ==> rs[i].id != rs[k].id) ==>
      forall i :: 0 <= i < |rs| && IsTerminal(rs[i].status) ==>
        rs[i].id in Ended(rs) && Ended(rs)[rs[i].id] == rs[i].status
  {
    if rs != [] {
      var rest := rs[1..];
      EndedHas(rest);
      forall id ensures id in Ended(rs) <==> exists i :: 0 <= i < |rs| && rs[i].id == id && IsTerminal(rs[i].status) {
        if id in Ended(rest) {
          var i :| 0 <= i < |rest| && rest[i].id == id && IsTerminal(rest[i].status);
          assert rs[i + 1] == rest[i];
        }
        if exists i :: 0 <= i < |rs| && rs[i].id == id && IsTerminal(rs[i].status) {
          var i :| 0 <= i < |rs| && rs[i].id == id && IsTerminal(rs[i].status);
          if i > 0 { assert rest[i - 1] == rs[i]; }
        }
      }
      if forall i, k :: 0 <= i < k < |rs| ==> rs[i].id != rs[k].id {
        forall i | 0 <= i < |rs| && IsTerminal(rs[i].status)
          ensures rs[i].id in Ended(rs) && Ended(rs)[rs[i].id] == rs[i].status
        {
          if i > 0 { assert rest[i - 1] == rs[i]; }
        }
      }
    }
  }

  lemma {:induction false} ApprovedConcat(a: seq<Record>, b: seq<Record>)
    ensures ApprovedKeys(a + b) == ApprovedKeys(a) + ApprovedKeys(b)
  {
    if a == [] {
      assert a + b == b;
    } else {
      assert (a + b)[1..] == a[1..] + b;
      ApprovedConcat(a[1..], b);
    }
  }

  function OwnKeys(r: Record): multiset<Key> {
    if r.status == Approved then multiset{KeyOf(r)} else multiset{}
  }

  lemma ApprovedUpdate(rs: seq<Record>, i: nat, r: Record)
    requires i < |rs|
    ensures ApprovedKeys(rs[i := r]) + OwnKeys(rs[i]) == ApprovedKeys(rs) + OwnKeys(r)
  {
    var a, b := rs[..i], rs[i + 1..];
    assert rs == a + ([rs[i]] + b) && rs[i := r] == a + ([r] + b);
    ApprovedConcat(a, [rs[i]] + b);
    ApprovedConcat([rs[i]], b);
    ApprovedConcat(a, [r] + b);
    ApprovedConcat([r], b);
  }

  // What leaves and enters the approved records balances what is added to the counts.
  lemma BalanceMoves(before: multiset<Key>, after: multiset<Key>, leaves: multiset<Key>, enters: multiset<Key>,
                     consumed: multiset<Key>, approved: multiset<Key>, x: multiset<Key>, y: multiset<Key>)
    requires after + leaves == before + enters && enters + y == leaves + x && before + consumed <= approved
    ensures after + (consumed + y) <= approved + x
  {
    forall k ensures (after + (consumed + y))[k] <= (approved + x)[k] {
      assert (after + leaves)[k] == (before + enters)[k] && (enters + y)[k] == (leaves + x)[k];
      assert (before + consumed)[k] <= approved[k];
    }
  }

  lemma {:induction false} ApprovedShrinks(rs: seq<Record>, session: string, now: int, id: string)
    ensures ApprovedKeys(ExpireRecords(rs, session, now)) <= ApprovedKeys(rs)
    ensures ApprovedKeys(Live(rs)) == ApprovedKeys(rs)
    ensures ApprovedKeys(Without(rs, id)) <= ApprovedKeys(rs)
  {
    if rs != [] {
      ApprovedShrinks(rs[1..], session, now, id);
      var due := ExpireRecords(rs, session, now);
      assert due[1..] == ExpireRecords(rs[1..], session, now);
      var first := if IsTerminal(rs[0].status) then [] else [rs[0]];
      ApprovedConcat(first, Live(rs[1..]));
      ApprovedConcat(if rs[0].id == id then [] else [rs[0]], Without(rs[1..], id));
    }
  }

  // The records that are kept are among those there were.
  ghost predicate Part(part: seq<Record>, rs: seq<Record>) {
    |part| <= |rs| && (forall i :: 0 <= i < |part| ==> part[i] in rs) && (Distinct(rs) ==> Distinct(part))
  }

  lemma PartOfMore(first: Record, part: seq<Record>, rest: seq<Record>)
    requires Part(part, rest)
    ensures Part(part, [first] + rest) && Part([first] + part, [first] + rest)
  {
    var all, rs := [first] + part, [first] + rest;
    if Distinct(rs) {
      assert Distinct(rest) by {
        forall i, k | 0 <= i < k < |rest| ensures Differ(rest[i], rest[k]) { assert Differ(rs[i + 1], rs[k + 1]); }
      }
      forall k | 0 < k < |all| ensures Differ(first, all[k]) {
        var b :| 0 <= b < |rest| && rest[b] == part[k - 1];
        assert Differ(rs[0], rs[b + 1]);
      }
    }
  }

  lemma {:induction false} LiveIsPart(rs: seq<Record>)
    ensures Part(Live(rs), rs) && forall r :: r in Live(rs) ==> !IsTerminal(r.status)
  {
    if rs != [] {
      LiveIsPart(rs[1..]);
      assert rs == [rs[0]] + rs[1..];
      PartOfMore(rs[0], Live(rs[1..]), rs[1..]);
    }
  }

  lemma {:induction false} WithoutIsPart(rs: seq<Record>, id: string)
    ensures Part(Without(rs, id), rs) && forall r :: r in Without(rs, id) ==> r.id != id
  {
    if rs != [] {
      WithoutIsPart(rs[1..], id);
      assert rs == [rs[0]] + rs[1..];
      PartOfMore(rs[0], Without(rs[1..], id), rs[1..]);
    }
  }

  /// ## Expiry

  predicate DueAt(rs: seq<Record>, session: string, now: int, i: int, id: string) {
    0 <= i < |rs| && IsDue(rs[i], session, now) && rs[i].id == id
  }

  ghost predicate SomeDue(rs: seq<Record>, session: string, now: int, id: string) {
    exists i :: DueAt(rs, session, now, i, id)
  }

  ghost predicate AllDue(ts: seq<Summary>, rs: seq<Record>, session: string, now: int) {
    forall k :: 0 <= k < |ts| ==> SomeDue(rs, session, now, ts[k].id)
  }

  lemma {:induction false} TransitionsAre(rs: seq<Record>, session: string, now: int)
    requires Distinct(rs)
    ensures AllDue(Transitions(rs, session, now), rs, session, now)
    ensures forall i :: 0 <= i < |rs| && IsDue(rs[i], session, now) ==> Listed(Transitions(rs, session, now), rs[i].id)
    ensures DistinctIds(Transitions(rs, session, now))
  {
    if rs != [] {
      var rest := rs[1..];
      assert Distinct(rest) by {
        forall i, k | 0 <= i < k < |rest| ensures Differ(rest[i], rest[k]) { assert Differ(rs[i + 1], rs[k + 1]); }
      }
      TransitionsAre(rest, session, now);
      var first := if IsDue(rs[0], session, now) then [SummaryOf(rs[0].(status := Expired))] else [];
      var later, ts := Transitions(rest, session, now), Transitions(rs, session, now);
      assert ts == first + later;
      forall k | 0 <= k < |ts| ensures SomeDue(rs, session, now, ts[k].id) {
        if k < |first| {
          assert DueAt(rs, session, now, 0, ts[k].id);
        } else {
          assert SomeDue(rest, session, now, later[k - |first|].id);
          var i :| DueAt(rest, session, now, i, later[k - |first|].id);
          assert DueAt(rs, session, now, i + 1, ts[k].id);
        }
      }
      forall i | 0 <= i < |rs| && IsDue(rs[i], session, now) ensures Listed(ts, rs[i].id) {
        ListedConcat(first, later, rs[i].id);
        if i > 0 { assert rest[i - 1] == rs[i]; } else { assert first[0].id == rs[0].id; }
      }
      forall k | 0 <= k < |later| ensures rs[0].id != later[k].id {
        assert SomeDue(rest, session, now, later[k].id);
        var i :| DueAt(rest, session, now, i, later[k].id);
        assert Differ(rs[0], rs[i + 1]);
      }
      DistinctConcat(first, later);
    }
  }

  lemma ExpiryKeepsRecords(limits: Limits, st: State, now: int)
    requires Records(limits, st)
    ensures Records(limits, ExpireState(st, now))
  {
    var due := ExpireState(st, now);
    forall i, k | 0 <= i < k < |due.records| ensures Differ(due.records[i], due.records[k]) {
      assert Differ(st.records[i], st.records[k]);
    }
  }

  // Records seen to be final are remembered as such, and nothing remembered is contradicted.
  lemma SeenKeepsFinal(limits: Limits, st: State, h: History, after: State)
    requires Records(limits, after) && h.ended.Keys <= h.used
    requires forall i :: 0 <= i < |after.records| ==> var r := after.records[i];
      r.id in h.ended ==> IsTerminal(r.status) && h.ended[r.id] == r.status
    ensures Final(after, Seen(h, after.records))
    ensures forall id :: id in h.ended ==>
      id in Seen(h, after.records).ended && Seen(h, after.records).ended[id] == h.ended[id]
  {
    EndedHas(after.records);
    var rs, now := after.records, Seen(h, after.records);
    DistinctRecordIds(rs);
    forall i | 0 <= i < |rs| && !IsTerminal(rs[i].status) ensures rs[i].id !in Ended(rs) {
      assert forall k :: 0 <= k < |rs| && rs[k].id == rs[i].id ==> k == i;
    }
    forall id | id in h.ended && id in Ended(rs) ensures Ended(rs)[id] == h.ended[id] {
      var k :| 0 <= k < |rs| && rs[k].id == id && IsTerminal(rs[k].status);
    }
    forall id | id in Ended(rs) ensures id in Ids(rs) {
      var k :| 0 <= k < |rs| && rs[k].id == id && IsTerminal(rs[k].status);
      assert rs[k] in rs;
    }
  }

  lemma DistinctRecordIds(rs: seq<Record>)
    requires Distinct(rs)
    ensures forall i, k :: 0 <= i < k < |rs| ==> rs[i].id != rs[k].id
  {
    forall i, k | 0 <= i < k < |rs| ensures rs[i].id != rs[k].id { assert Differ(rs[i], rs[k]); }
  }

  lemma ExpiryKeepsDelivered(limits: Limits, st: State, h: History, now: int)
    requires Inv(limits, st, h)
    requires var due := ExpireState(st, now); Final(due, SeenExpiry(h, st, due))
    requires var seen := SeenExpiry(h, st, ExpireState(st, now)).ended;
      forall id :: id in h.ended ==> id in seen && seen[id] == h.ended[id]
    ensures var due := ExpireState(st, now); Delivered(due, SeenExpiry(h, st, due))
  {
    hide Records, Final, Transitions, Balanced;
    var due := ExpireState(st, now);
    var seen := SeenExpiry(h, st, due);
    var ts := Transitions(st.records, st.session, now);
    assert due.expiredTransitions[|st.expiredTransitions|..] == ts;
    assert seen.expiries == h.expiries + ts && seen.expiries == seen.written + seen.batch + due.expiredTransitions;
    TransitionsAreNew(limits, st, h, now, seen);
    DistinctConcat(h.expiries, ts);
    forall i | 0 <= i < |due.records| && due.records[i].status == Expired
      ensures Listed(seen.expiries, due.records[i].id)
    {
      ListedConcat(h.expiries, ts, due.records[i].id);
      assert due.records[i] == ExpireRecord(st.records[i], st.session, now);
    }
  }

  lemma TransitionsAreNew(limits: Limits, st: State, h: History, now: int, seen: History)
    requires Records(limits, st) && Final(st, h) && Final(ExpireState(st, now), seen)
    ensures var ts := Transitions(st.records, st.session, now);
      && DistinctIds(ts)
      && (forall k :: 0 <= k < |ts| ==>
            ts[k].id !in h.ended && ts[k].id in seen.ended && seen.ended[ts[k].id] == Expired)
      && (forall i :: 0 <= i < |st.records| && IsDue(st.records[i], st.session, now) ==> Listed(ts, st.records[i].id))
  {
    var due, ts := ExpireState(st, now), Transitions(st.records, st.session, now);
    TransitionsAre(st.records, st.session, now);
    forall k | 0 <= k < |ts| ensures ts[k].id !in h.ended && ts[k].id in seen.ended && seen.ended[ts[k].id] == Expired {
      assert SomeDue(st.records, st.session, now, ts[k].id);
      var i :| DueAt(st.records, st.session, now, i, ts[k].id);
      assert due.records[i].id == ts[k].id && due.records[i].status == Expired;
    }
  }

  lemma DistinctConcat(a: seq<Summary>, b: seq<Summary>)
    requires DistinctIds(a) && DistinctIds(b)
    requires forall i, k :: 0 <= i < |a| && 0 <= k < |b| ==> a[i].id != b[k].id
    ensures DistinctIds(a + b)
  {
  }

  lemma ListedConcat(a: seq<Summary>, b: seq<Summary>, id: string)
    ensures Listed(a + b, id) <==> Listed(a, id) || Listed(b, id)
  {
    if Listed(a, id) {
      var i :| 0 <= i < |a| && a[i].id == id;
      assert (a + b)[i].id == id;
    }
    if Listed(b, id) {
      var i :| 0 <= i < |b| && b[i].id == id;
      assert (a + b)[|a| + i].id == id;
    }
  }

  /** Expiring the due records keeps everything, and adds their transitions to the queue. */
  lemma ExpiryKeeps(limits: Limits, st: State, h: History, now: int)
    requires Inv(limits, st, h)
    ensures var due := ExpireState(st, now);
      Inv(limits, due, SeenExpiry(h, st, due))
  {
    hide Ended, Ids, ApprovedKeys, Transitions, ExpireRecords, Records, Final;
    var due := ExpireState(st, now);
    ExpiryKeepsRecords(limits, st, now);
    ApprovedShrinks(st.records, st.session, now, "");
    ExpiryEnds(limits, st, h, now);
    SeenKeepsFinal(limits, st, h, due);
    FinalBoth(due, Seen(h, due.records), SeenExpiry(h, st, due));
    ExpiryKeepsDelivered(limits, st, h, now);
  }

  // A record that is final stays as it is when the due records expire.
  lemma ExpiryEnds(limits: Limits, st: State, h: History, now: int)
    requires Final(st, h)
    ensures h.ended.Keys <= h.used
    ensures var due := ExpireState(st, now);
      forall i :: 0 <= i < |due.records| ==>
        var r := due.records[i]; r.id in h.ended ==> IsTerminal(r.status) && h.ended[r.id] == r.status
  {
    var due := ExpireState(st, now);
    forall i | 0 <= i < |due.records|
      ensures var r := due.records[i]; r.id in h.ended ==> IsTerminal(r.status) && h.ended[r.id] == r.status
    {
      assert due.records[i] == ExpireRecord(st.records[i], st.session, now);
    }
  }

  // Only what ended and what was used matters.
  lemma FinalBoth(st: State, h: History, other: History)
    requires Final(st, h) && other.ended == h.ended && other.used == h.used
    ensures Final(st, other)
  {
  }

  /// ## The rest of an operation

  // Changes behind the expiry check: the records after it, and what they add to the history.
  ghost predicate Evolved(limits: Limits, due: State, h: History, after: State, now: History) {
    && Records(limits, after) && after.session == due.session && after.expiredTransitions == due.expiredTransitions
    && now == Seen(h, after.records).(approved := now.approved, consumed := now.consumed)
    && Balanced(after, now)
    && (forall i :: 0 <= i < |after.records| ==> var r := after.records[i];
          && (r.id in h.ended ==> IsTerminal(r.status) && h.ended[r.id] == r.status)
          && (r.status == Expired ==> Listed(h.expiries, r.id)))
  }

  lemma EvolvedKeeps(limits: Limits, due: State, h: History, after: State, now: History)
    requires Inv(limits, due, h) && Evolved(limits, due, h, after, now)
    ensures Inv(limits, after, now)
  {
    SeenKeepsFinal(limits, due, h, after);
    hide Records, Ended, Ids;
  }

  // Dropping records keeps everything.
  lemma PartKeeps(limits: Limits, due: State, h: History, part: seq<Record>)
    requires Inv(limits, due, h) && Part(part, due.records) && ApprovedKeys(part) <= ApprovedKeys(due.records)
    ensures Evolved(limits, due, h, due.(records := part), Seen(h, part))
  {
    forall i | 0 <= i < |part| ensures exists k :: 0 <= k < |due.records| && part[i] == due.records[k] {
      assert part[i] in due.records;
    }
  }

  // A new status for one record that had not reached a final one, or another bearer for it.
  lemma UpdateKeeps(limits: Limits, due: State, h: History, i: nat, r: Record, x: multiset<Key>, y: multiset<Key>)
    requires Inv(limits, due, h) && i < |due.records|
    requires var was := due.records[i];
      && !IsTerminal(was.status) && r.status != Expired && (r.status == Pending ==> was.status == Pending)
      && r == was.(status := r.status, tokenDigests := r.tokenDigests) && |r.tokenDigests| <= MAX_BEARERS
      && OwnKeys(r) + y == OwnKeys(was) + x
    ensures var rs := due.records[i := r];
      Inv(limits, due.(records := rs), Seen(h, rs).(approved := h.approved + x, consumed := h.consumed + y))
  {
    hide ApprovedKeys, OwnKeys, Distinct, Ended, Ids, Listed;
    var rs := due.records[i := r];
    UpdateBalances(due, h, i, r, x, y);
    DistinctUpdate(due.records, i, r);
    assert forall k :: 0 <= k < |rs| ==> rs[k] == if k == i then r else due.records[k];
    EvolvedKeeps(limits, due, h, due.(records := rs),
      Seen(h, rs).(approved := h.approved + x, consumed := h.consumed + y));
  }

  lemma UpdateBalances(due: State, h: History, i: nat, r: Record, x: multiset<Key>, y: multiset<Key>)
    requires Balanced(due, h) && i < |due.records| && OwnKeys(r) + y == OwnKeys(due.records[i]) + x
    ensures ApprovedKeys(due.records[i := r]) + (h.consumed + y) <= h.approved + x
  {
    ApprovedUpdate(due.records, i, r);
    hide ApprovedKeys, OwnKeys;
    BalanceMoves(ApprovedKeys(due.records), ApprovedKeys(due.records[i := r]), OwnKeys(due.records[i]), OwnKeys(r),
      h.consumed, h.approved, x, y);
  }

  lemma DistinctUpdate(rs: seq<Record>, i: nat, r: Record)
    requires i < |rs| && Distinct(rs) && r.id == rs[i].id && r.bindingDigest == rs[i].bindingDigest
    requires r.status == Pending ==> rs[i].status == Pending
    ensures Distinct(rs[i := r])
  {
    var out := rs[i := r];
    forall a, b | 0 <= a < b < |out| ensures Differ(out[a], out[b]) { assert Differ(rs[a], rs[b]); }
  }

  // One more record, behind some of those there were.
  lemma AppendKeeps(limits: Limits, due: State, h: History, part: seq<Record>, r: Record)
    requires Inv(limits, due, h) && Part(part, due.records) && ApprovedKeys(part) <= ApprovedKeys(due.records)
    requires |part| < limits.maxRecords
    requires r.status == Pending && r.sessionId == due.session && |r.tokenDigests| <= MAX_BEARERS && r.id !in h.used
    requires forall o :: o in due.records && o.status == Pending ==> o.bindingDigest != r.bindingDigest
    ensures Inv(limits, due.(records := part + [r]), Seen(h, part + [r]))
  {
    PartKeeps(limits, due, h, part);
    AppendedKeys(part, r);
    AppendDiffers(due.records, part, r, h, due);
    assert r.id !in h.ended;
    hide ApprovedKeys, Ended, Ids, Part, Distinct, Inv;
    AppendEvolves(limits, due, h, part, r);
    EvolvedKeeps(limits, due, h, due.(records := part + [r]), Seen(h, part + [r]));
  }

  lemma AppendEvolves(limits: Limits, due: State, h: History, part: seq<Record>, r: Record)
    requires Evolved(limits, due, h, due.(records := part), Seen(h, part)) && |part| < limits.maxRecords
    requires r.status == Pending && r.sessionId == due.session && |r.tokenDigests| <= MAX_BEARERS && r.id !in h.ended
    requires Distinct(part + [r]) && ApprovedKeys(part + [r]) == ApprovedKeys(part)
    ensures Evolved(limits, due, h, due.(records := part + [r]), Seen(h, part + [r]))
  {
    hide ApprovedKeys, Ended, Ids, Distinct, Listed;
    var rs := part + [r];
    assert forall i :: 0 <= i < |rs| ==> rs[i] == if i < |part| then part[i] else r;
  }

  lemma AppendedKeys(part: seq<Record>, r: Record)
    requires r.status == Pending
    ensures ApprovedKeys(part + [r]) == ApprovedKeys(part)
  {
    ApprovedConcat(part, [r]);
  }

  lemma AppendDiffers(rs: seq<Record>, part: seq<Record>, r: Record, h: History, due: State)
    requires Part(part, rs) && Distinct(rs) && due.records == rs && Final(due, h) && r.id !in h.used
    requires forall o :: o in rs && o.status == Pending ==> o.bindingDigest != r.bindingDigest
    ensures Distinct(part + [r])
  {
    var all := part + [r];
    forall a, b | 0 <= a < b < |all| ensures Differ(all[a], all[b]) {
      assert part[a] in rs;
      assert b < |part| ==> Differ(part[a], part[b]);
    }
  }

  lemma SeenAgain(st: State, h: History)
    requires Final(st, h) && Distinct(st.records)
    ensures Seen(h, st.records) == h
  {
    EndedHas(st.records);
    DistinctRecordIds(st.records);
    assert Ids(st.records) <= h.used;
    assert h.ended + Ended(st.records) == h.ended;
    assert h.used + Ids(st.records) == h.used;
  }

  /// ## Each operation

  lemma ReuseKeeps(limits: Limits, due: State, h: History, i: nat, op: Op)
    requires op.Request? && Inv(limits, due, h) && i < |due.records| && due.records[i].status == Pending
    ensures var rs := due.records[i := IssueToken(due.records[i], false, op.isSafe, op.tokens).0];
      Inv(limits, due.(records := rs), Seen(h, rs))
  {
    var r := IssueToken(due.records[i], false, op.isSafe, op.tokens).0;
    assert |due.records[i].tokenDigests| <= MAX_BEARERS;
    hide Inv, Seen;
    UpdateKeeps(limits, due, h, i, r, multiset{}, multiset{});
    SeenCounts(h, due.records[i := r]);
    assert h.approved + multiset{} == h.approved && h.consumed + multiset{} == h.consumed;
  }

  lemma NewKeeps(limits: Limits, due: State, h: History, op: Op)
    requires op.Request? && Inv(limits, due, h) && op.newId !in h.used
    requires forall o :: o in due.records && o.status == Pending ==>
      o.bindingDigest != DigestOf(due.session, op.binding)
    ensures var live := Live(due.records); Inv(limits, due.(records := live), Seen(h, live))
    ensures var (r, reply) := IssueToken(NewRecord(due, op, limits), true, op.isSafe, op.tokens);
      var rs := Live(due.records) + [r];
      |rs| <= limits.maxRecords && !reply.Failed? ==> Inv(limits, due.(records := rs), Seen(h, rs))
  {
    var live := Live(due.records);
    LiveIsPart(due.records);
    ApprovedShrinks(due.records, due.session, op.now, "");
    PartKeeps(limits, due, h, live);
    hide Inv, Part, Seen, ApprovedKeys;
    EvolvedKeeps(limits, due, h, due.(records := live), Seen(h, live));
    var (r, reply) := IssueToken(NewRecord(due, op, limits), true, op.isSafe, op.tokens);
    if |live| < limits.maxRecords && !reply.Failed? {
      AppendKeeps(limits, due, h, live, r);
    }
  }

  lemma RequestKeeps(limits: Limits, st: State, h: History, op: Op)
    requires op.Request? && Inv(limits, Due(st, op), h) && op.newId !in h.used
    ensures var after := StepRequest(limits, st, op).0; Inv(limits, after, Seen(h, after.records))
  {
    hide Inv, Final, Distinct, Seen, ExpireState, IssueToken;
    var due := Due(st, op);
    InvParts(limits, due, h);
    SeenAgain(due, h);
    assert due.session == st.session by { DueSession(st, op); }
    var p := IsPendingFor(st.session, DigestOf(st.session, op.binding));
    var i := FirstWhere(due.records, p);
    if i < |due.records| {
      assert p(due.records[i]);
      ReuseKeeps(limits, due, h, i, op);
    } else {
      forall o | o in due.records && o.status == Pending ensures o.bindingDigest != DigestOf(st.session, op.binding) {
        var k :| 0 <= k < |due.records| && due.records[k] == o;
        assert !p(due.records[k]);
      }
      NewKeeps(limits, due, h, op);
    }
  }

  lemma DueSession(st: State, op: Op)
    ensures Due(st, op).session == st.session
  {
  }

  // A decision that succeeds: the history gains an approval, a consumption, or both.
  lemma DecisionKeeps(limits: Limits, due: State, h: History, i: nat, status: Status)
    requires Inv(limits, due, h) && i < |due.records|
    requires var was := due.records[i].status;
      (was == Pending && (status == Approved || status == Denied || status == Consumed)) ||
        (was == Approved && status == Consumed)
    ensures var after := Update(due, i, status).0;
      var approves := due.records[i].status == Pending && status != Denied;
      Inv(limits, after, Counted(Seen(h, after.records), KeyOf(due.records[i]), approves, status == Consumed))
  {
    var r := due.records[i].(status := status);
    assert |r.tokenDigests| <= MAX_BEARERS;
    hide Inv, Seen;
    var key, none := multiset{KeyOf(r)}, multiset{};
    var x := if due.records[i].status == Pending && status != Denied then key else none;
    var y := if status == Consumed then key else none;
    UpdateKeeps(limits, due, h, i, r, x, y);
    assert h.approved + none == h.approved && h.consumed + none == h.consumed;
    SeenCounts(h, due.records[i := r]);
  }

  lemma SeenCounts(h: History, rs: seq<Record>)
    ensures Seen(h, rs).approved == h.approved && Seen(h, rs).consumed == h.consumed
  {
  }

  function Counted(h: History, key: Key, approved: bool, consumed: bool): History {
    h.(approved := if approved then h.approved + multiset{key} else h.approved,
       consumed := if consumed then h.consumed + multiset{key} else h.consumed)
  }

  // What a decided reply says about the record that was found.
  lemma BearerFound(st: State, op: Op)
    requires (op.Approve? || op.Deny? || op.ApproveAndConsume?) && Step(Limits(1, 1), st, op).1.Decided?
    ensures var due, i := Due(st, op), FirstWhere(Due(st, op).records, HasToken(op.token));
      && i < |due.records| && due.records[i].status == Pending
      && Step(Limits(1, 1), st, op)
         == Update(due, i, if op.Approve? then Approved else if op.Deny? then Denied else Consumed)
      && (Decision(op) ==> DecidedKey(st, op) == KeyOf(due.records[i]))
  {
  }

  lemma ApprovedFound(st: State, op: Op)
    requires op.Consume? && StepConsume(st, op).1.Decided?
    ensures var due := Due(st, op);
      var i := FirstWhere(due.records, IsApprovedFor(st.session, DigestOf(st.session, op.binding), op.mechanism));
      && i < |due.records| && due.records[i].status == Approved && StepConsume(st, op) == Update(due, i, Consumed)
      && DecidedKey(st, op) == KeyOf(due.records[i])
  {
    var due := Due(st, op);
    var i := FirstWhere(due.records, IsApprovedFor(st.session, DigestOf(st.session, op.binding), op.mechanism));
    assert IsApprovedFor(st.session, DigestOf(st.session, op.binding), op.mechanism)(due.records[i]);
  }

  lemma UndecidedStays(limits: Limits, st: State, op: Op)
    requires (op.Approve? || op.Deny? || op.ApproveAndConsume? || op.Consume?) && !Step(limits, st, op).1.Decided?
    ensures Step(limits, st, op).0 == Due(st, op)
  {
  }

  lemma DecideKeeps(limits: Limits, st: State, h: History, op: Op)
    requires (op.Approve? || op.Deny? || op.ApproveAndConsume? || op.Consume?) && Inv(limits, Due(st, op), h)
    ensures var (after, reply) := Step(limits, st, op);
      Inv(limits, after,
          if reply.Decided? && Decision(op)
          then Counted(Seen(h, after.records), DecidedKey(st, op), !op.Consume?, !op.Approve?)
          else Seen(h, after.records))
  {
    var due := Due(st, op);
    var reply := Step(limits, st, op).1;
    if !reply.Decided? {
      UndecidedStays(limits, st, op);
      hide ExpireState, DecidedKey, Records, Balanced, Delivered, Step;
      SeenAgain(due, h);
    } else if op.Consume? {
      ApprovedFound(st, op);
      hide ExpireState, DecidedKey, Inv, StepConsume, Seen;
      DecisionKeeps(limits, due, h,
        FirstWhere(due.records, IsApprovedFor(st.session, DigestOf(st.session, op.binding), op.mechanism)), Consumed);
    } else {
      BearerFound(st, op);
      hide ExpireState, DecidedKey, Inv, StepDecide, StepApproveAndConsume, Seen;
      DecisionKeeps(limits, due, h, FirstWhere(due.records, HasToken(op.token)),
        if op.Approve? then Approved else if op.Deny? then Denied else Consumed);
    }
  }

  lemma RevokeKeeps(limits: Limits, st: State, h: History, id: string)
    requires Inv(limits, st, h)
    ensures var rs := Without(st.records, id); Inv(limits, st.(records := rs), Seen(h, rs))
  {
    WithoutIsPart(st.records, id);
    ApprovedShrinks(st.records, st.session, 0, id);
    hide Without, ApprovedKeys, Ended, Ids;
    PartKeeps(limits, st, h, Without(st.records, id));
    EvolvedKeeps(limits, st, h, st.(records := Without(st.records, id)), Seen(h, Without(st.records, id)));
  }

  lemma SessionKeeps(limits: Limits, st: State, h: History, session: string)
    requires Inv(limits, st, h) && h.batch == [] && limits.maxRecords > 0
    ensures Inv(limits, State([], [], session), Seen(h, []).(expiries := [], written := []))
  {
  }

  /** Every action keeps the invariant. */
  lemma ActKeeps(limits: Limits, st: State, h: History, a: Action)
    requires Inv(limits, st, h) && Allowed(h, a) && limits.maxRecords > 0
    ensures var (after, now) := Act(limits, st, h, a); Inv(limits, after, now)
  {
    if a.Store? {
      if Clock(a.op).Some? { ClockedKeeps(limits, st, h, a.op); } else { OtherKeeps(limits, st, h, a.op); }
    }
  }

  lemma ClockedKeeps(limits: Limits, st: State, h: History, op: Op)
    requires Inv(limits, st, h) && Clock(op).Some? && (op.Request? ==> op.newId !in h.used)
    ensures Inv(limits, Step(limits, st, op).0, Remember(limits, st, h, op))
  {
    hide Inv, Final, Distinct, Seen, SeenExpiry, ExpireState, DecidedKey;
    hide StepRequest, StepDecide, StepApproveAndConsume, StepConsume;
    var due := Due(st, op);
    ExpiryKeeps(limits, st, h, Clock(op).value);
    ExpiryUses(limits, st, h, Clock(op).value);
    var before := SeenExpiry(h, st, due);
    InvParts(limits, due, before);
    if op.Request? {
      RequestKeeps(limits, st, before, op);
      RequestDoesNotDecide(limits, st, op);
    } else if op.Expire? {
      SeenAgain(due, before);
    } else {
      DecideKeeps(limits, st, before, op);
    }
  }

  lemma InvParts(limits: Limits, st: State, h: History)
    requires Inv(limits, st, h)
    ensures Final(st, h) && Distinct(st.records)
    ensures forall i :: 0 <= i < |st.records| ==> st.records[i].sessionId == st.session
  {
    hide Final, Distinct;
  }

  lemma ExpiryUses(limits: Limits, st: State, h: History, now: int)
    requires Inv(limits, st, h)
    ensures SeenExpiry(h, st, ExpireState(st, now)).used == h.used
  {
    hide Inv, SeenExpiry;
    SeenExpiryUses(limits, st, h, ExpireState(st, now));
  }

  lemma RequestDoesNotDecide(limits: Limits, st: State, op: Op)
    requires op.Request?
    ensures !StepRequest(limits, st, op).1.Decided?
  {
  }

  lemma OtherKeeps(limits: Limits, st: State, h: History, op: Op)
    requires Inv(limits, st, h) && Clock(op).None? && Allowed(h, Store(op)) && limits.maxRecords > 0
    ensures Inv(limits, Step(limits, st, op).0, Remember(limits, st, h, op))
  {
    assert Final(st, h) && Distinct(st.records);
    SeenAgain(st, h);
    hide Seen;
    match op {
      case Revoke(id) => RevokeKeeps(limits, st, h, id);
      case BeginSession(session) => SessionKeeps(limits, st, h, session);
      case TakeExpired => assert h.written + st.expiredTransitions + [] == h.written + [] + st.expiredTransitions;
      case RestoreExpired(ts) =>
        assert h.written + [] + (ts + st.expiredTransitions) == h.written + ts + st.expiredTransitions;
      case _ =>
    }
  }

  lemma SeenExpiryUses(limits: Limits, st: State, h: History, due: State)
    requires Inv(limits, st, h) && |due.records| == |st.records|
    requires forall i :: 0 <= i < |st.records| ==> due.records[i].id == st.records[i].id
    ensures SeenExpiry(h, st, due).used == h.used
  {
    forall id | id in Ids(due.records) ensures id in h.used {
      var i :| 0 <= i < |due.records| && due.records[i].id == id;
      assert st.records[i].id == id;
    }
  }

  /// ## Whole runs

  /** The state and the history after a run of actions, oldest first. */
  function Run(limits: Limits, st: State, h: History, actions: seq<Action>): (State, History)
    decreases |actions|
  {
    if actions == [] then (st, h)
    else
      var (next, now) := Act(limits, st, h, actions[0]);
      Run(limits, next, now, actions[1..])
  }

  // Every action is one the owner may take at that point.
  predicate AllAllowed(limits: Limits, st: State, h: History, actions: seq<Action>)
    decreases |actions|
  {
    actions != [] ==>
      Allowed(h, actions[0]) &&
      (var (next, now) := Act(limits, st, h, actions[0]); AllAllowed(limits, next, now, actions[1..]))
  }

  lemma {:induction false} RunKeeps(limits: Limits, st: State, h: History, actions: seq<Action>)
    requires Inv(limits, st, h) && limits.maxRecords > 0 && AllAllowed(limits, st, h, actions)
    ensures var (after, now) := Run(limits, st, h, actions); Inv(limits, after, now)
    decreases |actions|
  {
    hide Inv, Act;
    if actions != [] {
      ActKeeps(limits, st, h, actions[0]);
      var (next, now) := Act(limits, st, h, actions[0]);
      RunKeeps(limits, next, now, actions[1..]);
    }
  }

  /**
   Over every run: no key is consumed more often than it was approved; the store stays within its bounds, with at
   most one pending record per binding; and the expiries of the session are, in order and without repetition, those
   written down, those being written, and those still queued.
   */
  lemma RunsAreSafe(limits: Limits, session: string, actions: seq<Action>)
    requires limits.maxRecords > 0 && AllAllowed(limits, State([], [], session), NOTHING, actions)
    ensures var (st, h) := Run(limits, State([], [], session), NOTHING, actions);
      && (forall key :: h.consumed[key] <= h.approved[key])
      && |st.records| <= limits.maxRecords
      && (forall r :: r in st.records ==> |r.tokenDigests| <= MAX_BEARERS)
      && (forall i, k ::
            0 <= i < k < |st.records| && st.records[i].status == Pending && st.records[k].status == Pending ==>
            st.records[i].bindingDigest != st.records[k].bindingDigest)
      && h.expiries == h.written + h.batch + st.expiredTransitions && DistinctIds(h.expiries)
      && (forall r :: r in st.records && r.status == Expired ==> Listed(h.expiries, r.id))
  {
    var empty := State([], [], session);
    RunKeeps(limits, empty, NOTHING, actions);
    var (st, h) := Run(limits, empty, NOTHING, actions);
    forall key ensures h.consumed[key] <= h.approved[key] {
      assert (ApprovedKeys(st.records) + h.consumed)[key] <= h.approved[key];
    }
    forall i, k | 0 <= i < k < |st.records| && st.records[i].status == Pending && st.records[k].status == Pending
      ensures st.records[i].bindingDigest != st.records[k].bindingDigest
    {
      assert Differ(st.records[i], st.records[k]);
    }
  }

  // Where the records after an operation come from.
  ghost predicate ComesFrom(s: Record, rs: seq<Record>) {
    exists i :: 0 <= i < |rs| && rs[i].id == s.id && (IsTerminal(rs[i].status) ==> s.status == rs[i].status)
  }

  lemma DueTraces(st: State, op: Op, s: Record)
    requires ComesFrom(s, Due(st, op).records)
    ensures ComesFrom(s, st.records)
  {
    if Clock(op).Some? {
      var rs := Due(st, op).records;
      var i :| 0 <= i < |rs| && rs[i].id == s.id && (IsTerminal(rs[i].status) ==> s.status == rs[i].status);
      assert rs[i] == ExpireRecord(st.records[i], st.session, Clock(op).value);
      assert st.records[i].id == s.id;
    }
  }

  lemma UpdateTraces(rs: seq<Record>, i: nat, r: Record, s: Record)
    requires i < |rs| && r.id == rs[i].id && (!IsTerminal(rs[i].status) || r.status == rs[i].status) && s in rs[i := r]
    ensures ComesFrom(s, rs)
  {
    var k :| 0 <= k < |rs| && rs[i := r][k] == s;
    assert rs[k].id == s.id;
  }

  lemma RequestTraces(limits: Limits, st: State, op: Op, s: Record)
    requires op.Request? && s in StepRequest(limits, st, op).0.records
    ensures ComesFrom(s, Due(st, op).records) || s.id == op.newId
  {
    hide ExpireState;
    var rs := Due(st, op).records;
    LiveIsPart(rs);
    var i := FirstWhere(rs, IsPendingFor(st.session, DigestOf(st.session, op.binding)));
    if s in rs || s in Live(rs) {
      var k :| 0 <= k < |rs| && rs[k] == s;
    } else if i < |rs| {
      UpdateTraces(rs, i, IssueToken(rs[i], false, op.isSafe, op.tokens).0, s);
    }
  }

  lemma DecideTraces(limits: Limits, st: State, op: Op, s: Record)
    requires (op.Approve? || op.Deny? || op.ApproveAndConsume? || op.Consume?) && s in Step(limits, st, op).0.records
    ensures ComesFrom(s, Due(st, op).records)
  {
    var rs := Due(st, op).records;
    if !Step(limits, st, op).1.Decided? {
      UndecidedStays(limits, st, op);
      var k :| 0 <= k < |rs| && rs[k] == s;
    } else if op.Consume? {
      ApprovedFound(st, op);
      hide StepConsume, ExpireState;
      var i := FirstWhere(rs, IsApprovedFor(st.session, DigestOf(st.session, op.binding), op.mechanism));
      UpdateTraces(rs, i, rs[i].(status := Consumed), s);
    } else {
      BearerFound(st, op);
      hide StepDecide, StepApproveAndConsume, ExpireState;
      var i := FirstWhere(rs, HasToken(op.token));
      UpdateTraces(rs, i, rs[i].(status := if op.Approve? then Approved else if op.Deny? then Denied else Consumed), s);
    }
  }

  lemma StepTraces(limits: Limits, st: State, op: Op, s: Record)
    requires s in Step(limits, st, op).0.records
    ensures ComesFrom(s, st.records) || (op.Request? && s.id == op.newId)
  {
    hide StepRequest, StepDecide, StepApproveAndConsume, StepConsume, ComesFrom;
    if op.Request? {
      RequestTraces(limits, st, op, s);
    } else if op.Approve? || op.Deny? || op.ApproveAndConsume? || op.Consume? {
      DecideTraces(limits, st, op, s);
    } else {
      PlainTraces(limits, st, op, s);
    }
    if ComesFrom(s, Due(st, op).records) { DueTraces(st, op, s); }
  }

  lemma PlainTraces(limits: Limits, st: State, op: Op, s: Record)
    requires (op.Expire? || Clock(op).None?) && s in Step(limits, st, op).0.records
    ensures ComesFrom(s, Due(st, op).records)
  {
    var rs := Due(st, op).records;
    if op.Revoke? { WithoutIsPart(st.records, op.id); }
    var k :| 0 <= k < |rs| && rs[k] == s;
  }

  lemma ActKeepsFinal(limits: Limits, st: State, h: History, a: Action, id: string, final: Status)
    requires Allowed(h, a) && IsTerminal(final) && id in h.used
    requires forall s :: s in st.records && s.id == id ==> s.status == final
    ensures forall s :: s in Act(limits, st, h, a).0.records && s.id == id ==> s.status == final
  {
    if a.Store? {
      forall s | s in Step(limits, st, a.op).0.records && s.id == id ensures s.status == final {
        StepTraces(limits, st, a.op, s);
        hide Step;
        var i :| 0 <= i < |st.records| && st.records[i].id == s.id &&
          (IsTerminal(st.records[i].status) ==> s.status == st.records[i].status);
        assert st.records[i] in st.records;
      }
    }
  }

  /** A record that is denied, consumed or expired keeps that status for as long as it is stored. */
  lemma {:induction false} FinalStatusesAreFinal(limits: Limits, st: State, h: History, actions: seq<Action>,
    id: string, final: Status)
    requires Inv(limits, st, h) && limits.maxRecords > 0 && AllAllowed(limits, st, h, actions)
    requires IsTerminal(final) && id in h.used && (forall s :: s in st.records && s.id == id ==> s.status == final)
    ensures forall s :: s in Run(limits, st, h, actions).0.records && s.id == id ==> s.status == final
    decreases |actions|
  {
    if actions != [] {
      var (next, now) := Act(limits, st, h, actions[0]);
      ActKeeps(limits, st, h, actions[0]);
      ActKeepsFinal(limits, st, h, actions[0], id, final);
      UsedStaysUsed(limits, st, h, actions[0], id);
      hide Inv, Act;
      FinalStatusesAreFinal(limits, next, now, actions[1..], id, final);
    }
  }

  lemma UsedStaysUsed(limits: Limits, st: State, h: History, a: Action, id: string)
    requires id in h.used
    ensures id in Act(limits, st, h, a).1.used
  {
    hide Step, Due, Ids, Ended;
  }

  /** Whatever is approved, denied or consumed was not yet due: its deadline is strictly after the clock. */
  lemma DecidedBeforeExpiry(limits: Limits, st: State, h: History, op: Op)
    requires Inv(limits, st, h) && (op.Approve? || op.Deny? || op.ApproveAndConsume? || op.Consume?)
    requires Step(limits, st, op).1.Decided?
    ensures Step(limits, st, op).1.approval.expiresAt > Clock(op).value
  {
    var due := Due(st, op);
    var i: nat;
    if op.Consume? {
      ApprovedFound(st, op);
      i := FirstWhere(due.records, IsApprovedFor(st.session, DigestOf(st.session, op.binding), op.mechanism));
    } else {
      BearerFound(st, op);
      i := FirstWhere(due.records, HasToken(op.token));
    }
    assert due.records[i] == ExpireRecord(st.records[i], st.session, Clock(op).value);
    assert st.records[i].sessionId == st.session;
    hide StepConsume, StepDecide, StepApproveAndConsume, DecidedKey;
  }

  /** A stored approval authorizes exactly its own binding and mechanism, and only before its deadline. */
  lemma ConsumeIffApproved(limits: Limits, st: State, h: History, op: Op)
    requires Inv(limits, st, h) && op.Consume?
    ensures Step(limits, st, op).1.Decided? <==>
      exists r :: r in st.records && r.status == Approved &&
        KeyOf(r) == Key(DigestOf(st.session, op.binding), op.mechanism) && r.expiresAt > op.now
  {
    var due := ExpireState(st, op.now);
    var p := IsApprovedFor(st.session, DigestOf(st.session, op.binding), op.mechanism);
    var i := FirstWhere(due.records, p);
    if i < |due.records| {
      assert p(due.records[i]) && due.records[i] == ExpireRecord(st.records[i], st.session, op.now);
      assert st.records[i] in st.records;
    } else {
      forall r | r in st.records && r.status == Approved &&
        KeyOf(r) == Key(DigestOf(st.session, op.binding), op.mechanism)
        ensures r.expiresAt <= op.now
      {
        var k :| 0 <= k < |st.records| && st.records[k] == r;
        assert !p(due.records[k]) && due.records[k] == ExpireRecord(r, st.session, op.now);
      }
    }
  }

  // An approval that this consumption may use.
  predicate Usable(st: State, op: Op, r: Record)
    requires op.Consume?
  {
    r.status == Approved && KeyOf(r) == Key(DigestOf(st.session, op.binding), op.mechanism) && r.expiresAt > op.now
  }

  /** Of several approvals for the same binding the oldest one is used up, and nothing else but expiry changes. */
  lemma ConsumeTakesOldest(limits: Limits, st: State, h: History, op: Op, i: nat)
    requires Inv(limits, st, h) && op.Consume? && i < |st.records| && Usable(st, op, st.records[i])
    requires forall k :: 0 <= k < i ==> !Usable(st, op, st.records[k])
    ensures var due, (after, reply) := ExpireState(st, op.now), Step(limits, st, op);
      var used := st.records[i].(status := Consumed);
      reply == Decided(SummaryOf(used)) && after == due.(records := due.records[i := used])
  {
    var due := ExpireState(st, op.now);
    var p := IsApprovedFor(st.session, DigestOf(st.session, op.binding), op.mechanism);
    var found := FirstWhere(due.records, p);
    forall k | 0 <= k <= i ensures p(due.records[k]) <==> Usable(st, op, st.records[k]) {
      assert due.records[k] == ExpireRecord(st.records[k], st.session, op.now);
    }
    assert found == i;
  }

  /** Expiry answers and queues exactly the records that are due, each with its new status. */
  lemma ExpireListsDue(limits: Limits, st: State, now: int)
    ensures var (after, reply) := Step(limits, st, Expire(now));
      && reply.Listed? && after.expiredTransitions == st.expiredTransitions + reply.transitions
      && forall s :: s in reply.transitions <==>
           exists r :: r in st.records && IsDue(r, st.session, now) && s == SummaryOf(r).(status := Expired)
  {
    DueAreListed(st.records, st.session, now);
  }

  lemma {:induction false} DueAreListed(rs: seq<Record>, session: string, now: int)
    ensures forall s :: s in Transitions(rs, session, now) <==>
      exists r :: r in rs && IsDue(r, session, now) && s == SummaryOf(r).(status := Expired)
  {
    if rs != [] {
      DueAreListed(rs[1..], session, now);
      forall s ensures s in Transitions(rs, session, now) <==>
        exists r :: r in rs && IsDue(r, session, now) && s == SummaryOf(r).(status := Expired)
      {
        assert forall r :: r in rs <==> r == rs[0] || r in rs[1..];
      }
    }
  }

  /// ## Bearers

  // The one record that a bearer decides.
  ghost predicate Holder(st: State, i: nat, token: string) {
    && i < |st.records| && st.records[i].sessionId == st.session
    && (forall k :: 0 <= k < |st.records| ==> (TokenDigest(token) in st.records[k].tokenDigests <==> k == i))
  }

  /** An issued bearer is acceptable and belongs to one pending record: that of the binding that was asked for. */
  lemma IssuedBearerHasItsRecord(limits: Limits, st: State, h: History, op: Op) returns (i: nat)
    requires Inv(limits, st, h) && op.Request? && Step(limits, st, op).1.Issued?
    requires forall r :: r in st.records ==> TokenDigest(Step(limits, st, op).1.token) !in r.tokenDigests
    ensures var (after, reply) := Step(limits, st, op);
      && Holder(after, i, reply.token) && op.isSafe(reply.token)
      && after.records[i].status == Pending && SummaryOf(after.records[i]) == reply.approval
      && KeyOf(after.records[i]) == Key(DigestOf(st.session, op.binding), op.mechanism)
      && (reply.created ==> reply.approval.id == op.newId && reply.approval.expiresAt == op.later + limits.ttl)
  {
    var due := Due(st, op);
    var token := Step(limits, st, op).1.token;
    forall k | 0 <= k < |due.records|
      ensures TokenDigest(token) !in due.records[k].tokenDigests && due.records[k].sessionId == st.session
    {
      assert st.records[k] in st.records && due.records[k] == ExpireRecord(st.records[k], st.session, op.now);
    }
    hide Inv, ExpireState, Live, IssueToken;
    DueSession(st, op);
    var p := IsPendingFor(st.session, DigestOf(st.session, op.binding));
    i := FirstWhere(due.records, p);
    if i < |due.records| {
      assert p(due.records[i]);
      TokenIssued(due.records[i], false, op);
      HolderUpdate(due, i, IssueToken(due.records[i], false, op.isSafe, op.tokens).0, token);
    } else {
      PartMembers(due.records);
      i := |Live(due.records)|;
      TokenIssued(NewRecord(st, op, limits), true, op);
      HolderAppended(due, Live(due.records), IssueToken(NewRecord(st, op, limits), true, op.isSafe, op.tokens).0,
        token);
    }
  }

  lemma TokenIssued(r: Record, created: bool, op: Op)
    requires op.Request? && IssueToken(r, created, op.isSafe, op.tokens).1.Issued?
    ensures var (issued, reply) := IssueToken(r, created, op.isSafe, op.tokens);
      && issued == r.(tokenDigests := r.tokenDigests + [TokenDigest(reply.token)]) && op.isSafe(reply.token)
      && reply.approval == SummaryOf(issued) && reply.created == created
  {
  }

  lemma HolderUpdate(due: State, i: nat, r: Record, token: string)
    requires i < |due.records| && r.sessionId == due.session && TokenDigest(token) in r.tokenDigests
    requires forall k :: 0 <= k < |due.records| ==> TokenDigest(token) !in due.records[k].tokenDigests
    ensures Holder(due.(records := due.records[i := r]), i, token)
  {
  }

  lemma HolderAppended(due: State, part: seq<Record>, r: Record, token: string)
    requires PartOf(part, due.records) && r.sessionId == due.session && TokenDigest(token) in r.tokenDigests
    requires forall k :: 0 <= k < |due.records| ==> TokenDigest(token) !in due.records[k].tokenDigests
    ensures Holder(due.(records := part + [r]), |part|, token)
  {
  }

  ghost predicate PartOf(part: seq<Record>, rs: seq<Record>) {
    forall k :: 0 <= k < |part| ==> exists j :: 0 <= j < |rs| && part[k] == rs[j]
  }

  lemma PartMembers(rs: seq<Record>)
    ensures PartOf(Live(rs), rs)
  {
    LiveIsPart(rs);
    forall k | 0 <= k < |Live(rs)| ensures exists j :: 0 <= j < |rs| && Live(rs)[k] == rs[j] {
      assert Live(rs)[k] in rs;
    }
  }

  lemma HolderAfterExpiry(st: State, i: nat, token: string, now: int)
    requires Holder(st, i, token)
    ensures var due := ExpireState(st, now);
      && Holder(due, i, token) && FirstWhere(due.records, HasToken(token)) == i
      && due.records[i] == ExpireRecord(st.records[i], st.session, now)
  {
    var due := ExpireState(st, now);
    var first := FirstWhere(due.records, HasToken(token));
    assert HasToken(token)(due.records[i]);
    if first < |due.records| { assert HasToken(token)(due.records[first]); }
  }

  /**
   A bearer approves the record it was issued for, before its deadline, and then never decides again; what it
   approved can be consumed until the deadline.
   */
  lemma BearerApprovesOnce(limits: Limits, st: State, h: History, op: Op, now: int, again: int, claim: int)
    requires Inv(limits, st, h) && limits.maxRecords > 0 && op.Request?
    requires op.newId !in h.used && Step(limits, st, op).1.Issued?
    requires forall r :: r in st.records ==> TokenDigest(Step(limits, st, op).1.token) !in r.tokenDigests
    requires now < Step(limits, st, op).1.approval.expiresAt && claim < Step(limits, st, op).1.approval.expiresAt
    ensures var (issued, first) := Step(limits, st, op);
      var (after, second) := Step(limits, issued, Approve(first.token, now));
      && second == Decided(first.approval.(status := Approved))
      && Step(limits, after, Approve(first.token, again)).1
         == Failed(if again < first.approval.expiresAt then NotPending else ApprovalExpired)
      && Step(limits, after, Consume(op.binding, op.mechanism, claim)).1.Decided?
  {
    var i := IssuedBearerHasItsRecord(limits, st, h, op);
    ActKeeps(limits, st, h, Store(op));
    ActIsStep(limits, st, h, op);
    StepRequestSession(limits, st, op);
    hide Inv, Step, Remember, Act, Holder;
    var (issued, first) := Step(limits, st, op);
    var h1 := Remember(limits, st, h, op);
    HolderDecides(limits, issued, i, first.token, now);
    var approve := Approve(first.token, now);
    var after := Step(limits, issued, approve).0;
    HolderIsSpent(limits, after, i, first.token, again);
    ActKeeps(limits, issued, h1, Store(approve));
    ActIsStep(limits, issued, h1, approve);
    assert after.records[i] in after.records;
    ConsumeIffApproved(limits, after, Remember(limits, issued, h1, approve), Consume(op.binding, op.mechanism, claim));
  }

  lemma HolderDecides(limits: Limits, st: State, i: nat, token: string, now: int)
    requires Holder(st, i, token) && st.records[i].status == Pending && now < st.records[i].expiresAt
    ensures var (after, reply) := Step(limits, st, Approve(token, now));
      && Holder(after, i, token) && after.records[i] == st.records[i].(status := Approved)
      && after.session == st.session
      && reply == Decided(SummaryOf(st.records[i]).(status := Approved))
  {
    HolderAfterExpiry(st, i, token, now);
    DueSession(st, Approve(token, now));
    hide ExpireState;
    assert Step(limits, st, Approve(token, now)) == Update(ExpireState(st, now), i, Approved);
  }

  lemma HolderIsSpent(limits: Limits, st: State, i: nat, token: string, again: int)
    requires Holder(st, i, token) && st.records[i].status == Approved
    ensures Step(limits, st, Approve(token, again)).1
      == Failed(if again < st.records[i].expiresAt then NotPending else ApprovalExpired)
  {
    HolderAfterExpiry(st, i, token, again);
    DueSession(st, Approve(token, again));
    hide ExpireState;
  }

  lemma ActIsStep(limits: Limits, st: State, h: History, op: Op)
    ensures Act(limits, st, h, Store(op)) == (Step(limits, st, op).0, Remember(limits, st, h, op))
  {
  }

  lemma StepRequestSession(limits: Limits, st: State, op: Op)
    requires op.Request?
    ensures Step(limits, st, op).0.session == st.session
  {
  }

  /// ## Decisions

  // The status that a decision gives.
  function DecidedStatus(op: Op): Status
    requires op.Approve? || op.Deny? || op.ApproveAndConsume?
  {
    match op
    case Approve(_, _) => Approved
    case Deny(_, _) => Denied
    case _ => Consumed
  }

  /**
   A bearer decides exactly while its record is pending and not due; a confirmation also needs the record to be for
   this very binding, over a form. Exactly that record then gets the new status, and nothing else changes but what
   expires. Otherwise the record itself tells the error.
   */
  lemma BearerDecidesIffPending(limits: Limits, st: State, i: nat, op: Op)
    requires op.Approve? || op.Deny? || op.ApproveAndConsume?
    requires Holder(st, i, op.token)
    ensures var r, due, (after, reply) := st.records[i], ExpireState(st, op.now), Step(limits, st, op);
      && (reply.Decided? <==>
            && r.status == Pending && op.now < r.expiresAt
            && (op.ApproveAndConsume? ==> KeyOf(r) == Key(DigestOf(st.session, op.binding), Form)))
      && (reply.Decided? ==>
            && reply.approval == SummaryOf(r).(status := DecidedStatus(op))
            && after == due.(records := due.records[i := r.(status := DecidedStatus(op))]))
      && (!reply.Decided? ==>
            && after == due
            && reply == Failed(
                 if r.status == Expired || (!IsTerminal(r.status) && r.expiresAt <= op.now) then ApprovalExpired
                 else if r.status != Pending then NotPending
                 else if r.mechanism != Form then MechanismMismatch
                 else Invalid))
  {
    HolderAfterExpiry(st, i, op.token, op.now);
    DueSession(st, op);
    hide ExpireState;
  }

  /** A bearer that no record holds decides nothing. */
  lemma UnknownBearerIsInvalid(limits: Limits, st: State, op: Op)
    requires op.Approve? || op.Deny? || op.ApproveAndConsume?
    requires forall r :: r in st.records ==> TokenDigest(op.token) !in r.tokenDigests
    ensures Step(limits, st, op) == (ExpireState(st, op.now), Failed(Invalid))
  {
    var due := ExpireState(st, op.now);
    forall k | 0 <= k < |due.records| ensures !HasToken(op.token)(due.records[k]) {
      assert due.records[k] == ExpireRecord(st.records[k], st.session, op.now) && st.records[k] in st.records;
    }
  }

  /**
   A fresh bearer confirms, at one go, exactly the binding it was requested for: over a form and before its deadline.
   It can be denied just as long.
   */
  lemma BearerConfirmsItsBinding(limits: Limits, st: State, h: History, op: Op, binding: Binding, now: int)
    requires Inv(limits, st, h) && op.Request? && Step(limits, st, op).1.Issued?
    requires forall r :: r in st.records ==> TokenDigest(Step(limits, st, op).1.token) !in r.tokenDigests
    ensures var (issued, first) := Step(limits, st, op);
      && (Step(limits, issued, ApproveAndConsume(first.token, binding, now)).1.Decided? <==>
            && binding.(displayName := op.binding.displayName) == op.binding
            && op.mechanism == Form && now < first.approval.expiresAt)
      && (Step(limits, issued, Deny(first.token, now)).1.Decided? <==> now < first.approval.expiresAt)
  {
    var i := IssuedBearerHasItsRecord(limits, st, h, op);
    StepRequestSession(limits, st, op);
    hide Inv, Step, Holder;
    var (issued, first) := Step(limits, st, op);
    BearerDecidesIffPending(limits, issued, i, ApproveAndConsume(first.token, binding, now));
    BearerDecidesIffPending(limits, issued, i, Deny(first.token, now));
    SameBinding(st.session, binding, op.binding);
  }

  // Only the name shown to the user is not part of what is bound.
  lemma SameBinding(session: string, a: Binding, b: Binding)
    ensures DigestOf(session, a) == DigestOf(session, b) <==> a.(displayName := b.displayName) == b
  {
    assert DigestOf(session, a) == DigestOf(session, b) ==> a.(displayName := "") == b.(displayName := "");
  }

  /// ## Requests

  // A pending record for the requested binding that is not due yet.
  predicate Awaits(st: State, op: Op, r: Record)
    requires op.Request?
  {
    r.status == Pending && r.expiresAt > op.now && r.bindingDigest == DigestOf(st.session, op.binding)
  }

  predicate SomeSafe(op: Op)
    requires op.Request?
  {
    exists k: nat :: k < MAX_ATTEMPTS && op.isSafe(op.tokens(k))
  }

  /**
   A request for a binding that already awaits a decision gets another bearer for it if its mechanism is the same,
   it has fewer than eight bearers, and one of the attempts is acceptable; otherwise the error says which of these
   failed first.
   */
  lemma RequestJoinsPending(limits: Limits, st: State, h: History, op: Op, i: nat)
    requires Inv(limits, st, h) && op.Request? && i < |st.records| && Awaits(st, op, st.records[i])
    ensures var r, (after, reply) := st.records[i], Step(limits, st, op);
      if r.mechanism != op.mechanism then reply == Failed(MechanismMismatch)
      else if |r.tokenDigests| >= MAX_BEARERS then reply == Failed(LimitExceeded)
      else if !SomeSafe(op) then reply == Failed(ConfirmationRequired)
      else
        && reply.Issued? && !reply.created && reply.approval == SummaryOf(r)
        && after == ExpireState(st, op.now).(records := after.records) && |after.records| == |st.records|
        && after.records[i] == r.(tokenDigests := r.tokenDigests + [TokenDigest(reply.token)])
        && forall k :: 0 <= k < |st.records| && k != i ==>
             after.records[k] == ExpireRecord(st.records[k], st.session, op.now)
  {
    OnePending(limits, st, h, op, i);
    hide Inv, ExpireRecord, ExpireRecords, Transitions, FirstWhere;
    FirstSafeIs(op);
    hide FirstSafe, SomeSafe;
  }

  // A binding awaits at most one decision.
  lemma OnePending(limits: Limits, st: State, h: History, op: Op, i: nat)
    requires Inv(limits, st, h) && op.Request? && i < |st.records| && Awaits(st, op, st.records[i])
    ensures var due := ExpireState(st, op.now);
      && due.records[i] == st.records[i]
      && FirstWhere(due.records, IsPendingFor(st.session, DigestOf(st.session, op.binding))) == i
  {
    var due := ExpireState(st, op.now);
    var p := IsPendingFor(st.session, DigestOf(st.session, op.binding));
    assert due.records[i] == ExpireRecord(st.records[i], st.session, op.now) && p(due.records[i]);
    forall k | 0 <= k < i ensures !p(due.records[k]) {
      assert due.records[k] == ExpireRecord(st.records[k], st.session, op.now);
      assert Differ(st.records[k], st.records[i]);
    }
  }

  lemma FirstSafeIs(op: Op)
    requires op.Request?
    ensures FirstSafe(op.tokens, op.isSafe, 0) < MAX_ATTEMPTS <==> SomeSafe(op)
  {
  }

  /**
   A request for a binding that awaits none makes a record if there is room for one beside those still live and one of
   the attempts is acceptable; all final records are dropped, whether or not it succeeds.
   */
  lemma RequestMakesRecord(limits: Limits, st: State, h: History, op: Op)
    requires Inv(limits, st, h) && op.Request? && forall r :: r in st.records ==> !Awaits(st, op, r)
    ensures var live := Live(ExpireState(st, op.now).records);
      var (after, reply) := Step(limits, st, op);
      if |live| >= limits.maxRecords then reply == Failed(LimitExceeded) && after.records == live
      else if !SomeSafe(op) then reply == Failed(ConfirmationRequired) && after.records == live
      else
        && reply.Issued? && reply.created
        && after.records == live + [NewRecord(st, op, limits).(tokenDigests := [TokenDigest(reply.token)])]
  {
    var due := ExpireState(st, op.now);
    var p := IsPendingFor(st.session, DigestOf(st.session, op.binding));
    forall k | 0 <= k < |due.records| ensures !p(due.records[k]) {
      assert due.records[k] == ExpireRecord(st.records[k], st.session, op.now) && st.records[k] in st.records;
    }
    hide Inv, ExpireState;
    FirstSafeIs(op);
    assert [] + [TokenDigest(op.tokens(FirstSafe(op.tokens, op.isSafe, 0)))]
        == [TokenDigest(op.tokens(FirstSafe(op.tokens, op.isSafe, 0)))];
  }

  /** What is live is exactly what is not final, in order. */
  lemma {:induction false} LiveIsNotFinal(rs: seq<Record>, r: Record)
    ensures r in Live(rs) <==> r in rs && !IsTerminal(r.status)
    decreases |rs|
  {
    if rs != [] { LiveIsNotFinal(rs[1..], r); }
  }

  /** Revoking removes exactly the records of that identifier. */
  lemma {:induction false} RevokeRemoves(rs: seq<Record>, id: string, r: Record)
    ensures r in Without(rs, id) <==> r in rs && r.id != id
    decreases |rs|
  {
    if rs != [] { RevokeRemoves(rs[1..], id, r); }
  }
}
