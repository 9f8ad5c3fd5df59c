/**
 The local lock of one journal: contenders bind loopback ports from the same list of candidates, and only pass a
 port over when it cannot be one that a contender for this journal holds.
 */
module JournalLock {
  const PORT_START: nat := 49152
  const PORT_COUNT: nat := 16384
  const ATTEMPTS: nat := 256

  /** What sits on a port: nothing, a holder of this lock, any other listener, or a ban on binding it. */
  datatype Listener = Free | Holder(contender: nat) | Foreign | Denied

  /** Where a contender is in its pass over the candidates. */
  datatype Where = Idle | Binding(i: nat) | Probing(i: nat) | Rebinding(i: nat) | Waiting | Holding(i: nat)

  datatype State = State(ports: map<nat, Listener>, contenders: map<nat, Where>)
  {
    function At(port: nat): Listener { if port in ports then ports[port] else Free }
    function WhereIs(c: nat): Where { if c in contenders then contenders[c] else Idle }
    function Put(port: nat, l: Listener): State { this.(ports := ports[port := l]) }
    function Go(c: nat, w: Where): State { this.(contenders := contenders[c := w]) }
  }

  /** One atomic step of a contender, or of another program. */
  datatype Step =
    | Start(c: nat)
    | Bind(c: nat)
    | Probe(c: nat, conclusive: bool)
    | Rebind(c: nat)
    | Wake(c: nat)
    | Release(c: nat)
    | GiveUp(c: nat)
    | ForeignBind(port: nat)
    | ForeignLeave(port: nat)

  // The i-th candidate of a journal whose key starts the list at `start`.
  function Port(start: nat, i: nat): (p: nat)
    ensures PORT_START <= p < PORT_START + PORT_COUNT
  {
    PORT_START + (start + i) % PORT_COUNT
  }

  /** The candidates of one journal are distinct. */
  lemma CandidatesAreDistinct(start: nat, i: nat, j: nat)
    requires i < ATTEMPTS && j < ATTEMPTS
    ensures Port(start, i) == Port(start, j) <==> i == j
  {
    if Port(start, i) == Port(start, j) {
      var a, b := (start + i) / PORT_COUNT, (start + j) / PORT_COUNT;
      assert start + i == a * PORT_COUNT + (start + i) % PORT_COUNT;
      assert start + j == b * PORT_COUNT + (start + j) % PORT_COUNT;
      assert i - j == (a - b) * PORT_COUNT;
    }
  }

  // The next candidate, or the pause before a new pass.
  function Next(i: nat): Where {
    if i + 1 < ATTEMPTS then Binding(i + 1) else Waiting
  }

  function Acquired(s: State, start: nat, c: nat, i: nat): State {
    s.Put(Port(start, i), Holder(c)).Go(c, Holding(i))
  }

  /** What a step does; a step that does not apply does nothing. */
  function After(s: State, start: nat, step: Step): State {
    match step
    case Start(c) => if s.WhereIs(c).Idle? then s.Go(c, Binding(0)) else s
    case Bind(c) =>
      if !s.WhereIs(c).Binding? then s
      else
        var i := s.WhereIs(c).i;
        (match s.At(Port(start, i))
         case Free => Acquired(s, start, c, i)
         case Denied => s.Go(c, Next(i))
         case _ => s.Go(c, Probing(i)))
    case Probe(c, conclusive) =>
      if !s.WhereIs(c).Probing? then s
      else if !conclusive then s.Go(c, Waiting)
      else
        var i := s.WhereIs(c).i;
        (match s.At(Port(start, i))
         case Foreign => s.Go(c, Next(i))
         case Holder(_) => s.Go(c, Waiting)
         case _ => s.Go(c, Rebinding(i)))
    case Rebind(c) =>
      if !s.WhereIs(c).Rebinding? then s
      else
        var i := s.WhereIs(c).i;
        (match s.At(Port(start, i))
         case Free => Acquired(s, start, c, i)
         case Denied => s.Go(c, Next(i))
         case _ => s.Go(c, Waiting))
    case Wake(c) => if s.WhereIs(c).Waiting? then s.Go(c, Binding(0)) else s
    case Release(c) => if s.WhereIs(c).Holding? then s.Put(Port(start, s.WhereIs(c).i), Free).Go(c, Idle) else s
    case GiveUp(c) => if s.WhereIs(c).Holding? then s else s.Go(c, Idle)
    case ForeignBind(port) => if s.At(port).Free? then s.Put(port, Foreign) else s
    case ForeignLeave(port) => if s.At(port).Foreign? then s.Put(port, Free) else s
  }

  /// ## Mutual exclusion

  predicate Blocked(s: State, port: nat) {
    s.At(port).Foreign? || s.At(port).Denied?
  }

  /** Other programs neither take nor free a candidate of this journal, except ones a holder gives back. */
  ghost predicate SameBlocked(a: State, b: State, start: nat) {
    forall i :: 0 <= i < ATTEMPTS ==> Blocked(a, Port(start, i)) == Blocked(b, Port(start, i))
  }

  // How many candidates a contender has passed over.
  function Passed(w: Where): nat {
    if w.Idle? || w.Waiting? then 0 else w.i
  }

  ghost predicate PassedBlocked(s: State, start: nat, c: nat) {
    var n := Passed(s.WhereIs(c));
    n < ATTEMPTS && forall j :: 0 <= j < n ==> Blocked(s, Port(start, j))
  }

  // The port a contender holds, if it holds one.
  predicate Holds(s: State, start: nat, c: nat, port: nat) {
    s.WhereIs(c).Holding? && Port(start, s.WhereIs(c).i) == port
  }

  ghost predicate Inv(s: State, start: nat) {
    && (forall c :: PassedBlocked(s, start, c))
    && (forall c, p :: Holds(s, start, c, p) <==> s.At(p) == Holder(c))
  }

  lemma StepKeepsPassed(s: State, start: nat, step: Step, c: nat)
    requires PassedBlocked(s, start, c) && SameBlocked(s, After(s, start, step), start)
    ensures PassedBlocked(After(s, start, step), start, c)
  {
    var after := After(s, start, step);
    var n := Passed(s.WhereIs(c));
    assert forall j :: 0 <= j < n ==> Blocked(after, Port(start, j));
    if Passed(after.WhereIs(c)) > n { assert Blocked(after, Port(start, n)); }
  }

  lemma StepKeepsHolds(s: State, start: nat, step: Step, c: nat, p: nat)
    requires forall d, q :: Holds(s, start, d, q) <==> s.At(q) == Holder(d)
    ensures var after := After(s, start, step); Holds(after, start, c, p) <==> after.At(p) == Holder(c)
  {
    assert Holds(s, start, c, p) <==> s.At(p) == Holder(c);
    match step
    case Release(d) => assert s.WhereIs(d).Holding? ==> Holds(s, start, d, Port(start, s.WhereIs(d).i));
    case _ =>
  }

  lemma StepKeeps(s: State, start: nat, step: Step)
    requires Inv(s, start) && SameBlocked(s, After(s, start, step), start)
    ensures Inv(After(s, start, step), start)
  {
    hide After, PassedBlocked, Holds, SameBlocked;
    var after := After(s, start, step);
    forall c ensures PassedBlocked(after, start, c) { StepKeepsPassed(s, start, step, c); }
    forall c, p ensures Holds(after, start, c, p) <==> after.At(p) == Holder(c) {
      StepKeepsHolds(s, start, step, c, p);
    }
  }

  /** Two contenders that both hold the lock are the same one, at the first candidate that is not blocked. */
  lemma AtMostOneHolder(s: State, start: nat, a: nat, b: nat)
    requires Inv(s, start) && s.WhereIs(a).Holding? && s.WhereIs(b).Holding?
    ensures a == b
    ensures forall j :: 0 <= j < s.WhereIs(a).i ==> Blocked(s, Port(start, j))
    ensures !Blocked(s, Port(start, s.WhereIs(a).i))
  {
    var i, j := s.WhereIs(a).i, s.WhereIs(b).i;
    assert PassedBlocked(s, start, a) && PassedBlocked(s, start, b);
    assert Holds(s, start, a, Port(start, i)) && Holds(s, start, b, Port(start, j));
    assert !Blocked(s, Port(start, i)) && !Blocked(s, Port(start, j));
    assert i == j;
  }

  function Run(s: State, start: nat, steps: seq<Step>): State
    decreases |steps|
  {
    if steps == [] then s else Run(After(s, start, steps[0]), start, steps[1..])
  }

  ghost predicate StableRun(s: State, start: nat, steps: seq<Step>)
    decreases |steps|
  {
    steps != [] ==>
      SameBlocked(s, After(s, start, steps[0]), start) && StableRun(After(s, start, steps[0]), start, steps[1..])
  }

  /**
   Over every interleaving of any number of contenders, while the blocked candidates stay the same, at most one
   holds the lock.
   */
  lemma {:induction false} MutualExclusion(s: State, start: nat, steps: seq<Step>, a: nat, b: nat)
    requires Inv(s, start) && StableRun(s, start, steps)
    ensures var end := Run(s, start, steps); end.WhereIs(a).Holding? && end.WhereIs(b).Holding? ==> a == b
    decreases |steps|
  {
    hide Inv, After, SameBlocked;
    if steps == [] {
      if s.WhereIs(a).Holding? && s.WhereIs(b).Holding? { AtMostOneHolder(s, start, a, b); }
    } else {
      StepKeeps(s, start, steps[0]);
      MutualExclusion(After(s, start, steps[0]), start, steps[1..], a, b);
    }
  }

  /** A run may start with nobody contending and any ports taken or denied. */
  lemma QuietStart(ports: map<nat, Listener>, start: nat)
    requires forall p :: p in ports ==> !ports[p].Holder?
    ensures Inv(State(ports, map[]), start)
  {
  }

  /// ## Where it ends

  lemma {:induction false} RunTwice(s: State, start: nat, a: seq<Step>, b: seq<Step>)
    ensures Run(s, start, a + b) == Run(Run(s, start, a), start, b)
    decreases |a|
  {
    if a == [] {
      assert a + b == b;
    } else {
      assert (a + b)[1..] == a[1..] + b;
      RunTwice(After(s, start, a[0]), start, a[1..], b);
    }
  }

  lemma RunOne(s: State, start: nat, a: Step)
    ensures Run(s, start, [a]) == After(s, start, a)
  {
    assert [a][1..] == [];
    assert Run(After(s, start, a), start, []) == After(s, start, a);
  }

  lemma RunMore(s: State, start: nat, steps: seq<Step>, a: Step)
    ensures Run(s, start, steps + [a]) == After(Run(s, start, steps), start, a)
  {
    RunTwice(s, start, steps, [a]);
    RunOne(Run(s, start, steps), start, a);
  }

  // The steps of one contender that passes over blocked candidates, from the i-th to the n-th.
  function PassOver(s: State, start: nat, c: nat, i: nat, n: nat): seq<Step>
    decreases n - i
  {
    if i >= n then []
    else [Bind(c)] + (if s.At(Port(start, i)).Foreign? then [Probe(c, true)] else []) + PassOver(s, start, c, i + 1, n)
  }

  lemma {:induction false} PassOverArrives(s: State, start: nat, c: nat, i: nat, n: nat)
    requires s.WhereIs(c) == Binding(i) && i <= n < ATTEMPTS
    requires forall j :: i <= j < n ==> Blocked(s, Port(start, j))
    ensures Run(s, start, PassOver(s, start, c, i, n)) == if i == n then s else s.Go(c, Binding(n))
    decreases n - i
  {
    if i < n {
      assert Blocked(s, Port(start, i));
      var next := s.Go(c, Binding(i + 1));
      var first := [Bind(c)] + if s.At(Port(start, i)).Foreign? then [Probe(c, true)] else [];
      RunOne(s, start, Bind(c));
      if s.At(Port(start, i)).Foreign? { RunMore(s, start, [Bind(c)], Probe(c, true)); }
      assert s.Go(c, Probing(i)).Go(c, Binding(i + 1)) == next;
      assert Run(s, start, first) == next;
      SamePass(s, next, start, c, i + 1, n);
      PassOverArrives(next, start, c, i + 1, n);
      RunTwice(s, start, first, PassOver(s, start, c, i + 1, n));
      assert next.Go(c, Binding(n)) == s.Go(c, Binding(n));
    }
  }

  lemma {:induction false} SamePass(s: State, t: State, start: nat, c: nat, i: nat, n: nat)
    requires s.ports == t.ports
    ensures PassOver(s, start, c, i, n) == PassOver(t, start, c, i, n)
    decreases n - i
  {
    if i < n { SamePass(s, t, start, c, i + 1, n); }
  }

  // A whole pass of a newcomer, to the first candidate that is not blocked.
  function Newcomer(s: State, start: nat, c: nat, n: nat): seq<Step> {
    [Start(c)] + PassOver(s, start, c, 0, n) + [Bind(c)]
  }

  lemma NewcomerBinds(s: State, start: nat, c: nat, n: nat)
    requires s.WhereIs(c).Idle? && n < ATTEMPTS
    requires forall j :: 0 <= j < n ==> Blocked(s, Port(start, j))
    ensures Run(s, start, Newcomer(s, start, c, n)) == After(s.Go(c, Binding(n)), start, Bind(c))
  {
    var begun := s.Go(c, Binding(0));
    RunOne(s, start, Start(c));
    SamePass(s, begun, start, c, 0, n);
    PassOverArrives(begun, start, c, 0, n);
    assert begun.Go(c, Binding(n)) == s.Go(c, Binding(n));
    RunTwice(s, start, [Start(c)], PassOver(s, start, c, 0, n));
    RunMore(s, start, [Start(c)] + PassOver(s, start, c, 0, n), Bind(c));
  }

  /** Other listeners may have left since, nothing else changed. */
  ghost predicate OnlyFreed(s: State, t: State) {
    && s.contenders == t.contenders
    && (forall p :: t.At(p) == s.At(p) || (s.At(p).Foreign? && t.At(p).Free?))
  }

  /**
   The stability of the blocked candidates is exactly what the exclusion rests on: when other listeners leave while
   a contender holds the i-th candidate, a newcomer's pass makes it a second holder if and only if one of the
   candidates before the i-th was freed.
   */
  lemma SecondHolderIffFreed(s: State, t: State, start: nat, a: nat, b: nat, n: nat)
    requires Inv(s, start) && s.WhereIs(a).Holding? && s.WhereIs(b).Idle? && OnlyFreed(s, t)
    requires n < ATTEMPTS && !Blocked(t, Port(start, n)) && forall j :: 0 <= j < n ==> Blocked(t, Port(start, j))
    ensures var end := Run(t, start, Newcomer(t, start, b, n));
      (end.WhereIs(a).Holding? && end.WhereIs(b).Holding?) <==>
        exists j :: 0 <= j < s.WhereIs(a).i && !Blocked(t, Port(start, j))
  {
    var i := s.WhereIs(a).i;
    NewcomerBinds(t, start, b, n);
    assert PassedBlocked(s, start, a) && Holds(s, start, a, Port(start, i));
    assert t.At(Port(start, i)) == Holder(a);
    assert !Blocked(t, Port(start, i));
    assert n <= i;
    if n < i {
      assert Blocked(s, Port(start, n));
      assert t.At(Port(start, n)).Free?;
    }
  }

  /// ## Taking turns

  // A whole pass of a contender that had to wait.
  function Retry(s: State, start: nat, c: nat, n: nat): seq<Step> {
    [Wake(c)] + PassOver(s, start, c, 0, n) + [Bind(c)]
  }

  lemma RetryBinds(s: State, start: nat, c: nat, n: nat)
    requires s.WhereIs(c).Waiting? && n < ATTEMPTS
    requires forall j :: 0 <= j < n ==> Blocked(s, Port(start, j))
    ensures Run(s, start, Retry(s, start, c, n)) == After(s.Go(c, Binding(n)), start, Bind(c))
  {
    var begun := s.Go(c, Binding(0));
    RunOne(s, start, Wake(c));
    SamePass(s, begun, start, c, 0, n);
    PassOverArrives(begun, start, c, 0, n);
    assert begun.Go(c, Binding(n)) == s.Go(c, Binding(n));
    RunTwice(s, start, [Wake(c)], PassOver(s, start, c, 0, n));
    RunMore(s, start, [Wake(c)] + PassOver(s, start, c, 0, n), Bind(c));
  }

  /**
   A pass over the candidates takes the lock, at the first candidate that is not blocked, if and only if that one is
   free: for a newcomer, and for one that had to wait.
   */
  lemma PassAcquiresIffFree(s: State, start: nat, c: nat, n: nat)
    requires s.WhereIs(c).Idle? || s.WhereIs(c).Waiting?
    requires n < ATTEMPTS && !Blocked(s, Port(start, n)) && forall j :: 0 <= j < n ==> Blocked(s, Port(start, j))
    ensures var end := Run(s, start, if s.WhereIs(c).Idle? then Newcomer(s, start, c, n) else Retry(s, start, c, n));
      && (end.WhereIs(c).Holding? <==> s.At(Port(start, n)).Free?)
      && (end.WhereIs(c).Holding? ==> end.WhereIs(c) == Holding(n) && end.At(Port(start, n)) == Holder(c))
  {
    if s.WhereIs(c).Idle? { NewcomerBinds(s, start, c, n); } else { RetryBinds(s, start, c, n); }
  }

  /**
   A port that was in use and is found unused by the probe is bound again: it is taken if it is still free, passed over
   if it may not be bound, and waited for if somebody else was faster.
   */
  lemma ClearedPortIsTaken(s: State, start: nat, c: nat, i: nat, l: Listener)
    requires s.WhereIs(c) == Probing(i) && i < ATTEMPTS && s.At(Port(start, i)).Free?
    ensures var end := Run(s.Go(c, Rebinding(i)).Put(Port(start, i), l), start, [Rebind(c)]);
      && After(s, start, Probe(c, true)) == s.Go(c, Rebinding(i))
      && (l.Free? <==> end.WhereIs(c).Holding?)
      && (end.WhereIs(c) == match l
            case Free => Holding(i)
            case Denied => if i + 1 < ATTEMPTS then Binding(i + 1) else Waiting
            case _ => Waiting)
      && (l.Free? ==> end.At(Port(start, i)) == Holder(c))
  {
    RunOne(s.Go(c, Rebinding(i)).Put(Port(start, i), l), start, Rebind(c));
  }

  /** Once the holder has released the lock, the next pass of any other contender takes it. */
  lemma ReleasedLockIsTaken(s: State, start: nat, a: nat, b: nat)
    requires Inv(s, start) && s.WhereIs(a).Holding? && (s.WhereIs(b).Idle? || s.WhereIs(b).Waiting?)
    ensures var i, freed := s.WhereIs(a).i, After(s, start, Release(a));
      var steps := if s.WhereIs(b).Idle? then Newcomer(freed, start, b, i) else Retry(freed, start, b, i);
      var end := Run(freed, start, steps);
      end.WhereIs(b) == Holding(i) && !end.WhereIs(a).Holding?
  {
    var i, freed := s.WhereIs(a).i, After(s, start, Release(a));
    assert PassedBlocked(s, start, a) && Holds(s, start, a, Port(start, i));
    CandidatesBefore(start, i);
    assert forall j :: 0 <= j < i ==> Blocked(freed, Port(start, j));
    if s.WhereIs(b).Idle? { NewcomerBinds(freed, start, b, i); } else { RetryBinds(freed, start, b, i); }
  }

  lemma CandidatesBefore(start: nat, i: nat)
    requires i < ATTEMPTS
    ensures forall j :: 0 <= j < i ==> Port(start, j) != Port(start, i)
  {
    forall j | 0 <= j < i ensures Port(start, j) != Port(start, i) { CandidatesAreDistinct(start, j, i); }
  }
}
