/**
 What an accepted ledger can be: its last hash determines every entry, and the checkpoint it replays to is well
 formed, with every segment linked to the one before it.
 */
module LedgerLaws {
  import opened Options
  import opened Digests
  import opened Lines
  import opened RecordChain
  import opened Ledger
  import opened Checkpoints

  /// ## The last hash determines the ledger

  // An accepted ledger is linked at its end, and accepted without its last entry.
  lemma LastIsLinked(es: seq<Entry>)
    requires ReplayAll(es).Some?
    ensures var n := |es|;
      && n > 0 && es[n - 1].entry == n
      && (n > 1 ==> ReplayAll(es[..n - 1]).Some? && es[n - 1].previousEntry == Some(EntryHash(es[n - 2])))
      && (n == 1 ==> es[0].previousEntry.None?)
  {
    var n := |es|;
    ReplayPrevious(es);
    if n > 1 {
      var init, last := es[..n - 1], es[n - 1];
      assert es == init + [last] && es[1..] == init[1..] + [last];
      PrefixReplays(Begin(es[0]).value, init[1..], [last]);
      ReplayPrevious(init);
      ReplayAllConcat(init, [last]);
      StepLinks(ReplayAll(init).value, last);
    }
  }

  /** Two accepted ledgers that end in the same entry hash are the same ledger. */
  lemma {:induction false} LedgerIsDetermined(a: seq<Entry>, b: seq<Entry>)
    requires ReplayAll(a).Some? && ReplayAll(b).Some?
    requires EntryHash(a[|a| - 1]) == EntryHash(b[|b| - 1])
    ensures a == b
    decreases |a|
  {
    hide ReplayAll;
    LastIsLinked(a);
    LastIsLinked(b);
    var n := |a|;
    if n > 1 { LedgerIsDetermined(a[..n - 1], b[..n - 1]); }
    assert a == a[..n - 1] + [a[n - 1]] && b == b[..n - 1] + [b[n - 1]];
  }

  /** Two ledger files that agree with the same checkpoint hold the same entries. */
  lemma AgreeingLedgersAreEqual(c: Codec, a: Bytes, b: Bytes, cp: Checkpoint)
    requires Agrees(c, a, cp) && Agrees(c, b, cp)
    ensures ReadEntries(c, a) == ReadEntries(c, b)
  {
    LedgerIsDetermined(ReadEntries(c, a).value, ReadEntries(c, b).value);
  }

  /// ## What an accepted ledger replays to

  /** The first segment continues from the anchor, and every other one from the end of its predecessor. */
  predicate Linked(core: Core) {
    && (forall i :: 0 <= i < |core.archives| ==> core.archives[i].segment.firstPrevious == Before(core, i))
    && core.active.firstPrevious == Before(core, |core.archives|)
  }

  // What replay keeps.
  ghost predicate Regular(r: Replay) {
    WellFormedCore(r.ToCore()) && Linked(r.ToCore()) && LastSequence(r.archives) <= r.lastSequence
  }

  // What the first entry has to say about its archives.
  predicate StartsLinked(e: Entry) {
    e.kind.Compacted? ==> Linked(Core(e.chainId, e.kind.anchor, e.kind.archives, e.active))
  }

  lemma RestIsOrdered(archives: seq<Archived>, k: nat)
    requires WellFormedArchives(archives) && k <= |archives|
    ensures WellFormedArchives(archives[k..])
    ensures LastSequence(archives[k..]) in {-1, LastSequence(archives)}
  {
  }

  // Dropping the oldest archives, up to one whose end becomes the anchor.
  lemma RestIsLinked(core: Core, k: nat)
    requires Linked(core) && k < |core.archives|
    ensures Linked(core.(archives := core.archives[k + 1..], anchor := core.archives[k].segment.tail))
  {
    var rest := core.archives[k + 1..];
    var left := core.(archives := rest, anchor := core.archives[k].segment.tail);
    hide Linked, Before;
    forall i | 0 <= i < |rest| ensures rest[i].segment.firstPrevious == Before(left, i) {
      LinkedAt(core, k + 1 + i);
      BeforeInRest(core, k, i);
    }
    LinkedAt(core, |core.archives|);
    BeforeInRest(core, k, |rest|);
    IsLinked(left);
  }

  lemma BeforeInRest(core: Core, k: nat, i: nat)
    requires k < |core.archives| && i <= |core.archives| - k - 1
    ensures Before(core.(archives := core.archives[k + 1..], anchor := core.archives[k].segment.tail), i)
         == Before(core, k + 1 + i)
  {
  }

  lemma LinkedAt(core: Core, i: nat)
    requires Linked(core) && i <= |core.archives|
    ensures (if i < |core.archives| then core.archives[i].segment else core.active).firstPrevious == Before(core, i)
  {
  }

  lemma IsLinked(core: Core)
    requires forall i | 0 <= i < |core.archives| :: core.archives[i].segment.firstPrevious == Before(core, i)
    requires core.active.firstPrevious == Before(core, |core.archives|)
    ensures Linked(core)
  {
  }

  lemma RetirementIsRegular(core: Core, t: Retirement)
    requires WellFormedCore(core) && Linked(core) && ReplayRetirement(core.archives, t).Some?
    ensures var left := core.(archives := ReplayRetirement(core.archives, t).value, anchor := Some(t.anchor));
      WellFormedCore(left) && Linked(left) && LastSequence(left.archives) in {-1, LastSequence(core.archives)}
  {
    var i := FindSequence(core.archives, t.throughSequence);
    hide Linked, WellFormedArchives, LastSequence, FindSequence;
    RestIsOrdered(core.archives, i + 1);
    RestIsLinked(core, i);
  }

  lemma SealedIsOrdered(archives: seq<Archived>, sealed: Archived)
    requires WellFormedArchives(archives) && WellFormedSegment(sealed.segment) && sealed.segment.recordCount > 0
    requires sealed.name.sequence > LastSequence(archives)
    ensures WellFormedArchives(archives + [sealed]) && LastSequence(archives + [sealed]) == sealed.name.sequence
  {
  }

  lemma SealedIsLinked(core: Core, sealed: Archived, next: Segment)
    requires Linked(core) && sealed.segment == core.active && next.firstPrevious == core.active.tail
    ensures Linked(core.(archives := core.archives + [sealed], active := next))
  {
    var after := core.(archives := core.archives + [sealed], active := next);
    hide Linked;
    forall i | 0 <= i <= |core.archives|
      ensures Before(after, i) == Before(core, i) && after.archives[i].segment.firstPrevious == Before(core, i)
    {
      LinkedAt(core, i);
    }
    IsLinked(after);
  }

  lemma StepIsRegular(r: Replay, e: Entry)
    requires Regular(r) && r.lastSequence >= -1 && WellFormedEntry(e) && Step(r, e).Some?
    ensures Regular(Step(r, e).value) && Step(r, e).value.lastSequence >= -1
  {
    var core := r.ToCore();
    hide WellFormedArchives, Linked, LastSequence, ReplayRetirement;
    match e.kind
    case Rotate(sealed, retired) =>
      SealedIsOrdered(core.archives, sealed);
      SealedIsLinked(core, sealed, e.active);
      if retired.Some? {
        RetirementIsRegular(core.(archives := core.archives + [sealed], active := e.active), retired.value);
      }
    case Retire(t) => RetirementIsRegular(core, t);
    case Append => AppendingIsLinked(core, e.active);
    case _ =>
  }

  lemma AppendingIsLinked(core: Core, next: Segment)
    requires Linked(core) && next.firstPrevious == core.active.firstPrevious
    ensures Linked(core.(active := next))
  {
    var after := core.(active := next);
    assert forall k | 0 <= k <= |core.archives| :: Before(after, k) == Before(core, k);
  }

  lemma {:induction false} ReplayIsRegular(r: Replay, es: seq<Entry>)
    requires Regular(r) && r.lastSequence >= -1 && ReplayFrom(r, es).Some? && forall e | e in es :: WellFormedEntry(e)
    ensures Regular(ReplayFrom(r, es).value)
    decreases |es|
  {
    hide Regular, WellFormedEntry, Step;
    if es != [] {
      assert es[0] in es;
      StepIsRegular(r, es[0]);
      ReplayIsRegular(Step(r, es[0]).value, es[1..]);
    }
  }

  /**
   Every accepted ledger replays to a well-formed checkpoint: archives in the order of their sequences, none empty, and
   every segment linked to the one before it, provided a compacted first entry says so of its own.
   */
  lemma AcceptedIsRegular(es: seq<Entry>)
    requires ReplayLedger(es).Some? && (forall e | e in es :: WellFormedEntry(e)) && StartsLinked(es[0])
    ensures WellFormedCore(ReplayLedger(es).value) && Linked(ReplayLedger(es).value)
  {
    assert es[0] in es;
    ReplayIsRegular(Begin(es[0]).value, es[1..]);
  }

  /** What an append entry is, exactly: the next one, with a longer active segment that begins where it did. */
  lemma AppendEntryAppends(r: Replay, e: Entry)
    requires e.kind.Append?
    ensures Step(r, e).Some? <==> ComesNext(r, e) && Extends(r.active, e.active)
    ensures Step(r, e).Some? ==>
      Step(r, e).value.ToCore() == r.ToCore().(active := e.active) && Step(r, e).value.lastSequence == r.lastSequence
  {
  }

  /** A ledger begins with an empty journal, or with a compacted one, and never in the middle. */
  lemma FirstEntryBegins(e: Entry)
    ensures ReplayLedger([e]).Some? <==>
      && e.entry == 1 && e.previousEntry.None?
      && (e.kind.Compacted? || (e.kind.Initialize? && e.active.recordCount == 0 && e.active.firstPrevious.None?))
    ensures ReplayLedger([e]).Some? && e.kind.Initialize? ==>
      ReplayLedger([e]).value == Core(e.chainId, None, [], e.active)
    ensures ReplayLedger([e]).Some? && e.kind.Compacted? ==> CompactedEntry(ReplayLedger([e]).value) == e
  {
    assert [e][1..] == [];
  }

  /** Replay starts once: no later entry is an initialization or a compacted one. */
  lemma StartsOnce(r: Replay, e: Entry)
    ensures Step(r, e).Some? ==> !e.kind.Initialize? && !e.kind.Compacted?
  {
  }
}
