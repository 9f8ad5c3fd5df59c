/**
 The assumptions about reading and printing can be met, and with short lines for any entries and records one
 likes: symbolic digests, records and ledger entries are written as trees in brackets.
 */
module CodecWitness {
  import opened Options
  import opened Digests
  import opened Lines
  import opened RecordChain
  import opened Ledger
  import Json

  datatype Tree = Node(mark: nat, children: seq<Tree>)

  /// ## Trees as text

  function Marks(n: nat, rest: string): string {
    if n == 0 then rest else ['a'] + Marks(n - 1, rest)
  }

  function Write(t: Tree, rest: string): string {
    ['('] + Marks(t.mark, WriteAll(t.children, [')'] + rest))
  }

  function WriteAll(ts: seq<Tree>, rest: string): string {
    if ts == [] then rest else Write(ts[0], WriteAll(ts[1..], rest))
  }

  predicate Bracketed(s: string) {
    s != [] && (s[0] == '(' || s[0] == ')')
  }

  lemma {:induction false} MarksReadBack(n: nat, m: nat, x: string, y: string)
    requires Bracketed(x) && Bracketed(y) && Marks(n, x) == Marks(m, y)
    ensures n == m && x == y
  {
    if n > 0 && m > 0 {
      assert Marks(n, x)[1..] == Marks(n - 1, x) && Marks(m, y)[1..] == Marks(m - 1, y);
      MarksReadBack(n - 1, m - 1, x, y);
    }
  }

  lemma AllBracketed(ts: seq<Tree>, x: string)
    ensures var s := WriteAll(ts, [')'] + x); s != [] && s[0] == if ts == [] then ')' else '('
  {
  }

  lemma {:induction false} TreeReadsBack(t: Tree, u: Tree, x: string, y: string)
    requires Write(t, x) == Write(u, y)
    ensures t == u && x == y
    decreases t
  {
    AllBracketed(t.children, x);
    AllBracketed(u.children, y);
    assert Write(t, x)[1..] == Marks(t.mark, WriteAll(t.children, [')'] + x));
    assert Write(u, y)[1..] == Marks(u.mark, WriteAll(u.children, [')'] + y));
    MarksReadBack(t.mark, u.mark, WriteAll(t.children, [')'] + x), WriteAll(u.children, [')'] + y));
    TreesReadBack(t.children, u.children, x, y);
  }

  lemma {:induction false} TreesReadBack(ts: seq<Tree>, us: seq<Tree>, x: string, y: string)
    requires WriteAll(ts, [')'] + x) == WriteAll(us, [')'] + y)
    ensures ts == us && x == y
    decreases ts
  {
    var a, b := WriteAll(ts, [')'] + x), WriteAll(us, [')'] + y);
    AllBracketed(ts, x);
    AllBracketed(us, y);
    if ts == [] && us == [] {
      assert a[1..] == x && b[1..] == y;
    } else {
      assert ts != [] && us != [];
      TreeReadsBack(ts[0], us[0], WriteAll(ts[1..], [')'] + x), WriteAll(us[1..], [')'] + y));
      TreesReadBack(ts[1..], us[1..], x, y);
      assert ts == [ts[0]] + ts[1..] && us == [us[0]] + us[1..];
    }
  }

  lemma {:induction false} MarksAreLine(n: nat, rest: string)
    requires IsLine(rest)
    ensures IsLine(Marks(n, rest))
  {
    if n > 0 { MarksAreLine(n - 1, rest); }
  }

  lemma {:induction false} TreeIsLine(t: Tree, rest: string)
    requires IsLine(rest)
    ensures IsLine(Write(t, rest))
    decreases t
  {
    TreesAreLine(t.children, [')'] + rest);
    MarksAreLine(t.mark, WriteAll(t.children, [')'] + rest));
  }

  lemma {:induction false} TreesAreLine(ts: seq<Tree>, rest: string)
    requires IsLine(rest)
    ensures IsLine(WriteAll(ts, rest))
    decreases ts
  {
    if ts != [] {
      TreesAreLine(ts[1..], rest);
      TreeIsLine(ts[0], WriteAll(ts[1..], rest));
    }
  }

  /// ## Values as trees

  function OfNat(n: nat): Tree { Node(n, []) }

  function OfString(s: string): Tree { Node(0, seq(|s|, i requires 0 <= i < |s| => Node(s[i] as int, []))) }

  function OfUnits(s: Json.Text): Tree { Node(0, seq(|s|, i requires 0 <= i < |s| => Node(s[i], []))) }

  lemma StringDetermined(a: string, b: string)
    requires OfString(a) == OfString(b)
    ensures a == b
  {
    var x, y := OfString(a).children, OfString(b).children;
    assert |x| == |a| && |y| == |b|;
    forall i | 0 <= i < |a| ensures a[i] == b[i] { assert x[i].mark == y[i].mark; }
  }

  lemma UnitsDetermined(a: Json.Text, b: Json.Text)
    requires OfUnits(a) == OfUnits(b)
    ensures a == b
  {
    var x, y := OfUnits(a).children, OfUnits(b).children;
    assert |x| == |a| && |y| == |b|;
    forall i | 0 <= i < |a| ensures a[i] == b[i] { assert x[i].mark == y[i].mark; }
  }

  function OfHash(d: Option<Digest>): Tree
    decreases d, 0
  {
    match d
    case None => Node(0, [])
    case Some(value) => Node(1, [OfDigest(value)])
  }

  function OfDigest(d: Digest): Tree
    decreases d
  {
    match d
    case OfRecord(chainId, previous, payload) => Node(0, [OfString(chainId), OfHash(previous), OfUnits(payload)])
    case OfEntry(entry) => Node(1, [TreeOfEntry(entry)])
    case OfState(core, ledgerEntry, ledgerHash, ledgerSize) =>
      Node(2, [OfCore(core), OfNat(ledgerEntry), OfDigest(ledgerHash), OfNat(ledgerSize)])
    case Foreign(text) => Node(3, [OfString(text)])
  }

  function OfSegment(s: Segment): Tree
    decreases s
  {
    Node(0, [OfNat(s.byteLength), OfNat(s.recordCount), OfHash(s.firstPrevious), OfHash(s.tail)])
  }

  function OfArchived(a: Archived): Tree
    decreases a
  {
    Node(0, [OfNat(a.name.sequence), OfString(a.name.uuid), OfSegment(a.segment)])
  }

  function OfArchives(archives: seq<Archived>): seq<Tree>
    decreases archives
  {
    if archives == [] then [] else [OfArchived(archives[0])] + OfArchives(archives[1..])
  }

  function OfCore(core: Core): Tree
    decreases core
  {
    Node(0, [OfString(core.chainId), OfHash(core.anchor), Node(0, OfArchives(core.archives)), OfSegment(core.active)])
  }

  function OfRetirement(r: Retirement): Tree
    decreases r
  {
    Node(0, [OfNat(r.throughSequence), OfDigest(r.anchor)])
  }

  function OfKind(kind: EntryKind): Tree
    decreases kind
  {
    match kind
    case Initialize => Node(0, [])
    case Compacted(anchor, archives) => Node(1, [OfHash(anchor), Node(0, OfArchives(archives))])
    case Append => Node(2, [])
    case Rotate(sealed, retired) =>
      Node(3, [OfArchived(sealed), if retired.Some? then Node(1, [OfRetirement(retired.value)]) else Node(0, [])])
    case Retire(retirement) => Node(4, [OfRetirement(retirement)])
  }

  function TreeOfEntry(e: Entry): Tree
    decreases e
  {
    Node(0, [OfKind(e.kind), OfNat(e.entry), OfString(e.chainId), OfHash(e.previousEntry), OfSegment(e.active)])
  }

  function OfValue(v: Json.Value): Tree
    decreases v
  {
    match v
    case Null => Node(0, [])
    case Bool(b) => Node(1, [OfNat(if b then 1 else 0)])
    case Number(digits) => Node(2, [OfUnits(digits)])
    case String(text) => Node(3, [OfUnits(text)])
    case Array(items) => Node(4, OfItems(items))
    case Object(members) => Node(5, OfMembers(members))
  }

  function OfItems(items: seq<Json.Value>): seq<Tree>
    decreases items
  {
    if items == [] then [] else [OfValue(items[0])] + OfItems(items[1..])
  }

  function OfMembers(members: seq<Json.Member>): seq<Tree>
    decreases members
  {
    if members == [] then []
    else [Node(0, [OfUnits(members[0].key), OfValue(members[0].value)])] + OfMembers(members[1..])
  }

  function OfStored(p: Json.Value, e: Envelope): Tree {
    Node(0, [OfValue(p), OfString(e.chainId), OfHash(e.previousHash), OfDigest(e.hash)])
  }

  /// ## Different values, different trees

  lemma {:induction false} DigestDetermined(a: Digest, b: Digest)
    requires OfDigest(a) == OfDigest(b)
    ensures a == b
    decreases a
  {
    var x, y := OfDigest(a).children, OfDigest(b).children;
    match a
    case OfRecord(chainId, previous, payload) =>
      assert x[0] == y[0] && x[1] == y[1] && x[2] == y[2];
      StringDetermined(chainId, b.chainId);
      HashDetermined(previous, b.previous);
      UnitsDetermined(payload, b.payload);
    case OfEntry(entry) =>
      assert x[0] == y[0];
      EntryDetermined(entry, b.entry);
    case OfState(core, ledgerEntry, ledgerHash, ledgerSize) =>
      assert x[0] == y[0] && x[1] == y[1] && x[2] == y[2] && x[3] == y[3];
      CoreDetermined(core, b.core);
      DigestDetermined(ledgerHash, b.ledgerHash);
    case Foreign(text) =>
      assert x[0] == y[0];
      StringDetermined(text, b.text);
  }

  lemma {:induction false} HashDetermined(a: Option<Digest>, b: Option<Digest>)
    requires OfHash(a) == OfHash(b)
    ensures a == b
    decreases a, 0
  {
    if a.Some? {
      assert OfHash(a).children[0] == OfHash(b).children[0];
      DigestDetermined(a.value, b.value);
    }
  }

  lemma {:induction false} SegmentDetermined(a: Segment, b: Segment)
    requires OfSegment(a) == OfSegment(b)
    ensures a == b
    decreases a
  {
    var x, y := OfSegment(a).children, OfSegment(b).children;
    assert x[0] == y[0] && x[1] == y[1] && x[2] == y[2] && x[3] == y[3];
    HashDetermined(a.firstPrevious, b.firstPrevious);
    HashDetermined(a.tail, b.tail);
  }

  lemma {:induction false} ArchivedDetermined(a: Archived, b: Archived)
    requires OfArchived(a) == OfArchived(b)
    ensures a == b
    decreases a
  {
    var x, y := OfArchived(a).children, OfArchived(b).children;
    assert x[0] == y[0] && x[1] == y[1] && x[2] == y[2];
    StringDetermined(a.name.uuid, b.name.uuid);
    SegmentDetermined(a.segment, b.segment);
  }

  lemma {:induction false} ArchivesDetermined(a: seq<Archived>, b: seq<Archived>)
    requires OfArchives(a) == OfArchives(b)
    ensures a == b
    decreases a
  {
    if a != [] && b != [] {
      var x, y := OfArchives(a), OfArchives(b);
      assert x[0] == y[0] && x[1..] == OfArchives(a[1..]) && y[1..] == OfArchives(b[1..]);
      ArchivedDetermined(a[0], b[0]);
      ArchivesDetermined(a[1..], b[1..]);
      assert a == [a[0]] + a[1..] && b == [b[0]] + b[1..];
    }
  }

  lemma {:induction false} CoreDetermined(a: Core, b: Core)
    requires OfCore(a) == OfCore(b)
    ensures a == b
    decreases a
  {
    var x, y := OfCore(a).children, OfCore(b).children;
    assert x[0] == y[0] && x[1] == y[1] && x[2] == y[2] && x[3] == y[3];
    StringDetermined(a.chainId, b.chainId);
    HashDetermined(a.anchor, b.anchor);
    ArchivesDetermined(a.archives, b.archives);
    SegmentDetermined(a.active, b.active);
  }

  lemma {:induction false} RetirementDetermined(a: Retirement, b: Retirement)
    requires OfRetirement(a) == OfRetirement(b)
    ensures a == b
    decreases a
  {
    var x, y := OfRetirement(a).children, OfRetirement(b).children;
    assert x[0] == y[0] && x[1] == y[1];
    DigestDetermined(a.anchor, b.anchor);
  }

  lemma {:induction false} KindDetermined(a: EntryKind, b: EntryKind)
    requires OfKind(a) == OfKind(b)
    ensures a == b
    decreases a
  {
    var x, y := OfKind(a).children, OfKind(b).children;
    match a
    case Initialize =>
    case Compacted(anchor, archives) =>
      assert x[0] == y[0] && x[1] == y[1];
      HashDetermined(anchor, b.anchor);
      ArchivesDetermined(archives, b.archives);
    case Append =>
    case Rotate(sealed, retired) =>
      assert x[0] == y[0] && x[1] == y[1];
      ArchivedDetermined(sealed, b.sealed);
      if retired.Some? {
        assert x[1].children[0] == y[1].children[0];
        RetirementDetermined(retired.value, b.retired.value);
      }
    case Retire(retirement) =>
      assert x[0] == y[0];
      RetirementDetermined(retirement, b.retirement);
  }

  lemma {:induction false} EntryDetermined(a: Entry, b: Entry)
    requires TreeOfEntry(a) == TreeOfEntry(b)
    ensures a == b
    decreases a
  {
    var x, y := TreeOfEntry(a).children, TreeOfEntry(b).children;
    assert x[0] == y[0] && x[1] == y[1] && x[2] == y[2] && x[3] == y[3] && x[4] == y[4];
    KindDetermined(a.kind, b.kind);
    StringDetermined(a.chainId, b.chainId);
    HashDetermined(a.previousEntry, b.previousEntry);
    SegmentDetermined(a.active, b.active);
  }

  lemma {:induction false} ValueDetermined(a: Json.Value, b: Json.Value)
    requires OfValue(a) == OfValue(b)
    ensures a == b
    decreases a
  {
    var x, y := OfValue(a).children, OfValue(b).children;
    match a
    case Null =>
    case Bool(_) => assert x[0] == y[0];
    case Number(digits) =>
      assert x[0] == y[0];
      UnitsDetermined(digits, b.digits);
    case String(text) =>
      assert x[0] == y[0];
      UnitsDetermined(text, b.text);
    case Array(items) => ItemsDetermined(items, b.items);
    case Object(members) => MembersDetermined(members, b.members);
  }

  lemma {:induction false} ItemsDetermined(a: seq<Json.Value>, b: seq<Json.Value>)
    requires OfItems(a) == OfItems(b)
    ensures a == b
    decreases a
  {
    if a != [] && b != [] {
      var x, y := OfItems(a), OfItems(b);
      assert x[0] == y[0] && x[1..] == OfItems(a[1..]) && y[1..] == OfItems(b[1..]);
      ValueDetermined(a[0], b[0]);
      ItemsDetermined(a[1..], b[1..]);
      assert a == [a[0]] + a[1..] && b == [b[0]] + b[1..];
    }
  }

  lemma {:induction false} MembersDetermined(a: seq<Json.Member>, b: seq<Json.Member>)
    requires OfMembers(a) == OfMembers(b)
    ensures a == b
    decreases a
  {
    if a != [] && b != [] {
      var x, y := OfMembers(a), OfMembers(b);
      assert x[0] == y[0] && x[1..] == OfMembers(a[1..]) && y[1..] == OfMembers(b[1..]);
      assert x[0].children[0] == y[0].children[0] && x[0].children[1] == y[0].children[1];
      UnitsDetermined(a[0].key, b[0].key);
      ValueDetermined(a[0].value, b[0].value);
      MembersDetermined(a[1..], b[1..]);
      assert a == [a[0]] + a[1..] && b == [b[0]] + b[1..];
    }
  }

  lemma StoredDetermined(p: Json.Value, e: Envelope, q: Json.Value, f: Envelope)
    requires OfStored(p, e) == OfStored(q, f)
    ensures p == q && e == f
  {
    var x, y := OfStored(p, e).children, OfStored(q, f).children;
    assert x[0] == y[0] && x[1] == y[1] && x[2] == y[2] && x[3] == y[3];
    ValueDetermined(p, q);
    StringDetermined(e.chainId, f.chainId);
    HashDetermined(e.previousHash, f.previousHash);
    DigestDetermined(e.hash, f.hash);
  }

  /// ## A codec

  // Trees on a list get short lines, as many marks as their place says; all others their brackets.
  function Place(t: Tree, shorts: seq<Tree>): (i: nat)
    ensures i <= |shorts| && (i < |shorts| ==> shorts[i] == t) && (i == |shorts| ==> t !in shorts)
  {
    if shorts == [] || shorts[0] == t then 0 else 1 + Place(t, shorts[1..])
  }

  function Line(t: Tree, shorts: seq<Tree>): string {
    var i := Place(t, shorts);
    if i < |shorts| then Marks(i + 1, []) else Write(t, [])
  }

  lemma {:induction false} MarksLength(n: nat)
    ensures |Marks(n, [])| == n && IsLine(Marks(n, [])) && (n > 0 ==> Marks(n, [])[0] == 'a')
  {
    if n > 0 { MarksLength(n - 1); }
  }

  lemma LineReadsBack(t: Tree, u: Tree, shorts: seq<Tree>)
    requires Line(t, shorts) == Line(u, shorts)
    ensures t == u
  {
    MarksLength(Place(t, shorts) + 1);
    MarksLength(Place(u, shorts) + 1);
    if Place(t, shorts) == |shorts| && Place(u, shorts) == |shorts| { TreeReadsBack(t, u, [], []); }
  }

  lemma LineIsLine(t: Tree, shorts: seq<Tree>)
    ensures IsLine(Line(t, shorts)) && Line(t, shorts) != "" && (t in shorts ==> |Line(t, shorts)| <= |shorts|)
  {
    MarksLength(Place(t, shorts) + 1);
    TreeIsLine(t, []);
  }

  ghost predicate IsEntryLine(s: string, shorts: seq<Tree>, e: Entry) {
    WellFormedEntry(e) && Line(TreeOfEntry(e), shorts) == s
  }

  ghost function ReadEntry(s: string, shorts: seq<Tree>): Option<Entry> {
    if exists e :: IsEntryLine(s, shorts, e) then
      var e :| IsEntryLine(s, shorts, e);
      Some(e)
    else None
  }

  ghost predicate IsRecordLine(s: string, shorts: seq<Tree>, p: Json.Value, e: Envelope) {
    IsPayload(p) && Line(OfStored(p, e), shorts) == s
  }

  ghost function ReadRecord(s: string, shorts: seq<Tree>): Option<Record> {
    if exists p, e :: IsRecordLine(s, shorts, p, e) then
      var p, e :| IsRecordLine(s, shorts, p, e);
      Some(Record(p, Sealed(e)))
    else None
  }

  ghost function BracketCodec(records: seq<Tree>, entries: seq<Tree>): Codec {
    Codec(s => ReadRecord(s, records), (p, e) => Line(OfStored(p, e), records),
          s => ReadEntry(s, entries), e => Line(TreeOfEntry(e), entries))
  }

  ghost predicate Suits(c: Codec, records: seq<(Json.Value, Envelope)>, entries: seq<Entry>) {
    && ReadsRecords(c) && ReadsEntries(c)
    && (forall r :: r in records ==> |c.printRecord(r.0, r.1)| <= |records|)
    && (forall e :: e in entries ==> |c.printEntry(e)| <= |entries|)
  }

  /**
   Some codec reads what it prints, and it can be chosen so that given records and entries have lines no longer
   than there are of them: the size limits exclude no finite run.
   */
  lemma SomeCodecReads(records: seq<(Json.Value, Envelope)>, entries: seq<Entry>)
    ensures exists c :: Suits(c, records, entries)
  {
    var rs := seq(|records|, i requires 0 <= i < |records| => OfStored(records[i].0, records[i].1));
    var es := seq(|entries|, i requires 0 <= i < |entries| => TreeOfEntry(entries[i]));
    var c := BracketCodec(rs, es);
    forall p, e | IsPayload(p) ensures
      var text := c.printRecord(p, e); IsLine(text) && text != "" && c.parseRecord(text) == Some(Record(p, Sealed(e)))
    {
      var text := c.printRecord(p, e);
      LineIsLine(OfStored(p, e), rs);
      assert IsRecordLine(text, rs, p, e);
      forall q, f | IsRecordLine(text, rs, q, f) ensures q == p && f == e {
        LineReadsBack(OfStored(p, e), OfStored(q, f), rs);
        StoredDetermined(p, e, q, f);
      }
    }
    forall e | WellFormedEntry(e) ensures
      var text := c.printEntry(e); IsLine(text) && text != "" && c.parseEntry(text) == Some(e)
    {
      var text := c.printEntry(e);
      LineIsLine(TreeOfEntry(e), es);
      assert IsEntryLine(text, es, e);
      forall f | IsEntryLine(text, es, f) ensures f == e {
        LineReadsBack(TreeOfEntry(e), TreeOfEntry(f), es);
        EntryDetermined(e, f);
      }
    }
    forall r | r in records ensures |c.printRecord(r.0, r.1)| <= |records| {
      var i :| 0 <= i < |records| && records[i] == r;
      assert rs[i] == OfStored(r.0, r.1);
      LineIsLine(rs[i], rs);
    }
    forall e | e in entries ensures |c.printEntry(e)| <= |entries| {
      var i :| 0 <= i < |entries| && entries[i] == e;
      assert es[i] == TreeOfEntry(e);
      LineIsLine(es[i], es);
    }
    assert Suits(c, records, entries);
  }
}
