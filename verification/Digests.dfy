/**
 Hashes and the records they cover. SHA-256 is modelled as an ideal hash: a digest is its own preimage, so
 two digests are equal exactly when the hashed values are. The four domain tags of the journal are
 four constructors; Foreign is any other 64-digit hexadecimal text, which an editor of the files may write.
 */
module Digests {
  import opened Options
  import Json

  datatype Digest =
    | OfRecord(chainId: string, previous: Option<Digest>, payload: Json.Text)
    | OfEntry(entry: Entry)
    | OfState(core: Core, ledgerEntry: nat, ledgerHash: Digest, ledgerSize: nat)
    | Foreign(text: string)

  /// ## Records of a segment

  datatype Envelope = Envelope(chainId: string, previousHash: Option<Digest>, hash: Digest)

  // The "integrity" field of a record: absent (or not an object), an object of the wrong shape, or an envelope.
  datatype Integrity = Missing | Invalid | Sealed(envelope: Envelope)

  datatype Record = Record(payload: Json.Value, integrity: Integrity)

  /// ## Segment, ledger and checkpoint metadata

  datatype ArchiveName = ArchiveName(sequence: nat, uuid: string)

  datatype Segment = Segment(byteLength: nat, recordCount: nat, firstPrevious: Option<Digest>, tail: Option<Digest>)

  datatype Archived = Archived(name: ArchiveName, segment: Segment)

  datatype Core = Core(chainId: string, anchor: Option<Digest>, archives: seq<Archived>, active: Segment)

  datatype Checkpoint = Checkpoint(core: Core, ledgerEntry: nat, ledgerHash: Digest, ledgerSize: nat)

  datatype Retirement = Retirement(throughSequence: nat, anchor: Digest)

  datatype EntryKind =
    | Initialize
    | Compacted(anchor: Option<Digest>, archives: seq<Archived>)
    | Append
    | Rotate(sealed: Archived, retired: Option<Retirement>)
    | Retire(retirement: Retirement)

  // A ledger line without its own hash, which the parser recomputes and compares.
  datatype Entry = Entry(kind: EntryKind, entry: nat, chainId: string, previousEntry: Option<Digest>, active: Segment)

  function RecordHash(payload: Json.Value, chainId: string, previous: Option<Digest>): Digest {
    OfRecord(chainId, previous, Json.Canonical(payload))
  }

  function EntryHash(e: Entry): Digest {
    OfEntry(e)
  }

  function StateHash(c: Checkpoint): Digest {
    OfState(c.core, c.ledgerEntry, c.ledgerHash, c.ledgerSize)
  }

  /** Empty exactly when it has no bytes and no tail; what the metadata parsers demand of every segment. */
  predicate WellFormedSegment(s: Segment) {
    if s.recordCount == 0 then s.byteLength == 0 && s.tail.None? else s.byteLength > 0 && s.tail.Some?
  }

  predicate WellFormedArchives(archives: seq<Archived>) {
    && (forall i | 0 <= i < |archives| ::
          WellFormedSegment(archives[i].segment) && archives[i].segment.recordCount > 0)
    && (forall i, j | 0 <= i < j < |archives| :: archives[i].name.sequence < archives[j].name.sequence)
  }

  predicate WellFormedCore(core: Core) {
    WellFormedArchives(core.archives) && WellFormedSegment(core.active)
  }

  predicate WellFormedEntry(e: Entry) {
    && e.entry > 0
    && WellFormedSegment(e.active)
    && match e.kind
       case Compacted(_, archives) => WellFormedArchives(archives)
       case Rotate(sealed, _) => WellFormedSegment(sealed.segment) && sealed.segment.recordCount > 0
       case _ => true
  }
}
