/**
 The journal's snapshots in the journal's own format.
 */
module Archive {
  import opened Types
  import opened Codecs
  import opened Layout
  import opened Body
  import opened Envelope
  import opened Disk
  import opened Snapshots
  import Successors

  predicate SnapshotWide(x: Snapshot) { Wide(x.store, 32) && Wide(x.owner, 32) && Wide(x.sequence, 8) }

  ghost predicate Survives(f: Format, fits: State -> bool, x: Snapshot) {
    Successors.SnapshotValid(x) && SnapshotWide(x) && fits(x.state) ==>
      && Open(f, Encode(f, PAYLOAD_VERSION, x)) == Some(x)
      && Migrate(f, Encode(f, LEGACY_VERSION, x)) == if Migratable(x.state) then Some(x) else None
  }

  ghost predicate OnlyEncodings(f: Format, fits: State -> bool, b: Bytes) {
    Open(f, b).Some? ==>
      b == Encode(f, PAYLOAD_VERSION, Open(f, b).value) && SnapshotWide(Open(f, b).value) && fits(Open(f, b).value.state)
  }

  /** Every valid snapshot that fits survives the disk; every file that opens is the
      encoding of the fitting snapshot it opens to; and version-7 files migrate exactly
      without query evidence. */
  ghost predicate KeepsSnapshots(f: Format, fits: State -> bool) {
    var keeps := (forall x :: Survives(f, fits, x)) && (forall b :: OnlyEncodings(f, fits, b));
    keeps
  }

  lemma LawfulKeeps(f: Format, fits: State -> bool)
    requires FormatLawful(f) && Predicted(f) && WritesStates(f, fits)
    ensures KeepsSnapshots(f, fits)
  {
    forall x ensures Survives(f, fits, x) {
      if Successors.SnapshotValid(x) && SnapshotWide(x) && fits(x.state) {
        DiskRoundTrip(f, x);
        MigrationExact(f, x);
      }
    }
    forall b ensures OnlyEncodings(f, fits, b) {
      if Open(f, b).Some? { DiskCanonical(f, b); }
    }
  }

  /** For the journal's format, what fits is exactly what is storable. */
  lemma JournalOnDisk(w: Wires, h: Hashes, sum: (Bytes, Bytes) -> Digest)
    requires WiresCanonical(w) && SumsFit(sum)
    ensures KeepsSnapshots(JournalFormat(w, h, sum), StateHeld(w.manifest, JournalContents(w, h)))
  {
    JournalFormatSound(w, h, sum);
    StorableStates(w, h, sum);
    LawfulKeeps(JournalFormat(w, h, sum), StateHeld(w.manifest, JournalContents(w, h)));
  }
}
