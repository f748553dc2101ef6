/** Writer and reader together: an archive cut anew in transit, by storage or network, extracts to the
    files that were written (packages/adapters/src/archive.ts and archive-reader.ts). */
module TarRoundTrip {
  import opened Seqs
  import opened Tar
  import W = TarWriter
  import R = TarReader

  /** A stream cut at other places: chunks of the given lengths as far as the bytes go, then the rest. */
  function Recut(s: Bytes, lengths: seq<nat>): seq<Bytes> {
    if lengths == [] then (if s == [] then [] else [s])
    else
      var n := if lengths[0] <= |s| then lengths[0] else |s|;
      [s[..n]] + Recut(s[n..], lengths[1..])
  }

  lemma {:induction false} RecutFlattens(s: Bytes, lengths: seq<nat>)
    ensures Flatten(Recut(s, lengths)) == s
  {
    if lengths == [] {
      FlattenOne(s);
    } else {
      var n := if lengths[0] <= |s| then lengths[0] else |s|;
      RecutFlattens(s[n..], lengths[1..]);
      assert s[..n] + s[n..] == s;
      assert Recut(s, lengths)[1..] == Recut(s[n..], lengths[1..]);
    }
  }

  /** Every way of chunking the same bytes is such a cut. */
  lemma {:induction false} EveryChunking(chunks: seq<Bytes>) returns (lengths: seq<nat>)
    ensures Recut(Flatten(chunks), lengths) == chunks
  {
    lengths := [];
    if chunks != [] {
      var rest := EveryChunking(chunks[1..]);
      lengths := [|chunks[0]|] + rest;
      Halves(chunks[0], Flatten(chunks[1..]));
      assert lengths[1..] == rest && [chunks[0]] + chunks[1..] == chunks;
    }
  }

  /** What comes through: distinct paths without dots, within the reader's limits. */
  ghost predicate Passes(entries: seq<W.Entry>, limits: Limits) {
    && (forall i :: 0 <= i < |entries| ==> ReaderPath(entries[i].path))
    && (forall i, j :: 0 <= i < j < |entries| ==> entries[i].path != entries[j].path)
    && Within(W.Content(entries), 0, 0, limits)
  }

  lemma {:induction false} AcceptedPaths(entries: seq<W.Entry>)
    requires W.FirstRefusal(entries) == W.NoRefusal
    ensures forall i :: 0 <= i < |entries| ==> WriterPath(entries[i].path) && |Flatten(entries[i].chunks)| <= MAX_SIZE
  {
    hide WriterPath;
    if entries != [] {
      AcceptedPaths(entries[1..]);
      forall i | 0 < i < |entries| ensures WriterPath(entries[i].path) && |Flatten(entries[i].chunks)| <= MAX_SIZE {
        assert entries[i] == entries[1..][i - 1];
      }
    }
  }

  lemma PassesExactly(entries: seq<W.Entry>, limits: Limits)
    requires W.FirstRefusal(entries) == W.NoRefusal
    ensures Passes(entries, limits) <==> Extractable(W.Content(entries), {}) && Within(W.Content(entries), 0, 0, limits)
  {
    AcceptedPaths(entries);
    assert forall i :: 0 <= i < |entries| ==> |entries[i].path| <= 100;
    hide ReaderPath, WriterPath, Within;
    var files := W.Content(entries);
    assert forall i :: 0 <= i < |files| ==> files[i].path == entries[i].path;
  }

  /** Whatever the writer accepts is read back, path by path and byte by byte, if and only if it passes. */
  lemma RoundTripIff(entries: seq<W.Entry>, limits: Limits)
    requires W.FirstRefusal(entries) == W.NoRefusal
    ensures Archivable(W.Content(entries))
    ensures var read := Read(Archive(W.Content(entries)), {}, 0, 0, limits);
            (read == Files(W.Content(entries)) <==> Passes(entries, limits)) && (read.Failed? <==> !Passes(entries, limits))
  {
    hide WriterPath, Passes, Within, Extractable, Read, Archive;
    AcceptedPaths(entries);
    PassesExactly(entries, limits);
    ReadInvertsArchive(W.Content(entries), {}, 0, 0, limits);
  }

  /** Entries written, cut anew and extracted. */
  method ArchiveAndExtract(entries: seq<W.Entry>, lengths: seq<nat>, storage: R.ObjectStore, prefix: R.Key, limits: Limits)
    returns (refusal: W.Refusal, result: Result)
    modifies storage
    ensures refusal == W.FirstRefusal(entries)
    ensures refusal != W.NoRefusal ==> storage.objects == old(storage.objects)
    ensures result.Failed? ==> storage.objects == old(storage.objects)
    ensures refusal == W.NoRefusal && R.LegalTarget(prefix) && R.EmptyUnder(old(storage.objects), prefix) && result != Failed(StorageFailed) ==>
              (result.Files? <==> Passes(entries, limits))
    ensures refusal == W.NoRefusal && result.Files? ==>
              result.files == W.Content(entries) && storage.objects == old(storage.objects) + R.Placed(W.Content(entries), prefix)
  {
    hide Passes, Read, Archive, R.Placed, R.LegalTarget, R.EmptyUnder;
    var out;
    out, refusal := W.Encode(entries);
    if refusal != W.NoRefusal {
      return refusal, Failed(Truncated);
    }
    RoundTripIff(entries, limits);
    RecutFlattens(Flatten(out), lengths);
    result := R.Extract(Recut(Flatten(out), lengths), storage, prefix, limits);
  }
}
