/** `SafeTarReader.extract`: a cursor over an arbitrarily chunked stream, and extraction into
    private storage that either delivers everything or leaves nothing behind
    (packages/adapters/src/archive-reader.ts). */
module TarReader {
  import opened Seqs
  import opened Tar

  type Key = Bytes

  /** The chunks still to come and the part of the current chunk not yet taken. */
  class Cursor {
    const chunks: seq<Bytes>
    var next: nat
    var buffer: Bytes
    var offset: nat

    ghost predicate Valid()
      reads this
    {
      next <= |chunks| && offset <= |buffer|
    }

    /** The bytes not yet taken. */
    ghost function Rest(): Bytes
      reads this
      requires Valid()
    {
      buffer[offset..] + Flatten(chunks[next..])
    }

    constructor (chunks: seq<Bytes>)
      ensures Valid() && Rest() == Flatten(chunks)
    {
      this.chunks := chunks;
      next, buffer, offset := 0, [], 0;
      new;
      assert chunks[0..] == chunks;
    }

    /** Moves to the next chunk that has bytes in it. */
    method Available() returns (more: bool)
      requires Valid()
      modifies this
      ensures Valid() && Rest() == old(Rest())
      ensures more <==> Rest() != []
      ensures more ==> offset < |buffer|
      ensures !more ==> offset == |buffer| && next == |chunks|
    {
      while offset == |buffer|
        invariant Valid() && Rest() == old(Rest())
        decreases |chunks| - next, if offset == |buffer| then 1 else 0
      {
        if next == |chunks| {
          assert chunks[next..] == [];
          return false;
        }
        assert chunks[next..][0] == chunks[next] && chunks[next..][1..] == chunks[next + 1..];
        buffer := chunks[next];
        offset := 0;
        next := next + 1;
      }
      more := true;
    }

    /** Some of the bytes at hand, at most `left`. */
    method TakePart(left: nat) returns (part: Bytes)
      requires Valid() && offset < |buffer| && left > 0
      modifies this
      ensures Valid() && 0 < |part| <= left && old(Rest()) == part + Rest()
    {
      var length := if left < |buffer| - offset then left else |buffer| - offset;
      part := buffer[offset..offset + length];
      NextPart(buffer, offset, length, Flatten(chunks[next..]));
      offset := offset + length;
    }

    /** The next `bytes` bytes, in whatever parts the stream delivers them. */
    method Take(bytes: nat) returns (parts: seq<Bytes>, ok: bool)
      requires Valid()
      modifies this
      ensures Valid()
      ensures ok <==> bytes <= |old(Rest())|
      ensures ok ==> Flatten(parts) == old(Rest())[..bytes] && Rest() == old(Rest())[bytes..]
    {
      hide Flatten;
      parts := [];
      FlattenNone<byte>();
      var left := bytes;
      ghost var taken, rest: Bytes := [], Rest();
      while left > 0
        invariant Valid() && 0 <= left <= bytes
        invariant Flatten(parts) == taken && Rest() == rest && taken + rest == old(Rest()) && |taken| == bytes - left
      {
        var more := Available();
        if !more {
          return parts, false;
        }
        var part := TakePart(left);
        FlattenSnoc(parts, part);
        Assoc(taken, part, Rest());
        taken, rest := taken + part, Rest();
        left := left - |part|;
        parts := parts + [part];
      }
      Halves(taken, rest);
      ok := true;
    }

    /** Copies exactly `bytes` bytes into one buffer. */
    method Read(bytes: nat) returns (output: Bytes, ok: bool)
      requires Valid()
      modifies this
      ensures Valid()
      ensures ok <==> bytes <= |old(Rest())|
      ensures ok ==> output == old(Rest())[..bytes] && Rest() == old(Rest())[bytes..]
    {
      var parts: seq<Bytes>;
      parts, ok := Take(bytes);
      if !ok {
        return [], false;
      }
      output := Flatten(parts);
    }

    method Ended() returns (end: bool)
      requires Valid()
      modifies this
      ensures Valid() && Rest() == old(Rest())
      ensures end <==> Rest() == []
    {
      var more := Available();
      end := !more;
    }
  }

  /** Private object storage. Writes to a broken key fail and leave it as it was. */
  class ObjectStore {
    var objects: map<Key, Bytes>
    const broken: set<Key>

    constructor (objects: map<Key, Bytes>, broken: set<Key>)
      ensures this.objects == objects && this.broken == broken
    {
      this.objects := objects;
      this.broken := broken;
    }

    method WriteChunks(key: Key, chunks: seq<Bytes>) returns (ok: bool)
      modifies this
      ensures ok <==> key !in broken
      ensures objects == if ok then old(objects)[key := Flatten(chunks)] else old(objects)
    {
      ok := key !in broken;
      if ok {
        objects := objects[key := Flatten(chunks)];
      }
    }

    method Delete(key: Key)
      modifies this
      ensures objects == old(objects) - {key}
    {
      objects := objects - {key};
    }
  }

  predicate StartsWith(key: Key, prefix: Key) {
    |prefix| <= |key| && key[..|prefix|] == prefix
  }

  predicate LegalTarget(prefix: Key) {
    && |prefix| >= 2 && prefix[|prefix| - 1] == 47 && prefix[0] != 47
    && forall i :: 0 <= i < |prefix| ==> WordByte(prefix[i])
  }

  ghost predicate EmptyUnder(objects: map<Key, Bytes>, prefix: Key) {
    forall key :: key in objects ==> !StartsWith(key, prefix)
  }

  /** The objects extraction adds. */
  function Placed(files: seq<File>, prefix: Key): map<Key, Bytes> {
    if files == [] then map[]
    else Placed(files[..|files| - 1], prefix)[prefix + files[|files| - 1].path := files[|files| - 1].data]
  }

  lemma {:induction false} PlacedKeys(files: seq<File>, prefix: Key)
    ensures forall key :: key in Placed(files, prefix) <==>
                            exists i :: 0 <= i < |files| && key == prefix + files[i].path
  {
    if files != [] {
      var front := files[..|files| - 1];
      PlacedKeys(front, prefix);
      assert forall i :: 0 <= i < |front| ==> files[i] == front[i];
      forall key | key in Placed(files, prefix)
        ensures exists i :: 0 <= i < |files| && key == prefix + files[i].path
      {
        if key != prefix + files[|files| - 1].path {
          assert key in Placed(front, prefix);
          var i :| 0 <= i < |front| && key == prefix + front[i].path;
          assert key == prefix + files[i].path;
        }
      }
      forall i | 0 <= i < |files| ensures prefix + files[i].path in Placed(files, prefix) {
        if i < |front| {
          assert prefix + front[i].path in Placed(front, prefix);
        }
      }
    }
  }

  /** Each extracted object holds the bytes of its entry. */
  lemma {:induction false} PlacedData(files: seq<File>, prefix: Key, i: nat)
    requires i < |files|
    requires forall i, j :: 0 <= i < j < |files| ==> files[i].path != files[j].path
    ensures prefix + files[i].path in Placed(files, prefix)
    ensures Placed(files, prefix)[prefix + files[i].path] == files[i].data
  {
    var front, last := files[..|files| - 1], files[|files| - 1];
    if i < |front| {
      PlacedData(front, prefix, i);
      assert files[i].path != last.path;
      assert (prefix + files[i].path)[|prefix|..] == files[i].path;
      assert (prefix + last.path)[|prefix|..] == last.path;
    }
  }

  /** Words, digits, hyphens, underscores and slashes, ending in a slash but not only or beginning with one. */
  ghost predicate SafeTarget(prefix: Key) {
    && |prefix| >= 2 && prefix[0] != 47 && prefix[|prefix| - 1] == 47
    && forall i | 0 <= i < |prefix| ::
         || 97 <= prefix[i] <= 122 || 65 <= prefix[i] <= 90 || 48 <= prefix[i] <= 57
         || prefix[i] == 47 || prefix[i] == 45 || prefix[i] == 95
  }

  /** Every file is stored under the prefix with its own bytes, and every other object is as it was. */
  ghost predicate Delivered(before: map<Key, Bytes>, files: seq<File>, prefix: Key, after: map<Key, Bytes>) {
    && (forall i | 0 <= i < |files| :: prefix + files[i].path in after && after[prefix + files[i].path] == files[i].data)
    && (forall key | key in after :: (key in before && after[key] == before[key]) || exists i | 0 <= i < |files| :: key == prefix + files[i].path)
    && (forall key | key in before :: key in after && (after[key] == before[key] || exists i | 0 <= i < |files| :: key == prefix + files[i].path))
  }

  lemma PlacedIsStored(before: map<Key, Bytes>, files: seq<File>, prefix: Key)
    requires forall i, j :: 0 <= i < j < |files| ==> files[i].path != files[j].path
    ensures Delivered(before, files, prefix, before + Placed(files, prefix))
  {
    hide Placed;
    PlacedKeys(files, prefix);
    forall i | 0 <= i < |files| ensures prefix + files[i].path in Placed(files, prefix) && Placed(files, prefix)[prefix + files[i].path] == files[i].data {
      PlacedData(files, prefix, i);
    }
  }

  /** No object's key begins with the prefix. */
  ghost predicate Free(objects: map<Key, Bytes>, prefix: Key) {
    forall key | key in objects :: |key| < |prefix| || key[..|prefix|] != prefix
  }

  lemma TargetMeans(objects: map<Key, Bytes>, prefix: Key)
    ensures LegalTarget(prefix) <==> SafeTarget(prefix)
    ensures EmptyUnder(objects, prefix) <==> Free(objects, prefix)
    ensures EmptyUnder(objects, prefix) <==> !exists key :: key in objects && StartsWith(key, prefix)
  {
  }

  lemma StartsWithPrefix(prefix: Key, path: Bytes)
    ensures StartsWith(prefix + path, prefix)
  {
  }

  method CleanUp(storage: ObjectStore, files: seq<File>, prefix: Key, ghost before: map<Key, Bytes>)
    requires EmptyUnder(before, prefix)
    requires storage.objects == before + Placed(files, prefix)
    modifies storage
    ensures storage.objects == before
  {
    PlacedKeys(files, prefix);
    var i := 0;
    while i < |files|
      invariant 0 <= i <= |files|
      invariant forall key :: key in before ==> key in storage.objects && storage.objects[key] == before[key]
      invariant forall key :: key in storage.objects ==> key in before || key in Placed(files, prefix)
      invariant forall k :: 0 <= k < i ==> prefix + files[k].path !in storage.objects
    {
      assert StartsWith(prefix + files[i].path, prefix);
      storage.Delete(prefix + files[i].path);
      i := i + 1;
    }
    forall key | key in Placed(files, prefix) ensures key !in storage.objects {
      var k :| 0 <= k < |files| && key == prefix + files[k].path;
    }
  }

  /** What one header block asks for: to stop, or to take `size` bytes for `path`. */
  datatype Verdict = Finish(result: Result) | Take(path: Bytes, size: nat)

  /** Reads one header, or the two zero blocks that end an archive. */
  method ReadHeader(cursor: Cursor, names: set<Bytes>, total: nat, count: nat, limits: Limits)
    returns (verdict: Verdict)
    requires cursor.Valid()
    modifies cursor
    ensures cursor.Valid()
    ensures verdict.Finish? ==> ReadNext(old(cursor.Rest()), names, total, count, limits) == Stop(verdict.result)
    ensures verdict.Finish? && verdict.result.Files? ==> verdict.result == Files([])
    ensures verdict.Take? ==>
              && |cursor.Rest()| + BLOCK == |old(cursor.Rest())|
              && ReadNext(old(cursor.Rest()), names, total, count, limits)
                 == if |cursor.Rest()| < verdict.size + Padding(verdict.size) then Stop(Failed(Truncated))
                    else Step(File(verdict.path, cursor.Rest()[..verdict.size]),
                              cursor.Rest()[verdict.size + Padding(verdict.size)..])
  {
    hide Sum, ReaderPath;
    var header, ok := cursor.Read(BLOCK);
    if !ok {
      return Finish(Failed(Truncated));
    }
    if AllZero(header) {
      var second: Bytes;
      second, ok := cursor.Read(BLOCK);
      if !ok {
        return Finish(Failed(Truncated));
      }
      var end := cursor.Ended();
      if !AllZero(second) || !end {
        return Finish(Failed(TerminatorInvalid));
      }
      return Finish(Files([]));
    }
    if !GoodHeader(header, names) {
      return Finish(Failed(EntryInvalid));
    }
    var size := OctalValue(SizeText(header));
    if count >= limits.maxEntries || total + size > limits.maxBytes {
      return Finish(Failed(LimitExceeded));
    }
    verdict := Take(Field(header, 0, 100), size);
  }

  /** How storing one entry ended; `written` says whether its object was already in place. */
  datatype Stored = Whole(data: Bytes) | Short(written: bool, data: Bytes) | Refused

  /** Streams an entry into its object, then reads past its padding. */
  method StoreEntry(cursor: Cursor, storage: ObjectStore, key: Key, size: nat) returns (stored: Stored)
    requires cursor.Valid()
    modifies cursor, storage
    ensures cursor.Valid()
    ensures stored.Whole? ==>
              && size + Padding(size) <= |old(cursor.Rest())| && stored.data == old(cursor.Rest())[..size]
              && cursor.Rest() == old(cursor.Rest())[size + Padding(size)..]
              && storage.objects == old(storage.objects)[key := stored.data]
    ensures stored.Short? ==>
              && |old(cursor.Rest())| < size + Padding(size)
              && storage.objects == if stored.written then old(storage.objects)[key := stored.data] else old(storage.objects)
    ensures stored.Refused? ==> key in storage.broken && storage.objects == old(storage.objects)
  {
    ghost var rest := cursor.Rest();
    var parts, ok := cursor.Take(size);
    if !ok {
      return Short(false, []);
    }
    ok := storage.WriteChunks(key, parts);
    if !ok {
      return Refused;
    }
    if size % BLOCK != 0 {
      var padding;
      padding, ok := cursor.Read(BLOCK - size % BLOCK);
      if !ok {
        return Short(true, Flatten(parts));
      }
    }
    assert cursor.Rest() == rest[size + Padding(size)..];
    stored := Whole(Flatten(parts));
  }

  /** Extraction, entry by entry; the names, the running total and the entry list are the only
      memory it keeps, and any failure takes back what was written. */
  method Extract(chunks: seq<Bytes>, storage: ObjectStore, prefix: Key, limits: Limits) returns (result: Result)
    modifies storage
    ensures result == Failed(TargetInvalid) <==> !SafeTarget(prefix)
    ensures result == Failed(TargetNotEmpty) <==> SafeTarget(prefix) && !Free(old(storage.objects), prefix)
    ensures result.Files? ==> Delivered(old(storage.objects), result.files, prefix, storage.objects)
    ensures LegalTarget(prefix) <==> SafeTarget(prefix)
    ensures !LegalTarget(prefix) ==> result == Failed(TargetInvalid)
    ensures LegalTarget(prefix) && !EmptyUnder(old(storage.objects), prefix) ==> result == Failed(TargetNotEmpty)
    ensures LegalTarget(prefix) && EmptyUnder(old(storage.objects), prefix) && result != Failed(StorageFailed) ==>
              result == Read(Flatten(chunks), {}, 0, 0, limits)
    ensures result == Failed(StorageFailed) ==> exists key :: key in storage.broken && StartsWith(key, prefix)
    ensures result.Failed? ==> storage.objects == old(storage.objects)
    ensures result.Files? ==> storage.objects == old(storage.objects) + Placed(result.files, prefix)
  {
    hide ReadNext, LegalTarget, SafeTarget, EmptyUnder, Free, StartsWith, Delivered, Read, Placed, After, Padding, Flatten;
    TargetMeans(storage.objects, prefix);
    if !LegalTarget(prefix) {
      return Failed(TargetInvalid);
    }
    if exists key :: key in storage.objects && StartsWith(key, prefix) {
      return Failed(TargetNotEmpty);
    }
    ghost var before := storage.objects;
    ghost var all := Read(Flatten(chunks), {}, 0, 0, limits);
    var cursor := new Cursor(chunks);
    var entries: seq<File>, names: set<Bytes>, total: nat := [], {}, 0;
    NothingPlaced(before, prefix, all);
    while true
      invariant cursor.Valid() && fresh(cursor)
      invariant storage.objects == before + Placed(entries, prefix)
      invariant all == After(entries, Read(cursor.Rest(), names, total, |entries|, limits))
      decreases |cursor.Rest()|
    {
      ghost var unread, known, sum := cursor.Rest(), names, total;
      var verdict := ReadHeader(cursor, names, total, |entries|, limits);
      if verdict.Finish? {
        ReadStops(unread, names, total, |entries|, limits, verdict.result);
        StopsInside(unread, names, total, |entries|, limits);
        AfterStop(entries, verdict.result);
        if verdict.result.Files? {
          ReadIsSafe(Flatten(chunks), {}, 0, 0, limits);
          PlacedIsStored(before, entries, prefix);
          return Files(entries);
        }
        CleanUp(storage, entries, prefix, before);
        return verdict.result;
      }
      ghost var rest, delivered := cursor.Rest(), entries;
      names := names + {verdict.path};
      total := total + verdict.size;
      var key := prefix + verdict.path;
      var stored := StoreEntry(cursor, storage, key, verdict.size);
      if stored.Refused? {
        CleanUp(storage, entries, prefix, before);
        StartsWithPrefix(prefix, verdict.path);
        return Failed(StorageFailed);
      }
      if stored.Whole? || stored.written {
        entries := entries + [File(verdict.path, stored.data)];
        PlacedSnoc(delivered, File(verdict.path, stored.data), prefix, before);
      }
      if stored.Short? {
        ReadStops(unread, known, sum, |delivered|, limits, Failed(Truncated));
        AfterStop(delivered, Failed(Truncated));
        CleanUp(storage, entries, prefix, before);
        return Failed(Truncated);
      }
      ReadSteps(unread, known, sum, |delivered|, limits, File(verdict.path, stored.data), cursor.Rest());
      AfterOne(delivered, File(verdict.path, stored.data), Read(cursor.Rest(), names, total, |entries|, limits));
    }
  }

  lemma NothingPlaced(before: map<Key, Bytes>, prefix: Key, all: Result)
    ensures before == before + Placed([], prefix) && After([], all) == all
  {
    if all.Files? {
      assert [] + all.files == all.files;
    }
  }

  lemma ReadStops(s: Bytes, names: set<Bytes>, total: nat, count: nat, limits: Limits, result: Result)
    requires ReadNext(s, names, total, count, limits) == Stop(result)
    ensures Read(s, names, total, count, limits) == result
  {
    hide ReadNext;
  }

  /** Nothing in a stream is held against the target. */
  lemma StopsInside(s: Bytes, names: set<Bytes>, total: nat, count: nat, limits: Limits)
    ensures ReadNext(s, names, total, count, limits) != Stop(Failed(TargetInvalid))
    ensures ReadNext(s, names, total, count, limits) != Stop(Failed(TargetNotEmpty))
  {
    hide GoodHeader, SizeText, OctalText;
  }

  lemma ReadSteps(s: Bytes, names: set<Bytes>, total: nat, count: nat, limits: Limits, file: File, rest: Bytes)
    requires ReadNext(s, names, total, count, limits) == Step(file, rest)
    ensures var more := Read(rest, names + {file.path}, total + |file.data|, count + 1, limits);
            Read(s, names, total, count, limits) == if more.Failed? then more else Files([file] + more.files)
  {
    hide ReadNext;
  }

  /** A verdict with no further entries ends what was delivered. */
  lemma AfterStop(entries: seq<File>, result: Result)
    ensures result.Failed? ==> After(entries, result) == result
    ensures result == Files([]) ==> After(entries, result) == Files(entries)
  {
    assert entries + [] == entries;
  }

  lemma PlacedSnoc(files: seq<File>, file: File, prefix: Key, before: map<Key, Bytes>)
    ensures before + Placed(files + [file], prefix) == (before + Placed(files, prefix))[prefix + file.path := file.data]
  {
    assert (files + [file])[..|files|] == files;
  }

  lemma AfterOne(entries: seq<File>, file: File, rest: Result)
    ensures After(entries, if rest.Failed? then rest else Files([file] + rest.files)) == After(entries + [file], rest)
  {
    if rest.Files? {
      assert entries + ([file] + rest.files) == entries + [file] + rest.files;
    }
  }

  /** Entries already delivered, in front of what is still to be read. */
  function After(entries: seq<File>, rest: Result): Result {
    if rest.Failed? then rest else Files(entries + rest.files)
  }
}
