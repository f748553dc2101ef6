/** One changed byte of an accepted archive (packages/adapters/src/archive-reader.ts): what the checksum, the
    magic and the terminator catch, and what is left to whoever compares hashes. */
module TarTampering {
  import opened Seqs
  import opened Tar

  /** Data in whole blocks of 512 bytes. */
  function Blocks(bytes: nat): (n: nat)
    ensures bytes <= n < bytes + 512 && n % 512 == 0
  {
    (bytes + 511) / 512 * 512
  }

  /** Where an entry begins: each one before it takes a header block and its data in whole blocks. */
  function Start(files: seq<File>, i: nat): nat
    requires i <= |files|
  {
    if i == 0 then 0 else 512 + Blocks(|files[0].data|) + Start(files[1..], i - 1)
  }

  // ---------- one header ----------

  lemma {:induction false} SumChanges(s: Bytes, at: nat, b: byte)
    requires at < |s|
    ensures Sum(s[at := b]) == Sum(s) - s[at] + b
  {
    if at > 0 {
      SumChanges(s[1..], at - 1, b);
      assert s[at := b][1..] == s[1..][at - 1 := b];
    } else {
      assert s[at := b][1..] == s[1..];
    }
  }

  function Summed(h: Bytes): Bytes
    requires |h| == BLOCK
  {
    h[..148] + Spaces(8) + h[156..]
  }

  lemma SumNotices(h: Bytes, at: nat, b: byte)
    requires |h| == BLOCK && at < 512 && !(148 <= at < 156) && b != h[at]
    ensures Sum(Summed(h[at := b])) != Sum(Summed(h))
  {
    assert Summed(h[at := b]) == Summed(h)[at := b];
    SumChanges(Summed(h), at, b);
  }

  /** The fields of a followed header that are never zero. */
  lemma NeverBlank(h: Bytes, names: set<Bytes>)
    requires |h| == BLOCK && GoodHeader(h, names)
    ensures h[0] != 0 && h[156] == 48
  {
    hide OctalText, SizeText, SumText, Sum;
    assert h[0..100][0] == h[0] && Field(h, 0, 100) != [];
    assert h[156..157] == [h[156]] && Field(h, 156, 1)[0] == 48;
  }

  /** What was followed calls itself a plain file of the ustar format, under a legal new path. */
  lemma PlainFile(s: Bytes, names: set<Bytes>, total: nat, count: nat, limits: Limits)
    requires ReadNext(s, names, total, count, limits).Step?
    ensures |s| >= 512 && s[156] == 48 && s[257..263] == [117, 115, 116, 97, 114, 0]
    ensures var path := ReadNext(s, names, total, count, limits).file.path;
      && 0 < |path| <= 100 && path == s[..|path|] && (|path| < 100 ==> s[|path|] == 0) && path !in names && path[0] != 47
      && forall i | 0 <= i < |path| ::
           97 <= path[i] <= 122 || 65 <= path[i] <= 90 || 48 <= path[i] <= 57 || path[i] == 45 || path[i] == 95 || path[i] == 47
  {
    Followed(s, names, total, count, limits);
    var h := s[..BLOCK];
    NeverBlank(h, names);
    CutAtNul(h[257..263]);
    CutAtNul(h[0..100]);
    assert h[0..100] == s[..100] && h[257..263] == s[257..263];
    assert |Field(h, 257, 6)| == 5;
    hide OctalText, SizeText, SumText, Sum, ReadNext;
  }

  lemma {:induction false} CutAtNul(s: Bytes)
    ensures |UntilNul(s)| < |s| ==> s[|UntilNul(s)|] == 0
  {
    if s != [] && s[0] != 0 {
      CutAtNul(s[1..]);
    }
  }

  /** A header other than in its checksum field: it is not followed any more, nor taken for the end. */
  lemma HeaderNoticed(h: Bytes, names: set<Bytes>, at: nat, b: byte)
    requires |h| == BLOCK && GoodHeader(h, names) && at < 512 && !(148 <= at < 156) && b != h[at]
    ensures !GoodHeader(h[at := b], names) && !AllZero(h[at := b])
  {
    NeverBlank(h, names);
    SumNotices(h, at, b);
    assert h[at := b][148..156] == h[148..156];
    assert Sum(Summed(h)) == OctalValue(SumText(h));
    assert SumText(h[at := b]) == SumText(h);
    assert at != 0 ==> h[at := b][0] != 0;
    assert at == 0 ==> h[at := b][156] != 0;
    hide Sum, OctalText, SizeText, SumText, ReaderPath, Field;
  }

  /** The checksum field: the path and the size are still the same. */
  lemma ChecksumApart(h: Bytes, at: nat, b: byte)
    requires |h| == BLOCK && 148 <= at < 156
    ensures Field(h[at := b], 0, 100) == Field(h, 0, 100) && SizeText(h[at := b]) == SizeText(h)
  {
    assert h[at := b][0..100] == h[0..100] && h[at := b][124..136] == h[124..136];
  }

  // ---------- one entry ----------

  lemma Changed(s: Bytes, at: nat, b: byte)
    requires at < |s| && BLOCK <= |s|
    ensures s[at := b][..BLOCK] == if at < 512 then s[..BLOCK][at := b] else s[..BLOCK]
    ensures s[at := b][BLOCK..] == if at < 512 then s[BLOCK..] else s[BLOCK..][at - 512 := b]
  {
  }

  lemma Followed(s: Bytes, names: set<Bytes>, total: nat, count: nat, limits: Limits)
    requires ReadNext(s, names, total, count, limits).Step?
    ensures BLOCK <= |s| && GoodHeader(s[..BLOCK], names) && OctalText(SizeText(s[..BLOCK]), 11)
    ensures ReadNext(s, names, total, count, limits) == ReadMember(s[..BLOCK], s[BLOCK..], total, count, limits)
  {
    hide SizeText, Field, Sum, SumText;
  }

  lemma HeaderChanged(s: Bytes, at: nat, b: byte, names: set<Bytes>, total: nat, count: nat, limits: Limits)
    requires ReadNext(s, names, total, count, limits).Step? && at < |s| && b != s[at] && at < 512
    ensures var changed := ReadNext(s[at := b], names, total, count, limits);
      changed == Stop(Failed(EntryInvalid)) || (148 <= at < 156 && changed == ReadNext(s, names, total, count, limits))
  {
    var h := s[..BLOCK];
    Followed(s, names, total, count, limits);
    Changed(s, at, b);
    if 148 <= at < 156 {
      ChecksumApart(h, at, b);
      NeverBlank(h, names);
      assert h[at := b][0] != 0;
    } else {
      HeaderNoticed(h, names, at, b);
    }
    hide GoodHeader, SizeText, Field, OctalText, OctalValue;
  }

  /** What the first entry of the changed stream is, if the change is in it, and otherwise that it is the same. */
  lemma EntryChanged(s: Bytes, at: nat, b: byte, names: set<Bytes>, total: nat, count: nat, limits: Limits)
    requires ReadNext(s, names, total, count, limits).Step? && at < |s| && b != s[at]
    ensures var step := ReadNext(s, names, total, count, limits);
      var size := |step.file.data|;
      var changed := ReadNext(s[at := b], names, total, count, limits);
      && 512 + Blocks(size) <= |s| && step.rest == s[512 + Blocks(size)..]
      && (at < 512 ==> changed == Stop(Failed(EntryInvalid)) || (148 <= at < 156 && changed == step))
      && (512 <= at < 512 + size ==> changed == Step(File(step.file.path, step.file.data[at - 512 := b]), step.rest))
      && (512 + size <= at < 512 + Blocks(size) ==> changed == step)
      && (512 + Blocks(size) <= at ==> changed == Step(step.file, step.rest[at - 512 - Blocks(size) := b]))
  {
    var h, rest := s[..BLOCK], s[BLOCK..];
    Followed(s, names, total, count, limits);
    EntryLength(h, rest, total, count, limits);
    if at < 512 {
      HeaderChanged(s, at, b, names, total, count, limits);
    } else {
      BodyChanged(h, rest, at - 512, b, total, count, limits);
      Changed(s, at, b);
    }
    hide GoodHeader, SizeText, Field, OctalText, OctalValue, ReadMember, Blocks;
  }

  lemma EntryLength(h: Bytes, rest: Bytes, total: nat, count: nat, limits: Limits)
    requires |h| == BLOCK && OctalText(SizeText(h), 11) && ReadMember(h, rest, total, count, limits).Step?
    ensures var step := ReadMember(h, rest, total, count, limits);
      Blocks(|step.file.data|) <= |rest| && step.rest == rest[Blocks(|step.file.data|)..]
  {
    hide SizeText, Field, OctalValue;
  }

  lemma BodyChanged(h: Bytes, rest: Bytes, at: nat, b: byte, total: nat, count: nat, limits: Limits)
    requires |h| == BLOCK && OctalText(SizeText(h), 11) && at < |rest|
    requires ReadMember(h, rest, total, count, limits).Step?
    ensures var step := ReadMember(h, rest, total, count, limits);
      var size := |step.file.data|;
      ReadMember(h, rest[at := b], total, count, limits) ==
        if at < size then Step(File(step.file.path, step.file.data[at := b]), step.rest)
        else if at < Blocks(size) then step
        else Step(step.file, step.rest[at - Blocks(size) := b])
  {
    hide SizeText, Field, OctalValue;
    var size := OctalValue(SizeText(h));
    assert size + Padding(size) == Blocks(size);
    var end := Blocks(size);
    assert rest[at := b][..size] == if at < size then rest[..size][at := b] else rest[..size];
    assert rest[at := b][end..] == if at < end then rest[end..] else rest[end..][at - end := b];
  }

  /** The two blocks of zeros at the end. */
  lemma EndNoticed(s: Bytes, at: nat, b: byte, names: set<Bytes>, total: nat, count: nat, limits: Limits)
    requires ReadNext(s, names, total, count, limits) == Stop(Files([])) && at < |s| && b != s[at]
    ensures |s| == 1024 && ReadNext(s[at := b], names, total, count, limits).Stop?
    ensures ReadNext(s[at := b], names, total, count, limits).result.Failed?
  {
    Changed(s, at, b);
    var h := s[at := b][..BLOCK];
    if at < 512 {
      assert h[at] != 0;
      if GoodHeader(h, names) {
        NeverBlank(h, names);
      }
      hide GoodHeader;
    } else {
      assert s[at := b][BLOCK..][..BLOCK][at - 512] != 0;
      hide GoodHeader;
    }
  }

  // ---------- the whole archive ----------

  /** What the changed archive reads as, by where the byte is. */
  ghost predicate Noticed(files: seq<File>, at: nat, b: byte, read: Result) {
    && (Start(files, |files|) <= at ==> read.Failed?)
    && (forall i | 0 <= i < |files| && Start(files, i) <= at < Start(files, i) + 512 ::
          read.Failed? || (148 <= at - Start(files, i) < 156 && read == Files(files)))
    && (forall i | 0 <= i < |files| && Start(files, i) + 512 <= at < Start(files, i) + 512 + |files[i].data| ::
          read == Files(files[i := File(files[i].path, files[i].data[at - Start(files, i) - 512 := b])]))
    && (forall i | 0 <= i < |files| && Start(files, i) + 512 + |files[i].data| <= at < Start(files, i) + 512 + Blocks(|files[i].data|) ::
          read == Files(files))
  }

  lemma StartLater(file: File, files: seq<File>, i: nat)
    requires i <= |files|
    ensures Start([file] + files, i + 1) == 512 + Blocks(|file.data|) + Start(files, i)
  {
    assert ([file] + files)[1..] == files;
  }

  /** Reading, one entry at a time. */
  lemma ReadOnce(s: Bytes, names: set<Bytes>, total: nat, count: nat, limits: Limits)
    ensures var next, read := ReadNext(s, names, total, count, limits), Read(s, names, total, count, limits);
      if next.Stop? then read == next.result
      else
        var more := Read(next.rest, names + {next.file.path}, total + |next.file.data|, count + 1, limits);
        |next.rest| < |s| && read == if more.Failed? then more else Files([next.file] + more.files)
    ensures ReadNext(s, names, total, count, limits).Stop? && ReadNext(s, names, total, count, limits).result.Files? ==>
      ReadNext(s, names, total, count, limits).result == Files([]) && |s| == 1024
  {
    hide ReadNext;
  }

  lemma {:induction false} LengthRead(s: Bytes, names: set<Bytes>, total: nat, count: nat, limits: Limits)
    requires Read(s, names, total, count, limits).Files?
    ensures |s| == Start(Read(s, names, total, count, limits).files, |Read(s, names, total, count, limits).files|) + 1024
    decreases |s|
  {
    hide Read, ReadNext, Blocks;
    ReadOnce(s, names, total, count, limits);
    var next := ReadNext(s, names, total, count, limits);
    if next.Step? {
      EntryChanged(s, 0, if s[0] == 0 then 1 else 0, names, total, count, limits);
      var size := |next.file.data|;
      var more := Read(next.rest, names + {next.file.path}, total + size, count + 1, limits);
      LengthRead(next.rest, names + {next.file.path}, total + size, count + 1, limits);
      StartLater(next.file, more.files, |more.files|);
    }
  }

  /** A changed byte of an accepted archive: in a header it makes the archive refused, unless it only spells the
      same checksum in another way; in an entry's data it changes that byte of that entry and nothing else; in
      the padding it changes nothing; in the terminator it makes the archive refused. */
  lemma {:induction false} ChangedByte(s: Bytes, at: nat, b: byte, names: set<Bytes>, total: nat, count: nat, limits: Limits)
    requires Read(s, names, total, count, limits).Files? && at < |s| && b != s[at]
    ensures Noticed(Read(s, names, total, count, limits).files, at, b, Read(s[at := b], names, total, count, limits))
    decreases |s|
  {
    hide Read, ReadNext, Noticed, Blocks;
    ReadOnce(s, names, total, count, limits);
    ReadOnce(s[at := b], names, total, count, limits);
    var next := ReadNext(s, names, total, count, limits);
    var read := Read(s[at := b], names, total, count, limits);
    if next.Stop? {
      EndNoticed(s, at, b, names, total, count, limits);
      NoticedAtEnd(at, b, read);
    } else {
      EntryChanged(s, at, b, names, total, count, limits);
      var size := |next.file.data|;
      var seen := names + {next.file.path};
      var more := Read(next.rest, seen, total + size, count + 1, limits);
      if 512 + Blocks(size) <= at {
        var k := at - 512 - Blocks(size);
        ChangedByte(next.rest, k, b, seen, total + size, count + 1, limits);
        NoticedLater(next.file, more.files, k, b, Read(next.rest[k := b], seen, total + size, count + 1, limits));
      } else {
        NoticedFirst(next.file, more.files, at, b, read);
      }
    }
  }

  lemma NoticedAtEnd(at: nat, b: byte, read: Result)
    requires read.Failed?
    ensures Noticed([], at, b, read)
  {
  }

  lemma NoticedFirst(file: File, files: seq<File>, at: nat, b: byte, read: Result)
    requires at < 512 + Blocks(|file.data|)
    requires at < 512 ==> read.Failed? || (148 <= at < 156 && read == Files([file] + files))
    requires 512 <= at < 512 + |file.data| ==> read == Files([File(file.path, file.data[at - 512 := b])] + files)
    requires 512 + |file.data| <= at ==> read == Files([file] + files)
    ensures Noticed([file] + files, at, b, read)
  {
    hide Blocks;
    var all := [file] + files;
    forall i | 0 < i <= |all| ensures Start(all, i) > at {
      StartLater(file, files, i - 1);
    }
    if 512 <= at < 512 + |file.data| {
      assert all[0 := File(file.path, file.data[at - 512 := b])] == [File(file.path, file.data[at - 512 := b])] + files;
    }
  }

  lemma NoticedLater(file: File, files: seq<File>, at: nat, b: byte, read: Result)
    requires Noticed(files, at, b, read)
    ensures Noticed([file] + files, at + 512 + Blocks(|file.data|), b, if read.Failed? then read else Files([file] + read.files))
  {
    hide Blocks;
    var all := [file] + files;
    forall i | 0 < i <= |all| ensures Start(all, i) == 512 + Blocks(|file.data|) + Start(files, i - 1) {
      StartLater(file, files, i - 1);
    }
    forall i | 0 < i < |all| ensures all[i] == files[i - 1] {
    }
    forall i | 0 < i < |all| && Start(files, i - 1) + 512 <= at < Start(files, i - 1) + 512 + |files[i - 1].data|
      ensures var f := File(all[i].path, all[i].data[at - Start(files, i - 1) - 512 := b]); all[i := f] == [file] + files[i - 1 := f]
    {
    }
  }
}
