/** `TarArchive.encode`: a header buffer filled in place per entry, then the entry's own chunks
    (packages/adapters/src/archive.ts). */
module TarWriter {
  import opened Seqs
  import opened Tar

  /** What the caller announces (`bytes`) and what its stream delivers (`chunks`). */
  datatype Entry = Entry(path: Bytes, bytes: int, chunks: seq<Bytes>)

  datatype Refusal = NoRefusal | InvalidArchiveEntry | ArchiveSizeChanged

  predicate Announced(e: Entry) {
    WriterPath(e.path) && 0 <= e.bytes <= MAX_SIZE
  }

  /** The verdict on the first entry that is not acceptable. */
  function FirstRefusal(entries: seq<Entry>): Refusal {
    if entries == [] then NoRefusal
    else if !Announced(entries[0]) then InvalidArchiveEntry
    else if |Flatten(entries[0].chunks)| != entries[0].bytes then ArchiveSizeChanged
    else FirstRefusal(entries[1..])
  }

  function Content(entries: seq<Entry>): (files: seq<File>)
    ensures |files| == |entries|
    ensures forall i :: 0 <= i < |files| ==> files[i] == File(entries[i].path, Flatten(entries[i].chunks))
  {
    seq(|entries|, i requires 0 <= i < |entries| => File(entries[i].path, Flatten(entries[i].chunks)))
  }

  lemma {:induction false} AcceptedIsArchivable(entries: seq<Entry>)
    requires FirstRefusal(entries) == NoRefusal
    ensures Archivable(Content(entries))
  {
    if entries != [] {
      AcceptedIsArchivable(entries[1..]);
      assert Content(entries)[1..] == Content(entries[1..]);
    }
  }

  /** A path of one to a hundred letters, digits, slashes, dots, hyphens and underscores, not absolute and without
      two dots in a row, and a size of at most eleven octal digits. */
  ghost predicate Acceptable(e: Entry) {
    && 1 <= |e.path| <= 100 && e.path[0] != 47
    && (forall i | 0 <= i < |e.path| ::
          || 97 <= e.path[i] <= 122 || 65 <= e.path[i] <= 90 || 48 <= e.path[i] <= 57
          || e.path[i] == 47 || e.path[i] == 46 || e.path[i] == 45 || e.path[i] == 95)
    && (forall i | 0 <= i < |e.path| - 1 :: e.path[i] != 46 || e.path[i + 1] != 46)
    && 0 <= e.bytes < 8589934592
  }

  /** As many bytes as announced. */
  ghost predicate Delivers(e: Entry) { |Flatten(e.chunks)| == e.bytes }

  /** The verdict is on the first entry that is not acceptable or does not deliver what it announced. */
  ghost predicate Verdict(entries: seq<Entry>, refusal: Refusal) {
    && (refusal == NoRefusal <==> forall i | 0 <= i < |entries| :: Acceptable(entries[i]) && Delivers(entries[i]))
    && (refusal != NoRefusal ==> exists i | 0 <= i < |entries| ::
          && (forall j | 0 <= j < i :: Acceptable(entries[j]) && Delivers(entries[j]))
          && if Acceptable(entries[i]) then refusal == ArchiveSizeChanged && !Delivers(entries[i]) else refusal == InvalidArchiveEntry)
  }

  lemma {:induction false} FirstRefusalMeans(entries: seq<Entry>)
    ensures Verdict(entries, FirstRefusal(entries))
  {
    if entries != [] {
      FirstRefusalMeans(entries[1..]);
      AnnouncedMeans(entries[0]);
      hide Acceptable, Announced, Delivers;
      DeliversMeans(entries[0]);
      if Acceptable(entries[0]) && Delivers(entries[0]) {
        VerdictLater(entries);
      }
    }
  }

  lemma DeliversMeans(e: Entry)
    ensures Delivers(e) <==> |Flatten(e.chunks)| == e.bytes
  {
  }

  lemma VerdictLater(entries: seq<Entry>)
    requires entries != [] && Acceptable(entries[0]) && Delivers(entries[0])
    ensures forall refusal :: Verdict(entries[1..], refusal) ==> Verdict(entries, refusal)
  {
    hide Acceptable, Delivers;
    var rest := entries[1..];
    assert forall i | 0 < i < |entries| :: entries[i] == rest[i - 1];
    forall refusal | Verdict(rest, refusal) ensures Verdict(entries, refusal) {
      if refusal != NoRefusal {
        var i :| 0 <= i < |rest|
          && (forall j | 0 <= j < i :: Acceptable(rest[j]) && Delivers(rest[j]))
          && if Acceptable(rest[i]) then refusal == ArchiveSizeChanged && !Delivers(rest[i]) else refusal == InvalidArchiveEntry;
        assert entries[i + 1] == rest[i];
      }
    }
  }

  lemma AnnouncedMeans(e: Entry)
    ensures Announced(e) <==> Acceptable(e)
  {
  }

  // ---------- the header buffer ----------

  /** The header byte by byte: path, mode 600, user and group 0, size, time 0, checksum, plain file, ustar version 00
      and zeros everywhere else; size and checksum in octal, each ended by a NUL. */
  ghost predicate HeaderBytes(h: Bytes, path: Bytes, size: nat) {
    && |h| == 512 && |path| <= 100 && h[..|path|] == path && (forall i | |path| <= i < 100 :: h[i] == 0)
    && h[100..108] == [48, 48, 48, 48, 54, 48, 48, 0]
    && h[108..116] == [48, 48, 48, 48, 48, 48, 48, 0] && h[116..124] == [48, 48, 48, 48, 48, 48, 48, 0]
    && (forall i | 124 <= i < 135 :: 48 <= h[i] <= 55) && OctalValue(h[124..135]) == size && h[135] == 0
    && (forall i | 136 <= i < 147 :: h[i] == 48) && h[147] == 0
    && (forall i | 148 <= i < 154 :: 48 <= h[i] <= 55) && h[154] == 0 && h[155] == 32
    && OctalValue(h[148..154]) == Sum(h[..148] + [32, 32, 32, 32, 32, 32, 32, 32] + h[156..])
    && h[156] == 48 && (forall i | 157 <= i < 257 :: h[i] == 0)
    && h[257..265] == [117, 115, 116, 97, 114, 0, 48, 48] && (forall i | 265 <= i < 512 :: h[i] == 0)
  }

  lemma HeaderMeans(path: Bytes, size: nat)
    requires |path| <= 100 && size <= MAX_SIZE
    ensures HeaderBytes(Header(path, size), path, size)
  {
    var h, sum := Header(path, size), Checksum(path, size);
    ChecksumReads(path, size);
    Powers();
    PaddedOctal(size, 11);
    LayoutParts(path, size, sum);
    LayoutChecksumOnly(path, size, sum, Spaces(8));
    MiddleBytes(size);
    EndingBytes();
    hide Octal, PadStart, Layout, Middle, Ending, Sum, OctalValue, Checksum, Header;
    var front := path + Zeros(100 - |path|);
    assert h == front + Middle(size) + sum + Ending();
    assert h[..100] == front;
    assert h[100..148] == Middle(size);
    assert h[148..156] == sum;
    assert h[156..] == Ending();
    HeaderPieces(h, path, size, sum);
  }

  lemma HeaderPieces(h: Bytes, path: Bytes, size: nat, sum: Bytes)
    requires |path| <= 100 && size <= MAX_SIZE && |h| == 512 && h[..100] == path + Zeros(100 - |path|)
    requires h[100..148] == Middle(size) && h[148..156] == sum && h[156..] == Ending() && |sum| == 8 && sum[6] == 0 && sum[7] == 32
    requires forall i | 0 <= i < 6 :: IsDigit(sum[i])
    requires OctalValue(sum[..6]) == Sum(h[..148] + Spaces(8) + h[156..])
    ensures HeaderBytes(h, path, size)
  {
    Powers();
    PaddedOctal(size, 11);
    MiddleBytes(size);
    EndingBytes();
    hide Octal, PadStart, Middle, Ending, Sum, OctalValue;
    assert forall i | 0 <= i < 100 :: h[i] == h[..100][i];
    assert forall i | 0 <= i < 48 :: h[100 + i] == h[100..148][i];
    assert forall i | 0 <= i < 8 :: h[148 + i] == h[148..156][i];
    assert forall i | 0 <= i < 356 :: h[156 + i] == h[156..][i];
    var m, e := h[100..148], h[156..];
    assert h[100..108] == m[0..8] && h[108..116] == m[8..16] && h[116..124] == m[16..24] && h[124..135] == m[24..35];
    assert h[257..265] == e[101..109] && h[148..154] == sum[..6];
    assert Spaces(8) == [32, 32, 32, 32, 32, 32, 32, 32];
    assert forall i | 124 <= i < 135 :: h[i] == m[24..35][i - 124];
    assert forall i | 136 <= i < 147 :: h[i] == m[i - 100];
    assert forall i | 157 <= i < 257 :: h[i] == e[i - 156];
    assert forall i | 265 <= i < 512 :: h[i] == e[i - 156];
    assert forall i | 148 <= i < 154 :: h[i] == sum[i - 148];
    assert forall i | |path| <= i < 100 :: h[i] == (path + Zeros(100 - |path|))[i];
  }

  lemma MiddleBytes(size: nat)
    requires size <= MAX_SIZE
    ensures var m, digits := Middle(size), PadStart(Octal(size), 11);
      && |m| == 48 && |digits| == 11
      && m[0..8] == [48, 48, 48, 48, 54, 48, 48, 0] && m[8..16] == [48, 48, 48, 48, 48, 48, 48, 0]
      && m[16..24] == [48, 48, 48, 48, 48, 48, 48, 0] && m[24..35] == digits && m[35] == 0
      && (forall i | 36 <= i < 47 :: m[i] == 48) && m[47] == 0
  {
    Powers();
    PaddedOctal(size, 11);
    hide Octal, PadStart;
  }

  lemma EndingBytes()
    ensures var e := Ending();
      && |e| == 356 && e[0] == 48 && (forall i | 1 <= i < 101 :: e[i] == 0)
      && e[101..109] == [117, 115, 116, 97, 114, 0, 48, 48] && (forall i | 109 <= i < 356 :: e[i] == 0)
  {
  }

  method Write(h: array<byte>, text: Bytes, offset: nat)
    requires offset + |text| <= h.Length
    modifies h
    ensures h[..] == old(h[..offset]) + text + old(h[offset + |text|..])
  {
    var i := 0;
    while i < |text|
      invariant 0 <= i <= |text|
      invariant forall k :: 0 <= k < h.Length && !(offset <= k < offset + i) ==> h[k] == old(h[k])
      invariant forall k :: 0 <= k < i ==> h[offset + k] == text[k]
    {
      h[offset + i] := text[i];
      i := i + 1;
    }
  }

  /** Writing past what is already there leaves a gap of zeros before the text. */
  method WriteField(h: array<byte>, ghost filled: Bytes, text: Bytes, offset: nat) returns (ghost now: Bytes)
    requires h.Length == BLOCK && |filled| <= offset && offset + |text| <= BLOCK
    requires h[..] == filled + Zeros(BLOCK - |filled|)
    modifies h
    ensures now == filled + Zeros(offset - |filled|) + text && |now| == offset + |text|
    ensures h[..] == now + Zeros(BLOCK - |now|)
  {
    Write(h, text, offset);
    ghost var was := filled + Zeros(BLOCK - |filled|);
    assert was[..offset] == filled + Zeros(offset - |filled|);
    assert was[offset + |text|..] == Zeros(BLOCK - offset - |text|);
    now := filled + Zeros(offset - |filled|) + text;
  }

  method SumBytes(h: array<byte>) returns (sum: nat)
    ensures sum == Sum(h[..])
  {
    sum := 0;
    var i := 0;
    assert h[0..] == h[..];
    while i < h.Length
      invariant 0 <= i <= h.Length
      invariant sum + Sum(h[i..]) == Sum(h[..])
    {
      assert h[i..][1..] == h[i + 1..];
      sum := sum + h[i];
      i := i + 1;
    }
  }

  method EncodeHeader(path: Bytes, size: nat) returns (h: array<byte>)
    requires WriterPath(path) && size <= MAX_SIZE
    ensures fresh(h) && h[..] == Header(path, size) && HeaderBytes(h[..], path, size)
  {
    hide HeaderBytes;
    HeaderMeans(path, size);
    h := FillHeader(path, size);
    ghost var plain := h[..];
    var sum := SumBytes(h);
    ChecksumReads(path, size);
    LayoutParts(path, size, Spaces(8));
    LayoutParts(path, size, Checksum(path, size));
    ghost var front := path + Zeros(100 - |path|) + Middle(size);
    assert plain == front + Spaces(8) + Ending();
    assert plain[..148] == front && plain[156..] == Ending();
    Write(h, PadStart(Octal(sum), 6) + [0, 32], 148);
  }

  /** Path, mode, user and group. */
  ghost function Front(path: Bytes): (s: Bytes)
    requires |path| <= 100
    ensures |s| == 124
  {
    path + Zeros(100 - |path|) + Ascii("0000600\0") + Ascii("0000000\0") + Ascii("0000000\0")
  }

  lemma FrontOf(path: Bytes, s: Bytes)
    requires |path| <= 100
    requires s == [] + Zeros(0) + path + Zeros(100 - |path|) + Ascii("0000600\0") + Zeros(0) + Ascii("0000000\0") + Zeros(0) + Ascii("0000000\0")
    ensures s == Front(path)
  {
  }

  method FillFront(path: Bytes) returns (h: array<byte>)
    requires WriterPath(path)
    ensures fresh(h) && h.Length == BLOCK && h[..] == Front(path) + Zeros(BLOCK - 124)
  {
    hide Front;
    h := new byte[BLOCK](_ => 0);
    assert h[..] == [] + Zeros(BLOCK);
    ghost var s := WriteField(h, [], path, 0);
    s := WriteField(h, s, Ascii("0000600\0"), 100);
    s := WriteField(h, s, Ascii("0000000\0"), 108);
    s := WriteField(h, s, Ascii("0000000\0"), 116);
    FrontOf(path, s);
  }

  /** Every field but the checksum, which is still eight spaces. */
  method FillHeader(path: Bytes, size: nat) returns (h: array<byte>)
    requires WriterPath(path) && size <= MAX_SIZE
    ensures fresh(h) && h.Length == BLOCK && h[..] == Layout(path, size, Spaces(8))
  {
    Powers();
    PaddedOctal(size, 11);
    hide Octal, PadStart, Layout, Front;
    h := FillFront(path);
    ghost var s := WriteField(h, Front(path), PadStart(Octal(size), 11) + [0], 124);
    s := WriteField(h, s, Ascii("00000000000\0"), 136);
    MiddleOf(path, size, s);
    h := FillEnding(h, s);
    LayoutParts(path, size, Spaces(8));
  }

  lemma MiddleOf(path: Bytes, size: nat, s: Bytes)
    requires |path| <= 100
    requires s == Front(path) + Zeros(0) + (PadStart(Octal(size), 11) + [0]) + Zeros(0) + Ascii("00000000000\0")
    ensures s == path + Zeros(100 - |path|) + Middle(size)
  {
    hide Octal, PadStart;
  }

  lemma EndingOf(front: Bytes, s: Bytes)
    requires s == front + Zeros(0) + Spaces(8) + Zeros(0) + Ascii("0") + Zeros(100) + Ascii("ustar\0") + Zeros(0) + Ascii("00")
    ensures s + Zeros(247) == front + Spaces(8) + Ending()
  {
  }

  method FillEnding(h: array<byte>, ghost front: Bytes) returns (same: array<byte>)
    requires h.Length == BLOCK && |front| == 148 && h[..] == front + Zeros(BLOCK - 148)
    modifies h
    ensures same == h && h[..] == front + Spaces(8) + Ending()
  {
    hide Ending;
    ghost var s := WriteField(h, front, Spaces(8), 148);
    s := WriteField(h, s, Ascii("0"), 156);
    s := WriteField(h, s, Ascii("ustar\0"), 257);
    s := WriteField(h, s, Ascii("00"), 263);
    EndingOf(front, s);
    same := h;
  }

  // ---------- the stream ----------

  /** Passes the entry's own chunks through, counting bytes against the announced size. */
  method EncodeChunks(before: seq<Bytes>, e: Entry) returns (out: seq<Bytes>, ok: bool)
    requires 0 <= e.bytes
    ensures ok <==> |Flatten(e.chunks)| == e.bytes
    ensures ok ==> Flatten(out) == Flatten(before) + Flatten(e.chunks)
  {
    out := before;
    var total, i := 0, 0;
    while i < |e.chunks|
      invariant 0 <= i <= |e.chunks|
      invariant total == |Flatten(e.chunks[..i])| <= e.bytes
      invariant Flatten(out) == Flatten(before) + Flatten(e.chunks[..i])
    {
      assert e.chunks[..i + 1] == e.chunks[..i] + [e.chunks[i]];
      FlattenSnoc(e.chunks[..i], e.chunks[i]);
      total := total + |e.chunks[i]|;
      if total > e.bytes {
        FlattenConcat(e.chunks[..i + 1], e.chunks[i + 1..]);
        assert e.chunks[..i + 1] + e.chunks[i + 1..] == e.chunks;
        return out, false;
      }
      FlattenSnoc(out, e.chunks[i]);
      out := out + [e.chunks[i]];
      i := i + 1;
    }
    assert e.chunks[..i] == e.chunks;
    ok := total == e.bytes;
  }

  /** Header, content and padding of one acceptable entry. */
  method EncodeEntry(before: seq<Bytes>, e: Entry) returns (out: seq<Bytes>, ok: bool)
    requires Announced(e)
    ensures ok <==> |Flatten(e.chunks)| == e.bytes
    ensures ok ==> Flatten(out) == Flatten(before) + Member(File(e.path, Flatten(e.chunks)))
  {
    hide Header, HeaderBytes;
    var h := EncodeHeader(e.path, e.bytes);
    FlattenSnoc(before, h[..]);
    out, ok := EncodeChunks(before + [h[..]], e);
    if ok && e.bytes % BLOCK != 0 {
      FlattenSnoc(out, Zeros(BLOCK - e.bytes % BLOCK));
      out := out + [Zeros(BLOCK - e.bytes % BLOCK)];
    }
  }

  lemma NothingLeft()
    ensures FirstRefusal([]) == NoRefusal && Content([]) == [] && Archivable([]) && Archive([]) == Zeros(1024) && Flatten<byte>([]) == []
  {
  }

  /** One entry on. */
  lemma Onward(entries: seq<Entry>, k: nat)
    requires k < |entries|
    ensures FirstRefusal(entries[k..]) ==
      if !Announced(entries[k]) then InvalidArchiveEntry
      else if |Flatten(entries[k].chunks)| != entries[k].bytes then ArchiveSizeChanged
      else FirstRefusal(entries[k + 1..])
    ensures Archivable(Content(entries[k..])) ==>
      && |entries[k].path| <= 100 && Archivable(Content(entries[k + 1..]))
      && Archive(Content(entries[k..])) == Member(File(entries[k].path, Flatten(entries[k].chunks))) + Archive(Content(entries[k + 1..]))
  {
    hide Announced, Member, Flatten;
    assert entries[k..][0] == entries[k] && entries[k..][1..] == entries[k + 1..];
    assert Content(entries[k..])[1..] == Content(entries[k + 1..]);
    if Archivable(Content(entries[k..])) {
      var all, rest := Content(entries[k..]), Content(entries[k + 1..]);
      assert |all[0].path| <= 100;
      assert forall i | 0 <= i < |rest| :: rest[i] == all[i + 1];
    }
  }

  /** The archive as a stream of chunks; everything yielded before a refusal is already out. */
  method Encode(entries: seq<Entry>) returns (out: seq<Bytes>, refusal: Refusal)
    ensures refusal == FirstRefusal(entries) && Verdict(entries, refusal)
    ensures refusal == NoRefusal ==> Archivable(Content(entries)) && Flatten(out) == Archive(Content(entries))
  {
    hide Member, Announced, Verdict, FirstRefusal, Content, Archive, Archivable, Flatten;
    FirstRefusalMeans(entries);
    NothingLeft();
    out := [];
    if FirstRefusal(entries) == NoRefusal {
      AcceptedIsArchivable(entries);
    }
    var k := 0;
    assert entries[0..] == entries;
    while k < |entries|
      invariant 0 <= k <= |entries|
      invariant FirstRefusal(entries) == FirstRefusal(entries[k..])
      invariant FirstRefusal(entries) == NoRefusal ==>
                  Archivable(Content(entries)) && Archivable(Content(entries[k..]))
                  && Archive(Content(entries)) == Flatten(out) + Archive(Content(entries[k..]))
    {
      var e := entries[k];
      Onward(entries, k);
      if !Announced(e) {
        return out, InvalidArchiveEntry;
      }
      var ok: bool;
      out, ok := EncodeEntry(out, e);
      if !ok {
        return out, ArchiveSizeChanged;
      }
      k := k + 1;
    }
    assert entries[k..] == [];
    FlattenSnoc(out, Zeros(1024));
    out := out + [Zeros(1024)];
    refusal := NoRefusal;
  }
}
