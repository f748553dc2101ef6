/** The ustar archive inside a backup bundle: its layout, what reading it means, and the writer
    (packages/adapters/src/archive.ts, packages/adapters/src/archive-reader.ts).
    Field offsets follow the ustar Interchange Format of the pax utility, IEEE Std 1003.1. */
module Tar {
  import opened Seqs

  type Bytes = seq<byte>

  datatype File = File(path: Bytes, data: Bytes)

  datatype Error =
    | Truncated | TerminatorInvalid | EntryInvalid | LimitExceeded
    | TargetInvalid | TargetNotEmpty | StorageFailed

  datatype Result = Files(files: seq<File>) | Failed(error: Error)

  datatype Limits = Limits(maxEntries: nat, maxBytes: nat)

  // ---------- text fields ----------

  function Ascii(text: string): (s: Bytes)
    requires forall i :: 0 <= i < |text| ==> text[i] < 128 as char
    ensures |s| == |text|
  {
    seq(|text|, i requires 0 <= i < |text| => text[i] as int)
  }

  function Zeros(n: nat): (s: Bytes)
    ensures |s| == n && forall i :: 0 <= i < n ==> s[i] == 0
  {
    Repeat(0, n)
  }

  function Spaces(n: nat): (s: Bytes)
    ensures |s| == n && forall i :: 0 <= i < n ==> s[i] == 32
  {
    Repeat(32, n)
  }

  predicate IsDigit(b: byte) { 48 <= b < 56 }

  function Octal(n: nat): Bytes {
    if n < 8 then [48 + n] else Octal(n / 8) + [48 + n % 8]
  }

  /** Zeros in front up to a width; longer text is left alone. */
  function PadStart(s: Bytes, width: nat): Bytes {
    if |s| >= width then s else Repeat(48, width - |s|) + s
  }

  function OctalValue(s: Bytes): nat
    requires forall i :: 0 <= i < |s| ==> IsDigit(s[i])
  {
    if s == [] then 0
    else
      assert IsDigit(s[|s| - 1]);
      OctalValue(s[..|s| - 1]) * 8 + (s[|s| - 1] as int - 48)
  }

  function Power8(n: nat): nat {
    if n == 0 then 1 else 8 * Power8(n - 1)
  }

  predicate OctalText(s: Bytes, longest: nat) {
    1 <= |s| <= longest && forall i :: 0 <= i < |s| ==> IsDigit(s[i])
  }

  /** The text of a fixed-width field ends at its first NUL. */
  function UntilNul(s: Bytes): (t: Bytes)
    ensures |t| <= |s| && t == s[..|t|]
  {
    if s == [] || s[0] == 0 then [] else [s[0]] + UntilNul(s[1..])
  }

  predicate Blank(b: byte) { b == 32 || 9 <= b <= 13 }

  function TrimStart(s: Bytes): Bytes {
    if s != [] && Blank(s[0]) then TrimStart(s[1..]) else s
  }

  function TrimEnd(s: Bytes): Bytes {
    if s != [] && Blank(s[|s| - 1]) then TrimEnd(s[..|s| - 1]) else s
  }

  function Field(header: Bytes, offset: nat, width: nat): Bytes
    requires offset + width <= |header|
  {
    UntilNul(header[offset..offset + width])
  }

  function Sum(s: Bytes): nat {
    if s == [] then 0 else s[0] + Sum(s[1..])
  }

  // ---------- paths ----------

  predicate WordByte(b: byte) {
    97 <= b <= 122 || 65 <= b <= 90 || 48 <= b <= 57 || b == 47 || b == 95 || b == 45
  }

  /** What the reader accepts as a path. */
  predicate ReaderPath(path: Bytes) {
    path != [] && path[0] != 47 && forall i :: 0 <= i < |path| ==> WordByte(path[i])
  }

  /** What the writer accepts as a path: dots too, but never two in a row. */
  predicate WriterPath(path: Bytes) {
    && path != [] && path[0] != 47 && |path| <= 100
    && (forall i :: 0 <= i < |path| ==> WordByte(path[i]) || path[i] == 46)
    && (forall i :: 0 <= i < |path| - 1 ==> !(path[i] == 46 && path[i + 1] == 46))
  }

  // ---------- layout ----------

  const BLOCK: nat := 512
  const MAX_SIZE: nat := 8589934591

  function Layout(path: Bytes, size: nat, checksum: Bytes): Bytes
    requires |path| <= 100
  {
    path + Zeros(100 - |path|) + Ascii("0000600\0") + Ascii("0000000\0") + Ascii("0000000\0")
    + (PadStart(Octal(size), 11) + [0]) + Ascii("00000000000\0") + checksum + Ascii("0")
    + Zeros(100) + Ascii("ustar\0") + Ascii("00") + Zeros(247)
  }

  function Checksum(path: Bytes, size: nat): Bytes
    requires |path| <= 100
  {
    PadStart(Octal(Sum(Layout(path, size, Spaces(8)))), 6) + [0, 32]
  }

  function Header(path: Bytes, size: nat): Bytes
    requires |path| <= 100
  {
    Layout(path, size, Checksum(path, size))
  }

  function Padding(size: nat): (n: nat)
    ensures n < BLOCK && (size + n) % BLOCK == 0
  {
    (BLOCK - size % BLOCK) % BLOCK
  }

  function Member(file: File): Bytes
    requires |file.path| <= 100
  {
    Header(file.path, |file.data|) + file.data + Zeros(Padding(|file.data|))
  }

  predicate Archivable(files: seq<File>) {
    forall i :: 0 <= i < |files| ==> |files[i].path| <= 100 && |files[i].data| <= MAX_SIZE
  }

  function Archive(files: seq<File>): Bytes
    requires Archivable(files)
  {
    if files == [] then Zeros(1024) else Member(files[0]) + Archive(files[1..])
  }

  // ---------- reading ----------

  predicate AllZero(s: Bytes) { forall i :: 0 <= i < |s| ==> s[i] == 0 }

  function SizeText(h: Bytes): Bytes requires |h| == BLOCK { TrimEnd(TrimStart(Field(h, 124, 12))) }

  function SumText(h: Bytes): Bytes requires |h| == BLOCK { TrimEnd(TrimStart(Field(h, 148, 8))) }

  /** A header block the reader is willing to follow. */
  predicate GoodHeader(h: Bytes, names: set<Bytes>)
    requires |h| == BLOCK
  {
    && ReaderPath(Field(h, 0, 100)) && Field(h, 0, 100) !in names
    && Field(h, 156, 1) == Ascii("0") && Field(h, 257, 6) == Ascii("ustar")
    && OctalText(SizeText(h), 11) && OctalText(SumText(h), 7)
    && Sum(h[..148] + Spaces(8) + h[156..]) == OctalValue(SumText(h))
  }

  /** The next thing in a stream: a final verdict, or one member and the bytes after it. */
  datatype Next = Stop(result: Result) | Step(file: File, rest: Bytes)

  function ReadMember(h: Bytes, rest: Bytes, total: nat, count: nat, limits: Limits): (next: Next)
    requires |h| == BLOCK && OctalText(SizeText(h), 11)
    ensures next.Step? ==> |next.rest| <= |rest| && next.file.path == Field(h, 0, 100)
    ensures next.Step? ==> count < limits.maxEntries && total + |next.file.data| <= limits.maxBytes
    ensures next.Stop? ==> next.result.Failed? && next.result != Failed(StorageFailed)
  {
    var size := OctalValue(SizeText(h));
    if count >= limits.maxEntries || total + size > limits.maxBytes then Stop(Failed(LimitExceeded))
    else if |rest| < size + Padding(size) then Stop(Failed(Truncated))
    else Step(File(Field(h, 0, 100), rest[..size]), rest[size + Padding(size)..])
  }

  function ReadEnd(rest: Bytes): Result {
    if |rest| < BLOCK then Failed(Truncated)
    else if !AllZero(rest[..BLOCK]) || |rest| != BLOCK then Failed(TerminatorInvalid)
    else Files([])
  }

  function ReadNext(s: Bytes, names: set<Bytes>, total: nat, count: nat, limits: Limits): (next: Next)
    ensures next.Step? ==> |next.rest| < |s| && ReaderPath(next.file.path) && next.file.path !in names
    ensures next.Step? ==> count < limits.maxEntries && total + |next.file.data| <= limits.maxBytes
    ensures next.Stop? && next.result.Files? ==> next.result.files == [] && |s| == 2 * BLOCK
    ensures next.Stop? ==> next.result != Failed(StorageFailed)
  {
    if |s| < BLOCK then Stop(Failed(Truncated))
    else if AllZero(s[..BLOCK]) then Stop(ReadEnd(s[BLOCK..]))
    else if !GoodHeader(s[..BLOCK], names) then Stop(Failed(EntryInvalid))
    else ReadMember(s[..BLOCK], s[BLOCK..], total, count, limits)
  }

  /** What a byte stream means as an archive, after `names` were already read from it. */
  function Read(s: Bytes, names: set<Bytes>, total: nat, count: nat, limits: Limits): Result
    decreases |s|
  {
    match ReadNext(s, names, total, count, limits)
    case Stop(result) => result
    case Step(file, rest) =>
      var more := Read(rest, names + {file.path}, total + |file.data|, count + 1, limits);
      if more.Failed? then more else Files([file] + more.files)
  }

  // ---------- numbers in fields ----------

  lemma {:induction false} OctalFits(n: nat, width: nat)
    requires width > 0 && n < Power8(width)
    ensures |Octal(n)| <= width
    ensures forall i :: 0 <= i < |Octal(n)| ==> IsDigit(Octal(n)[i])
    ensures OctalValue(Octal(n)) == n
  {
    if n >= 8 {
      assert width > 1;
      OctalFits(n / 8, width - 1);
      assert Octal(n)[..|Octal(n)| - 1] == Octal(n / 8);
    }
  }

  lemma {:induction false} LeadingZeros(k: nat, s: Bytes)
    requires forall i :: 0 <= i < |s| ==> IsDigit(s[i])
    ensures OctalValue(Repeat(48, k) + s) == OctalValue(s)
    decreases k, |s|
  {
    var all := Repeat(48, k) + s;
    if s != [] {
      LeadingZeros(k, s[..|s| - 1]);
      assert all[..|all| - 1] == Repeat(48, k) + s[..|s| - 1];
    } else if k > 0 {
      LeadingZeros(k - 1, s);
      assert all[..|all| - 1] == Repeat(48, k - 1) + s;
    }
  }

  /** A number below 8^width, printed in `width` octal digits, reads back as itself. */
  lemma PaddedOctal(n: nat, width: nat)
    requires width > 0 && n < Power8(width)
    ensures var t := PadStart(Octal(n), width);
            |t| == width && (forall i :: 0 <= i < width ==> IsDigit(t[i])) && OctalValue(t) == n
  {
    OctalFits(n, width);
    LeadingZeros(width - |Octal(n)|, Octal(n));
  }

  lemma Powers()
    ensures Power8(6) == 262144 && Power8(11) == MAX_SIZE + 1
  {
    assert Power8(5) == 32768;
    assert Power8(6) == 262144;
    assert Power8(10) == 1073741824;
  }

  lemma {:induction false} SumBound(s: Bytes)
    ensures Sum(s) <= 255 * |s|
  {
    if s != [] {
      SumBound(s[1..]);
    }
  }

  // ---------- a written header reads back ----------

  lemma {:induction false} UntilNulStops(t: Bytes, rest: Bytes)
    requires forall i :: 0 <= i < |t| ==> t[i] != 0
    requires rest == [] || rest[0] == 0
    ensures UntilNul(t + rest) == t
  {
    if t == [] {
      assert t + rest == rest;
    } else {
      assert (t + rest)[1..] == t[1..] + rest;
      UntilNulStops(t[1..], rest);
    }
  }

  lemma TrimKeepsDigits(t: Bytes)
    requires forall i :: 0 <= i < |t| ==> IsDigit(t[i])
    ensures TrimEnd(TrimStart(t)) == t
  {
  }

  /** Everything between the path and the checksum field, and everything after it. */
  function Middle(size: nat): Bytes {
    Ascii("0000600\0") + Ascii("0000000\0") + Ascii("0000000\0")
    + (PadStart(Octal(size), 11) + [0]) + Ascii("00000000000\0")
  }

  function Ending(): Bytes {
    Ascii("0") + Zeros(100) + Ascii("ustar\0") + Ascii("00") + Zeros(247)
  }

  lemma MiddleParts(size: nat)
    requires size <= MAX_SIZE
    ensures |Middle(size)| == 48 && Middle(size)[24..36] == PadStart(Octal(size), 11) + [0]
  {
    Powers();
    PaddedOctal(size, 11);
    hide Octal, PadStart;
  }

  lemma EndingParts()
    ensures |Ending()| == 356 && Ending()[..1] == Ascii("0") && Ending()[101..107] == Ascii("ustar\0")
  {
  }

  lemma LayoutParts(path: Bytes, size: nat, checksum: Bytes)
    requires |path| <= 100 && size <= MAX_SIZE && |checksum| == 8
    ensures |Middle(size)| == 48 && |Ending()| == 356
    ensures Middle(size)[24..36] == PadStart(Octal(size), 11) + [0]
    ensures Ending()[..1] == Ascii("0") && Ending()[101..107] == Ascii("ustar\0")
    ensures Layout(path, size, checksum) == (path + Zeros(100 - |path|)) + Middle(size) + checksum + Ending()
  {
    MiddleParts(size);
    EndingParts();
    hide Octal, PadStart, Middle, Ending;
  }

  lemma LayoutSlices(path: Bytes, size: nat, checksum: Bytes)
    requires |path| <= 100 && size <= MAX_SIZE && |checksum| == 8
    ensures var h := Layout(path, size, checksum);
            && |h| == BLOCK
            && h[0..100] == path + Zeros(100 - |path|)
            && h[124..136] == PadStart(Octal(size), 11) + [0]
            && h[148..156] == checksum
            && h[156..157] == Ascii("0")
            && h[257..263] == Ascii("ustar\0")
  {
    LayoutParts(path, size, checksum);
    hide Octal, PadStart, Middle, Ending, Layout;
    var h, front := Layout(path, size, checksum), path + Zeros(100 - |path|);
    assert h[124..136] == Middle(size)[24..36];
    assert h[156..157] == Ending()[..1];
    assert h[257..263] == Ending()[101..107];
  }

  lemma LayoutChecksumOnly(path: Bytes, size: nat, a: Bytes, b: Bytes)
    requires |path| <= 100 && size <= MAX_SIZE && |a| == |b| == 8
    ensures var h := Layout(path, size, a);
            |h| == BLOCK && h[..148] + b + h[156..] == Layout(path, size, b)
  {
    Powers();
    PaddedOctal(size, 11);
  }

  lemma ChecksumReads(path: Bytes, size: nat)
    requires |path| <= 100 && size <= MAX_SIZE
    ensures |Checksum(path, size)| == 8
    ensures var t := Checksum(path, size)[..6];
            && (forall i :: 0 <= i < 6 ==> IsDigit(t[i]))
            && OctalValue(t) == Sum(Layout(path, size, Spaces(8)))
            && Checksum(path, size) == t + [0, 32]
  {
    var plain := Layout(path, size, Spaces(8));
    LayoutChecksumOnly(path, size, Spaces(8), Spaces(8));
    SumBound(plain);
    Powers();
    PaddedOctal(Sum(plain), 6);
  }

  /** The reader recovers path and size from a written header, and follows it if the path is legal and new. */
  lemma HeaderReads(path: Bytes, size: nat, names: set<Bytes>)
    requires WriterPath(path) && size <= MAX_SIZE
    ensures var h := Header(path, size);
            && |h| == BLOCK && !AllZero(h) && (GoodHeader(h, names) <==> ReaderPath(path) && path !in names)
            && Field(h, 0, 100) == path && OctalText(SizeText(h), 11) && OctalValue(SizeText(h)) == size
  {
    var sum, h := Checksum(path, size), Header(path, size);
    ChecksumReads(path, size);
    LayoutSlices(path, size, sum);
    LayoutChecksumOnly(path, size, sum, Spaces(8));
    PathReads(path, h);
    NumbersRead(path, size, h);
    MagicReads(h);
  }

  lemma PathReads(path: Bytes, h: Bytes)
    requires WriterPath(path) && |h| == BLOCK && h[0..100] == path + Zeros(100 - |path|)
    ensures Field(h, 0, 100) == path && !AllZero(h)
  {
    UntilNulStops(path, Zeros(100 - |path|));
    assert h[0] == h[0..100][0] == path[0];
  }

  lemma NumbersRead(path: Bytes, size: nat, h: Bytes)
    requires |path| <= 100 && size <= MAX_SIZE && |h| == BLOCK
    requires h[124..136] == PadStart(Octal(size), 11) + [0] && h[148..156] == Checksum(path, size)
    ensures OctalText(SizeText(h), 11) && OctalValue(SizeText(h)) == size
    ensures OctalText(SumText(h), 7) && OctalValue(SumText(h)) == Sum(Layout(path, size, Spaces(8)))
  {
    Powers();
    PaddedOctal(size, 11);
    var digits, sum := PadStart(Octal(size), 11), Checksum(path, size);
    UntilNulStops(digits, [0]);
    TrimKeepsDigits(digits);
    ChecksumReads(path, size);
    UntilNulStops(sum[..6], [0, 32]);
    TrimKeepsDigits(sum[..6]);
  }

  lemma MagicReads(h: Bytes)
    requires |h| == BLOCK && h[156..157] == Ascii("0") && h[257..263] == Ascii("ustar\0")
    ensures Field(h, 156, 1) == Ascii("0") && Field(h, 257, 6) == Ascii("ustar")
  {
    UntilNulStops(Ascii("0"), []);
    assert Ascii("0") + [] == Ascii("0");
    UntilNulStops(Ascii("ustar"), [0]);
    assert Ascii("ustar\0") == Ascii("ustar") + [0];
  }

  // ---------- main results ----------

  function TotalSize(files: seq<File>): nat {
    if files == [] then 0 else |files[0].data| + TotalSize(files[1..])
  }

  ghost predicate Extractable(files: seq<File>, names: set<Bytes>) {
    && (forall i :: 0 <= i < |files| ==>
          ReaderPath(files[i].path) && |files[i].path| <= 100 && |files[i].data| <= MAX_SIZE
          && files[i].path !in names)
    && (forall i, j :: 0 <= i < j < |files| ==> files[i].path != files[j].path)
  }

  predicate Within(files: seq<File>, total: nat, count: nat, limits: Limits) {
    files == [] || (count + |files| <= limits.maxEntries && total + TotalSize(files) <= limits.maxBytes)
  }

  lemma ExtractableFirst(files: seq<File>, names: set<Bytes>)
    requires files != [] && WriterPath(files[0].path) && |files[0].data| <= MAX_SIZE
    ensures Extractable(files, names) <==>
      ReaderPath(files[0].path) && files[0].path !in names && Extractable(files[1..], names + {files[0].path})
  {
    assert |files[0].path| <= 100;
    hide ReaderPath, WriterPath;
    if ReaderPath(files[0].path) && files[0].path !in names && Extractable(files[1..], names + {files[0].path}) {
      forall i | 0 < i < |files|
        ensures files[i].path != files[0].path && ReaderPath(files[i].path) && |files[i].path| <= 100 && |files[i].data| <= MAX_SIZE && files[i].path !in names
      {
        assert files[1..][i - 1] == files[i];
      }
      forall i, j | 0 < i < j < |files| ensures files[i].path != files[j].path {
        assert files[1..][i - 1] == files[i] && files[1..][j - 1] == files[j];
      }
    }
  }

  /** Reading what was written gives back every path and every byte, in order, if and only if the paths are
      distinct, legal for the reader, and within its limits; otherwise it is refused. */
  lemma {:induction false} ReadInvertsArchive(files: seq<File>, names: set<Bytes>, total: nat, count: nat, limits: Limits)
    requires forall i :: 0 <= i < |files| ==> WriterPath(files[i].path) && |files[i].data| <= MAX_SIZE
    ensures Archivable(files)
    ensures var read := Read(Archive(files), names, total, count, limits);
            && (read == Files(files) <==> Extractable(files, names) && Within(files, total, count, limits))
            && (read != Files(files) ==> read.Failed?)
    decreases |files|
  {
    hide ReadNext, Member, Zeros, ReaderPath;
    if files != [] {
      var file, rest := files[0], files[1..];
      ExtractableFirst(files, names);
      assert |file.path| <= 100;
      hide WriterPath, Extractable;
      ReadInvertsArchive(rest, names + {file.path}, total + |file.data|, count + 1, limits);
      MemberReads(file, Archive(rest), names, total, count, limits);
      assert [file] + rest == files;
    } else {
      EndReads(names, total, count, limits);
    }
  }

  lemma EndReads(names: set<Bytes>, total: nat, count: nat, limits: Limits)
    ensures ReadNext(Zeros(1024), names, total, count, limits) == Stop(Files([]))
  {
    hide GoodHeader;
    var s := Zeros(1024);
    assert s[..BLOCK] == Zeros(BLOCK) && s[BLOCK..] == Zeros(BLOCK);
  }

  /** The bytes of one member, cut where the reader cuts them. */
  lemma MemberCuts(h: Bytes, data: Bytes, pad: Bytes, rest: Bytes)
    ensures (h + data + pad) + rest == h + (data + pad + rest)
    ensures (data + pad + rest)[..|data|] == data && (data + pad + rest)[|data| + |pad|..] == rest
  {
    Assoc(h, data, pad);
    Assoc(h, data + pad, rest);
    Halves(data + pad, rest);
  }

  /** What the reader makes of a written member. */
  lemma MemberReads(file: File, rest: Bytes, names: set<Bytes>, total: nat, count: nat, limits: Limits)
    requires WriterPath(file.path) && |file.data| <= MAX_SIZE
    ensures ReadNext(Member(file) + rest, names, total, count, limits) ==
      if !ReaderPath(file.path) || file.path in names then Stop(Failed(EntryInvalid))
      else if count >= limits.maxEntries || total + |file.data| > limits.maxBytes then Stop(Failed(LimitExceeded))
      else Step(file, rest)
  {
    HeaderReads(file.path, |file.data|, names);
    hide GoodHeader, Header, SizeText, Field, OctalText, AllZero, Sum, OctalValue, ReadNext, ReaderPath, Zeros, Padding;
    var h, n := Header(file.path, |file.data|), |file.data|;
    var tail := file.data + Zeros(Padding(n)) + rest;
    MemberCuts(h, file.data, Zeros(Padding(n)), rest);
    NextAfterHeader(h, tail, names, total, count, limits);
  }

  lemma NextAfterHeader(h: Bytes, tail: Bytes, names: set<Bytes>, total: nat, count: nat, limits: Limits)
    requires |h| == BLOCK && !AllZero(h) && OctalText(SizeText(h), 11)
    ensures ReadNext(h + tail, names, total, count, limits) ==
      if GoodHeader(h, names) then ReadMember(h, tail, total, count, limits) else Stop(Failed(EntryInvalid))
  {
    hide ReadMember, SizeText, Field, SumText, Sum, AllZero;
    assert (h + tail)[..BLOCK] == h && (h + tail)[BLOCK..] == tail;
  }

  /** An archive is self-delimiting: nothing can be cut off its end and nothing appended. */
  lemma {:induction false} ReadIsExact(s: Bytes, k: nat, names: set<Bytes>, total: nat, count: nat, limits: Limits)
    requires k < |s| && Read(s, names, total, count, limits).Files?
    ensures Read(s[..k], names, total, count, limits).Failed?
    decreases |s|
  {
    hide ReadNext, ReaderPath;
    var whole, cut := ReadNext(s, names, total, count, limits), ReadNext(s[..k], names, total, count, limits);
    NextOfPrefix(s, k, names, total, count, limits);
    if whole.Step? && cut.Step? {
      var seen, size := names + {cut.file.path}, |cut.file.data|;
      ReadIsExact(whole.rest, |cut.rest|, seen, total + size, count + 1, limits);
      assert Read(cut.rest, seen, total + size, count + 1, limits).Failed?;
    }
  }

  lemma NextOfPrefix(s: Bytes, k: nat, names: set<Bytes>, total: nat, count: nat, limits: Limits)
    requires k < |s|
    ensures var whole, cut := ReadNext(s, names, total, count, limits), ReadNext(s[..k], names, total, count, limits);
            && (whole.Step? && cut.Step? ==>
                  cut.file == whole.file && |cut.rest| < |whole.rest| && cut.rest == whole.rest[..|cut.rest|])
            && (whole.Stop? && whole.result.Files? ==> cut.Stop? && cut.result.Failed?)
            && (cut.Stop? && cut.result.Files? ==> !(whole.Stop? && whole.result.Files?) && whole.Stop?)
  {
    if k >= BLOCK {
      hide GoodHeader, SizeText, Field;
      var rest := s[BLOCK..];
      assert s[..k][..BLOCK] == s[..BLOCK] && s[..k][BLOCK..] == rest[..k - BLOCK];
    }
  }

  /** Whatever is read satisfies the reader's promises: legal paths, none twice, within limits. */
  lemma {:induction false} ReadIsSafe(s: Bytes, names: set<Bytes>, total: nat, count: nat, limits: Limits)
    requires Read(s, names, total, count, limits).Files?
    ensures var files := Read(s, names, total, count, limits).files;
            && (forall i :: 0 <= i < |files| ==> ReaderPath(files[i].path) && files[i].path !in names)
            && (forall i, j :: 0 <= i < j < |files| ==> files[i].path != files[j].path)
            && (files != [] ==> count + |files| <= limits.maxEntries && total + TotalSize(files) <= limits.maxBytes)
    decreases |s|
  {
    var next := ReadNext(s, names, total, count, limits);
    hide ReadNext;
    if next.Step? {
      ReadIsSafe(next.rest, names + {next.file.path}, total + |next.file.data|, count + 1, limits);
    }
  }
}
