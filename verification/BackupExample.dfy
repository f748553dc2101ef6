/** A codec, a cipher suite and a small backup that meet everything `BackupService.BackupRestores` asks for:
    its requirements can be met, even though no hash of sixty-four characters tells all names apart. */
module BackupExample {
  import opened Options
  import opened Seqs
  import T = Tar
  import E = BackupEncryption
  import opened BackupService

  // ---------- a rendering of manifests that can be read back ----------

  /** No rendering is the beginning of another one's. */
  ghost predicate PrefixFree<T(!new)>(render: T -> Bytes) {
    forall a, b, x, y :: render(a) + x == render(b) + y ==> a == b && x == y
  }

  function Number(n: nat): (s: Bytes)
    ensures |s| == n + 1
  {
    Repeat(49, n) + [48]
  }

  function Text(t: Bytes): (s: Bytes)
    ensures |s| == 2 * |t| + 1
  {
    Number(|t|) + t
  }

  function Sign(t: int): byte { if t < 0 then 45 else 43 }

  function Size(t: int): nat { if t < 0 then -t else t }

  function Time(t: int): Bytes { [Sign(t)] + Number(Size(t)) }

  function Entry(l: Listed): Bytes { Text(l.path) + Number(l.bytes) + Text(l.checksum) }

  function NamedEntry(n: Named): Bytes { Text(n.name) + Entry(n.listed) }

  function Each<T>(render: T -> Bytes, all: seq<T>): Bytes {
    if all == [] then [] else render(all[0]) + Each(render, all[1..])
  }

  function Every<T>(render: T -> Bytes, all: seq<T>): Bytes { Number(|all|) + Each(render, all) }

  function Render(m: Manifest): Bytes {
    Text(m.id) + (Text(m.namespace) + (Time(m.createdAt) + (Time(m.expiresAt) + (Every(Entry, m.parts) + (Every(NamedEntry, m.objects) + Every(NamedEntry, m.fonts))))))
  }

  lemma NumberReads(a: nat, b: nat, x: Bytes, y: Bytes)
    requires Number(a) + x == Number(b) + y
    ensures a == b && x == y
  {
    var s, t := Number(a) + x, Number(b) + y;
    assert s[a] == 48 && forall i :: 0 <= i < a ==> s[i] == 49;
    assert t[b] == 48 && forall i :: 0 <= i < b ==> t[i] == 49;
    Halves(Number(a), x);
    Halves(Number(b), y);
  }

  lemma TextReads(a: Bytes, b: Bytes, x: Bytes, y: Bytes)
    requires Text(a) + x == Text(b) + y
    ensures a == b && x == y
  {
    Assoc(Number(|a|), a, x);
    Assoc(Number(|b|), b, y);
    NumberReads(|a|, |b|, a + x, b + y);
    Halves(a, x);
    Halves(b, y);
  }

  lemma TimeReads(a: int, b: int, x: Bytes, y: Bytes)
    requires Time(a) + x == Time(b) + y
    ensures a == b && x == y
  {
    hide Number;
    Assoc([Sign(a)], Number(Size(a)), x);
    Assoc([Sign(b)], Number(Size(b)), y);
    Halves([Sign(a)], Number(Size(a)) + x);
    Halves([Sign(b)], Number(Size(b)) + y);
    NumberReads(Size(a), Size(b), x, y);
  }

  lemma EntryReads()
    ensures PrefixFree(Entry)
  {
    forall a, b, x, y | Entry(a) + x == Entry(b) + y ensures a == b && x == y {
      assert Entry(a) + x == Text(a.path) + (Number(a.bytes) + (Text(a.checksum) + x));
      assert Entry(b) + y == Text(b.path) + (Number(b.bytes) + (Text(b.checksum) + y));
      TextReads(a.path, b.path, Number(a.bytes) + (Text(a.checksum) + x), Number(b.bytes) + (Text(b.checksum) + y));
      NumberReads(a.bytes, b.bytes, Text(a.checksum) + x, Text(b.checksum) + y);
      TextReads(a.checksum, b.checksum, x, y);
    }
  }

  lemma NamedEntryReads()
    ensures PrefixFree(NamedEntry)
  {
    EntryReads();
    forall a, b, x, y | NamedEntry(a) + x == NamedEntry(b) + y ensures a == b && x == y {
      Assoc(Text(a.name), Entry(a.listed), x);
      Assoc(Text(b.name), Entry(b.listed), y);
      TextReads(a.name, b.name, Entry(a.listed) + x, Entry(b.listed) + y);
    }
  }

  lemma {:induction false} EachReads<T(!new)>(render: T -> Bytes, a: seq<T>, b: seq<T>, x: Bytes, y: Bytes)
    requires PrefixFree(render) && |a| == |b| && Each(render, a) + x == Each(render, b) + y
    ensures a == b && x == y
  {
    if a == [] {
      assert Each(render, a) + x == x && Each(render, b) + y == y;
    } else {
      Assoc(render(a[0]), Each(render, a[1..]), x);
      Assoc(render(b[0]), Each(render, b[1..]), y);
      assert a[0] == b[0];
      EachReads(render, a[1..], b[1..], x, y);
    }
  }

  lemma EveryReads<T(!new)>(render: T -> Bytes, a: seq<T>, b: seq<T>, x: Bytes, y: Bytes)
    requires PrefixFree(render) && Every(render, a) + x == Every(render, b) + y
    ensures a == b && x == y
  {
    Assoc(Number(|a|), Each(render, a), x);
    Assoc(Number(|b|), Each(render, b), y);
    NumberReads(|a|, |b|, Each(render, a) + x, Each(render, b) + y);
    EachReads(render, a, b, x, y);
  }

  lemma RenderReads(a: Manifest, b: Manifest)
    requires Render(a) == Render(b)
    ensures a == b
  {
    EntryReads();
    NamedEntryReads();
    hide Text, Time, Every, PrefixFree;
    var a6, b6 := Every(NamedEntry, a.fonts), Every(NamedEntry, b.fonts);
    var a5, b5 := Every(NamedEntry, a.objects) + a6, Every(NamedEntry, b.objects) + b6;
    var a4, b4 := Every(Entry, a.parts) + a5, Every(Entry, b.parts) + b5;
    var a3, b3 := Time(a.expiresAt) + a4, Time(b.expiresAt) + b4;
    var a2, b2 := Time(a.createdAt) + a3, Time(b.createdAt) + b3;
    TextReads(a.id, b.id, Text(a.namespace) + a2, Text(b.namespace) + b2);
    TextReads(a.namespace, b.namespace, a2, b2);
    TimeReads(a.createdAt, b.createdAt, a3, b3);
    TimeReads(a.expiresAt, b.expiresAt, a4, b4);
    EveryReads(Entry, a.parts, b.parts, a5, b5);
    EveryReads(NamedEntry, a.objects, b.objects, a6, b6);
    assert a6 + [] == a6 && b6 + [] == b6;
    EveryReads(NamedEntry, a.fonts, b.fonts, [], []);
  }

  ghost function Parse(s: Bytes): Option<Manifest> {
    if exists m :: Render(m) == s then (var m :| Render(m) == s; Some(m)) else None
  }

  ghost function SomeCodec(): Codec {
    Codec(b => Repeat(48, 64), b => Parse(b), m => Render(m))
  }

  lemma CodecSound()
    ensures SomeCodec().Sound()
  {
    forall m ensures Parse(Render(m)) == Some(m) {
      RenderReads(Parse(Render(m)).value, m);
    }
  }

  // ---------- a cipher suite ----------

  function ParseHeader(s: Bytes): E.Parsed {
    if |s| < 17 then E.NotJson else E.Json(E.Fields(1, s[..|s| - 17], s[|s| - 17..|s| - 1]))
  }

  function SomeSuite(): E.Suite {
    E.Suite((key, iv, i, b) => b, (key, iv, i, b) => b, (key, iv, aad, text) => Repeat(0, 16), s => ParseHeader(s), (f: E.Fields) => f.keyId + f.iv)
  }

  lemma SuiteSound()
    ensures SomeSuite().Sound()
  {
  }

  // ---------- a backup ----------

  const HASH: Bytes := Repeat(48, 64)

  /** A version 4 identifier. */
  const ID: Bytes := Repeat(56, 8) + [45] + Repeat(56, 4) + [45, 52] + Repeat(56, 3) + [45] + Repeat(56, 4) + [45] + Repeat(56, 12)

  function SomeManifest(): Manifest {
    Manifest(ID, [110], 0, RETENTION, [Listed(PartPath(0), 1, HASH)],
             [Named([110, 47, 97], Listed(T.Ascii("objects/") + HASH, 1, HASH))],
             [Named([102], Listed(T.Ascii("fonts/") + HASH, 1, HASH))])
  }

  /** One byte of dump, one object and one font: every requirement is met, so this backup restores. */
  lemma SomeBackupRestores() returns (codec: Codec, suite: E.Suite, keys: map<Bytes, Bytes>, f: E.Fields, m: Manifest, files: seq<T.File>)
    ensures codec.Sound() && suite.Sound() && E.LegalFields(f) && f.keyId in keys
    ensures Describes(codec, m, [7], [[7]], [[8]], [[9]]) && files == BackupFiles(codec, m, [[7]], [[8]], [[9]])
    ensures RequestId(m.id) && ToldApart(codec, m) && T.Within(files, 0, 0, LIMITS) && ValidManifest(codec, m) && T.Archivable(files)
    ensures Prepare(codec, suite, keys, m.id, E.Encrypt(suite, keys[f.keyId], f, T.Archive(files))) == Prepared(m, [7])
  {
    codec, suite, m := SomeCodec(), SomeSuite(), SomeManifest();
    f := E.Fields(1, [107], Repeat(97, 16));
    keys := map[f.keyId := []];
    assert E.LegalFields(f) && ToldApart(codec, m) && |m.parts| == |m.objects| == |m.fonts| == 1;
    hide E.LegalFields, Describes, BackupFiles, Prepare, SomeCodec, SomeSuite, SomeManifest, T.Within, ToldApart, ValidManifest, RequestId;
    hide T.Archivable, T.Archive, T.WriterPath, E.Encrypt;
    files := BackupFiles(codec, m, [[7]], [[8]], [[9]]);
    CodecSound();
    SuiteSound();
    SomeManifestDescribes();
    SomeSizes();
    SomeManifestValid();
    BackupRestores(codec, suite, keys, f, m, [7], [[7]], [[8]], [[9]]);
  }

  lemma SomeManifestDescribes()
    ensures Describes(SomeCodec(), SomeManifest(), [7], [[7]], [[8]], [[9]])
  {
    FlattenOne([7]);
  }

  lemma SomePaths()
    ensures SafeKey(PartPath(0)) && SafeKey(T.Ascii("objects/") + HASH) && SafeKey(T.Ascii("fonts/") + HASH)
    ensures |PartPath(0)| == 20
  {
    FirstPartPath();
    hide PartPath;
    HashedPaths();
  }

  lemma FirstPartPath()
    ensures SafeKey(PartPath(0)) && |PartPath(0)| == 20
  {
    PartPathLegal(0);
    assert PartPath(0) == T.Ascii("database/part-000000");
  }

  lemma HashedPaths()
    ensures SafeKey(T.Ascii("objects/") + HASH) && SafeKey(T.Ascii("fonts/") + HASH)
  {
  }

  lemma SomeSpelling()
    ensures Spelled(SomeManifest())
  {
    SomePaths();
    hide SafeKey, PartPath;
    assert SafeKey([110, 47, 97]) by { SomeKey(); }
    assert Uuid(ID) by { SomeId(); }
  }

  lemma SomeKey()
    ensures SafeKey([110, 47, 97]) && FontName([102])
  {
  }

  lemma SomeId()
    ensures Uuid(ID) && RequestId(ID)
  {
  }

  lemma SomeManifestValid()
    ensures ValidManifest(SomeCodec(), SomeManifest()) && RequestId(SomeManifest().id)
  {
    SomeSpelling();
    SomeId();
    hide Spelled, RequestId;
  }

  lemma SomeWriterPaths()
    ensures T.WriterPath(PartPath(0)) && T.WriterPath(T.Ascii("objects/") + HASH) && T.WriterPath(T.Ascii("fonts/") + HASH) && T.WriterPath(MANIFEST)
  {
    SomePaths();
    assert T.ReaderPath(MANIFEST) by { ManifestPathLegal(); }
  }

  lemma SomeRendering()
    ensures |Render(SomeManifest())| <= RETENTION + 100000
  {
    SomePaths();
    hide PartPath;
  }

  lemma SomeFiles(files: seq<T.File>)
    requires files == BackupFiles(SomeCodec(), SomeManifest(), [[7]], [[8]], [[9]])
    ensures files == [T.File(PartPath(0), [7]), T.File(T.Ascii("objects/") + HASH, [8]), T.File(T.Ascii("fonts/") + HASH, [9]),
                      T.File(MANIFEST, Render(SomeManifest()))]
  {
    hide Render, PartPath;
  }

  lemma SomeSizes()
    ensures var files := BackupFiles(SomeCodec(), SomeManifest(), [[7]], [[8]], [[9]]);
      && (forall i :: 0 <= i < |files| ==> T.WriterPath(files[i].path) && |files[i].data| <= T.MAX_SIZE)
      && T.Within(files, 0, 0, LIMITS)
  {
    var files := BackupFiles(SomeCodec(), SomeManifest(), [[7]], [[8]], [[9]]);
    SomeFiles(files);
    SomeWriterPaths();
    SomeRendering();
    hide T.WriterPath, PartPath, Render, BackupFiles, SomeManifest, SomeCodec;
    FourFiles(files[0], files[1], files[2], files[3]);
    assert files == [files[0], files[1], files[2], files[3]];
  }

  lemma FourFiles(a: T.File, b: T.File, c: T.File, d: T.File)
    ensures T.TotalSize([a, b, c, d]) == |a.data| + |b.data| + |c.data| + |d.data|
  {
    assert [d][1..] == [] && T.TotalSize([d]) == |d.data|;
    assert [c, d][1..] == [d] && T.TotalSize([c, d]) == |c.data| + |d.data|;
    assert [b, c, d][1..] == [c, d] && [a, b, c, d][1..] == [b, c, d];
  }
}
