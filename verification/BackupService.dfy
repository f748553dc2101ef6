/** Creating a backup bundle and preparing a restore from it (scripts/backup-service.ts):
    the dump is cut into parts, everything is listed in a manifest, archived and encrypted;
    the restore believes nothing that the manifest does not account for. */
module BackupService {
  import opened Options
  import opened Seqs
  import T = Tar
  import R = TarReader
  import E = BackupEncryption

  type Bytes = seq<byte>

  datatype Listed = Listed(path: Bytes, bytes: nat, checksum: Bytes)

  /** An object or font: its own name besides the place it has in the archive. */
  datatype Named = Named(name: Bytes, listed: Listed)

  datatype Manifest = Manifest(id: Bytes, namespace: Bytes, createdAt: int, expiresAt: int,
                               parts: seq<Listed>, objects: seq<Named>, fonts: seq<Named>)

  /** SHA-256 as sixty-four hexadecimal characters, and the manifest's JSON: abstract functions. */
  datatype Codec = Codec(hash: Bytes -> Bytes, parse: Bytes -> Option<Manifest>, render: Manifest -> Bytes) {
    ghost predicate Sound() {
      && (forall b :: |hash(b)| == 64 && forall i :: 0 <= i < 64 ==> 48 <= hash(b)[i] <= 57 || 97 <= hash(b)[i] <= 102)
      && (forall m :: parse(render(m)) == Some(m))
    }
  }

  datatype Refusal = IdInvalid | Undecipherable | BadArchive | ManifestInvalid | InventoryInvalid | FileChanged

  datatype Outcome = Prepared(manifest: Manifest, dump: Bytes) | Refused(refusal: Refusal)

  const MANIFEST: Bytes := T.Ascii("manifest")
  const PREPARED: Bytes := T.Ascii("prepared/")
  const RETENTION: int := 2592000000
  const LIMITS := T.Limits(100000, 1099511627776)

  // ---------- numbered parts ----------

  function Decimal(n: nat): Bytes {
    if n < 10 then [48 + n] else Decimal(n / 10) + [48 + n % 10]
  }

  function PartPath(index: nat): Bytes {
    T.Ascii("database/part-") + T.PadStart(Decimal(index), 6)
  }

  function DecimalValue(s: Bytes): int {
    if s == [] then 0 else DecimalValue(s[..|s| - 1]) * 10 + (s[|s| - 1] as int - 48)
  }

  function Power10(n: nat): nat { if n == 0 then 1 else 10 * Power10(n - 1) }

  lemma {:induction false} DecimalReads(n: nat, width: nat)
    requires width > 0 && n < Power10(width)
    ensures 1 <= |Decimal(n)| <= width && DecimalValue(Decimal(n)) == n
    ensures forall i :: 0 <= i < |Decimal(n)| ==> 48 <= Decimal(n)[i] <= 57
  {
    if n >= 10 {
      assert width > 1;
      DecimalReads(n / 10, width - 1);
      assert Decimal(n)[..|Decimal(n)| - 1] == Decimal(n / 10);
    }
  }

  lemma {:induction false} ZerosInFront(k: nat, s: Bytes)
    ensures DecimalValue(Repeat(48, k) + s) == DecimalValue(s)
    decreases k, |s|
  {
    var all := Repeat(48, k) + s;
    if s != [] {
      ZerosInFront(k, s[..|s| - 1]);
      assert all[..|all| - 1] == Repeat(48, k) + s[..|s| - 1];
    } else if k > 0 {
      ZerosInFront(k - 1, s);
      assert all[..|all| - 1] == Repeat(48, k - 1) + s;
    }
  }

  lemma PartPathLegal(n: nat)
    requires n < 1000000
    ensures |PartPath(n)| == 20 && T.ReaderPath(PartPath(n))
    ensures PartPath(n)[..14] == T.Ascii("database/part-") && DecimalValue(PartPath(n)[14..]) == n
  {
    assert Power10(5) == 100000;
    assert Power10(6) == 1000000;
    DecimalReads(n, 6);
    ZerosInFront(6 - |Decimal(n)|, Decimal(n));
  }

  // ---------- cutting the dump ----------

  /** The parts listed for a dump: numbered in order, never empty, and their bytes in order are the dump. */
  ghost predicate Cut(codec: Codec, dump: Bytes, parts: seq<Listed>, slices: seq<Bytes>) {
    && |parts| == |slices| && Flatten(slices) == dump
    && forall i :: 0 <= i < |parts| ==>
         slices[i] != [] && parts[i] == Listed(PartPath(i), |slices[i]|, codec.hash(slices[i]))
  }

  lemma CutNext(codec: Codec, dump: Bytes, parts: seq<Listed>, slices: seq<Bytes>, slice: Bytes)
    requires Cut(codec, dump, parts, slices) && slice != []
    ensures Cut(codec, dump + slice, parts + [Listed(PartPath(|parts|), |slice|, codec.hash(slice))], slices + [slice])
  {
    FlattenSnoc(slices, slice);
    hide PartPath;
  }

  method SplitDump(codec: Codec, dump: Bytes, partSize: nat) returns (parts: seq<Listed>, slices: seq<Bytes>)
    requires partSize > 0
    ensures Cut(codec, dump, parts, slices)
    ensures forall i :: 0 <= i < |slices| - 1 ==> |slices[i]| == partSize
    ensures forall i :: 0 <= i < |slices| ==> |slices[i]| <= partSize
  {
    parts, slices := [], [];
    var offset, index := 0, 0;
    assert Cut(codec, dump[..0], parts, slices);
    hide Cut, PartPath;
    while offset < |dump|
      invariant 0 <= offset <= |dump| && index == |parts|
      invariant Cut(codec, dump[..offset], parts, slices)
      invariant offset < |dump| ==> forall i :: 0 <= i < |slices| ==> |slices[i]| == partSize
      invariant forall i :: 0 <= i < |slices| - 1 ==> |slices[i]| == partSize
      invariant forall i :: 0 <= i < |slices| ==> |slices[i]| <= partSize
    {
      var bytes := if partSize < |dump| - offset then partSize else |dump| - offset;
      var slice := dump[offset..offset + bytes];
      CutNext(codec, dump[..offset], parts, slices, slice);
      assert dump[..offset + bytes] == dump[..offset] + slice;
      parts := parts + [Listed(PartPath(index), bytes, codec.hash(slice))];
      slices := slices + [slice];
      offset := offset + bytes;
      index := index + 1;
    }
    assert dump[..offset] == dump;
  }

  // ---------- the manifest ----------

  function Everything(m: Manifest): (all: seq<Listed>)
    ensures |all| == |m.parts| + |m.objects| + |m.fonts|
  {
    m.parts + seq(|m.objects|, i requires 0 <= i < |m.objects| => m.objects[i].listed)
    + seq(|m.fonts|, i requires 0 <= i < |m.fonts| => m.fonts[i].listed)
  }

  predicate StartsWith(s: Bytes, p: Bytes) { |p| <= |s| && s[..|p|] == p }

  // ---------- the manifest schema ----------

  predicate Lower(b: byte) { 97 <= b <= 122 }

  predicate Digit(b: byte) { 48 <= b <= 57 }

  predicate KeyByte(b: byte) { Lower(b) || 65 <= b <= 90 || Digit(b) || b == 95 || b == 45 }

  predicate LowerHex(b: byte) { Digit(b) || 97 <= b <= 102 }

  /** Words between single slashes, at most 1024 bytes. */
  predicate SafeKey(s: Bytes) {
    && 1 <= |s| <= 1024 && s[0] != 47 && s[|s| - 1] != 47
    && (forall i :: 0 <= i < |s| ==> KeyByte(s[i]) || s[i] == 47)
    && (forall i :: 0 <= i < |s| - 1 ==> !(s[i] == 47 && s[i + 1] == 47))
  }

  predicate Stem(s: Bytes) { s != [] && forall i :: 0 <= i < |s| ==> KeyByte(s[i]) }

  predicate Suffixed(s: Bytes, suffix: Bytes) {
    |suffix| <= |s| && s[|s| - |suffix|..] == suffix && Stem(s[..|s| - |suffix|])
  }

  predicate FontName(s: Bytes) {
    Stem(s) || Suffixed(s, T.Ascii(".woff")) || Suffixed(s, T.Ascii(".woff2")) || Suffixed(s, T.Ascii(".css"))
  }

  predicate Digest(s: Bytes) { |s| == 64 && forall i :: 0 <= i < 64 ==> LowerHex(s[i]) }

  /** What may be asked for: thirty-six characters, as a lower-case identifier has them. */
  predicate RequestId(s: Bytes) { |s| == 36 && forall i :: 0 <= i < 36 ==> LowerHex(s[i]) || s[i] == 45 }

  predicate Dash(i: int) { i == 8 || i == 13 || i == 18 || i == 23 }

  /** An identifier of section 4 of RFC 9562, or the nil or max one. */
  predicate Uuid(s: Bytes) {
    && |s| == 36
    && (forall i :: 0 <= i < 36 ==> if Dash(i) then s[i] == 45 else LowerHex(s[i]) || 65 <= s[i] <= 70)
    && (|| (49 <= s[14] <= 56 && (s[19] == 56 || s[19] == 57 || s[19] == 97 || s[19] == 98 || s[19] == 65 || s[19] == 66))
        || (forall i :: 0 <= i < 36 && !Dash(i) ==> s[i] == 48)
        || (forall i :: 0 <= i < 36 && !Dash(i) ==> s[i] == 102))
  }

  /** How identifiers, names, sizes and checksums are written. */
  predicate Spelled(m: Manifest) {
    && Uuid(m.id) && m.namespace != []
    && (forall i :: 0 <= i < |m.namespace| ==> Lower(m.namespace[i]) || Digit(m.namespace[i]) || m.namespace[i] == 45)
    && (forall i :: 0 <= i < |m.objects| ==> SafeKey(m.objects[i].name))
    && (forall i :: 0 <= i < |m.fonts| ==> FontName(m.fonts[i].name))
    && (forall i :: 0 <= i < |Everything(m)| ==>
          SafeKey(Everything(m)[i].path) && Everything(m)[i].bytes <= LIMITS.maxBytes && Digest(Everything(m)[i].checksum))
  }

  /** Where everything is put in the archive; no part is empty. */
  predicate Placed(codec: Codec, m: Manifest) {
    && (forall i :: 0 <= i < |m.parts| ==> m.parts[i].path == PartPath(i) && m.parts[i].bytes != 0)
    && (forall i :: 0 <= i < |m.objects| ==> m.objects[i].listed.path == T.Ascii("objects/") + codec.hash(m.objects[i].name))
    && (forall i :: 0 <= i < |m.fonts| ==> m.fonts[i].listed.path == T.Ascii("fonts/") + codec.hash(m.fonts[i].name))
  }

  /** The schema. */
  predicate ValidManifest(codec: Codec, m: Manifest) {
    && m.expiresAt - m.createdAt == RETENTION
    && 1 <= |m.parts| <= 100000 && |m.objects| <= 100000 && 1 <= |m.fonts| <= 200
    && Spelled(m) && Placed(codec, m)
    && (forall i :: 0 <= i < |m.objects| ==> StartsWith(m.objects[i].name, m.namespace + [47]))
    && (forall i, j :: 0 <= i < j < |m.objects| ==> m.objects[i].name != m.objects[j].name)
    && (forall i, j :: 0 <= i < j < |m.fonts| ==> m.fonts[i].name != m.fonts[j].name)
  }

  /** Different names have different hashes, among the objects and among the fonts of one manifest. */
  predicate ToldApart(codec: Codec, m: Manifest) {
    && (forall i, j :: 0 <= i < j < |m.objects| ==> codec.hash(m.objects[i].name) != codec.hash(m.objects[j].name))
    && (forall i, j :: 0 <= i < j < |m.fonts| ==> codec.hash(m.fonts[i].name) != codec.hash(m.fonts[j].name))
  }

  function Expected(m: Manifest): set<Bytes> {
    {MANIFEST} + set l | l in Everything(m) :: l.path
  }

  function FilePaths(files: seq<T.File>): (paths: seq<Bytes>)
    ensures |paths| == |files| && forall i :: 0 <= i < |files| ==> paths[i] == files[i].path
  {
    seq(|files|, i requires 0 <= i < |files| => files[i].path)
  }

  /** The inventory test: as many entries as expected paths, and no unexpected path. */
  predicate InventoryMatches(files: seq<T.File>, expected: set<Bytes>) {
    |files| == |expected| && forall i :: 0 <= i < |files| ==> files[i].path in expected
  }

  /** Because extraction never repeats a path, that test is exact. */
  lemma InventoryExact(files: seq<T.File>, expected: set<Bytes>)
    requires forall i, j :: 0 <= i < j < |files| ==> files[i].path != files[j].path
    ensures InventoryMatches(files, expected) <==> Elements(FilePaths(files)) == expected
  {
    DistinctCardinality(FilePaths(files));
    if InventoryMatches(files, expected) {
      SubsetCardinality(Elements(FilePaths(files)), expected);
    }
    if Elements(FilePaths(files)) == expected {
      forall i | 0 <= i < |files| ensures files[i].path in expected {
        assert FilePaths(files)[i] in Elements(FilePaths(files));
      }
    }
  }

  // ---------- what preparing a restore means ----------

  function Contents(files: seq<T.File>, path: Bytes): Option<Bytes> {
    if files == [] then None
    else if files[|files| - 1].path == path then Some(files[|files| - 1].data)
    else Contents(files[..|files| - 1], path)
  }

  predicate Intact(codec: Codec, files: seq<T.File>, l: Listed) {
    var data := Contents(files, l.path);
    data.Some? && |data.value| == l.bytes && codec.hash(data.value) == l.checksum
  }

  function Joined(files: seq<T.File>, parts: seq<Listed>): Bytes {
    if parts == [] then []
    else (match Contents(files, parts[0].path) case Some(data) => data case None => []) + Joined(files, parts[1..])
  }

  function CheckFiles(codec: Codec, id: Bytes, files: seq<T.File>): Outcome {
    var text := Contents(files, MANIFEST);
    if text.None? || codec.parse(text.value).None? then Refused(ManifestInvalid)
    else
      var m := codec.parse(text.value).value;
      if !ValidManifest(codec, m) || m.id != id then Refused(ManifestInvalid)
      else if !InventoryMatches(files, Expected(m)) then Refused(InventoryInvalid)
      else if exists i :: 0 <= i < |Everything(m)| && !Intact(codec, files, Everything(m)[i]) then Refused(FileChanged)
      else Prepared(m, Joined(files, m.parts))
  }

  function Prepare(codec: Codec, suite: E.Suite, keys: map<Bytes, Bytes>, id: Bytes, bundle: Bytes): Outcome {
    if !RequestId(id) then Refused(IdInvalid)
    else match E.Decrypt(suite, keys, bundle)
    case Failed(_) => Refused(Undecipherable)
    case Opened(plain) =>
      match T.Read(plain, {}, 0, 0, LIMITS)
      case Failed(_) => Refused(BadArchive)
      case Files(files) => CheckFiles(codec, id, files)
  }

  lemma {:induction false} PlacedIsContents(files: seq<T.File>, path: Bytes)
    ensures PREPARED + path in R.Placed(files, PREPARED) <==> Contents(files, path).Some?
    ensures Contents(files, path).Some? ==> R.Placed(files, PREPARED)[PREPARED + path] == Contents(files, path).value
  {
    if files != [] {
      var last := files[|files| - 1];
      PlacedIsContents(files[..|files| - 1], path);
      assert (PREPARED + path)[|PREPARED|..] == path && (PREPARED + last.path)[|PREPARED|..] == last.path;
    }
  }

  // ---------- what a prepared restore vouches for, file by file ----------

  /** A file under the listed path, of the listed length and hash. */
  ghost predicate Vouched(codec: Codec, files: seq<T.File>, l: Listed) {
    exists k | 0 <= k < |files| :: files[k].path == l.path && |files[k].data| == l.bytes && codec.hash(files[k].data) == l.checksum
  }

  ghost predicate Mentioned(m: Manifest, path: Bytes) {
    || path == T.Ascii("manifest")
    || (exists i | 0 <= i < |m.parts| :: m.parts[i].path == path)
    || (exists i | 0 <= i < |m.objects| :: m.objects[i].listed.path == path)
    || (exists i | 0 <= i < |m.fonts| :: m.fonts[i].listed.path == path)
  }

  /** Thirty days, counts within limits, parts numbered and not empty, names distinct and hashed into their paths. */
  ghost predicate SchemaKept(codec: Codec, m: Manifest) {
    && m.expiresAt - m.createdAt == 30 * 86400000
    && 1 <= |m.parts| <= 100000 && |m.objects| <= 100000 && 1 <= |m.fonts| <= 200
    && (forall i | 0 <= i < |m.parts| ::
          && m.parts[i].bytes > 0 && |m.parts[i].path| == 20 && m.parts[i].path[..14] == T.Ascii("database/part-")
          && DecimalValue(m.parts[i].path[14..]) == i)
    && (forall i | 0 <= i < |m.objects| ::
          && m.objects[i].listed.path == T.Ascii("objects/") + codec.hash(m.objects[i].name)
          && |m.namespace| < |m.objects[i].name| && m.objects[i].name[..|m.namespace| + 1] == m.namespace + [47])
    && (forall i | 0 <= i < |m.fonts| :: m.fonts[i].listed.path == T.Ascii("fonts/") + codec.hash(m.fonts[i].name))
    && (forall i, j | 0 <= i < j < |m.objects| :: m.objects[i].name != m.objects[j].name)
    && (forall i, j | 0 <= i < j < |m.fonts| :: m.fonts[i].name != m.fonts[j].name)
  }

  /** Every file is accounted for by the manifest inside, which is the one asked for, and every listed file is
      there as listed; the dump is the listed parts, one after the other. */
  ghost predicate Accounted(codec: Codec, id: Bytes, files: seq<T.File>, m: Manifest, dump: Bytes) {
    && (exists k | 0 <= k < |files| :: files[k].path == T.Ascii("manifest") && codec.parse(files[k].data) == Some(m))
    && m.id == id
    && (forall i | 0 <= i < |m.parts| :: Vouched(codec, files, m.parts[i]))
    && (forall i | 0 <= i < |m.objects| :: Vouched(codec, files, m.objects[i].listed))
    && (forall i | 0 <= i < |m.fonts| :: Vouched(codec, files, m.fonts[i].listed))
    && (forall k | 0 <= k < |files| :: Mentioned(m, files[k].path))
    && (forall j, k | 0 <= j < k < |files| :: files[j].path != files[k].path)
    && (exists slices: seq<Bytes> | |slices| == |m.parts| :: Flatten(slices) == dump &&
          forall i | 0 <= i < |slices| :: T.File(m.parts[i].path, slices[i]) in files)
  }

  /** A bundle is accepted when it deciphers to an archive that is accounted for, under a manifest of the schema. */
  ghost predicate Accepts(codec: Codec, suite: E.Suite, keys: map<Bytes, Bytes>, id: Bytes, bundle: Bytes, m: Manifest, dump: Bytes) {
    && |id| == 36 && (forall i | 0 <= i < 36 :: 48 <= id[i] <= 57 || 97 <= id[i] <= 102 || id[i] == 45)
    && E.Decrypt(suite, keys, bundle).Opened?
    && var read := T.Read(E.Decrypt(suite, keys, bundle).plain, {}, 0, 0, T.Limits(100000, 1099511627776));
       read.Files? && Accounted(codec, id, read.files, m, dump) && ValidManifest(codec, m) && SchemaKept(codec, m)
  }

  lemma {:induction false} ContentsMeans(files: seq<T.File>, path: Bytes)
    requires forall i, j :: 0 <= i < j < |files| ==> files[i].path != files[j].path
    ensures forall data :: Contents(files, path) == Some(data) <==> T.File(path, data) in files
    ensures Contents(files, path).None? <==> forall k | 0 <= k < |files| :: files[k].path != path
  {
    if files != [] {
      var front, last := files[..|files| - 1], files[|files| - 1];
      ContentsMeans(front, path);
      assert files == front + [last];
      assert forall k | 0 <= k < |front| :: front[k] == files[k];
    }
  }

  lemma IntactMeans(codec: Codec, files: seq<T.File>, l: Listed)
    requires forall i, j :: 0 <= i < j < |files| ==> files[i].path != files[j].path
    ensures Intact(codec, files, l) <==> Vouched(codec, files, l)
  {
    ContentsMeans(files, l.path);
    if Intact(codec, files, l) {
      assert T.File(l.path, Contents(files, l.path).value) in files;
    }
    if Vouched(codec, files, l) {
      var k :| 0 <= k < |files| && files[k].path == l.path && |files[k].data| == l.bytes && codec.hash(files[k].data) == l.checksum;
      assert T.File(l.path, files[k].data) in files;
    }
  }

  lemma {:induction false} JoinedMeans(files: seq<T.File>, parts: seq<Listed>, slices: seq<Bytes>)
    requires forall i, j :: 0 <= i < j < |files| ==> files[i].path != files[j].path
    requires |slices| == |parts| && forall i | 0 <= i < |slices| :: T.File(parts[i].path, slices[i]) in files
    ensures Joined(files, parts) == Flatten(slices)
  {
    hide Contents;
    if parts != [] {
      ContentsMeans(files, parts[0].path);
      forall i | 0 <= i < |parts| - 1 ensures T.File(parts[1..][i].path, slices[1..][i]) in files {
        assert T.File(parts[i + 1].path, slices[i + 1]) in files;
      }
      JoinedMeans(files, parts[1..], slices[1..]);
    }
  }

  lemma SchemaMeans(codec: Codec, m: Manifest)
    requires ValidManifest(codec, m)
    ensures SchemaKept(codec, m)
  {
    forall i | 0 <= i < |m.parts| ensures |PartPath(i)| == 20 && PartPath(i)[..14] == T.Ascii("database/part-") && DecimalValue(PartPath(i)[14..]) == i {
      PartPathLegal(i);
    }
    hide Spelled, PartPath, DecimalValue;
  }

  /** The paths that are expected. */
  lemma ExpectedMeans(m: Manifest, path: Bytes)
    ensures path in Expected(m) <==> Mentioned(m, path)
  {
    var all := Everything(m);
    if path in Expected(m) && path != MANIFEST {
      var i :| 0 <= i < |all| && all[i].path == path;
      if |m.parts| <= i < |m.parts| + |m.objects| {
        assert m.objects[i - |m.parts|].listed == all[i];
      } else if |m.parts| + |m.objects| <= i {
        assert m.fonts[i - |m.parts| - |m.objects|].listed == all[i];
      } else {
        assert m.parts[i] == all[i];
      }
    }
    assert forall i | 0 <= i < |m.parts| :: m.parts[i] == all[i];
    assert forall i | 0 <= i < |m.objects| :: m.objects[i].listed == all[|m.parts| + i];
    assert forall i | 0 <= i < |m.fonts| :: m.fonts[i].listed == all[|m.parts| + |m.objects| + i];
  }

  /** The inventory test passes exactly if the files are those the manifest mentions. */
  lemma InventoryMeans(files: seq<T.File>, m: Manifest)
    requires forall i, j :: 0 <= i < j < |files| ==> files[i].path != files[j].path
    ensures InventoryMatches(files, Expected(m)) <==>
      && (forall k | 0 <= k < |files| :: Mentioned(m, files[k].path))
      && (forall path | path in Expected(m) :: exists k :: 0 <= k < |files| && files[k].path == path)
  {
    hide Expected, Mentioned, InventoryMatches;
    var paths := FilePaths(files);
    InventoryExact(files, Expected(m));
    assert forall k | 0 <= k < |files| :: paths[k] == files[k].path;
    forall k | 0 <= k < |files| ensures files[k].path in Expected(m) <==> Mentioned(m, files[k].path) {
      ExpectedMeans(m, files[k].path);
    }
    forall path ensures path in Elements(paths) <==> exists k :: 0 <= k < |files| && files[k].path == path {
      if k :| 0 <= k < |files| && files[k].path == path {
        assert paths[k] in paths;
      }
    }
    if (forall k | 0 <= k < |files| :: Mentioned(m, files[k].path))
       && (forall path | path in Expected(m) :: exists k :: 0 <= k < |files| && files[k].path == path) {
      assert Elements(paths) == Expected(m);
    }
  }

  lemma IntactAllMeans(codec: Codec, files: seq<T.File>, m: Manifest)
    requires forall i, j :: 0 <= i < j < |files| ==> files[i].path != files[j].path
    ensures (forall i :: 0 <= i < |Everything(m)| ==> Intact(codec, files, Everything(m)[i])) <==>
      && (forall i | 0 <= i < |m.parts| :: Vouched(codec, files, m.parts[i]))
      && (forall i | 0 <= i < |m.objects| :: Vouched(codec, files, m.objects[i].listed))
      && (forall i | 0 <= i < |m.fonts| :: Vouched(codec, files, m.fonts[i].listed))
  {
    hide Intact, Vouched, Everything;
    var all := Everything(m);
    EverythingIs(m);
    forall i | 0 <= i < |all| ensures Intact(codec, files, all[i]) <==> Vouched(codec, files, all[i]) {
      IntactMeans(codec, files, all[i]);
    }
  }

  lemma EverythingIs(m: Manifest)
    ensures var all, p, o := Everything(m), |m.parts|, |m.objects|;
      && (forall i | 0 <= i < p :: all[i] == m.parts[i])
      && (forall i | 0 <= i < o :: all[p + i] == m.objects[i].listed)
      && (forall i | 0 <= i < |m.fonts| :: all[p + o + i] == m.fonts[i].listed)
      && (forall i | p <= i < p + o :: all[i] == m.objects[i - p].listed)
      && (forall i | p + o <= i < |all| :: all[i] == m.fonts[i - p - o].listed)
  {
  }

  /** What is listed intact, and the manifest, make up all that is expected. */
  lemma VouchedIsThere(codec: Codec, files: seq<T.File>, m: Manifest)
    requires exists k | 0 <= k < |files| :: files[k].path == T.Ascii("manifest")
    requires forall i | 0 <= i < |m.parts| :: Vouched(codec, files, m.parts[i])
    requires forall i | 0 <= i < |m.objects| :: Vouched(codec, files, m.objects[i].listed)
    requires forall i | 0 <= i < |m.fonts| :: Vouched(codec, files, m.fonts[i].listed)
    ensures forall path | path in Expected(m) :: exists k :: 0 <= k < |files| && files[k].path == path
  {
    hide Expected;
    forall path | path in Expected(m) ensures exists k :: 0 <= k < |files| && files[k].path == path {
      ExpectedMeans(m, path);
    }
  }

  /** The checks accept exactly what is accounted for. */
  lemma ChecksMean(codec: Codec, id: Bytes, files: seq<T.File>, m: Manifest, dump: Bytes)
    requires forall i, j :: 0 <= i < j < |files| ==> files[i].path != files[j].path
    ensures CheckFiles(codec, id, files) == Prepared(m, dump) <==>
      Accounted(codec, id, files, m, dump) && ValidManifest(codec, m) && SchemaKept(codec, m)
  {
    hide Accounted, CheckFiles, ValidManifest, SchemaKept;
    if CheckFiles(codec, id, files) == Prepared(m, dump) {
      PreparedIsAccounted(codec, id, files, m, dump);
    }
    if Accounted(codec, id, files, m, dump) && ValidManifest(codec, m) {
      AccountedIsPrepared(codec, id, files, m, dump);
    }
  }

  lemma PreparedIsAccounted(codec: Codec, id: Bytes, files: seq<T.File>, m: Manifest, dump: Bytes)
    requires forall i, j :: 0 <= i < j < |files| ==> files[i].path != files[j].path
    requires CheckFiles(codec, id, files) == Prepared(m, dump)
    ensures Accounted(codec, id, files, m, dump) && ValidManifest(codec, m) && SchemaKept(codec, m)
  {
    hide Contents, Intact, Expected, ValidManifest, SchemaKept, InventoryMatches, Joined, Vouched, Mentioned, Everything;
    ContentsMeans(files, MANIFEST);
    InventoryMeans(files, m);
    IntactAllMeans(codec, files, m);
    SchemaMeans(codec, m);
    assert T.File(MANIFEST, Contents(files, MANIFEST).value) in files;
    var slices := PartsRead(codec, files, m);
    JoinedMeans(files, m.parts, slices);
  }

  lemma AccountedIsPrepared(codec: Codec, id: Bytes, files: seq<T.File>, m: Manifest, dump: Bytes)
    requires forall i, j :: 0 <= i < j < |files| ==> files[i].path != files[j].path
    requires Accounted(codec, id, files, m, dump) && ValidManifest(codec, m)
    ensures CheckFiles(codec, id, files) == Prepared(m, dump)
  {
    hide Contents, Intact, Expected, ValidManifest, InventoryMatches, Joined, Vouched, Mentioned, Everything;
    ContentsMeans(files, MANIFEST);
    InventoryMeans(files, m);
    IntactAllMeans(codec, files, m);
    var k :| 0 <= k < |files| && files[k].path == T.Ascii("manifest") && codec.parse(files[k].data) == Some(m);
    assert T.File(MANIFEST, files[k].data) in files;
    VouchedIsThere(codec, files, m);
    var slices: seq<Bytes> :| |slices| == |m.parts| && Flatten(slices) == dump &&
      forall i | 0 <= i < |slices| :: T.File(m.parts[i].path, slices[i]) in files;
    JoinedMeans(files, m.parts, slices);
  }

  lemma PartsRead(codec: Codec, files: seq<T.File>, m: Manifest) returns (slices: seq<Bytes>)
    requires forall i | 0 <= i < |m.parts| :: Vouched(codec, files, m.parts[i])
    ensures |slices| == |m.parts| && forall i | 0 <= i < |slices| :: T.File(m.parts[i].path, slices[i]) in files
  {
    slices := [];
    while |slices| < |m.parts|
      invariant |slices| <= |m.parts| && forall i | 0 <= i < |slices| :: T.File(m.parts[i].path, slices[i]) in files
    {
      var l := m.parts[|slices|];
      assert Vouched(codec, files, l);
      var k :| 0 <= k < |files| && files[k].path == l.path && |files[k].data| == l.bytes && codec.hash(files[k].data) == l.checksum;
      assert files[k] == T.File(l.path, files[k].data);
      slices := slices + [files[k].data];
    }
  }

  lemma PreparedMeans(codec: Codec, suite: E.Suite, keys: map<Bytes, Bytes>, id: Bytes, bundle: Bytes, m: Manifest, dump: Bytes)
    ensures Prepare(codec, suite, keys, id, bundle) == Prepared(m, dump) <==> Accepts(codec, suite, keys, id, bundle, m, dump)
  {
    hide E.Decrypt, T.Read, CheckFiles, Accounted, ValidManifest, SchemaKept;
    if E.Decrypt(suite, keys, bundle).Opened? {
      var plain := E.Decrypt(suite, keys, bundle).plain;
      if T.Read(plain, {}, 0, 0, LIMITS).Files? {
        T.ReadIsSafe(plain, {}, 0, 0, LIMITS);
        ChecksMean(codec, id, T.Read(plain, {}, 0, 0, LIMITS).files, m, dump);
      }
    }
  }

  /** `prepareRestore` over a fresh private directory. */
  method PrepareRestore(codec: Codec, suite: E.Suite, keys: map<Bytes, Bytes>, id: Bytes, chunks: seq<Bytes>)
    returns (outcome: Outcome)
    ensures outcome == Prepare(codec, suite, keys, id, Flatten(chunks))
    ensures forall m, dump :: outcome == Prepared(m, dump) <==> Accepts(codec, suite, keys, id, Flatten(chunks), m, dump)
  {
    hide T.Read, E.Decrypt, ValidManifest, Expected, RequestId, Accepts;
    forall m, dump ensures Prepare(codec, suite, keys, id, Flatten(chunks)) == Prepared(m, dump) <==> Accepts(codec, suite, keys, id, Flatten(chunks), m, dump) {
      PreparedMeans(codec, suite, keys, id, Flatten(chunks), m, dump);
    }
    if !RequestId(id) {
      return Refused(IdInvalid);
    }
    var deciphered := E.DecryptTo(suite, keys, chunks);
    if deciphered.Failed? {
      return Refused(Undecipherable);
    }
    var storage := new R.ObjectStore(map[], {});
    FlattenOne(deciphered.plain);
    assert R.LegalTarget(PREPARED);
    var extracted := R.Extract([deciphered.plain], storage, PREPARED, LIMITS);
    if extracted.Failed? {
      return Refused(BadArchive);
    }
    var files := extracted.files;
    assert storage.objects == R.Placed(files, PREPARED);
    PlacedIsContents(files, MANIFEST);
    if PREPARED + MANIFEST !in storage.objects {
      return Refused(ManifestInvalid);
    }
    var parsed := codec.parse(storage.objects[PREPARED + MANIFEST]);
    if parsed.None? || !ValidManifest(codec, parsed.value) || parsed.value.id != id {
      return Refused(ManifestInvalid);
    }
    var m := parsed.value;
    if !InventoryMatches(files, Expected(m)) {
      return Refused(InventoryInvalid);
    }
    var intact := AllIntact(codec, storage, files, Everything(m));
    if !intact {
      return Refused(FileChanged);
    }
    var dump := JoinParts(storage, files, m.parts);
    outcome := Prepared(m, dump);
  }

  method AllIntact(codec: Codec, storage: R.ObjectStore, ghost files: seq<T.File>, all: seq<Listed>) returns (ok: bool)
    requires storage.objects == R.Placed(files, PREPARED)
    ensures ok <==> forall i :: 0 <= i < |all| ==> Intact(codec, files, all[i])
  {
    var i := 0;
    while i < |all|
      invariant 0 <= i <= |all|
      invariant forall k :: 0 <= k < i ==> Intact(codec, files, all[k])
    {
      PlacedIsContents(files, all[i].path);
      var key := PREPARED + all[i].path;
      if key !in storage.objects || |storage.objects[key]| != all[i].bytes
         || codec.hash(storage.objects[key]) != all[i].checksum {
        return false;
      }
      i := i + 1;
    }
    ok := true;
  }

  method JoinParts(storage: R.ObjectStore, ghost files: seq<T.File>, parts: seq<Listed>) returns (dump: Bytes)
    requires storage.objects == R.Placed(files, PREPARED)
    ensures dump == Joined(files, parts)
  {
    dump := [];
    var i := 0;
    assert parts[0..] == parts;
    while i < |parts|
      invariant 0 <= i <= |parts|
      invariant dump + Joined(files, parts[i..]) == Joined(files, parts)
    {
      PlacedIsContents(files, parts[i].path);
      assert parts[i..][0] == parts[i] && parts[i..][1..] == parts[i + 1..];
      if PREPARED + parts[i].path in storage.objects {
        dump := dump + storage.objects[PREPARED + parts[i].path];
      }
      i := i + 1;
    }
  }

  // ---------- a created backup ----------

  /** Everything a backup contains, in archive order: dump parts, objects, fonts, manifest. */
  function BackupFiles(codec: Codec, m: Manifest, slices: seq<Bytes>, objects: seq<Bytes>, fonts: seq<Bytes>): (files: seq<T.File>)
    requires |slices| == |m.parts| && |objects| == |m.objects| && |fonts| == |m.fonts|
    ensures |files| == |Everything(m)| + 1
  {
    seq(|slices|, i requires 0 <= i < |slices| => T.File(m.parts[i].path, slices[i]))
    + seq(|objects|, i requires 0 <= i < |objects| => T.File(m.objects[i].listed.path, objects[i]))
    + seq(|fonts|, i requires 0 <= i < |fonts| => T.File(m.fonts[i].listed.path, fonts[i]))
    + [T.File(MANIFEST, codec.render(m))]
  }

  /** The manifest tells the truth about what was archived. */
  ghost predicate Describes(codec: Codec, m: Manifest, dump: Bytes, slices: seq<Bytes>, objects: seq<Bytes>, fonts: seq<Bytes>) {
    && Placed(codec, m) && Cut(codec, dump, m.parts, slices)
    && |objects| == |m.objects| && |fonts| == |m.fonts|
    && (forall i :: 0 <= i < |objects| ==>
          m.objects[i].listed.bytes == |objects[i]| && m.objects[i].listed.checksum == codec.hash(objects[i]))
    && (forall i :: 0 <= i < |fonts| ==>
          m.fonts[i].listed.bytes == |fonts[i]| && m.fonts[i].listed.checksum == codec.hash(fonts[i]))
  }

  lemma {:induction false} ContentsAt(files: seq<T.File>, i: nat)
    requires i < |files| && forall i, j :: 0 <= i < j < |files| ==> files[i].path != files[j].path
    ensures Contents(files, files[i].path) == Some(files[i].data)
  {
    var front := files[..|files| - 1];
    if i < |front| {
      ContentsAt(front, i);
      assert front[i] == files[i] && files[i].path != files[|files| - 1].path;
    }
  }

  lemma FilePlaces(codec: Codec, m: Manifest, slices: seq<Bytes>, objects: seq<Bytes>, fonts: seq<Bytes>, i: nat)
    requires |slices| == |m.parts| && |objects| == |m.objects| && |fonts| == |m.fonts|
    requires i < |Everything(m)|
    ensures BackupFiles(codec, m, slices, objects, fonts)[i].path == Everything(m)[i].path
  {
  }

  lemma PathsDiffer(codec: Codec, m: Manifest, i: nat, j: nat)
    requires codec.Sound() && Placed(codec, m) && |m.parts| <= 100000 && ToldApart(codec, m) && i < j < |Everything(m)|
    ensures Everything(m)[i].path != Everything(m)[j].path
  {
    var all, p, o := Everything(m), |m.parts|, |m.parts| + |m.objects|;
    PathSort(codec, m, i);
    PathSort(codec, m, j);
    if j < p {
      PartPathLegal(i);
      PartPathLegal(j);
    } else if p <= i && j < o {
      assert all[i].path[8..] == codec.hash(m.objects[i - p].name);
      assert all[j].path[8..] == codec.hash(m.objects[j - p].name);
    } else if o <= i {
      assert all[i].path[6..] == codec.hash(m.fonts[i - o].name);
      assert all[j].path[6..] == codec.hash(m.fonts[j - o].name);
    }
  }

  lemma ObjectPath(codec: Codec, m: Manifest, i: nat)
    requires Placed(codec, m) && i < |m.objects|
    ensures Everything(m)[|m.parts| + i].path == T.Ascii("objects/") + codec.hash(m.objects[i].name)
  {
  }

  lemma FontPath(codec: Codec, m: Manifest, i: nat)
    requires Placed(codec, m) && i < |m.fonts|
    ensures Everything(m)[|m.parts| + |m.objects| + i].path == T.Ascii("fonts/") + codec.hash(m.fonts[i].name)
  {
  }

  lemma Collision(codec: Codec, m: Manifest) returns (i: nat, j: nat)
    requires Placed(codec, m) && !ToldApart(codec, m)
    ensures i < j < |Everything(m)| && Everything(m)[i].path == Everything(m)[j].path
  {
    hide Placed, Everything;
    if x, y :| 0 <= x < y < |m.objects| && codec.hash(m.objects[x].name) == codec.hash(m.objects[y].name) {
      ObjectPath(codec, m, x);
      ObjectPath(codec, m, y);
      i, j := |m.parts| + x, |m.parts| + y;
    } else {
      var x, y :| 0 <= x < y < |m.fonts| && codec.hash(m.fonts[x].name) == codec.hash(m.fonts[y].name);
      FontPath(codec, m, x);
      FontPath(codec, m, y);
      i, j := |m.parts| + |m.objects| + x, |m.parts| + |m.objects| + y;
    }
  }

  /** Paths of different sorts never collide; all paths differ if and only if the hashes of names do. */
  lemma PathsDistinct(codec: Codec, m: Manifest)
    requires codec.Sound() && Placed(codec, m) && |m.parts| <= 100000
    ensures (forall i, j :: 0 <= i < j < |Everything(m)| ==> Everything(m)[i].path != Everything(m)[j].path) <==> ToldApart(codec, m)
  {
    hide Placed, Everything, ToldApart;
    if ToldApart(codec, m) {
      forall i, j | 0 <= i < j < |Everything(m)| ensures Everything(m)[i].path != Everything(m)[j].path {
        PathsDiffer(codec, m, i, j);
      }
    } else {
      var i, j := Collision(codec, m);
    }
  }

  /** The three sorts of path start with different letters; all are legal archive paths. */
  lemma PathSort(codec: Codec, m: Manifest, i: nat)
    requires codec.Sound() && Placed(codec, m) && |m.parts| <= 100000 && i < |Everything(m)|
    ensures var path := Everything(m)[i].path;
            && T.ReaderPath(path) && |path| <= 100 && path != MANIFEST
            && path[0] == if i < |m.parts| then 100 else if i < |m.parts| + |m.objects| then 111 else 102
  {
    var path := Everything(m)[i].path;
    if i < |m.parts| {
      assert path == PartPath(i);
      PartPathLegal(i);
      assert path[0] == path[..14][0];
    } else if i < |m.parts| + |m.objects| {
      var o := m.objects[i - |m.parts|];
      assert path == T.Ascii("objects/") + codec.hash(o.name);
    } else {
      var f := m.fonts[i - |m.parts| - |m.objects|];
      assert path == T.Ascii("fonts/") + codec.hash(f.name);
    }
  }

  lemma BackupPaths(codec: Codec, m: Manifest, slices: seq<Bytes>, objects: seq<Bytes>, fonts: seq<Bytes>)
    requires codec.Sound() && Placed(codec, m) && |m.parts| <= 100000 && |slices| == |m.parts| && |objects| == |m.objects| && |fonts| == |m.fonts|
    ensures var files := BackupFiles(codec, m, slices, objects, fonts);
      && (forall i :: 0 <= i < |files| ==> T.ReaderPath(files[i].path) && |files[i].path| <= 100)
      && (forall i :: 0 <= i < |Everything(m)| ==> files[i].path == Everything(m)[i].path != MANIFEST)
      && files[|Everything(m)|].path == MANIFEST
  {
    var files, n := BackupFiles(codec, m, slices, objects, fonts), |Everything(m)|;
    hide Placed, T.ReaderPath;
    assert T.ReaderPath(MANIFEST) by { ManifestPathLegal(); }
    forall i | 0 <= i < n ensures files[i].path == Everything(m)[i].path
        && T.ReaderPath(files[i].path) && |files[i].path| <= 100 && files[i].path != MANIFEST {
      FilePlaces(codec, m, slices, objects, fonts, i);
      PathSort(codec, m, i);
    }
  }

  /** The reader accepts the paths of a backup exactly if they are told apart. */
  lemma BackupFilesLegal(codec: Codec, m: Manifest, dump: Bytes, slices: seq<Bytes>, objects: seq<Bytes>, fonts: seq<Bytes>)
    requires codec.Sound() && Describes(codec, m, dump, slices, objects, fonts) && |m.parts| <= 100000
    requires var files := BackupFiles(codec, m, slices, objects, fonts);
             forall i :: 0 <= i < |files| ==> |files[i].data| <= T.MAX_SIZE
    ensures T.Extractable(BackupFiles(codec, m, slices, objects, fonts), {}) <==> ToldApart(codec, m)
  {
    var files, n := BackupFiles(codec, m, slices, objects, fonts), |Everything(m)|;
    BackupPaths(codec, m, slices, objects, fonts);
    PathsDistinct(codec, m);
    hide Placed, Cut, T.ReaderPath, BackupFiles, Everything, ToldApart;
    if T.Extractable(files, {}) {
      forall i, j | 0 <= i < j < n ensures Everything(m)[i].path != Everything(m)[j].path {
        assert files[i].path != files[j].path;
      }
    }
    if ToldApart(codec, m) {
      forall i, j | 0 <= i < j < |files| ensures files[i].path != files[j].path {
        assert j < n ==> Everything(m)[i].path != Everything(m)[j].path;
      }
    }
  }

  lemma ManifestPathLegal()
    ensures T.ReaderPath(MANIFEST) && |MANIFEST| == 8
  {
  }

  lemma {:induction false} JoinedSlices(files: seq<T.File>, parts: seq<Listed>, slices: seq<Bytes>)
    requires |parts| == |slices|
    requires forall i :: 0 <= i < |parts| ==> Contents(files, parts[i].path) == Some(slices[i])
    ensures Joined(files, parts) == Flatten(slices)
  {
    if parts != [] {
      JoinedSlices(files, parts[1..], slices[1..]);
    }
  }

  /** What was listed is what is found. */
  lemma ArchivedContents(codec: Codec, m: Manifest, dump: Bytes, slices: seq<Bytes>, objects: seq<Bytes>, fonts: seq<Bytes>)
    requires codec.Sound() && Describes(codec, m, dump, slices, objects, fonts)
    requires T.Extractable(BackupFiles(codec, m, slices, objects, fonts), {})
    ensures var files := BackupFiles(codec, m, slices, objects, fonts);
            && Contents(files, MANIFEST) == Some(codec.render(m))
            && (forall i :: 0 <= i < |m.parts| ==> Contents(files, m.parts[i].path) == Some(slices[i]))
            && (forall i :: 0 <= i < |m.objects| ==> Contents(files, m.objects[i].listed.path) == Some(objects[i]))
            && (forall i :: 0 <= i < |m.fonts| ==> Contents(files, m.fonts[i].listed.path) == Some(fonts[i]))
  {
    hide ValidManifest, Cut, T.ReaderPath, T.Extractable, Contents;
    var files, p, o := BackupFiles(codec, m, slices, objects, fonts), |m.parts|, |m.parts| + |m.objects|;
    ArchivedFile(files, |files| - 1, T.File(MANIFEST, codec.render(m)));
    forall i | 0 <= i < |m.parts| ensures Contents(files, m.parts[i].path) == Some(slices[i]) {
      ArchivedFile(files, i, T.File(m.parts[i].path, slices[i]));
    }
    forall i | 0 <= i < |m.objects| ensures Contents(files, m.objects[i].listed.path) == Some(objects[i]) {
      ArchivedFile(files, p + i, T.File(m.objects[i].listed.path, objects[i]));
    }
    forall i | 0 <= i < |m.fonts| ensures Contents(files, m.fonts[i].listed.path) == Some(fonts[i]) {
      ArchivedFile(files, o + i, T.File(m.fonts[i].listed.path, fonts[i]));
    }
  }

  lemma ArchivedFile(files: seq<T.File>, i: nat, file: T.File)
    requires T.Extractable(files, {}) && i < |files| && files[i] == file
    ensures Contents(files, file.path) == Some(file.data)
  {
    hide T.ReaderPath;
    ContentsAt(files, i);
  }

  lemma ArchivedInventory(codec: Codec, m: Manifest, slices: seq<Bytes>, objects: seq<Bytes>, fonts: seq<Bytes>)
    requires |slices| == |m.parts| && |objects| == |m.objects| && |fonts| == |m.fonts|
    requires T.Extractable(BackupFiles(codec, m, slices, objects, fonts), {})
    ensures InventoryMatches(BackupFiles(codec, m, slices, objects, fonts), Expected(m))
  {
    var files, n := BackupFiles(codec, m, slices, objects, fonts), |Everything(m)|;
    forall i | 0 <= i < n ensures files[i].path == Everything(m)[i].path {
      FilePlaces(codec, m, slices, objects, fonts, i);
    }
    forall path ensures path in Elements(FilePaths(files)) <==> path in Expected(m) {
      if path in FilePaths(files) {
        var i :| 0 <= i < |files| && FilePaths(files)[i] == path;
        if i < n {
          assert Everything(m)[i] in Everything(m);
        }
      }
      if path in Expected(m) {
        if path == MANIFEST {
          assert FilePaths(files)[n] == path;
        } else {
          var l :| l in Everything(m) && l.path == path;
          var i :| 0 <= i < n && Everything(m)[i] == l;
          assert FilePaths(files)[i] == path;
        }
      }
    }
    assert Elements(FilePaths(files)) == Expected(m);
    InventoryExact(files, Expected(m));
  }

  lemma ArchivedIntact(codec: Codec, m: Manifest, dump: Bytes, slices: seq<Bytes>, objects: seq<Bytes>, fonts: seq<Bytes>, i: nat)
    requires codec.Sound() && Describes(codec, m, dump, slices, objects, fonts)
    requires T.Extractable(BackupFiles(codec, m, slices, objects, fonts), {})
    requires i < |Everything(m)|
    ensures Intact(codec, BackupFiles(codec, m, slices, objects, fonts), Everything(m)[i])
  {
    ArchivedContents(codec, m, dump, slices, objects, fonts);
    hide ValidManifest, T.ReaderPath, T.Extractable, Expected, Contents, BackupFiles;
    var all, p, o := Everything(m), |m.parts|, |m.parts| + |m.objects|;
    if i < p {
      assert all[i] == m.parts[i];
    } else if i < o {
      assert all[i] == m.objects[i - p].listed;
    } else {
      assert all[i] == m.fonts[i - o].listed;
    }
  }

  lemma ArchivedChecks(codec: Codec, m: Manifest, dump: Bytes, slices: seq<Bytes>, objects: seq<Bytes>, fonts: seq<Bytes>)
    requires codec.Sound() && Describes(codec, m, dump, slices, objects, fonts)
    requires T.Extractable(BackupFiles(codec, m, slices, objects, fonts), {})
    ensures CheckFiles(codec, m.id, BackupFiles(codec, m, slices, objects, fonts))
            == if ValidManifest(codec, m) then Prepared(m, dump) else Refused(ManifestInvalid)
  {
    var files := BackupFiles(codec, m, slices, objects, fonts);
    ArchivedContents(codec, m, dump, slices, objects, fonts);
    ArchivedInventory(codec, m, slices, objects, fonts);
    forall i | 0 <= i < |Everything(m)| ensures Intact(codec, files, Everything(m)[i]) {
      ArchivedIntact(codec, m, dump, slices, objects, fonts, i);
    }
    hide ValidManifest, T.ReaderPath, T.Extractable, Expected, Contents, BackupFiles, Intact, InventoryMatches;
    JoinedSlices(files, m.parts, slices);
  }

  /** End to end: a bundle made from a dump, objects and fonts, if the archive writer accepts them, prepares a
      restore with the same manifest and, byte for byte, the same dump, exactly if the names are told apart,
      the archive limits are kept and the manifest meets its schema; otherwise it is refused for that. */
  lemma BackupRestores(codec: Codec, suite: E.Suite, keys: map<Bytes, Bytes>, f: E.Fields,
                       m: Manifest, dump: Bytes, slices: seq<Bytes>, objects: seq<Bytes>, fonts: seq<Bytes>)
    requires codec.Sound() && suite.Sound() && E.LegalFields(f) && f.keyId in keys
    requires Describes(codec, m, dump, slices, objects, fonts)
    requires var files := BackupFiles(codec, m, slices, objects, fonts);
             forall i :: 0 <= i < |files| ==> T.WriterPath(files[i].path) && |files[i].data| <= T.MAX_SIZE
    ensures var files := BackupFiles(codec, m, slices, objects, fonts);
            && T.Archivable(files)
            && Prepare(codec, suite, keys, m.id, E.Encrypt(suite, keys[f.keyId], f, T.Archive(files)))
               == if !RequestId(m.id) then Refused(IdInvalid)
                  else if !ToldApart(codec, m) || !T.Within(files, 0, 0, LIMITS) then Refused(BadArchive)
                  else if !ValidManifest(codec, m) then Refused(ManifestInvalid)
                  else Prepared(m, dump)
  {
    var files := BackupFiles(codec, m, slices, objects, fonts);
    assert T.Within(files, 0, 0, LIMITS) ==> |files| <= 100000 && |m.parts| <= 100000;
    hide ValidManifest, Placed, Cut, ToldApart, RequestId, T.Within, T.Extractable, T.ReaderPath, T.WriterPath, E.Decrypt, E.Encrypt, T.Read, T.Archive, CheckFiles;
    T.ReadInvertsArchive(files, {}, 0, 0, LIMITS);
    E.DecryptInvertsEncrypt(suite, keys, f, T.Archive(files));
    if T.Within(files, 0, 0, LIMITS) {
      BackupFilesLegal(codec, m, dump, slices, objects, fonts);
      if T.Extractable(files, {}) {
        ArchivedChecks(codec, m, dump, slices, objects, fonts);
      }
    }
  }
}
