/** The encrypted backup bundle: a one-line header, a stream cipher over the archive, and a
    sixteen-byte authentication tag (packages/adapters/src/backup-encryption.ts).
    The cipher, the tag and the header's JSON are abstract functions. */
module BackupEncryption {
  import opened Seqs

  type Bytes = seq<byte>

  const TAG: nat := 16
  const LONGEST_HEADER: nat := 2048

  /** The fields of the header line. */
  datatype Fields = Fields(version: int, keyId: Bytes, iv: Bytes)

  datatype Parsed = NotJson | Json(fields: Fields)

  /** Counter mode acts on each byte by its position; the tag depends on header and ciphertext. */
  datatype Suite = Suite(
    enc: (Bytes, Bytes, nat, byte) -> byte,
    dec: (Bytes, Bytes, nat, byte) -> byte,
    mac: (Bytes, Bytes, Bytes, Bytes) -> Bytes,
    parse: Bytes -> Parsed,
    render: Fields -> Bytes)
  {
    ghost predicate Sound() {
      && (forall key, iv, i, b :: dec(key, iv, i, enc(key, iv, i, b)) == b)
      && (forall key, iv, aad, text :: |mac(key, iv, aad, text)| == TAG)
      && (forall f :: LegalFields(f) ==>
            && parse(render(f) + [10]) == Json(f) && |render(f)| + 9 <= LONGEST_HEADER
            && forall i :: 0 <= i < |render(f)| ==> render(f)[i] != 10)
    }
  }

  datatype Error = HeaderInvalid | BundleTruncated | AuthenticationFailed

  datatype Result = Opened(plain: Bytes) | Failed(error: Error)

  predicate Base64Byte(b: byte) {
    97 <= b <= 122 || 65 <= b <= 90 || 47 <= b <= 57 || b == 43
  }

  predicate LegalIv(iv: Bytes) {
    |iv| == 16 && forall i :: 0 <= i < 16 ==> Base64Byte(iv[i])
  }

  predicate LegalKeyId(id: Bytes) {
    1 <= |id| <= 40 && forall i :: 0 <= i < |id| ==>
      97 <= id[i] <= 122 || 65 <= id[i] <= 90 || 48 <= id[i] <= 57 || id[i] == 95 || id[i] == 45
  }

  predicate LegalFields(f: Fields) {
    f.version == 1 && LegalKeyId(f.keyId) && LegalIv(f.iv)
  }

  const MAGIC: Bytes := [83, 84, 68, 66, 65, 75, 49, 32]

  // ---------- what a bundle means ----------

  function FirstNewline(s: Bytes): (n: nat)
    ensures n <= |s| && (n < |s| ==> s[n] == 10) && forall i :: 0 <= i < n ==> s[i] != 10
  {
    if s == [] || s[0] == 10 then 0 else 1 + FirstNewline(s[1..])
  }

  datatype Opening = Unfinished | Bad | Header(length: nat, key: Bytes, iv: Bytes)

  function HeaderLine(suite: Suite, keys: map<Bytes, Bytes>, line: Bytes): (o: Opening)
    requires line != []
    ensures !o.Unfinished? && (o.Header? ==> o.length == |line|)
  {
    if |line| - 1 > LONGEST_HEADER || |line| < 8 || line[..8] != MAGIC then Bad
    else
      var parsed := suite.parse(line[8..]);
      if parsed.NotJson? || parsed.fields.version != 1 || parsed.fields.keyId !in keys || !LegalIv(parsed.fields.iv)
      then Bad
      else Header(|line|, keys[parsed.fields.keyId], parsed.fields.iv)
  }

  function Open(suite: Suite, keys: map<Bytes, Bytes>, s: Bytes): (o: Opening)
    ensures o.Header? ==> o.length <= |s|
  {
    var n := FirstNewline(s);
    if n < |s| then HeaderLine(suite, keys, s[..n + 1])
    else if |s| > LONGEST_HEADER then Bad else Unfinished
  }

  function Deciphered(suite: Suite, key: Bytes, iv: Bytes, from: nat, s: Bytes): (t: Bytes)
    ensures |t| == |s|
  {
    seq(|s|, i requires 0 <= i < |s| => suite.dec(key, iv, from + i, s[i]))
  }

  function Enciphered(suite: Suite, key: Bytes, iv: Bytes, from: nat, s: Bytes): (t: Bytes)
    ensures |t| == |s|
  {
    seq(|s|, i requires 0 <= i < |s| => suite.enc(key, iv, from + i, s[i]))
  }

  /** The simple reading of a whole bundle: header line, ciphertext, last sixteen bytes. */
  function Decrypt(suite: Suite, keys: map<Bytes, Bytes>, s: Bytes): Result {
    match Open(suite, keys, s)
    case Unfinished => Failed(BundleTruncated)
    case Bad => Failed(HeaderInvalid)
    case Header(length, key, iv) =>
      if |s| - length < TAG then Failed(BundleTruncated)
      else
        var text, tag := s[length..|s| - TAG], s[|s| - TAG..];
        if suite.mac(key, iv, s[..length], text) != tag then Failed(AuthenticationFailed)
        else Opened(Deciphered(suite, key, iv, 0, text))
  }

  function Line(suite: Suite, f: Fields): Bytes { MAGIC + suite.render(f) + [10] }

  function Encrypt(suite: Suite, key: Bytes, f: Fields, plain: Bytes): Bytes {
    var text := Enciphered(suite, key, f.iv, 0, plain);
    Line(suite, f) + text + suite.mac(key, f.iv, Line(suite, f), text)
  }

  // ---------- the streaming cipher ----------

  /** A cipher in use: everything fed to it so far, in order. */
  class Decipher {
    const suite: Suite
    const key: Bytes
    const iv: Bytes
    const aad: Bytes
    var fed: Bytes

    constructor (suite: Suite, key: Bytes, iv: Bytes, aad: Bytes)
      ensures this.suite == suite && this.key == key && this.iv == iv && this.aad == aad && fed == []
    {
      this.suite, this.key, this.iv, this.aad, fed := suite, key, iv, aad, [];
    }

    method Update(part: Bytes) returns (bytes: Bytes)
      modifies this
      ensures fed == old(fed) + part
      ensures bytes == Deciphered(suite, key, iv, |old(fed)|, part)
    {
      bytes := Deciphered(suite, key, iv, |fed|, part);
      fed := fed + part;
    }

    method Final(tag: Bytes) returns (ok: bool)
      ensures ok <==> suite.mac(key, iv, aad, fed) == tag
    {
      ok := suite.mac(key, iv, aad, fed) == tag;
    }
  }

  lemma DecipheredConcat(suite: Suite, key: Bytes, iv: Bytes, from: nat, a: Bytes, b: Bytes)
    ensures Deciphered(suite, key, iv, from, a + b)
            == Deciphered(suite, key, iv, from, a) + Deciphered(suite, key, iv, from + |a|, b)
  {
  }

  lemma EncipheredConcat(suite: Suite, key: Bytes, iv: Bytes, from: nat, a: Bytes, b: Bytes)
    ensures Enciphered(suite, key, iv, from, a + b)
            == Enciphered(suite, key, iv, from, a) + Enciphered(suite, key, iv, from + |a|, b)
  {
  }

  // ---------- prefixes of a stream ----------

  lemma {:induction false} FirstNewlineOfPrefix(p: Bytes, rest: Bytes)
    ensures FirstNewline(p) < |p| ==> FirstNewline(p + rest) == FirstNewline(p)
    ensures FirstNewline(p) == |p| ==> FirstNewline(p + rest) >= |p|
  {
    if p != [] && p[0] != 10 {
      assert (p + rest)[1..] == p[1..] + rest;
      FirstNewlineOfPrefix(p[1..], rest);
    }
  }

  /** A header accepted or refused on part of a stream is accepted or refused on all of it. */
  lemma OpenOfPrefix(suite: Suite, keys: map<Bytes, Bytes>, p: Bytes, rest: Bytes)
    ensures !Open(suite, keys, p).Unfinished? ==> Open(suite, keys, p + rest) == Open(suite, keys, p)
  {
    FirstNewlineOfPrefix(p, rest);
    var n := FirstNewline(p);
    if n < |p| {
      assert (p + rest)[..n + 1] == p[..n + 1];
    }
  }

  // ---------- decryption, chunk by chunk ----------

  /** The header of `s` was accepted; what followed it is fed to the cipher or still pending. */
  ghost predicate Running(suite: Suite, keys: map<Bytes, Bytes>, s: Bytes, decipher: Decipher, pending: Bytes, out: Bytes)
    reads decipher
  {
    && Open(suite, keys, s) == Header(|decipher.aad|, decipher.key, decipher.iv)
    && s == decipher.aad + decipher.fed + pending && decipher.suite == suite
    && (decipher.fed != [] ==> |pending| >= TAG)
    && out == Deciphered(suite, decipher.key, decipher.iv, 0, decipher.fed)
  }

  /** Feeds all but the last sixteen bytes. */
  method Feed(ghost suite: Suite, ghost keys: map<Bytes, Bytes>, ghost s: Bytes, decipher: Decipher, pending: Bytes, out: Bytes)
    returns (kept: Bytes, plain: Bytes)
    requires Running(suite, keys, s, decipher, pending, out)
    modifies decipher
    ensures Running(suite, keys, s, decipher, kept, plain) && |kept| <= TAG
  {
    kept, plain := pending, out;
    if |pending| > TAG {
      var part := pending[..|pending| - TAG];
      kept := pending[|pending| - TAG..];
      assert pending == part + kept;
      ghost var fed := decipher.fed;
      DecipheredConcat(suite, decipher.key, decipher.iv, 0, fed, part);
      var bytes := decipher.Update(part);
      plain := plain + bytes;
      assert s == decipher.aad + (fed + part) + kept;
    }
  }

  /** The first line of the stream, once it is complete. */
  method Begin(suite: Suite, keys: map<Bytes, Bytes>, pending: Bytes)
    returns (decipher: Decipher?, rest: Bytes, bad: bool)
    ensures bad <==> Open(suite, keys, pending).Bad?
    ensures decipher != null <==> Open(suite, keys, pending).Header?
    ensures decipher != null ==> fresh(decipher) && Running(suite, keys, pending, decipher, rest, [])
    ensures decipher == null ==> rest == pending
  {
    var newline := FirstNewline(pending);
    if newline == |pending| {
      return null, pending, |pending| > LONGEST_HEADER;
    }
    var opening := HeaderLine(suite, keys, pending[..newline + 1]);
    if opening.Bad? {
      return null, pending, true;
    }
    decipher := new Decipher(suite, opening.key, opening.iv, pending[..newline + 1]);
    rest, bad := pending[newline + 1..], false;
    assert pending == decipher.aad + decipher.fed + rest;
    assert [] == Deciphered(suite, decipher.key, decipher.iv, 0, decipher.fed);
  }

  lemma RunningGrows(suite: Suite, keys: map<Bytes, Bytes>, s: Bytes, chunk: Bytes, decipher: Decipher, pending: Bytes, out: Bytes)
    requires Running(suite, keys, s, decipher, pending, out)
    ensures Running(suite, keys, s + chunk, decipher, pending + chunk, out)
  {
    OpenOfPrefix(suite, keys, s, chunk);
    assert s + chunk == decipher.aad + decipher.fed + (pending + chunk);
  }

  lemma RunningEnds(suite: Suite, keys: map<Bytes, Bytes>, s: Bytes, decipher: Decipher, pending: Bytes, out: Bytes)
    requires Running(suite, keys, s, decipher, pending, out) && |pending| <= TAG
    ensures Decrypt(suite, keys, s)
            == if |pending| != TAG then Failed(BundleTruncated)
               else if suite.mac(decipher.key, decipher.iv, decipher.aad, decipher.fed) != pending
               then Failed(AuthenticationFailed)
               else Opened(out)
  {
    if |pending| == TAG {
      assert s[..|decipher.aad|] == decipher.aad;
      assert s[|decipher.aad|..|s| - TAG] == decipher.fed && s[|s| - TAG..] == pending;
    }
  }

  /** `decryptTo`: keeps at most the last sixteen bytes back, feeds everything else to the cipher,
      and lets the destination keep the plaintext only when the tag agrees. */
  method DecryptTo(suite: Suite, keys: map<Bytes, Bytes>, chunks: seq<Bytes>) returns (result: Result)
    ensures result == Decrypt(suite, keys, Flatten(chunks))
    ensures forall r :: Verdict(suite, keys, Flatten(chunks), r) <==> r == result
  {
    forall r ensures Verdict(suite, keys, Flatten(chunks), r) <==> r == Decrypt(suite, keys, Flatten(chunks)) {
      OpensExactly(suite, keys, Flatten(chunks), r);
    }
    hide Verdict;
    var pending: Bytes, decipher: Decipher?, out: Bytes := [], null, [];
    var k := 0;
    while k < |chunks|
      invariant 0 <= k <= |chunks|
      invariant decipher == null ==> out == [] && pending == Flatten(chunks[..k]) && Open(suite, keys, pending).Unfinished?
      invariant decipher != null ==> fresh(decipher) && |pending| <= TAG
      invariant decipher != null ==> Running(suite, keys, Flatten(chunks[..k]), decipher, pending, out)
    {
      hide Open, Decrypt, Running;
      ghost var before, s := Flatten(chunks[..k]), Flatten(chunks[..k + 1]);
      FlattenSplit(chunks, k);
      if decipher == null {
        pending := pending + chunks[k];
        var bad: bool;
        decipher, pending, bad := Begin(suite, keys, pending);
        if bad {
          BadStaysBad(suite, keys, s, Flatten(chunks));
          return Failed(HeaderInvalid);
        }
      } else {
        RunningGrows(suite, keys, before, chunks[k], decipher, pending, out);
        pending := pending + chunks[k];
      }
      if decipher != null {
        pending, out := Feed(suite, keys, s, decipher, pending, out);
      }
      k := k + 1;
    }
    assert chunks[..k] == chunks;
    if decipher == null {
      return Failed(BundleTruncated);
    }
    RunningEnds(suite, keys, Flatten(chunks), decipher, pending, out);
    if |pending| != TAG {
      return Failed(BundleTruncated);
    }
    var ok := decipher.Final(pending);
    if !ok {
      return Failed(AuthenticationFailed);
    }
    result := Opened(out);
  }

  lemma BadStaysBad(suite: Suite, keys: map<Bytes, Bytes>, p: Bytes, s: Bytes)
    requires Open(suite, keys, p).Bad? && |p| <= |s| && s[..|p|] == p
    ensures Decrypt(suite, keys, s) == Failed(HeaderInvalid)
  {
    OpenOfPrefix(suite, keys, p, s[|p|..]);
    assert s == p + s[|p|..];
  }

  /** `encryptTo`: the header line, then each chunk as it comes, then the tag. */
  method EncryptTo(suite: Suite, key: Bytes, f: Fields, chunks: seq<Bytes>) returns (out: seq<Bytes>)
    ensures Flatten(out) == Encrypt(suite, key, f, Flatten(chunks)) && Bundled(suite, key, f, Flatten(chunks), Flatten(out))
  {
    EncryptMeans(suite, key, f, Flatten(chunks));
    hide Bundled;
    var line := Line(suite, f);
    out := [line];
    FlattenOne(line);
    var text: Bytes := [];
    var k := 0;
    while k < |chunks|
      invariant 0 <= k <= |chunks|
      invariant text == Enciphered(suite, key, f.iv, 0, Flatten(chunks[..k]))
      invariant Flatten(out) == line + text
    {
      assert chunks[..k + 1] == chunks[..k] + [chunks[k]];
      FlattenSnoc(chunks[..k], chunks[k]);
      EncipheredConcat(suite, key, f.iv, 0, Flatten(chunks[..k]), chunks[k]);
      var bytes := Enciphered(suite, key, f.iv, |text|, chunks[k]);
      text := text + bytes;
      if bytes != [] {
        FlattenSnoc(out, bytes);
        out := out + [bytes];
      }
      k := k + 1;
    }
    assert chunks[..k] == chunks;
    var tag := suite.mac(key, f.iv, line, text);
    FlattenSnoc(out, []);
    FlattenSnoc(out + [[]], tag);
    out := out + [[]] + [tag];
  }

  // ---------- main results ----------

  lemma {:induction false} NoNewlineBefore(a: Bytes, rest: Bytes)
    requires forall i :: 0 <= i < |a| ==> a[i] != 10
    ensures FirstNewline(a + [10] + rest) == |a|
  {
    if a == [] {
      assert a + [10] + rest == [10] + rest;
    } else {
      assert (a + [10] + rest)[1..] == a[1..] + [10] + rest;
      NoNewlineBefore(a[1..], rest);
    }
  }

  lemma OpenOfLine(suite: Suite, keys: map<Bytes, Bytes>, f: Fields, rest: Bytes)
    requires suite.Sound() && LegalFields(f) && f.keyId in keys
    ensures Open(suite, keys, Line(suite, f) + rest) == Header(|Line(suite, f)|, keys[f.keyId], f.iv)
  {
    var line, printed := Line(suite, f), suite.render(f);
    assert line + rest == (MAGIC + printed) + [10] + rest;
    NoNewlineBefore(MAGIC + printed, rest);
    assert (line + rest)[..|line|] == line && line[..8] == MAGIC && line[8..] == printed + [10];
  }

  /** A bundle written with a key still in the ring opens to exactly what was put in. */
  lemma DecryptInvertsEncrypt(suite: Suite, keys: map<Bytes, Bytes>, f: Fields, plain: Bytes)
    requires suite.Sound() && LegalFields(f) && f.keyId in keys
    ensures Decrypt(suite, keys, Encrypt(suite, keys[f.keyId], f, plain)) == Opened(plain)
  {
    var key, line := keys[f.keyId], Line(suite, f);
    var text := Enciphered(suite, key, f.iv, 0, plain);
    var tag := suite.mac(key, f.iv, line, text);
    var s := Encrypt(suite, key, f, plain);
    assert s == line + (text + tag);
    OpenOfLine(suite, keys, f, text + tag);
    assert s[..|line|] == line && s[|line|..|s| - TAG] == text && s[|s| - TAG..] == tag;
    assert Deciphered(suite, key, f.iv, 0, text) == plain;
  }

  // ---------- the same, byte by byte ----------

  /** Everything up to the first line break. */
  ghost predicate FirstLine(s: Bytes, line: Bytes) {
    && 1 <= |line| <= |s| && s[..|line|] == line && line[|line| - 1] == 10
    && forall i | 0 <= i < |line| - 1 :: line[i] != 10
  }

  /** The magic, then fields of version 1 naming a known key and an initialisation vector of sixteen characters. */
  ghost predicate GoodLine(suite: Suite, keys: map<Bytes, Bytes>, line: Bytes) {
    && 8 <= |line| <= 2049 && line[..8] == [83, 84, 68, 66, 65, 75, 49, 32]
    && suite.parse(line[8..]).Json?
    && var f := suite.parse(line[8..]).fields;
       && f.version == 1 && f.keyId in keys && |f.iv| == 16
       && forall i | 0 <= i < 16 :: 97 <= f.iv[i] <= 122 || 65 <= f.iv[i] <= 90 || 48 <= f.iv[i] <= 57 || f.iv[i] == 43 || f.iv[i] == 47
  }

  /** The bytes behind a good line are a text and its tag, which covers the line and the text. */
  ghost predicate Tagged(suite: Suite, keys: map<Bytes, Bytes>, s: Bytes, line: Bytes)
    requires GoodLine(suite, keys, line) && |line| + 16 <= |s|
  {
    var f := suite.parse(line[8..]).fields;
    suite.mac(keys[f.keyId], f.iv, line, s[|line|..|s| - 16]) == s[|s| - 16..]
  }

  /** Each byte of the text deciphered in its place. */
  ghost predicate Plain(suite: Suite, keys: map<Bytes, Bytes>, s: Bytes, line: Bytes, plain: Bytes)
    requires GoodLine(suite, keys, line) && |line| + 16 <= |s|
  {
    var f := suite.parse(line[8..]).fields;
    |plain| == |s| - 16 - |line| && forall i | 0 <= i < |plain| :: plain[i] == suite.dec(keys[f.keyId], f.iv, i, s[|line| + i])
  }

  /** What a bundle comes to. */
  ghost predicate Verdict(suite: Suite, keys: map<Bytes, Bytes>, s: Bytes, result: Result) {
    match result
    case Opened(plain) => exists line ::
      && FirstLine(s, line) && GoodLine(suite, keys, line) && |line| + 16 <= |s|
      && Tagged(suite, keys, s, line) && Plain(suite, keys, s, line, plain)
    case Failed(HeaderInvalid) =>
      || (10 !in s && |s| > 2048)
      || (exists line :: FirstLine(s, line) && !GoodLine(suite, keys, line))
    case Failed(BundleTruncated) =>
      || (10 !in s && |s| <= 2048)
      || (exists line :: FirstLine(s, line) && GoodLine(suite, keys, line) && |s| < |line| + 16)
    case Failed(AuthenticationFailed) => exists line ::
      FirstLine(s, line) && GoodLine(suite, keys, line) && |line| + 16 <= |s| && !Tagged(suite, keys, s, line)
  }

  lemma LineMeans(suite: Suite, keys: map<Bytes, Bytes>, line: Bytes)
    requires line != []
    ensures HeaderLine(suite, keys, line).Header? <==> GoodLine(suite, keys, line)
    ensures GoodLine(suite, keys, line) ==>
      var f := suite.parse(line[8..]).fields; HeaderLine(suite, keys, line) == Header(|line|, keys[f.keyId], f.iv)
  {
  }

  lemma OneFirstLine(s: Bytes, line: Bytes)
    requires FirstLine(s, line)
    ensures 10 in s && line == s[..FirstNewline(s) + 1]
  {
    var n := FirstNewline(s);
    assert s[|line| - 1] == 10;
    assert forall i | 0 <= i < |line| :: line[i] == s[i];
  }

  lemma FoundFirstLine(s: Bytes)
    ensures 10 in s ==> FirstNewline(s) < |s| && FirstLine(s, s[..FirstNewline(s) + 1])
    ensures 10 !in s ==> FirstNewline(s) == |s|
  {
    var n := FirstNewline(s);
    if n < |s| {
      var line := s[..n + 1];
      assert forall i | 0 <= i <= n :: line[i] == s[i];
    }
  }

  /** The verdict is unique, and decryption finds it. */
  lemma OpensExactly(suite: Suite, keys: map<Bytes, Bytes>, s: Bytes, result: Result)
    ensures Verdict(suite, keys, s, result) <==> result == Decrypt(suite, keys, s)
  {
    hide FirstNewline, FirstLine, GoodLine, HeaderLine, Tagged, Plain;
    FoundFirstLine(s);
    forall line | FirstLine(s, line) ensures 10 in s && line == s[..FirstNewline(s) + 1] {
      OneFirstLine(s, line);
    }
    if 10 in s {
      var line := s[..FirstNewline(s) + 1];
      LineMeans(suite, keys, line);
      if GoodLine(suite, keys, line) && |line| + 16 <= |s| {
        TagMeans(suite, keys, s, line);
        if result.Opened? {
          PlainMeans(suite, keys, s, line, result.plain);
        }
      }
    }
  }

  lemma TagMeans(suite: Suite, keys: map<Bytes, Bytes>, s: Bytes, line: Bytes)
    requires GoodLine(suite, keys, line) && |line| + 16 <= |s|
    ensures var f := suite.parse(line[8..]).fields;
      Tagged(suite, keys, s, line) <==> suite.mac(keys[f.keyId], f.iv, line, s[|line|..|s| - TAG]) == s[|s| - TAG..]
  {
  }

  lemma PlainMeans(suite: Suite, keys: map<Bytes, Bytes>, s: Bytes, line: Bytes, plain: Bytes)
    requires GoodLine(suite, keys, line) && |line| + 16 <= |s|
    ensures var f := suite.parse(line[8..]).fields;
      Plain(suite, keys, s, line, plain) <==> plain == Deciphered(suite, keys[f.keyId], f.iv, 0, s[|line|..|s| - TAG])
  {
    var f := suite.parse(line[8..]).fields;
    var text := s[|line|..|s| - TAG];
    assert forall i | 0 <= i < |text| :: text[i] == s[|line| + i];
    assert forall i | 0 <= i < |text| :: Deciphered(suite, keys[f.keyId], f.iv, 0, text)[i] == suite.dec(keys[f.keyId], f.iv, i, text[i]);
  }

  /** A bundle as it is written: the line, each byte enciphered in its place, and the tag over both. */
  ghost predicate Bundled(suite: Suite, key: Bytes, f: Fields, plain: Bytes, s: Bytes) {
    var line := [83, 84, 68, 66, 65, 75, 49, 32] + suite.render(f) + [10];
    exists text: Bytes | |text| == |plain| ::
      && (forall i | 0 <= i < |text| :: text[i] == suite.enc(key, f.iv, i, plain[i]))
      && s == line + text + suite.mac(key, f.iv, line, text)
  }

  lemma EncryptMeans(suite: Suite, key: Bytes, f: Fields, plain: Bytes)
    ensures Bundled(suite, key, f, plain, Encrypt(suite, key, f, plain))
  {
    var text := Enciphered(suite, key, f.iv, 0, plain);
    assert |text| == |plain| && forall i | 0 <= i < |text| :: text[i] == suite.enc(key, f.iv, i, plain[i]);
  }
}
