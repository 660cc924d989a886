/** Fetching a backup: undo encryption, then compression, and keep the result within bounds. */
module Fetch {
  import opened Wrappers
  import opened Layers
  import opened Streams
  import Discovery

  /** The decrypt block of a drill: which tool, with the keys it was given. */
  datatype DecryptType = Use(encryption: Encryption) | UnsupportedType

  /** The external decoders. None is a decoder that does not start; its output may also break off. */
  datatype Tools = Tools(decrypt: (Encryption, Stream) -> Option<Stream>,
                         decompress: (Compression, Stream) -> Option<Stream>)

  type Time = Discovery.Time

  /** `select` asks for the newest of what lies under `uri`, among the names that match. */
  datatype From = From(uri: string, select: bool, matches: string -> bool, maxBytes: int, maxUncompressed: int,
                       decrypt: Option<DecryptType>)

  /** `contents` is what the local file holds; `copied` tells a temporary copy from the source file itself. `modTime` is
      when the backup was taken, from which its age is reckoned, and `resolved` the artifact actually read. */
  datatype Backup = Backup(contents: Bytes, copied: bool, size: nat, resolved: string, modTime: Time,
                           encryption: Option<Encryption>, compression: Option<Compression>, uncompressedBytes: nat)

  /** Nothing to look at, and not because the stream ended. */
  predicate Unreadable(s: Stream) {
    s.data == [] && !s.clean
  }

  function Decrypt(t: Tools, cfg: Option<DecryptType>, s: Stream): Option<(Stream, Option<Encryption>)> {
    if Unreadable(s) then None
    else match cfg
      case None =>
        if DetectEncryption(Head(s.data, Longest(ENCRYPTION_MAGICS))).Some? then None else Some((s, None))
      case Some(Use(e)) =>
        var plain :- t.decrypt(e, s);
        Some((plain, Some(e)))
      case Some(UnsupportedType) => None
  }

  function Decompress(t: Tools, s: Stream): Option<(Stream, Option<Compression>)> {
    if Unreadable(s) then None
    else match Detect(Head(s.data, MAX_MAGIC))
      case None => Some((s, None))
      case Some(c) =>
        var expanded :- t.decompress(c, s);
        Some((expanded, Some(c)))
  }

  /** Both layers undone, ciphertext first. */
  function Unwrap(t: Tools, cfg: Option<DecryptType>, s: Stream)
    : Option<(Stream, Option<Encryption>, Option<Compression>)>
  {
    var (plain, enc) :- Decrypt(t, cfg, s);
    var (expanded, comp) :- Decompress(t, plain);
    Some((expanded, enc, comp))
  }

  /** A path: nothing there, a directory, or a file; reading a file may break off. */
  datatype Path = Missing | Directory | File(contents: Stream, opens: bool, modTime: Time)

  /** The temporary file: whether it can be made, how much fits in, and whether it can be closed. */
  datatype Temp = Temp(made: bool, room: Option<nat>, closes: bool)

  /** How the bytes arrive while copying, and where they go. */
  datatype Environment = Environment(chunk: nat -> nat, eager: bool, temp: Temp)

  function Size(b: Bytes, comp: Option<Compression>): nat {
    if comp.Some? then |b| else 0
  }

  /** What ends up in the temporary file: the whole bounded stream, or nothing at all. */
  function Spooled(s: Stream, limit: int, temp: Temp): Option<Bytes> {
    if temp.made && temp.closes && Fit(temp.room, Copied(s, limit)).1 then Some(Copied(s, limit).0) else None
  }

  /** What fetching the file at `name` gives. */
  function FetchedFile(t: Tools, from: From, name: string, p: Path, temp: Temp): Option<Backup> {
    if !p.File? || (from.maxBytes > 0 && |p.contents.data| > from.maxBytes) || !p.opens then None
    else
      var (s, enc, comp) :- Unwrap(t, from.decrypt, p.contents);
      var size := |p.contents.data|;
      if enc.None? && comp.None? then Some(Backup(p.contents.data, false, size, name, p.modTime, None, None, 0))
      else
        var copy :- Spooled(s, UncompressedLimit(from.maxBytes, from.maxUncompressed), temp);
        Some(Backup(copy, true, size, name, p.modTime, enc, comp, Size(copy, comp)))
  }

  /** Sizes as the 64-bit machine can hold them. */
  predicate Sized(t: Tools, from: From, s: Stream) {
    && IsInt64(from.maxBytes) && IsInt64(from.maxUncompressed)
    && var u := Unwrap(t, from.decrypt, s); u.Some? ==> |u.value.0.data| <= INT64_MAX
  }

  /** The local file system: what a path is, what a directory holds, and how a name is joined to its directory. */
  datatype Disk = Disk(stat: string -> Path, list: string -> Option<seq<Discovery.Entry>>,
                       join: (string, string) -> string)

  /** The path that is read: the one given, or that of the newest usable file under it, if there is one. */
  ghost predicate ChosenFile(from: From, disk: Disk, name: Option<string>) {
    if !from.select then name == Some(from.uri)
    else match disk.list(from.uri)
      case None => name == None
      case Some(entries) =>
        && (name.None? <==> forall e <- entries :: !Discovery.Usable(e, from.matches))
        && (name.Some? ==> exists i: nat ::
              Discovery.IsNewestEntry(entries, from.matches, i) && name.value == disk.join(from.uri, entries[i].name))
  }

  method ChooseFile(from: From, disk: Disk) returns (name: Option<string>)
    ensures ChosenFile(from, disk, name)
  {
    if !from.select {
      return Some(from.uri);
    }
    var entries := disk.list(from.uri);
    if entries.None? {
      return None;
    }
    var newest := Discovery.LatestFile(entries.value, from.matches);
    return if newest.Some? then Some(disk.join(from.uri, newest.value)) else None;
  }

  method FetchFile(t: Tools, from: From, disk: Disk, env: Environment)
    returns (r: Option<Backup>, ghost name: Option<string>)
    requires forall p: string :: disk.stat(p).File? ==> Sized(t, from, disk.stat(p).contents)
    ensures ChosenFile(from, disk, name)
    ensures r == if name.Some? then FetchedFile(t, from, name.value, disk.stat(name.value), env.temp) else None
  {
    var chosen := ChooseFile(from, disk);
    name := chosen;
    if chosen.None? {
      return None, name;
    }
    var p := disk.stat(chosen.value);
    if p.Missing? {
      return None, name;
    }
    if p.Directory? {
      return None, name;
    }
    if from.maxBytes > 0 && |p.contents.data| > from.maxBytes {
      return None, name;
    }
    if !p.opens {
      return None, name;
    }
    var plain := Decrypt(t, from.decrypt, p.contents);
    if plain.None? {
      return None, name;
    }
    var expanded := Decompress(t, plain.value.0);
    if expanded.None? {
      return None, name;
    }
    var enc, comp := plain.value.1, expanded.value.1;
    var b := Backup(p.contents.data, false, |p.contents.data|, chosen.value, p.modTime, enc, comp, 0);
    if comp.None? && enc.None? {
      return Some(b), name;
    }
    var tmp := Spool(expanded.value.0, UncompressedLimit(from.maxBytes, from.maxUncompressed), env);
    if tmp.None? {
      return None, name;
    }
    b := b.(contents := tmp.value, copied := true);
    if comp.Some? {
      b := b.(uncompressedBytes := |tmp.value|);
    }
    return Some(b), name;
  }

  method Spool(s: Stream, limit: int, env: Environment) returns (r: Option<Bytes>)
    requires IsInt64(limit) && |s.data| <= INT64_MAX
    ensures r == Spooled(s, limit, env.temp)
  {
    if !env.temp.made {
      return None;
    }
    var reader := new Reader(s, env.chunk, env.eager);
    var copy, ok := CopyLimited(reader, limit, env.temp.room);
    if ok && !env.temp.closes {
      ok := false;
    }
    return if ok then Some(copy) else None;
  }

  // ---- From an object store

  /** A stored object; the store may announce its length and the time it was written, and the transfer may break off. */
  datatype Object = Object(contents: Stream, length: Option<nat>, modified: Option<Time>)

  /** A bucket: the pages of a listing under a prefix, and what a key holds, if the store gives it out. */
  datatype Bucket = Bucket(pages: string -> seq<Discovery.Page>, get: string -> Option<Object>)

  /** What fetching the object at `key` gives; `now` stands in for a time the store does not tell. */
  function FetchedObject(t: Tools, from: From, key: string, o: Object, now: Time, crossing: nat,
                         temp: Temp): Option<Backup> {
    if from.maxBytes > 0 && o.length.Some? && o.length.value > from.maxBytes then None
    else
      var s := Capped(o.contents, from.maxBytes, crossing);
      var (out, enc, comp) :- Unwrap(t, from.decrypt, s);
      var copy :- Spooled(out, UncompressedLimit(from.maxBytes, from.maxUncompressed), temp);
      var modTime := if o.modified.Some? then o.modified.value else now;
      Some(Backup(copy, true, |s.data|, key, modTime, enc, comp, Size(copy, comp)))
  }

  /** The key that is read: the one given, or the newest under it. */
  ghost predicate ChosenKey(from: From, bucket: Bucket, key: Option<string>) {
    if !from.select then key == Some(from.uri)
    else exists r: Discovery.Outcome :: Discovery.Selects(bucket.pages(from.uri), from.matches, r)
           && key == if r.Found? then Some(r.key) else None
  }

  method ChooseKey(from: From, bucket: Bucket) returns (key: Option<string>)
    ensures ChosenKey(from, bucket, key)
  {
    if !from.select {
      return Some(from.uri);
    }
    var r := Discovery.LatestObject(bucket.pages(from.uri), from.matches);
    return if r.Found? then Some(r.key) else None;
  }

  method FetchObject(t: Tools, from: From, bucket: Bucket, now: Time, crossing: nat, env: Environment)
    returns (r: Option<Backup>, ghost key: Option<string>)
    requires forall k: string :: bucket.get(k).Some? ==>
      Sized(t, from, Capped(bucket.get(k).value.contents, from.maxBytes, crossing))
    ensures ChosenKey(from, bucket, key)
    ensures r == if key.Some? && bucket.get(key.value).Some?
                 then FetchedObject(t, from, key.value, bucket.get(key.value).value, now, crossing, env.temp) else None
  {
    var chosen := ChooseKey(from, bucket);
    key := chosen;
    if chosen.None? {
      return None, key;
    }
    var found := bucket.get(chosen.value);
    if found.None? {
      return None, key;
    }
    var o := found.value;
    if from.maxBytes > 0 && o.length.Some? && o.length.value > from.maxBytes {
      return None, key;
    }
    var transferred := Capped(o.contents, from.maxBytes, crossing);
    var plain := Decrypt(t, from.decrypt, transferred);
    if plain.None? {
      return None, key;
    }
    var expanded := Decompress(t, plain.value.0);
    if expanded.None? {
      return None, key;
    }
    var tmp := Spool(expanded.value.0, UncompressedLimit(from.maxBytes, from.maxUncompressed), env);
    if tmp.None? {
      return None, key;
    }
    var modTime := if o.modified.Some? then o.modified.value else now;
    var b := Backup(tmp.value, true, |transferred.data|, chosen.value, modTime, plain.value.1, expanded.value.1, 0);
    if b.compression.Some? {
      b := b.(uncompressedBytes := |tmp.value|);
    }
    return Some(b), key;
  }

  // ---- Fetching undoes what the backup pipeline did

  datatype Pipeline = Pipeline(compression: Option<Compression>, encryption: Option<Encryption>)

  /** The programs that made the backup. */
  datatype Makers = Makers(compress: (Compression, Bytes) -> Bytes, encrypt: (Encryption, Bytes) -> Bytes)

  /** Each decoder undoes its encoder, and what an encoder writes begins as its format says. */
  ghost predicate Undo(t: Tools, m: Makers) {
    && (forall c: Compression, d: Bytes :: MagicOf(c) <= m.compress(c, d)
          && t.decompress(c, Stream(m.compress(c, d), true)) == Some(Stream(d, true)))
    && (forall e: Encryption, d: Bytes :: BeginsAs(e, m.encrypt(e, d))
          && t.decrypt(e, Stream(m.encrypt(e, d), true)) == Some(Stream(d, true)))
  }

  function Squeezed(m: Makers, p: Pipeline, payload: Bytes): Bytes {
    if p.compression.Some? then m.compress(p.compression.value, payload) else payload
  }

  function Artifact(m: Makers, p: Pipeline, payload: Bytes): Bytes {
    if p.encryption.Some? then m.encrypt(p.encryption.value, Squeezed(m, p, payload)) else Squeezed(m, p, payload)
  }

  function ConfigFor(p: Pipeline): Option<DecryptType> {
    if p.encryption.Some? then Some(Use(p.encryption.value)) else None
  }

  /** The payload itself does not look like a layer that was never applied. */
  predicate Unmistakable(p: Pipeline, payload: Bytes) {
    p.compression.None? ==>
      && (forall c: Compression :: !(MagicOf(c) <= payload))
      && (p.encryption.None? ==> forall e: Encryption :: !BeginsAs(e, payload))
  }

  /** The original bytes come back, and the layers found are the layers applied. */
  predicate Undone(t: Tools, m: Makers, p: Pipeline, payload: Bytes) {
    Unwrap(t, ConfigFor(p), Stream(Artifact(m, p, payload), true)) ==
        Some((Stream(payload, true), p.encryption, p.compression))
  }

  lemma NoLayerFound(payload: Bytes)
    ensures Detect(payload).None? <==> forall c: Compression :: !(MagicOf(c) <= payload)
    ensures DetectEncryption(payload).None? <==> forall e: Encryption :: !BeginsAs(e, payload)
  {
    forall c {
      OneMagicAtMost(payload, c);
    }
    forall e {
      OneEncryptionAtMost(payload, e);
    }
  }

  lemma DecompressUndoes(t: Tools, m: Makers, p: Pipeline, payload: Bytes)
    requires Undo(t, m)
    ensures Decompress(t, Stream(Squeezed(m, p, payload), true)) == Some((Stream(payload, true), p.compression)) <==>
      (p.compression.None? ==> Detect(payload).None?)
  {
    var s := Squeezed(m, p, payload);
    HeadDecides(s);
    if p.compression.Some? {
      OneMagicAtMost(s, p.compression.value);
    }
  }

  /** For every payload, with every pipeline: the original bytes come back and the layers found are the layers
      applied, exactly when the payload is not itself mistaken for one more layer. */
  lemma UnwrapUndoes(t: Tools, m: Makers, p: Pipeline, payload: Bytes)
    requires Undo(t, m)
    ensures Undone(t, m, p, payload) <==> Unmistakable(p, payload)
  {
    var a, squeezed := Artifact(m, p, payload), Squeezed(m, p, payload);
    DecompressUndoes(t, m, p, payload);
    NoLayerFound(payload);
    HeadDecides(a);
    if p.encryption.Some? {
      assert Decrypt(t, ConfigFor(p), Stream(a, true)) == Some((Stream(squeezed, true), p.encryption));
    } else if p.compression.Some? {
      OneMagicAtMost(squeezed, p.compression.value);
      CompressedIsNotEncrypted(squeezed);
      assert Decrypt(t, None, Stream(a, true)) == Some((Stream(a, true), None));
    }
  }

  /** The bound on expansion: the explicit one, whatever the transfer cap; without it a hundred times that cap, as
      64-bit arithmetic has it; and without either none. */
  predicate WithinBound(from: From, size: nat) {
    && (from.maxUncompressed > 0 ==> size <= from.maxUncompressed)
    && (from.maxUncompressed <= 0 && from.maxBytes > 0 && Wrap(100 * from.maxBytes) > 0 ==>
          size <= Wrap(100 * from.maxBytes))
  }

  /** So many bytes can be copied: the temporary file can be made and closed, they are within the bound, and there is
      room. At the largest explicit bound nothing is copied, and so nothing stands in the way. */
  predicate Fits(temp: Temp, from: From, size: nat) {
    temp.made && temp.closes &&
    (from.maxUncompressed == INT64_MAX || (WithinBound(from, size) && (temp.room.Some? ==> size <= temp.room.value)))
  }

  /** A hundredfold is even, and the largest limit is odd. */
  lemma HundredfoldIsNotLargest(maxBytes: int)
    ensures Wrap(maxBytes * 100) != INT64_MAX
  {
    var r := Wrap(maxBytes * 100);
    var k := (r - maxBytes * 100) / TWO_TO_THE_64;
    assert r == 2 * (50 * maxBytes + 0x8000_0000_0000_0000 * k);
    assert INT64_MAX == 2 * 0x3fff_ffff_ffff_ffff + 1;
  }

  lemma SpooledBySize(s: Stream, from: From, temp: Temp)
    requires s.clean
    ensures var r := Spooled(s, UncompressedLimit(from.maxBytes, from.maxUncompressed), temp);
      && (r.Some? <==> Fits(temp, from, |s.data|))
      && (r.Some? ==> r.value == if from.maxUncompressed == INT64_MAX then [] else s.data)
  {
    HundredfoldIsNotLargest(from.maxBytes);
    assert from.maxBytes * 100 == 100 * from.maxBytes;
  }

  lemma SpooledWhen(s: Stream, from: From, temp: Temp)
    requires from.maxUncompressed != INT64_MAX
    ensures var r := Spooled(s, UncompressedLimit(from.maxBytes, from.maxUncompressed), temp);
      && (r.Some? <==> s.clean && Fits(temp, from, |s.data|))
      && (r.Some? ==> r.value == s.data)
  {
    HundredfoldIsNotLargest(from.maxBytes);
    assert from.maxBytes * 100 == 100 * from.maxBytes;
  }

  /** When there is a backup at all: for a file that is there, opens and is within the transfer cap, with layers that
      the tools undo; if there was a layer, what came out must have ended cleanly and fit. */
  lemma WhenFileIsFetched(t: Tools, from: From, name: string, p: Path, temp: Temp)
    requires from.maxUncompressed != INT64_MAX
    ensures FetchedFile(t, from, name, p, temp).Some? <==>
      && p.File? && p.opens && (from.maxBytes <= 0 || |p.contents.data| <= from.maxBytes)
      && var u := Unwrap(t, from.decrypt, p.contents);
         u.Some? &&
         ((u.value.1 == None && u.value.2 == None) || (u.value.0.clean && Fits(temp, from, |u.value.0.data|)))
  {
    if p.File? {
      var u := Unwrap(t, from.decrypt, p.contents);
      if u.Some? {
        SpooledWhen(u.value.0, from, temp);
      }
    }
  }

  /** A file that no layer's mark begins is its own backup, if there is anything to read at all: it is used in place,
      and whether reading it breaks off later is not looked into. */
  lemma PlainFileIsUsedInPlace(t: Tools, from: From, name: string, s: Stream, taken: Time, temp: Temp)
    requires from.decrypt.None? && (from.maxBytes <= 0 || |s.data| <= from.maxBytes)
    requires (forall c: Compression :: !(MagicOf(c) <= s.data)) && forall e: Encryption :: !BeginsAs(e, s.data)
    ensures FetchedFile(t, from, name, File(s, true, taken), temp) ==
      if s.data == [] && !s.clean then None
      else Some(Backup(s.data, false, |s.data|, name, taken, None, None, 0))
  {
    HeadDecides(s.data);
    NoLayerFound(s.data);
  }

  /** The same for an object: announced within the cap, undone by the tools as far as it came through, clean and
      fitting. */
  lemma WhenObjectIsFetched(t: Tools, from: From, key: string, o: Object, now: Time, crossing: nat, temp: Temp)
    requires from.maxUncompressed != INT64_MAX
    ensures FetchedObject(t, from, key, o, now, crossing, temp).Some? <==>
      && (from.maxBytes > 0 && o.length.Some? ==> o.length.value <= from.maxBytes)
      && var u := Unwrap(t, from.decrypt, Capped(o.contents, from.maxBytes, crossing));
         u.Some? && u.value.0.clean && Fits(temp, from, |u.value.0.data|)
  {
    var u := Unwrap(t, from.decrypt, Capped(o.contents, from.maxBytes, crossing));
    if u.Some? {
      SpooledWhen(u.value.0, from, temp);
    }
  }

  /** The whole fetch of a file that some pipeline made, exactly: it succeeds when the artifact is within the transfer
      cap and, if there was a layer, the payload can be copied. Then the local file holds the original payload, except
      at the largest limit, where it is empty; the layers are those undone, and the time is the artifact's own. */
  lemma FetchUndoesThePipeline(t: Tools, m: Makers, from: From, name: string, p: Pipeline, payload: Bytes, taken: Time,
                               temp: Temp)
    requires Undo(t, m) && Unmistakable(p, payload) && from.decrypt == ConfigFor(p)
    ensures var artifact := Artifact(m, p, payload);
      var r := FetchedFile(t, from, name, File(Stream(artifact, true), true, taken), temp);
      && (r.Some? <==>
            ((from.maxBytes <= 0 || |artifact| <= from.maxBytes) &&
             (p == Pipeline(None, None) || Fits(temp, from, |payload|))))
      && (r.Some? ==>
            && r.value.contents ==
                 (if p != Pipeline(None, None) && from.maxUncompressed == INT64_MAX then [] else payload)
            && r.value.modTime == taken && r.value.resolved == name && r.value.size == |artifact|
            && r.value.encryption == p.encryption && r.value.compression == p.compression
            && r.value.copied == (p != Pipeline(None, None))
            && r.value.uncompressedBytes == if p.compression.Some? then |r.value.contents| else 0)
  {
    UnwrapUndoes(t, m, p, payload);
    SpooledBySize(Stream(payload, true), from, temp);
  }

  /** What can be copied, in plain numbers: an explicit bound is the bound, whatever the transfer cap; without one the
      cap allows its hundredfold, while that is a 64-bit number; and without either only room counts. */
  lemma BoundsInNumbers(temp: Temp, from: From, size: nat)
    ensures var room := temp.made && temp.closes && (temp.room.Some? ==> size <= temp.room.value);
      && (0 < from.maxUncompressed < INT64_MAX ==> (Fits(temp, from, size) <==> room && size <= from.maxUncompressed))
      && (from.maxUncompressed <= 0 && 0 < from.maxBytes <= 92233720368547758 ==>
            (Fits(temp, from, size) <==> room && size <= 100 * from.maxBytes))
      && (from.maxUncompressed <= 0 && from.maxBytes <= 0 ==> (Fits(temp, from, size) <==> room))
  {
    if from.maxUncompressed <= 0 && 0 < from.maxBytes <= 92233720368547758 {
      assert IsInt64(100 * from.maxBytes);
    }
  }

  /** Nothing fetched through a temporary file is ever longer than an explicit bound, whatever the tools and the store
      deliver; nor, without one, than a hundred times the transfer cap. */
  lemma CopiesAreBounded(t: Tools, from: From, name: string, p: Path, key: string, o: Object, now: Time, crossing: nat,
                         temp: Temp)
    ensures var file := FetchedFile(t, from, name, p, temp);
      var remote := FetchedObject(t, from, key, o, now, crossing, temp);
      && (file.Some? && file.value.copied ==> Within(from, file.value.contents))
      && (remote.Some? ==> Within(from, remote.value.contents))
  {
    if from.maxUncompressed <= 0 && 0 < from.maxBytes <= 92233720368547758 {
      assert IsInt64(from.maxBytes * 100);
    }
  }

  predicate Within(from: From, contents: Bytes) {
    && (from.maxUncompressed > 0 ==> |contents| <= from.maxUncompressed)
    && (from.maxUncompressed <= 0 && 0 < from.maxBytes <= 92233720368547758 ==> |contents| <= 100 * from.maxBytes)
  }

  /** An encrypted backup without a decrypt block is refused, not restored as ciphertext. */
  lemma ForgottenDecryptIsRefused(t: Tools, m: Makers, from: From, name: string, p: Pipeline, payload: Bytes, now: Time,
                                  crossing: nat, temp: Temp)
    requires Undo(t, m) && p.encryption.Some? && from.decrypt.None?
    ensures var s := Stream(Artifact(m, p, payload), true);
      && FetchedFile(t, from, name, File(s, true, now), temp).None?
      && (from.maxBytes <= 0 ==> FetchedObject(t, from, name, Object(s, None, None), now, crossing, temp).None?)
  {
    HeadDecides(Artifact(m, p, payload));
    OneEncryptionAtMost(Artifact(m, p, payload), p.encryption.value);
  }

  /** Only one file could be chosen, ties included. */
  lemma FileIsDetermined(from: From, disk: Disk, name1: Option<string>, name2: Option<string>)
    requires ChosenFile(from, disk, name1) && ChosenFile(from, disk, name2)
    ensures name1 == name2
  {
    if from.select && disk.list(from.uri).Some? {
      var entries := disk.list(from.uri).value;
      if name1.Some? && name2.Some? {
        var i: nat :| Discovery.IsNewestEntry(entries, from.matches, i)
          && name1.value == disk.join(from.uri, entries[i].name);
        var j: nat :| Discovery.IsNewestEntry(entries, from.matches, j)
          && name2.value == disk.join(from.uri, entries[j].name);
        Discovery.NewestEntryIsUnique(entries, from.matches, i, j);
      }
    }
  }

  /** And only one key. */
  lemma KeyIsDetermined(from: From, bucket: Bucket, key1: Option<string>, key2: Option<string>)
    requires ChosenKey(from, bucket, key1) && ChosenKey(from, bucket, key2)
    ensures key1 == key2
  {
    if from.select {
      var pages := bucket.pages(from.uri);
      var r1: Discovery.Outcome :| Discovery.Selects(pages, from.matches, r1)
        && key1 == if r1.Found? then Some(r1.key) else None;
      var r2: Discovery.Outcome :| Discovery.Selects(pages, from.matches, r2)
        && key2 == if r2.Found? then Some(r2.key) else None;
      Discovery.PagesDoNotMatter(pages, pages, from.matches, r1, r2);
    }
  }

  /** Where there is nothing to read, before decryption or after it, nothing is fetched. */
  lemma NothingToReadIsRefused(t: Tools, from: From, name: string, s: Stream, o: Object, now: Time, crossing: nat,
                               temp: Temp)
    requires from.decrypt != Some(UnsupportedType)
    requires s == Stream([], false) ||
      (from.decrypt.Some? && t.decrypt(from.decrypt.value.encryption, s) == Some(Stream([], false)))
    ensures FetchedFile(t, from, name, File(s, true, now), temp).None?
    ensures Capped(o.contents, from.maxBytes, crossing) == s ==>
      FetchedObject(t, from, name, o, now, crossing, temp).None?
  {
  }

  /** A decrypt block of an unknown type is never passed over. */
  lemma UnknownDecryptIsRefused(t: Tools, from: From, name: string, p: Path, o: Object, now: Time, crossing: nat,
                                temp: Temp)
    requires from.decrypt == Some(UnsupportedType)
    ensures FetchedFile(t, from, name, p, temp).None? && FetchedObject(t, from, name, o, now, crossing, temp).None?
  {
  }

  /** The same bytes from a file or from an object, within the transfer cap: the object comes back exactly when the
      store does not announce it as larger, the file does and, where there was no layer to undo, the bytes can also be
      copied, within the bound on expansion, which only the object is put to. What comes back is the same, with the time
      the store tells or else the present. */
  lemma ObjectAgreesWithFile(t: Tools, from: From, name: string, s: Stream, length: Option<nat>, modified: Option<Time>,
                             now: Time, crossing: nat, temp: Temp)
    requires s.clean && (from.maxBytes > 0 ==> |s.data| <= from.maxBytes)
    ensures var taken := if modified.Some? then modified.value else now;
      var file := FetchedFile(t, from, name, File(s, true, taken), temp);
      var remote := FetchedObject(t, from, name, Object(s, length, modified), now, crossing, temp);
      && (remote.Some? <==>
            && (from.maxBytes > 0 && length.Some? ==> length.value <= from.maxBytes)
            && file.Some? && (file.value.copied || Fits(temp, from, |s.data|)))
      && (remote.Some? && from.maxUncompressed != INT64_MAX ==> remote.value == file.value.(copied := true))
  {
    SpooledBySize(s, from, temp);
  }

  /** One plain backup that passes as a file and not as an object, for want of two bytes' bound on its expansion. */
  lemma PlainObjectCanBeRefused(t: Tools, matches: string -> bool, crossing: nat)
    ensures var from, temp := From("b", false, matches, 0, 1, None), Temp(true, None, true);
      && FetchedFile(t, from, "b", File(Stream("ok", true), true, 0), temp).Some?
      && FetchedObject(t, from, "b", Object(Stream("ok", true), None, Some(0)), 0, crossing, temp).None?
  {
    HeadDecides("ok");
    DetectUnfolds("ok");
    DetectEncryptionUnfolds("ok");
    assert AGE_MAGIC[0] == 'a' && ARMOR_HEADER[0] == '-' && PGP_HEADER[0] == '-';
  }

  /** An oversized plain object never gets through, even if the store understates or hides its length. At the largest
      limit on expansion, an empty file may come in its place. */
  lemma OversizedObjectIsRefused(t: Tools, from: From, key: string, o: Object, now: Time, crossing: nat, temp: Temp)
    requires from.maxBytes > 0 && |o.contents.data| > from.maxBytes && from.decrypt.None?
    requires Detect(Capped(o.contents, from.maxBytes, crossing).data).None?
    ensures var r := FetchedObject(t, from, key, o, now, crossing, temp);
      r.Some? ==> from.maxUncompressed == INT64_MAX && r.value.contents == []
  {
    HundredfoldIsNotLargest(from.maxBytes);
    HeadDecides(Capped(o.contents, from.maxBytes, crossing).data);
  }

  // ---- Saying what was undone

  function EncryptionName(e: Encryption): string {
    match e case Age => "age" case Gpg => "gpg"
  }

  function CompressionName(c: Compression): string {
    match c case Gzip => "gzip" case Zstd => "zstd" case Bzip2 => "bzip2"
  }

  function LayersText(enc: Option<Encryption>, comp: Option<Compression>): string {
    match (enc, comp)
    case (None, None) => ""
    case (Some(e), None) => EncryptionName(e)
    case (None, Some(c)) => CompressionName(c)
    case (Some(e), Some(c)) => EncryptionName(e) + ", " + CompressionName(c)
  }

  /** The text tells the layers apart: no two combinations read alike. */
  lemma LayersTextIsUnambiguous(enc1: Option<Encryption>, comp1: Option<Compression>, enc2: Option<Encryption>,
                                comp2: Option<Compression>)
    ensures LayersText(enc1, comp1) == LayersText(enc2, comp2) <==> enc1 == enc2 && comp1 == comp2
  {
    TextDecides(enc1, comp1);
    TextDecides(enc2, comp2);
  }

  /** Reads the layers back off the text. */
  function ReadLayers(text: string): (Option<Encryption>, Option<Compression>) {
    if |text| == 0 then (None, None)
    else if |text| == 3 then (if text[0] == 'a' then Some(Age) else Some(Gpg), None)
    else if |text| < 8 then (None, ReadCompression(text))
    else (if text[0] == 'a' then Some(Age) else Some(Gpg), ReadCompression(text[5..]))
  }

  function ReadCompression(text: string): Option<Compression>
    requires |text| > 0
  {
    Some(if text[0] == 'g' then Gzip else if text[0] == 'z' then Zstd else Bzip2)
  }

  lemma TextDecides(enc: Option<Encryption>, comp: Option<Compression>)
    ensures ReadLayers(LayersText(enc, comp)) == (enc, comp)
  {
    if enc.Some? && comp.Some? {
      var prefix := EncryptionName(enc.value) + ", ";
      assert |prefix| == 5 && LayersText(enc, comp)[5..] == CompressionName(comp.value);
    }
  }
}
