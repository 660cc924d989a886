/** Telling from a backup's first bytes how it was compressed and encrypted. */
module Layers {
  import opened Wrappers

  type Bytes = string

  datatype Compression = Gzip | Zstd | Bzip2
  datatype Encryption = Age | Gpg

  const ZSTD_MAGIC: Bytes := "\U{28}\U{b5}\U{2f}\U{fd}"
  const GZIP_MAGIC: Bytes := "\U{1f}\U{8b}"
  const BZIP2_MAGIC: Bytes := "BZh"

  const MAGICS: seq<(Compression, Bytes)> := [(Zstd, ZSTD_MAGIC), (Gzip, GZIP_MAGIC), (Bzip2, BZIP2_MAGIC)]

  /** How many bytes detection of a compression looks at. */
  const MAX_MAGIC := 4

  const AGE_MAGIC: Bytes := "age-encryption.org/v1"
  const ARMOR_HEADER: Bytes := "-----BEGIN AGE ENCRYPTED FILE-----"
  const PGP_HEADER: Bytes := "-----BEGIN PGP MESSAGE-----"

  const ENCRYPTION_MAGICS: seq<(Encryption, Bytes)> := [(Age, AGE_MAGIC), (Age, ARMOR_HEADER), (Gpg, PGP_HEADER)]

  /** The first byte of a binary OpenPGP message: a session key packet, in the old or the new format. */
  predicate IsPgpTag(c: char) {
    match c
    case '\U{84}' => true
    case '\U{85}' => true
    case '\U{8c}' => true
    case '\U{c1}' => true
    case '\U{c3}' => true
    case _ => false
  }

  /** The first entry of a table whose magic the bytes begin with. */
  function FirstMatch<K>(table: seq<(K, Bytes)>, head: Bytes): Option<K> {
    if table == [] then None
    else if table[0].1 <= head then Some(table[0].0)
    else FirstMatch(table[1..], head)
  }

  function Detect(head: Bytes): Option<Compression> {
    FirstMatch(MAGICS, head)
  }

  function DetectEncryption(head: Bytes): Option<Encryption> {
    var byMagic := FirstMatch(ENCRYPTION_MAGICS, head);
    if byMagic.Some? then byMagic
    else if |head| > 0 && IsPgpTag(head[0]) then Some(Gpg)
    else None
  }

  /** The longest magic of the table, at least 1: what detection of an encryption needs to look at. */
  method MaxEncryptionMagic() returns (n: nat)
    ensures n == Longest(ENCRYPTION_MAGICS)
  {
    n := 1;
    for i := 0 to |ENCRYPTION_MAGICS|
      invariant n == Longest(ENCRYPTION_MAGICS[..i])
    {
      assert ENCRYPTION_MAGICS[..i + 1][..i] == ENCRYPTION_MAGICS[..i];
      if |ENCRYPTION_MAGICS[i].1| > n {
        n := |ENCRYPTION_MAGICS[i].1|;
      }
    }
    assert ENCRYPTION_MAGICS[..|ENCRYPTION_MAGICS|] == ENCRYPTION_MAGICS;
  }

  function Longest<K>(table: seq<(K, Bytes)>): nat {
    if table == [] then 1
    else
      var n := Longest(table[..|table| - 1]);
      var last := |table[|table| - 1].1|;
      if last > n then last else n
  }

  lemma {:induction false} LongestBounds<K>(table: seq<(K, Bytes)>, i: nat)
    requires i < |table|
    ensures |table[i].1| <= Longest(table)
  {
    if i < |table| - 1 {
      LongestBounds(table[..|table| - 1], i);
    }
  }

  /** What peeking at a stream's first `n` bytes shows. */
  function Head(data: Bytes, n: nat): (head: Bytes)
    ensures head <= data && |head| <= n && (|data| >= n ==> |head| == n)
  {
    if |data| <= n then data else data[..n]
  }

  lemma {:induction false} WindowIsEnough<K>(table: seq<(K, Bytes)>, data: Bytes, n: nat)
    requires forall i :: 0 <= i < |table| ==> |table[i].1| <= n
    ensures FirstMatch(table, Head(data, n)) == FirstMatch(table, data)
  {
    if table != [] {
      assert |table[0].1| <= n;
      assert table[0].1 <= Head(data, n) <==> table[0].1 <= data;
      assert forall i :: 0 <= i < |table[1..]| ==> table[1..][i] == table[i + 1];
      WindowIsEnough(table[1..], data, n);
    }
  }

  /** Looking at the window decides as looking at the whole artifact would. */
  lemma HeadDecides(data: Bytes)
    ensures Detect(Head(data, MAX_MAGIC)) == Detect(data)
    ensures DetectEncryption(Head(data, Longest(ENCRYPTION_MAGICS))) == DetectEncryption(data)
  {
    WindowIsEnough(MAGICS, data, MAX_MAGIC);
    forall i | 0 <= i < |ENCRYPTION_MAGICS| ensures |ENCRYPTION_MAGICS[i].1| <= Longest(ENCRYPTION_MAGICS) {
      LongestBounds(ENCRYPTION_MAGICS, i);
    }
    LongestBounds(ENCRYPTION_MAGICS, 0);
    WindowIsEnough(ENCRYPTION_MAGICS, data, Longest(ENCRYPTION_MAGICS));
  }

  function MagicOf(c: Compression): Bytes {
    match c case Gzip => GZIP_MAGIC case Zstd => ZSTD_MAGIC case Bzip2 => BZIP2_MAGIC
  }

  /** The tables leave no ambiguity: no head begins with two compression magics, and detection names the one. */
  lemma OneMagicAtMost(head: Bytes, c: Compression)
    ensures MagicOf(c) <= head <==> Detect(head) == Some(c)
  {
    DetectUnfolds(head);
    assert ZSTD_MAGIC[0] == '\U{28}' && GZIP_MAGIC[0] == '\U{1f}' && BZIP2_MAGIC[0] == 'B';
  }

  lemma DetectUnfolds(head: Bytes)
    ensures Detect(head) ==
      if ZSTD_MAGIC <= head then Some(Zstd)
      else if GZIP_MAGIC <= head then Some(Gzip)
      else if BZIP2_MAGIC <= head then Some(Bzip2) else None
  {
    var tail1, tail2 := MAGICS[1..], MAGICS[2..];
    assert tail1[1..] == tail2 && tail2[1..] == [];
    assert FirstMatch(tail2[1..], head) == None;
    assert FirstMatch(tail2, head) == if BZIP2_MAGIC <= head then Some(Bzip2) else None;
    assert FirstMatch(tail1, head) == if GZIP_MAGIC <= head then Some(Gzip) else FirstMatch(tail2, head);
  }

  lemma DetectEncryptionUnfolds(head: Bytes)
    ensures FirstMatch(ENCRYPTION_MAGICS, head) ==
      if AGE_MAGIC <= head || ARMOR_HEADER <= head then Some(Age)
      else if PGP_HEADER <= head then Some(Gpg) else None
  {
    var tail1, tail2 := ENCRYPTION_MAGICS[1..], ENCRYPTION_MAGICS[2..];
    assert tail1[1..] == tail2 && tail2[1..] == [];
    assert FirstMatch(tail2[1..], head) == None;
    assert FirstMatch(tail2, head) == if PGP_HEADER <= head then Some(Gpg) else None;
    assert FirstMatch(tail1, head) == if ARMOR_HEADER <= head then Some(Age) else FirstMatch(tail2, head);
  }

  /** The packet at the head of a binary OpenPGP message is a session key, encrypted to a public key (packet type 1) or
      under a passphrase (type 3): in the new format of any length, or in the old format with the lengths in use. */
  predicate BeginsWithSessionKey(data: Bytes) {
    data != [] &&
    var tag := data[0] as int;
    || tag == 0xC0 + 1 || tag == 0xC0 + 3
    || tag == 0x80 + 4 * 1 || tag == 0x80 + 4 * 1 + 1
    || tag == 0x80 + 4 * 3
  }

  predicate BeginsAs(e: Encryption, data: Bytes) {
    match e
    case Age => AGE_MAGIC <= data || ARMOR_HEADER <= data
    case Gpg => PGP_HEADER <= data || BeginsWithSessionKey(data)
  }

  /** Detection names exactly the encryption whose format the artifact begins with; no artifact begins with both. */
  lemma OneEncryptionAtMost(data: Bytes, e: Encryption)
    ensures BeginsAs(e, data) <==> DetectEncryption(data) == Some(e)
  {
    DetectEncryptionUnfolds(data);
    assert AGE_MAGIC[0] == 'a' && ARMOR_HEADER[0] == '-' && PGP_HEADER[0] == '-';
    assert ARMOR_HEADER[11] == 'A' && PGP_HEADER[11] == 'P';
  }

  /** A compressed artifact is never taken for an encrypted one. */
  lemma CompressedIsNotEncrypted(data: Bytes)
    requires Detect(data).Some?
    ensures DetectEncryption(data) == None
  {
    DetectUnfolds(data);
    DetectEncryptionUnfolds(data);
    assert data[0] == '\U{28}' || data[0] == '\U{1f}' || data[0] == 'B';
    assert AGE_MAGIC[0] == 'a' && ARMOR_HEADER[0] == '-' && PGP_HEADER[0] == '-';
  }
}
