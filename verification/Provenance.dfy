/** What accepted evidence proves, when signatures cannot be forged: the signer did sign, and did attest, the very
    bytes on disk; and what a signer makes is accepted. */
module Provenance {
  import opened Wrappers
  import Dsse
  import opened Signing

  /** What a key has been used for: signing a file's bytes, or attesting a file under a name. */
  datatype Use = SignedFile(data: Bytes) | Attested(name: string, data: Bytes)

  /** The bytes a use puts a signature on; attesting fails when the statement cannot be written. */
  function Message(cr: Crypto, co: Codec, u: Use): Option<Bytes> {
    match u
    case SignedFile(data) => Some(data)
    case Attested(name, data) =>
      var payload :- co.writeStatement(StatementFor(cr, co, name, data));
      Some(Dsse.Pae(PAYLOAD_TYPE, payload))
  }

  /** One use of one private key. */
  datatype Making = Making(priv: Bytes, use: Use)

  predicate UsedBy(cr: Crypto, history: set<Making>, pub: Bytes, use: Use) {
    exists m <- history :: cr.publicOf(m.priv) == pub && m.use == use
  }

  /** Someone made this signature. */
  predicate Made(cr: Crypto, co: Codec, history: set<Making>, raw: Bytes) {
    exists m <- history :: MadeBy(cr, co, m, raw)
  }

  predicate MadeBy(cr: Crypto, co: Codec, m: Making, raw: Bytes) {
    Message(cr, co, m.use).Some? && raw == cr.sign(m.priv, Message(cr, co, m.use).value)
  }

  /** The raw signature in the file beside the evidence, if it can be read. */
  function RawSignature(co: Codec, f: Files): Option<Bytes> {
    var sigData :- f.sig;
    var sig :- co.readSignature(sigData);
    co.unhex(sig.signature)
  }

  /** The raw signatures in the attestation that can be read. */
  predicate InAttestation(co: Codec, f: Files, raw: Bytes) {
    f.att.Some? && co.readEnvelope(f.att.value).Some? &&
    exists s <- co.readEnvelope(f.att.value).value.signatures :: co.unbase64(s.sig) == Some(raw)
  }

  ghost predicate Worthless(cr: Crypto, raw: Bytes) {
    forall pub: Bytes, m: Bytes :: !cr.verify(pub, m, raw)
  }

  /** Every signature found beside the evidence was made by someone who held the key, or verifies nothing. */
  ghost predicate NothingForged(cr: Crypto, co: Codec, f: Files, history: set<Making>) {
    && (RawSignature(co, f).Some? ==>
          Made(cr, co, history, RawSignature(co, f).value) || Worthless(cr, RawSignature(co, f).value))
    && (forall raw: Bytes :: InAttestation(co, f, raw) ==> Made(cr, co, history, raw) || Worthless(cr, raw))
  }

  /** The bytes are the encoding of a payload of the attestation's type: what an attestation puts its signature on. */
  predicate IsEncoded(data: Bytes) {
    Dsse.ReadPae(data).Some? && Dsse.ReadPae(data).value.0 == PAYLOAD_TYPE
  }

  lemma EncodedMeans(data: Bytes)
    ensures IsEncoded(data) <==> exists payload: Bytes :: data == Dsse.Pae(PAYLOAD_TYPE, payload)
  {
    if IsEncoded(data) {
      Dsse.PaeInvertsReadPae(data);
    }
    if payload: Bytes :| data == Dsse.Pae(PAYLOAD_TYPE, payload) {
      Dsse.ReadPaeInvertsPae(PAYLOAD_TYPE, payload);
    }
  }

  /** Evidence is a JSON object. */
  predicate IsObject(data: Bytes) {
    |data| > 0 && data[0] == '{'
  }

  /** No JSON object is a pre-authentication encoding: for evidence the two uses of a key cannot be taken for each
      other. */
  lemma UsesAreApart(data: Bytes)
    requires IsObject(data)
    ensures !IsEncoded(data)
  {
    assert Dsse.HEADER[0] != data[0];
  }

  /** The holder of this key has signed no file that is itself an encoding. Signing evidence only is enough. */
  predicate SignsNoEncoding(cr: Crypto, history: set<Making>, pub: Bytes) {
    forall m <- history :: cr.publicOf(m.priv) == pub && m.use.SignedFile? ==> !IsEncoded(m.use.data)
  }

  /** What a signature that was made verifies for: the key it was made with, and the message of the use. */
  lemma MadeForThis(cr: Crypto, co: Codec, history: set<Making>, pub: Bytes, message: Bytes, raw: Bytes)
    returns (m: Making)
    requires cr.Binding() && Made(cr, co, history, raw) && cr.verify(pub, message, raw)
    ensures m in history && cr.publicOf(m.priv) == pub && Message(cr, co, m.use) == Some(message)
  {
    m :| m in history && MadeBy(cr, co, m, raw);
  }

  /** The bytes are what was signed when some file was attested under some name. */
  ghost predicate IsAttestationOf(cr: Crypto, co: Codec, data: Bytes, name: string, contents: Bytes) {
    Message(cr, co, Attested(name, contents)) == Some(data)
  }

  /** An accepted signature, whatever the file: the envelope's key, which is the pinned one if there is one, signed
      these bytes as a file, or they are the encoding of a statement that it attested. */
  lemma VerifiedMeans(cr: Crypto, co: Codec, f: Files, trusted: Option<Bytes>, history: set<Making>) returns (m: Making)
    requires cr.Binding() && NothingForged(cr, co, f, history) && Verify(cr, co, f, trusted)
    ensures m in history && SignerKey(co, f) == Some(cr.publicOf(m.priv))
    ensures trusted.Some? ==> trusted == SignerKey(co, f)
    ensures m.use == SignedFile(f.data.value) ||
      (m.use.Attested? && IsAttestationOf(cr, co, f.data.value, m.use.name, m.use.data) && IsEncoded(f.data.value))
  {
    var pub, raw := SignerKey(co, f).value, RawSignature(co, f).value;
    assert cr.verify(pub, f.data.value, raw);
    m := MadeForThis(cr, co, history, pub, f.data.value, raw);
    EncodedMeans(f.data.value);
  }

  /** So a file that is no encoding was signed as a file. All evidence is such a file. */
  lemma VerifiedWasSigned(cr: Crypto, co: Codec, f: Files, trusted: Option<Bytes>, history: set<Making>)
    requires cr.Binding() && NothingForged(cr, co, f, history) && Verify(cr, co, f, trusted)
    requires !IsEncoded(f.data.value)
    ensures SignerKey(co, f).Some? && UsedBy(cr, history, SignerKey(co, f).value, SignedFile(f.data.value))
    ensures trusted.Some? ==> UsedBy(cr, history, trusted.value, SignedFile(f.data.value))
  {
    var m := VerifiedMeans(cr, co, f, trusted, history);
  }

  /** Whoever attested a file has also made a signature under which the encoding of the statement passes for a signed
      file: accepted, pinned or not, with nothing forged, though the key never signed a file. */
  lemma AttestationPassesForASignature(cr: Crypto, co: Codec, priv: Bytes, name: string, contents: Bytes)
    returns (f: Files, history: set<Making>)
    requires cr.Correct() && co.Faithful() && co.writeStatement(StatementFor(cr, co, name, contents)).Some?
    ensures f.data == Message(cr, co, Attested(name, contents))
    ensures NothingForged(cr, co, f, history) && (forall m <- history :: m == Making(priv, Attested(name, contents)))
    ensures Verify(cr, co, f, None) && Verify(cr, co, f, Some(cr.publicOf(priv)))
    ensures Outcome(cr, co, f, None).Some? && Outcome(cr, co, f, Some(cr.publicOf(priv))).Some?
    ensures forall pub: Bytes, data: Bytes :: !UsedBy(cr, history, pub, SignedFile(data))
  {
    var making := Making(priv, Attested(name, contents));
    var data := Message(cr, co, making.use).value;
    var made := EnvelopeFor(cr, co, priv, data);
    history := {making};
    f := Files(Some(data), Some(co.writeSignature(made)), None, false);
    SignThenVerify(cr, co, priv, f, None);
    SignThenVerify(cr, co, priv, f, Some(cr.publicOf(priv)));
    assert co.readSignature(co.writeSignature(made)) == Some(made);
    assert co.unhex(made.signature) == Some(cr.sign(priv, data));
    assert MadeBy(cr, co, making, cr.sign(priv, data));
  }

  /** Acceptance of these bytes always means that they were signed as a file. */
  ghost predicate AlwaysMeansSigned(cr: Crypto, co: Codec, data: Bytes) {
    forall f: Files, trusted: Option<Bytes>, history: set<Making> ::
      f.data == Some(data) && Verify(cr, co, f, trusted) && NothingForged(cr, co, f, history) ==>
      SignerKey(co, f).Some? && UsedBy(cr, history, SignerKey(co, f).value, SignedFile(data))
  }

  /** Exactly for which files that is so: for those that no attestation puts a signature on. */
  lemma WhenAcceptanceMeansSigned(cr: Crypto, co: Codec, data: Bytes)
    requires cr.Correct() && cr.Binding() && co.Faithful()
    ensures AlwaysMeansSigned(cr, co, data) <==>
      forall name: string, contents: Bytes :: !IsAttestationOf(cr, co, data, name, contents)
  {
    if name: string, contents: Bytes :| IsAttestationOf(cr, co, data, name, contents) {
      var f, history := AttestationPassesForASignature(cr, co, "", name, contents);
      assert f.data == Some(data) && !UsedBy(cr, history, SignerKey(co, f).value, SignedFile(data));
    } else {
      forall f: Files, trusted: Option<Bytes>, history: set<Making>
        | f.data == Some(data) && Verify(cr, co, f, trusted) && NothingForged(cr, co, f, history)
        ensures SignerKey(co, f).Some? && UsedBy(cr, history, SignerKey(co, f).value, SignedFile(data))
      {
        var m := VerifiedMeans(cr, co, f, trusted, history);
      }
    }
  }

  /** Digests that agree up to case are digests of the same bytes. */
  lemma SameDigestSameBytes(cr: Crypto, co: Codec, a: Bytes, b: Bytes)
    requires co.Faithful() && cr.CollisionFree()
    requires EqualFold(co.hex(cr.sha256(a)), co.hex(cr.sha256(b)))
    ensures a == b
  {
    assert co.unhex(co.hex(cr.sha256(a))) == Some(cr.sha256(a));
    assert co.unhex(co.hex(cr.sha256(b))) == Some(cr.sha256(b));
  }

  /** An accepted attestation, whatever else the key did: the key attested exactly the bytes now in the file, or it
      signed a file that is itself an encoding. */
  lemma AcceptedMeans(cr: Crypto, co: Codec, f: Files, pub: Bytes, history: set<Making>) returns (m: Making)
    requires cr.Binding() && cr.CollisionFree() && co.Faithful()
    requires NothingForged(cr, co, f, history) && AttestationHolds(cr, co, f, pub)
    ensures m in history && cr.publicOf(m.priv) == pub
    ensures if m.use.Attested? then m.use.data == f.data.value else IsEncoded(m.use.data)
  {
    var env := co.readEnvelope(f.att.value).value;
    var payload: Bytes :| SignedPayload(cr, co, env, pub, payload) && co.readStatement(payload).Some?
      && Vouches(cr, co, co.readStatement(payload).value, f.data.value);
    var s :| s in env.signatures && SignatureHolds(cr, co, s, pub, payload);
    var message, raw := Dsse.Pae(PAYLOAD_TYPE, payload), co.unbase64(s.sig).value;
    assert InAttestation(co, f, raw) && cr.verify(pub, message, raw);
    m := MadeForThis(cr, co, history, pub, message, raw);
    if m.use.SignedFile? {
      EncodedMeans(m.use.data);
    } else {
      var st := StatementFor(cr, co, m.use.name, m.use.data);
      Dsse.PaeIsInjective(PAYLOAD_TYPE, co.writeStatement(st).value, PAYLOAD_TYPE, payload);
      OnlySubject(cr, co, st, co.readStatement(payload).value, m.use, f.data.value);
    }
  }

  /** So by a key that signs no encodings, an accepted attestation was made for exactly the bytes now in the file. */
  lemma AcceptedWasAttested(cr: Crypto, co: Codec, f: Files, pub: Bytes, history: set<Making>) returns (name: string)
    requires cr.Binding() && cr.CollisionFree() && co.Faithful()
    requires NothingForged(cr, co, f, history) && SignsNoEncoding(cr, history, pub)
    requires AttestationHolds(cr, co, f, pub)
    ensures UsedBy(cr, history, pub, Attested(name, f.data.value))
  {
    var m := AcceptedMeans(cr, co, f, pub, history);
    name := m.use.name;
  }

  /** A statement that comes back from its bytes vouches for nothing but what it was made for. */
  lemma OnlySubject(cr: Crypto, co: Codec, st: Statement, back: Statement, u: Use, data: Bytes)
    requires co.Faithful() && cr.CollisionFree() && u.Attested?
    requires st == StatementFor(cr, co, u.name, u.data) && co.writeStatement(st).Some?
    requires Some(back) == co.readStatement(co.writeStatement(st).value) && Vouches(cr, co, back, data)
    ensures u.data == data
  {
    assert back == co.Kept(st);
    var s :| s in back.subjects && EqualFold(s.digest, co.hex(cr.sha256(data)));
    assert s.digest == co.hex(cr.sha256(u.data));
    SameDigestSameBytes(cr, co, u.data, data);
  }

  /** One and the same key, the pinned one if there is one, attested these bytes; and it signed them as a file, or they
      are the encoding of a statement that it attested. */
  ghost predicate SignedAndAttested(cr: Crypto, co: Codec, f: Files, trusted: Option<Bytes>, history: set<Making>)
    requires f.data.Some?
  {
    exists pub: Bytes, name: string ::
      && UsedBy(cr, history, pub, Attested(name, f.data.value))
      && (UsedBy(cr, history, pub, SignedFile(f.data.value)) || IsEncoded(f.data.value))
      && SignerKey(co, f) == Some(pub) && (trusted.Some? ==> trusted.value == pub)
  }

  /** What a bundle that passes with its attestation proves. For evidence, it is a signature and an attestation. */
  lemma BundleMeans(cr: Crypto, co: Codec, f: Files, trusted: Option<Bytes>, history: set<Making>)
    requires cr.Binding() && cr.CollisionFree() && co.Faithful() && NothingForged(cr, co, f, history)
    requires Outcome(cr, co, f, trusted).Some? && f.attPresent
    requires SignsNoEncoding(cr, history, SignerKey(co, f).value)
    ensures SignedAndAttested(cr, co, f, trusted, history)
    ensures IsObject(f.data.value) ==> UsedBy(cr, history, SignerKey(co, f).value, SignedFile(f.data.value))
  {
    var pub := SignerKey(co, f).value;
    var m := VerifiedMeans(cr, co, f, trusted, history);
    var name := AcceptedWasAttested(cr, co, f, pub, history);
    if m.use.SignedFile? {
      assert UsedBy(cr, history, pub, SignedFile(f.data.value));
    }
    if IsObject(f.data.value) {
      UsesAreApart(f.data.value);
    }
    assert UsedBy(cr, history, pub, Attested(name, f.data.value));
  }

  /** No byte of an attested file can change unnoticed: if the key attested one file only, no other passes. */
  lemma TamperedFileIsRefused(cr: Crypto, co: Codec, f: Files, pub: Bytes, history: set<Making>, original: Bytes)
    requires cr.Binding() && cr.CollisionFree() && co.Faithful()
    requires NothingForged(cr, co, f, history) && SignsNoEncoding(cr, history, pub)
    requires forall m <- history :: cr.publicOf(m.priv) == pub && m.use.Attested? ==> m.use.data == original
    requires f.data.Some? && f.data.value != original
    ensures !AttestationHolds(cr, co, f, pub)
  {
    if AttestationHolds(cr, co, f, pub) {
      var name := AcceptedWasAttested(cr, co, f, pub, history);
    }
  }

  /** The uses that make one bundle. */
  function BundleHistory(priv: Bytes, name: string, contents: Bytes): set<Making> {
    {Making(priv, SignedFile(contents)), Making(priv, Attested(name, contents))}
  }

  /** The signatures a signer puts beside a file are signatures that were made. */
  lemma OwnSignaturesAreMade(cr: Crypto, co: Codec, priv: Bytes, name: string, contents: Bytes, f: Files)
    requires co.Faithful() && co.writeStatement(StatementFor(cr, co, name, contents)).Some?
    requires f.sig == Some(co.writeSignature(EnvelopeFor(cr, co, priv, contents)))
    requires f.att == Some(AttestationBytes(cr, co, priv, name, contents))
    ensures NothingForged(cr, co, f, BundleHistory(priv, name, contents))
  {
    var history := BundleHistory(priv, name, contents);
    var made := EnvelopeFor(cr, co, priv, contents);
    assert co.readSignature(co.writeSignature(made)) == Some(made);
    assert co.unhex(made.signature) == Some(cr.sign(priv, contents));
    assert MadeBy(cr, co, Making(priv, SignedFile(contents)), cr.sign(priv, contents));
    var payload := co.writeStatement(StatementFor(cr, co, name, contents)).value;
    var env, raw := AttestationFor(cr, co, priv, payload), cr.sign(priv, Dsse.Pae(PAYLOAD_TYPE, payload));
    assert co.readEnvelope(co.writeEnvelope(env) + "\n") == Some(env);
    assert co.unbase64(env.signatures[0].sig) == Some(raw);
    assert MadeBy(cr, co, Making(priv, Attested(name, contents)), raw);
    assert forall r: Bytes :: InAttestation(co, f, r) ==> r == raw;
  }

  /** A file with the signature and the attestation that this signer makes for it. */
  ghost predicate IsOwnBundle(cr: Crypto, co: Codec, priv: Bytes, name: string, contents: Bytes, f: Files) {
    && co.writeStatement(StatementFor(cr, co, name, contents)).Some?
    && f == Files(Some(contents), Some(co.writeSignature(EnvelopeFor(cr, co, priv, contents))),
                  Some(AttestationBytes(cr, co, priv, name, contents)), true)
  }

  lemma OwnBundleIsAccepted(cr: Crypto, co: Codec, priv: Bytes, name: string, contents: Bytes, f: Files,
                            trusted: Option<Bytes>)
    requires cr.Correct() && co.Faithful() && IsOwnBundle(cr, co, priv, name, contents, f)
    requires trusted.Some? ==> trusted.value == cr.publicOf(priv)
    ensures SignerKey(co, f) == Some(cr.publicOf(priv))
    ensures Outcome(cr, co, f, trusted) == Some(BundleResult(Fingerprint(cr, co, cr.publicOf(priv)), true,
                                                if trusted.Some? then PinnedKey else SignatureEnvelope, []))
  {
    SignThenVerify(cr, co, priv, f, trusted);
    AttestThenVerify(cr, co, priv, name, f);
  }

  lemma OwnHistoryIsClean(cr: Crypto, priv: Bytes, name: string, contents: Bytes, pub: Bytes)
    requires IsObject(contents)
    ensures SignsNoEncoding(cr, BundleHistory(priv, name, contents), pub)
  {
    UsesAreApart(contents);
  }

  /** What the acceptance of a bundle proves is true of the bundle that a signer made. */
  lemma OwnBundleIsTrue(cr: Crypto, co: Codec, priv: Bytes, name: string, contents: Bytes, f: Files,
                        trusted: Option<Bytes>)
    requires co.Faithful() && cr.Binding() && cr.CollisionFree() && IsObject(contents)
    requires IsOwnBundle(cr, co, priv, name, contents, f) && SignerKey(co, f) == Some(cr.publicOf(priv))
    requires NothingForged(cr, co, f, BundleHistory(priv, name, contents)) && Outcome(cr, co, f, trusted).Some?
    ensures SignedAndAttested(cr, co, f, trusted, BundleHistory(priv, name, contents))
    ensures UsedBy(cr, BundleHistory(priv, name, contents), cr.publicOf(priv), SignedFile(contents))
  {
    OwnHistoryIsClean(cr, priv, name, contents, cr.publicOf(priv));
    BundleMeans(cr, co, f, trusted, BundleHistory(priv, name, contents));
  }

  /** A file signed and attested with one key makes a bundle that is accepted in full, pinned or not; and what the
      acceptance of a bundle proves is then what happened. */
  method SignAttestVerify(cr: Crypto, co: Codec, priv: Bytes, name: string, contents: Bytes, pin: bool, keyDir: KeyDir)
    returns (res: Option<BundleResult>, ghost f: Files)
    requires cr.Correct() && co.Faithful() && co.writeStatement(StatementFor(cr, co, name, contents)).Some?
    ensures res == Some(BundleResult(Fingerprint(cr, co, cr.publicOf(priv)), true,
                                     if pin then PinnedKey else SignatureEnvelope, []))
    ensures f.data == Some(contents) && NothingForged(cr, co, f, BundleHistory(priv, name, contents))
    ensures cr.Binding() && cr.CollisionFree() && IsObject(contents) ==>
      SignedAndAttested(cr, co, f, if pin then Some(cr.publicOf(priv)) else None, BundleHistory(priv, name, contents))
    ensures cr.Binding() && cr.CollisionFree() && IsObject(contents) ==>
      UsedBy(cr, BundleHistory(priv, name, contents), cr.publicOf(priv), SignedFile(contents))
  {
    var b := new Bundle(contents);
    var signed := b.Sign(cr, co, priv, true, None);
    var attested := b.Attest(cr, co, priv, name, true, None);
    var files := b.Snapshot();
    f := files;
    var trusted := if pin then Some(cr.publicOf(priv)) else None;
    OwnBundleIsAccepted(cr, co, priv, name, contents, files, trusted);
    res := VerifyBundle(cr, co, files, trusted, keyDir);
    OwnSignaturesAreMade(cr, co, priv, name, contents, files);
    if cr.Binding() && cr.CollisionFree() && IsObject(contents) {
      OwnBundleIsTrue(cr, co, priv, name, contents, files, trusted);
    }
  }

  /** The laws asked of the signature scheme and the hash hold together: in this scheme a signature is the message. */
  lemma LawsHoldTogether() returns (cr: Crypto)
    ensures cr.Correct() && cr.Binding() && cr.CollisionFree()
  {
    var key := seq(PUBLIC_KEY_SIZE, i => 'k');
    cr := Crypto(k => key, (k, m) => m, (pub, m, sig) => pub == key && sig == m, b => b);
  }
}
