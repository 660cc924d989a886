/** Signed evidence: the signature envelope, the attestation, and the bundle that is both. Cryptography and text
    encodings are parameters; what is asked of them is stated as `Correct`, `Binding`, `CollisionFree` and
    `Faithful`. */
module Signing {
  import opened Wrappers
  import Dsse

  type Bytes = Dsse.Bytes

  const PAYLOAD_TYPE: Bytes := "application/vnd.in-toto+json"
  const PUBLIC_KEY_SIZE := 32

  datatype Algorithm = Ed25519 | OtherAlgorithm
  datatype Signature = Signature(algorithm: Algorithm, publicKey: string, fingerprint: string, signature: string)

  datatype PayloadType = InToto | OtherPayload
  datatype KeyedSignature = KeyedSignature(keyId: string, sig: string)
  datatype Envelope = Envelope(payloadType: PayloadType, payload: string, signatures: seq<KeyedSignature>)

  /** `digest` is the entry under "sha256", empty when there is none. */
  datatype Subject = Subject(name: string, digest: string)
  datatype PredicateType = DrillEvidence | OtherPredicate
  datatype Statement = Statement(subjects: seq<Subject>, predicateType: PredicateType, evidence: Bytes)

  datatype Crypto = Crypto(publicOf: Bytes -> Bytes, sign: (Bytes, Bytes) -> Bytes,
                           verify: (Bytes, Bytes, Bytes) -> bool,
                           sha256: Bytes -> Bytes)
  {
    /** Signatures verify under the key they were made with. */
    ghost predicate Correct() {
      && (forall k: Bytes, m: Bytes :: verify(publicOf(k), m, sign(k, m)))
      && (forall k: Bytes :: |publicOf(k)| == PUBLIC_KEY_SIZE)
    }

    /** A signature that was made verifies for nothing but the key and the message it was made with. */
    ghost predicate Binding() {
      forall pub: Bytes, m: Bytes, k: Bytes, m': Bytes ::
        verify(pub, m, sign(k, m')) ==> pub == publicOf(k) && m == m'
    }

    ghost predicate CollisionFree() {
      forall a: Bytes, b: Bytes :: sha256(a) == sha256(b) ==> a == b
    }
  }

  datatype Codec = Codec(hex: Bytes -> string, unhex: string -> Option<Bytes>,
                         base64: Bytes -> string, unbase64: string -> Option<Bytes>,
                         writeSignature: Signature -> Bytes, readSignature: Bytes -> Option<Signature>,
                         writeEnvelope: Envelope -> Bytes, readEnvelope: Bytes -> Option<Envelope>,
                         writeStatement: Statement -> Option<Bytes>, readStatement: Bytes -> Option<Statement>,
                         printable: string -> string, compacted: Bytes -> Bytes)
  {
    /** Each decoder undoes its encoder. JSON replaces bad characters in a name and compacts the predicate; the rest of
        a statement comes back as it was. A trailing newline is harmless. */
    ghost predicate Faithful() {
      && (forall b: Bytes :: unhex(hex(b)) == Some(b) && Folded(hex(b)) == hex(b))
      && (forall b: Bytes :: unbase64(base64(b)) == Some(b))
      && (forall s: Signature :: readSignature(writeSignature(s)) == Some(s))
      && (forall e: Envelope :: readEnvelope(writeEnvelope(e) + "\n") == Some(e))
      && (forall s: Statement :: writeStatement(s).Some? ==> readStatement(writeStatement(s).value) == Some(Kept(s)))
    }

    function Kept(s: Statement): Statement {
      Statement(seq(|s.subjects|, i requires 0 <= i < |s.subjects| =>
                  Subject(printable(s.subjects[i].name), s.subjects[i].digest)),
                s.predicateType, compacted(s.evidence))
    }
  }

  function FoldedChar(c: char): char {
    if 'A' <= c <= 'Z' then c + ('a' - 'A') else c
  }

  /** Case folding, as far as hexadecimal digits go. */
  function Folded(s: string): string {
    seq(|s|, i requires 0 <= i < |s| => FoldedChar(s[i]))
  }

  predicate EqualFold(a: string, b: string) {
    Folded(a) == Folded(b)
  }

  /** What reading an evidence path and its neighbours gives; None is a failed read. Whether the attestation is
      seen at all is asked separately, as the code does. */
  datatype Files = Files(data: Option<Bytes>, sig: Option<Bytes>, att: Option<Bytes>, attPresent: bool)

  // ---- Making

  function EnvelopeFor(cr: Crypto, co: Codec, priv: Bytes, data: Bytes): Signature {
    var pub := cr.publicOf(priv);
    Signature(Ed25519, co.hex(pub), Fingerprint(cr, co, pub), co.hex(cr.sign(priv, data)))
  }

  function Fingerprint(cr: Crypto, co: Codec, pub: Bytes): string {
    var sum := cr.sha256(pub);
    co.hex(if |sum| >= 8 then sum[..8] else sum)
  }

  function StatementFor(cr: Crypto, co: Codec, name: string, data: Bytes): Statement {
    Statement([Subject(name, co.hex(cr.sha256(data)))], DrillEvidence, data)
  }

  function AttestationFor(cr: Crypto, co: Codec, priv: Bytes, payload: Bytes): Envelope {
    Envelope(InToto, co.base64(payload),
             [KeyedSignature(Fingerprint(cr, co, cr.publicOf(priv)),
                             co.base64(cr.sign(priv, Dsse.Pae(PAYLOAD_TYPE, payload))))])
  }

  /** An evidence file on disk with what lies beside it. */
  class Bundle {
    var data: Option<Bytes>
    var sig: Option<Bytes>
    var att: Option<Bytes>

    constructor (contents: Bytes)
      ensures Snapshot() == Files(Some(contents), None, None, false)
    {
      data, sig, att := Some(contents), None, None;
    }

    function Snapshot(): Files
      reads this
    {
      Files(data, sig, att, att.Some?)
    }

    /** `written` is false when writing the signature file fails; `left` is then what is found there. */
    method Sign(cr: Crypto, co: Codec, priv: Bytes, written: bool, left: Option<Bytes>) returns (ok: bool)
      modifies this`sig
      ensures ok <==> data.Some? && written
      ensures ok ==> sig == Some(co.writeSignature(EnvelopeFor(cr, co, priv, data.value)))
      ensures ok && cr.Correct() && co.Faithful() ==> forall trusted: Option<Bytes> ::
        Verify(cr, co, Snapshot(), trusted) <==> trusted.None? || trusted.value == cr.publicOf(priv)
      ensures data.None? ==> sig == old(sig)
    {
      if data.None? {
        return false;
      }
      var out := co.writeSignature(EnvelopeFor(cr, co, priv, data.value));
      sig := if written then Some(out) else left;
      if written && cr.Correct() && co.Faithful() {
        forall trusted: Option<Bytes> {
          SignThenVerify(cr, co, priv, Snapshot(), trusted);
        }
      }
      return written;
    }

    method Attest(cr: Crypto, co: Codec, priv: Bytes, name: string, written: bool, left: Option<Bytes>)
      returns (ok: bool)
      modifies this`att
      ensures ok <==> data.Some? && co.writeStatement(StatementFor(cr, co, name, data.value)).Some? && written
      ensures ok ==> att == Some(AttestationBytes(cr, co, priv, name, data.value))
      ensures ok && cr.Correct() && co.Faithful() ==> AttestationHolds(cr, co, Snapshot(), cr.publicOf(priv))
      ensures data.None? || co.writeStatement(StatementFor(cr, co, name, data.value)).None? ==> att == old(att)
    {
      if data.None? {
        return false;
      }
      var payload := co.writeStatement(StatementFor(cr, co, name, data.value));
      if payload.None? {
        return false;
      }
      var out := co.writeEnvelope(AttestationFor(cr, co, priv, payload.value)) + "\n";
      att := if written then Some(out) else left;
      if written && cr.Correct() && co.Faithful() {
        AttestThenVerify(cr, co, priv, name, Snapshot());
      }
      return written;
    }
  }

  function AttestationBytes(cr: Crypto, co: Codec, priv: Bytes, name: string, data: Bytes): Bytes {
    match co.writeStatement(StatementFor(cr, co, name, data))
    case Some(payload) => co.writeEnvelope(AttestationFor(cr, co, priv, payload)) + "\n"
    case None => ""
  }

  // ---- Checking

  /** The key in the signature envelope. */
  function SignerKey(co: Codec, f: Files): Option<Bytes> {
    var sigData :- f.sig;
    var sig :- co.readSignature(sigData);
    var pub :- co.unhex(sig.publicKey);
    if |pub| == PUBLIC_KEY_SIZE then Some(pub) else None
  }

  predicate Verify(cr: Crypto, co: Codec, f: Files, trusted: Option<Bytes>) {
    f.data.Some? && f.sig.Some? &&
    match co.readSignature(f.sig.value)
    case None => false
    case Some(sig) =>
      sig.algorithm == Ed25519 &&
      match co.unhex(sig.publicKey)
      case None => false
      case Some(pub) =>
        |pub| == PUBLIC_KEY_SIZE && (trusted.Some? ==> trusted.value == pub) &&
        co.unhex(sig.signature).Some? && cr.verify(pub, f.data.value, co.unhex(sig.signature).value)
  }

  /** The envelope holds this payload, with some signature over its encoding that verifies. */
  predicate SignedPayload(cr: Crypto, co: Codec, env: Envelope, pub: Bytes, payload: Bytes) {
    env.payloadType == InToto && co.unbase64(env.payload) == Some(payload) &&
    exists s <- env.signatures :: SignatureHolds(cr, co, s, pub, payload)
  }

  predicate SignatureHolds(cr: Crypto, co: Codec, s: KeyedSignature, pub: Bytes, payload: Bytes) {
    co.unbase64(s.sig).Some? && cr.verify(pub, Dsse.Pae(PAYLOAD_TYPE, payload), co.unbase64(s.sig).value)
  }

  /** The statement is about these bytes. */
  predicate Vouches(cr: Crypto, co: Codec, st: Statement, data: Bytes) {
    st.predicateType == DrillEvidence &&
    exists s <- st.subjects :: EqualFold(s.digest, co.hex(cr.sha256(data)))
  }

  ghost predicate AttestationHolds(cr: Crypto, co: Codec, f: Files, pub: Bytes) {
    && f.att.Some? && f.data.Some?
    && co.readEnvelope(f.att.value).Some?
    && exists payload: Bytes :: SignedPayload(cr, co, co.readEnvelope(f.att.value).value, pub, payload)
         && co.readStatement(payload).Some?
         && Vouches(cr, co, co.readStatement(payload).value, f.data.value)
  }

  method VerifyAttestation(cr: Crypto, co: Codec, f: Files, pub: Bytes) returns (ok: bool)
    ensures ok <==> AttestationHolds(cr, co, f, pub)
  {
    if f.att.None? {
      return false;
    }
    var read := co.readEnvelope(f.att.value);
    if read.None? {
      return false;
    }
    var env := read.value;
    if env.payloadType != InToto {
      return false;
    }
    var payload := co.unbase64(env.payload);
    if payload.None? {
      return false;
    }
    if |env.signatures| == 0 {
      return false;
    }
    var verified := false;
    for i := 0 to |env.signatures|
      invariant !verified
      invariant forall s <- env.signatures[..i] :: !SignatureHolds(cr, co, s, pub, payload.value)
    {
      var raw := co.unbase64(env.signatures[i].sig);
      if raw.None? {
        continue;
      }
      if cr.verify(pub, Dsse.Pae(PAYLOAD_TYPE, payload.value), raw.value) {
        assert SignatureHolds(cr, co, env.signatures[i], pub, payload.value);
        verified := true;
        break;
      }
    }
    assert env.signatures[..|env.signatures|] == env.signatures;
    if !verified {
      return false;
    }
    assert SignedPayload(cr, co, env, pub, payload.value);
    var st := co.readStatement(payload.value);
    if st.None? {
      return false;
    }
    if st.value.predicateType != DrillEvidence {
      return false;
    }
    if f.data.None? {
      return false;
    }
    var want := co.hex(cr.sha256(f.data.value));
    for i := 0 to |st.value.subjects|
      invariant forall s <- st.value.subjects[..i] :: !EqualFold(s.digest, want)
    {
      if EqualFold(st.value.subjects[i].digest, want) {
        return true;
      }
    }
    assert st.value.subjects[..|st.value.subjects|] == st.value.subjects;
    return false;
  }

  datatype KeySource = Unchecked | PinnedKey | SignatureEnvelope | KeyDirectory
  datatype Note = NoAttestation | NotChecked
  datatype BundleResult = BundleResult(fingerprint: string, attestationChecked: bool, source: KeySource,
                                       notes: seq<Note>)

  /** A key directory, if one is given, and what loading the public key there returns. */
  datatype KeyDir = KeyDir(given: bool, key: Option<Bytes>)

  method VerifyBundle(cr: Crypto, co: Codec, f: Files, trusted: Option<Bytes>, keyDir: KeyDir)
    returns (res: Option<BundleResult>)
    ensures res == Outcome(cr, co, f, trusted)
    ensures res.Some? ==> res.value.source != KeyDirectory && NotChecked !in res.value.notes
    ensures res.Some? ==> res.value.attestationChecked == f.attPresent
    ensures res.Some? ==> res.value.notes == if f.attPresent then [] else [NoAttestation]
    ensures res.Some? && co.Faithful() ==>
      SignerKey(co, f).Some? && IsFingerprint(cr, co, res.value.fingerprint, SignerKey(co, f).value)
  {
    forall pub: Bytes {
      FingerprintReads(cr, co, pub);
    }
    var ok := Verify(cr, co, f, trusted);
    if !ok {
      return None;
    }
    VerifiedHasSigner(cr, co, f, trusted);
    var r := BundleResult("", false, Unchecked, []);
    var signer := SignerKey(co, f);
    if signer.Some? {
      r := r.(fingerprint := Fingerprint(cr, co, signer.value));
    }
    if !f.attPresent {
      r := r.(notes := r.notes + [NoAttestation]);
      assert r.notes == [NoAttestation];
      return Some(r);
    }
    var att, source := trusted, PinnedKey;
    if att.None? {
      att := SignerKey(co, f);
      if att.Some? {
        source := SignatureEnvelope;
      } else if keyDir.given {
        att := keyDir.key;
        if att.None? {
          return Some(r.(notes := r.notes + [NotChecked]));
        }
        source := KeyDirectory;
      } else {
        return Some(r.(notes := r.notes + [NotChecked]));
      }
    }
    var held := VerifyAttestation(cr, co, f, att.value);
    if !held {
      return None;
    }
    return Some(r.(attestationChecked := true, source := source));
  }

  /** What verifying a bundle comes to. No key directory occurs in it: the signature is checked first, and a
      signature that verifies has brought its key along. */
  ghost function Outcome(cr: Crypto, co: Codec, f: Files, trusted: Option<Bytes>): Option<BundleResult> {
    if !Verify(cr, co, f, trusted) || SignerKey(co, f).None? then None
    else
      var signer := SignerKey(co, f).value;
      var fingerprint := Fingerprint(cr, co, signer);
      if !f.attPresent then Some(BundleResult(fingerprint, false, Unchecked, [NoAttestation]))
      else if AttestationHolds(cr, co, f, signer) then
        Some(BundleResult(fingerprint, true, if trusted.Some? then PinnedKey else SignatureEnvelope, []))
      else None
  }

  /** Once the signature verifies, the signer's key can be read, it is the key that verified, and it is the pinned
      one if one was pinned. */
  lemma VerifiedHasSigner(cr: Crypto, co: Codec, f: Files, trusted: Option<Bytes>)
    requires Verify(cr, co, f, trusted)
    ensures SignerKey(co, f).Some?
    ensures trusted.Some? ==> trusted == SignerKey(co, f)
    ensures exists raw: Bytes :: cr.verify(SignerKey(co, f).value, f.data.value, raw)
  {
    var sig := co.readSignature(f.sig.value).value;
    var raw := co.unhex(sig.signature).value;
    assert cr.verify(SignerKey(co, f).value, f.data.value, raw);
  }

  // ---- What a signer makes is accepted

  /** Signing then verifying accepts, without a pinned key or with the signer's, and with no other. */
  lemma SignThenVerify(cr: Crypto, co: Codec, priv: Bytes, f: Files, trusted: Option<Bytes>)
    requires cr.Correct() && co.Faithful() && f.data.Some?
    requires f.sig == Some(co.writeSignature(EnvelopeFor(cr, co, priv, f.data.value)))
    ensures Verify(cr, co, f, trusted) <==> trusted.None? || trusted.value == cr.publicOf(priv)
    ensures SignerKey(co, f) == Some(cr.publicOf(priv))
  {
    var made := EnvelopeFor(cr, co, priv, f.data.value);
    assert co.readSignature(co.writeSignature(made)) == Some(made);
    assert co.unhex(made.publicKey) == Some(cr.publicOf(priv));
    assert co.unhex(made.signature) == Some(cr.sign(priv, f.data.value));
    assert cr.verify(cr.publicOf(priv), f.data.value, cr.sign(priv, f.data.value));
  }

  lemma AttestThenVerify(cr: Crypto, co: Codec, priv: Bytes, name: string, f: Files)
    requires cr.Correct() && co.Faithful() && f.data.Some?
    requires co.writeStatement(StatementFor(cr, co, name, f.data.value)).Some?
    requires f.att == Some(AttestationBytes(cr, co, priv, name, f.data.value))
    ensures AttestationHolds(cr, co, f, cr.publicOf(priv))
  {
    var st := StatementFor(cr, co, name, f.data.value);
    var payload := co.writeStatement(st).value;
    var env := AttestationFor(cr, co, priv, payload);
    var signature := cr.sign(priv, Dsse.Pae(PAYLOAD_TYPE, payload));
    assert co.readEnvelope(co.writeEnvelope(env) + "\n") == Some(env);
    assert co.unbase64(env.payload) == Some(payload) && co.unbase64(env.signatures[0].sig) == Some(signature);
    assert cr.verify(cr.publicOf(priv), Dsse.Pae(PAYLOAD_TYPE, payload), signature);
    assert SignatureHolds(cr, co, env.signatures[0], cr.publicOf(priv), payload);
    assert SignedPayload(cr, co, env, cr.publicOf(priv), payload);
    var back := co.readStatement(payload);
    assert back == Some(co.Kept(st));
    assert EqualFold(back.value.subjects[0].digest, co.hex(cr.sha256(f.data.value)));
    assert Vouches(cr, co, back.value, f.data.value);
  }

  // ---- What the files say

  /** The text under which a key is known: eight bytes of its hash. */
  predicate IsFingerprint(cr: Crypto, co: Codec, text: string, pub: Bytes) {
    var sum := cr.sha256(pub);
    co.unhex(text) == Some(if |sum| < 8 then sum else sum[..8])
  }

  lemma FingerprintReads(cr: Crypto, co: Codec, pub: Bytes)
    ensures co.Faithful() ==> IsFingerprint(cr, co, Fingerprint(cr, co, pub), pub)
  {
    var sum := cr.sha256(pub);
    var first := if |sum| < 8 then sum else sum[..8];
    assert co.Faithful() ==> co.unhex(co.hex(first)) == Some(first);
  }

  /** What anyone reads in a signature file: the algorithm, the signer's key and its fingerprint, and the signature. */
  lemma SignatureTells(cr: Crypto, co: Codec, priv: Bytes, data: Bytes)
    requires co.Faithful()
    ensures var read := co.readSignature(co.writeSignature(EnvelopeFor(cr, co, priv, data)));
      read.Some? &&
      var s := read.value;
      && s.algorithm == Ed25519 && co.unhex(s.publicKey) == Some(cr.publicOf(priv))
      && IsFingerprint(cr, co, s.fingerprint, cr.publicOf(priv))
      && co.unhex(s.signature) == Some(cr.sign(priv, data))
  {
    FingerprintReads(cr, co, cr.publicOf(priv));
    var made := EnvelopeFor(cr, co, priv, data);
    assert co.readSignature(co.writeSignature(made)) == Some(made);
    assert co.unhex(made.publicKey) == Some(cr.publicOf(priv)) && co.unhex(made.signature) == Some(cr.sign(priv, data));
  }

  /** What anyone reads in an attestation: one signature, by this key under its fingerprint, on a statement that names
      this file and no other, gives the hash of its bytes, and carries them as drill evidence. */
  lemma AttestationTells(cr: Crypto, co: Codec, priv: Bytes, name: string, data: Bytes)
    returns (env: Envelope, st: Statement)
    requires co.Faithful() && co.writeStatement(StatementFor(cr, co, name, data)).Some?
    ensures co.readEnvelope(AttestationBytes(cr, co, priv, name, data)) == Some(env)
    ensures env.payloadType == InToto && |env.signatures| == 1
    ensures IsFingerprint(cr, co, env.signatures[0].keyId, cr.publicOf(priv))
    ensures var payload := co.unbase64(env.payload);
      && payload.Some? && co.readStatement(payload.value) == Some(st)
      && co.unbase64(env.signatures[0].sig) == Some(cr.sign(priv, Dsse.Pae(PAYLOAD_TYPE, payload.value)))
    ensures |st.subjects| == 1 && st.subjects[0].name == co.printable(name)
    ensures co.unhex(st.subjects[0].digest) == Some(cr.sha256(data))
    ensures st.predicateType == DrillEvidence && st.evidence == co.compacted(data)
  {
    var made := StatementFor(cr, co, name, data);
    var payload := co.writeStatement(made).value;
    env, st := AttestationFor(cr, co, priv, payload), co.Kept(made);
    FingerprintReads(cr, co, cr.publicOf(priv));
    var signature := cr.sign(priv, Dsse.Pae(PAYLOAD_TYPE, payload));
    assert co.readEnvelope(co.writeEnvelope(env) + "\n") == Some(env);
    assert co.unbase64(env.payload) == Some(payload) && co.unbase64(env.signatures[0].sig) == Some(signature);
    assert co.unhex(co.hex(cr.sha256(data))) == Some(cr.sha256(data));
  }

  // ---- What is refused

  /** A signature is accepted for these reasons only. */
  lemma VerifyAsks(cr: Crypto, co: Codec, f: Files, trusted: Option<Bytes>)
    ensures Verify(cr, co, f, trusted) <==>
      exists sig: Signature, pub: Bytes, raw: Bytes ::
        && f.data.Some? && f.sig.Some? && co.readSignature(f.sig.value) == Some(sig)
        && sig.algorithm == Ed25519 && co.unhex(sig.publicKey) == Some(pub) && |pub| == 32
        && (trusted == None || trusted == Some(pub))
        && co.unhex(sig.signature) == Some(raw) && cr.verify(pub, f.data.value, raw)
  {
    if Verify(cr, co, f, trusted) {
      var sig := co.readSignature(f.sig.value).value;
      var pub, raw := co.unhex(sig.publicKey).value, co.unhex(sig.signature).value;
      assert cr.verify(pub, f.data.value, raw);
    }
  }

  /** The signer's key is the one in the envelope, if it can be a key at all. */
  lemma SignerKeyAsks(co: Codec, f: Files, pub: Bytes)
    ensures SignerKey(co, f) == Some(pub) <==>
      exists sig: Signature ::
        f.sig.Some? && co.readSignature(f.sig.value) == Some(sig) && co.unhex(sig.publicKey) == Some(pub) && |pub| == 32
  {
    if SignerKey(co, f) == Some(pub) {
      assert co.readSignature(f.sig.value) == Some(co.readSignature(f.sig.value).value);
    }
  }

  /** Letters of either case count as the same, and nothing else does. */
  lemma FoldingMeans(a: string, b: string)
    ensures EqualFold(a, b) <==> |a| == |b| && forall i :: 0 <= i < |a| ==> SameLetter(a[i], b[i])
  {
    if EqualFold(a, b) {
      forall i | 0 <= i < |a| ensures SameLetter(a[i], b[i]) {
        assert Folded(a)[i] == Folded(b)[i];
      }
    }
  }

  predicate SameLetter(c: char, d: char) {
    || c == d
    || ('A' <= c <= 'Z' && d as int == c as int + 32)
    || ('A' <= d <= 'Z' && c as int == d as int + 32)
  }

  /** An envelope of the right type, one good signature over the encoding of its payload, and in that a statement about
      drill evidence, one of whose subjects has the hash of the file. */
  predicate Attests(cr: Crypto, co: Codec, env: Envelope, payload: Bytes, st: Statement, i: nat, j: nat, pub: Bytes,
                    data: Bytes) {
    && env.payloadType == InToto && co.unbase64(env.payload) == Some(payload)
    && i < |env.signatures| && co.unbase64(env.signatures[i].sig).Some?
    && cr.verify(pub, Dsse.Pae(PAYLOAD_TYPE, payload), co.unbase64(env.signatures[i].sig).value)
    && co.readStatement(payload) == Some(st) && st.predicateType == DrillEvidence
    && j < |st.subjects| && Folded(st.subjects[j].digest) == Folded(co.hex(cr.sha256(data)))
  }

  /** An attestation is accepted for any of its signatures and any of its subjects, and for nothing less. */
  lemma AttestationAsks(cr: Crypto, co: Codec, f: Files, pub: Bytes)
    ensures AttestationHolds(cr, co, f, pub) <==>
      exists payload: Bytes, st: Statement, i: nat, j: nat ::
        && f.att.Some? && f.data.Some? && co.readEnvelope(f.att.value).Some?
        && Attests(cr, co, co.readEnvelope(f.att.value).value, payload, st, i, j, pub, f.data.value)
  {
    if f.att.Some? && f.data.Some? && co.readEnvelope(f.att.value).Some? {
      var env := co.readEnvelope(f.att.value).value;
      if payload: Bytes :|
        && SignedPayload(cr, co, env, pub, payload) && co.readStatement(payload).Some?
        && Vouches(cr, co, co.readStatement(payload).value, f.data.value)
      {
        var st := co.readStatement(payload).value;
        var i: nat :| i < |env.signatures| && SignatureHolds(cr, co, env.signatures[i], pub, payload);
        var j: nat :| j < |st.subjects| && EqualFold(st.subjects[j].digest, co.hex(cr.sha256(f.data.value)));
        assert Attests(cr, co, env, payload, st, i, j, pub, f.data.value);
      }
      if payload: Bytes, st: Statement, i: nat, j: nat :| Attests(cr, co, env, payload, st, i, j, pub, f.data.value) {
        assert SignatureHolds(cr, co, env.signatures[i], pub, payload);
        assert SignedPayload(cr, co, env, pub, payload);
        assert st.subjects[j] in st.subjects && Vouches(cr, co, st, f.data.value);
      }
    }
  }
}
