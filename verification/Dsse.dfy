/** The DSSE pre-authentication encoding that every attestation signature covers, and a decoder for it.
    A byte string is modelled as a `string` with one character per byte. */
module Dsse {
  import opened Wrappers
  import Decimal

  type Bytes = string

  const HEADER: Bytes := "DSSEv1 "

  /** One length-prefixed field. */
  function Field(b: Bytes): Bytes {
    Decimal.Print(|b|) + " " + b
  }

  function Body(payloadType: Bytes, payload: Bytes): Bytes {
    Field(payloadType) + " " + Field(payload)
  }

  function Pae(payloadType: Bytes, payload: Bytes): Bytes {
    HEADER + Body(payloadType, payload)
  }

  /** The length of the longest prefix of digits. */
  function DigitRun(b: Bytes): (n: nat)
    ensures n <= |b| && Decimal.AllDigits(b[..n])
    ensures n < |b| ==> !Decimal.IsDigit(b[n])
  {
    if b == "" || !Decimal.IsDigit(b[0]) then 0
    else
      var n := DigitRun(b[1..]);
      assert b[1..1 + n] == b[1..][..n];
      assert forall i :: 1 <= i < 1 + n ==> b[i] == b[1..][..n][i - 1];
      1 + n
  }

  /** Reads one field off the front: its bytes and what follows. */
  function ReadField(b: Bytes): Option<(Bytes, Bytes)> {
    var n := DigitRun(b);
    if n < |b| && b[n] == ' ' then
      var len :- Decimal.Read(b[..n]);
      var rest := b[n + 1..];
      if len <= |rest| then Some((rest[..len], rest[len..])) else None
    else None
  }

  /** Reads both fields; nothing may follow the payload. */
  function ReadBody(b: Bytes): Option<(Bytes, Bytes)> {
    var (payloadType, rest) :- ReadField(b);
    if rest != "" && rest[0] == ' ' then
      var (payload, end) :- ReadField(rest[1..]);
      if end == "" then Some((payloadType, payload)) else None
    else None
  }

  /** Decodes a whole pre-authentication encoding. */
  function ReadPae(b: Bytes): Option<(Bytes, Bytes)> {
    if HEADER <= b then ReadBody(b[|HEADER|..]) else None
  }

  lemma {:induction false} DigitRunStops(digits: string, rest: Bytes)
    requires Decimal.AllDigits(digits)
    requires rest != "" && !Decimal.IsDigit(rest[0])
    ensures DigitRun(digits + rest) == |digits|
  {
    var b := digits + rest;
    if digits == "" {
      assert b == rest;
    } else {
      assert b[1..] == digits[1..] + rest;
      DigitRunStops(digits[1..], rest);
    }
  }

  lemma ReadFieldInvertsField(b: Bytes, rest: Bytes)
    ensures ReadField(Field(b) + rest) == Some((b, rest))
  {
    var digits := Decimal.Print(|b|);
    Decimal.PrintIsCanonical(|b|);
    var whole := Field(b) + rest;
    assert whole == digits + (" " + b + rest);
    DigitRunStops(digits, " " + b + rest);
    assert whole[..|digits|] == digits;
    var after := whole[|digits| + 1..];
    assert after == b + rest;
    assert after[..|b|] == b && after[|b|..] == rest;
  }

  lemma FieldInvertsReadField(b: Bytes)
    requires ReadField(b).Some?
    ensures b == Field(ReadField(b).value.0) + ReadField(b).value.1
  {
    var n := DigitRun(b);
    var len := Decimal.Read(b[..n]).value;
    Decimal.ReadInvertsPrint(len, b[..n]);
    var rest := b[n + 1..];
    assert b == b[..n] + " " + rest;
    assert rest == rest[..len] + rest[len..];
  }

  lemma TypeComesFirst(payloadType: Bytes, payload: Bytes)
    ensures ReadField(Body(payloadType, payload)) == Some((payloadType, " " + Field(payload)))
  {
    ReadFieldInvertsField(payloadType, " " + Field(payload));
    assert Body(payloadType, payload) == Field(payloadType) + (" " + Field(payload));
  }

  lemma PayloadComesLast(payload: Bytes, rest: Bytes)
    requires rest == " " + Field(payload)
    ensures ReadField(rest[1..]) == Some((payload, ""))
  {
    ReadFieldInvertsField(payload, "");
    assert rest[1..] == Field(payload) + "";
  }

  lemma ReadBodyInvertsBody(payloadType: Bytes, payload: Bytes)
    ensures ReadBody(Body(payloadType, payload)) == Some((payloadType, payload))
  {
    TypeComesFirst(payloadType, payload);
    PayloadComesLast(payload, " " + Field(payload));
  }

  lemma BodyInvertsReadBody(b: Bytes)
    requires ReadBody(b).Some?
    ensures b == Body(ReadBody(b).value.0, ReadBody(b).value.1)
  {
    FieldInvertsReadField(b);
    var rest := ReadField(b).value.1;
    FieldInvertsReadField(rest[1..]);
    var (payloadType, payload) := ReadBody(b).value;
    assert b == Field(payloadType) + rest;
    assert rest == " " + rest[1..] && rest[1..] == Field(payload) + "" == Field(payload);
  }

  /** Decoding undoes encoding, whatever spaces and digits the type and the payload contain. */
  lemma ReadPaeInvertsPae(payloadType: Bytes, payload: Bytes)
    ensures ReadPae(Pae(payloadType, payload)) == Some((payloadType, payload))
  {
    ReadBodyInvertsBody(payloadType, payload);
    assert Pae(payloadType, payload)[|HEADER|..] == Body(payloadType, payload);
  }

  /** The decoder accepts nothing but encodings: together with the lemma above, exactly the encodings. */
  lemma PaeInvertsReadPae(b: Bytes)
    requires ReadPae(b).Some?
    ensures b == Pae(ReadPae(b).value.0, ReadPae(b).value.1)
  {
    var body := b[|HEADER|..];
    BodyInvertsReadBody(body);
    assert b == HEADER + body;
  }

  /** Two different (type, payload) pairs never share an encoding, so a signature over one cannot be
      replayed for the other. */
  lemma PaeIsInjective(type1: Bytes, payload1: Bytes, type2: Bytes, payload2: Bytes)
    ensures Pae(type1, payload1) == Pae(type2, payload2) <==> type1 == type2 && payload1 == payload2
  {
    ReadPaeInvertsPae(type1, payload1);
    ReadPaeInvertsPae(type2, payload2);
  }

  lemma Flattened(h: Bytes, sp: Bytes, a: Bytes, t: Bytes, b: Bytes, p: Bytes)
    ensures h + ((a + sp + t) + sp + (b + sp + p)) == h + a + sp + t + sp + b + sp + p
  {
  }

  /** The encoding as the DSSE protocol spells it out. */
  lemma PaeSpells(payloadType: Bytes, payload: Bytes, sp: Bytes)
    requires sp == " "
    ensures Pae(payloadType, payload) ==
      "DSSEv1 " + Decimal.Print(|payloadType|) + sp + payloadType + sp + Decimal.Print(|payload|) + sp + payload
  {
    Flattened(HEADER, sp, Decimal.Print(|payloadType|), payloadType, Decimal.Print(|payload|), payload);
    assert Field(payloadType) == Decimal.Print(|payloadType|) + sp + payloadType;
    assert Field(payload) == Decimal.Print(|payload|) + sp + payload;
  }
}
