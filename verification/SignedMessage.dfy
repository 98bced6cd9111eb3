/**
 What a publisher signs and a client checks: internal/feed/sign.go and its twin PublisherProof.swift.
 Text is held as its UTF-8 bytes where the signed message contains it.
 */
module Proof {
  import opened Prelude

  const SCHEMA: int := 2
  const NONCE_LEN: nat := 32
  const SEED_LEN: nat := 32
  const SEPARATOR: byte := 0

  /** "tun-manager-feed-v1" */
  const DOMAIN: Bytes :=
    [116, 117, 110, 45, 109, 97, 110, 97, 103, 101, 114, 45, 102, 101, 101, 100, 45, 118, 49]

  /**
   The library calls the two programs make: base64 (RFC 4648, section 4) as Go and as Foundation
   decode it, white space trimming, and Ed25519 (RFC 8032, section 5.1).
   */
  datatype Library = Library(
    encode: Bytes -> string,
    goDecode: string -> Option<Bytes>,
    swiftDecode: string -> Option<Bytes>,
    trim: string -> string,
    publicOf: Bytes -> Bytes,
    isKey: Bytes -> bool,
    sign: (Bytes, Bytes) -> Bytes,
    verify: (Bytes, Bytes, Bytes) -> bool)

  /** Decoding undoes encoding, and a signature made with a seed verifies under its public half. */
  ghost predicate Lawful(lib: Library) {
    && (forall bytes :: lib.goDecode(lib.encode(bytes)) == Some(bytes))
    && (forall bytes :: lib.swiftDecode(lib.encode(bytes)) == Some(bytes))
    && (forall seed: Bytes {:trigger lib.publicOf(seed)} :: |seed| == SEED_LEN ==> lib.isKey(lib.publicOf(seed)))
    && (forall seed: Bytes, message: Bytes {:trigger lib.sign(seed, message)} :: |seed| == SEED_LEN ==>
          lib.verify(lib.publicOf(seed), lib.sign(seed, message), message))
  }

  /** A signature is over one message: whoever has none over a message cannot pass off another for it. */
  ghost predicate Binding(lib: Library) {
    forall key, signature, m1, m2 :: lib.verify(key, signature, m1) && lib.verify(key, signature, m2) ==> m1 == m2
  }

  function Spelled(bytes: Bytes): string {
    seq(|bytes|, i requires 0 <= i < |bytes| => bytes[i] as int as char)
  }

  function Unspelled(text: string): Option<Bytes> {
    Some(seq(|text|, i requires 0 <= i < |text| => (text[i] as int % 256) as byte))
  }

  predicate Appended(key: Bytes, signature: Bytes, message: Bytes) {
    signature == key + message
  }

  /** These laws do not contradict each other: here is a library that keeps them. */
  lemma SomeLibraryIsLawful() returns (lib: Library)
    ensures Lawful(lib) && Binding(lib)
  {
    lib := Library(Spelled, Unspelled, Unspelled, text => text, seed => seed, _ => true,
      (seed, message) => seed + message, Appended);
    forall bytes
      ensures Unspelled(Spelled(bytes)) == Some(bytes)
    {
      assert Unspelled(Spelled(bytes)).value == bytes;
    }
    forall key, signature, m1, m2 | Appended(key, signature, m1) && Appended(key, signature, m2)
      ensures m1 == m2
    {
      assert m1 == signature[|key|..] == m2;
    }
  }

  // ---------------------------------------------------------------- decimal numbers

  function Digits(n: nat): Bytes {
    var last := [(48 + n % 10) as byte];
    if n < 10 then last else Digits(n / 10) + last
  }

  function Decimal(n: int): Bytes {
    if n < 0 then [45] + Digits(-n) else Digits(n)
  }

  function ValueOf(digits: Bytes): int {
    if digits == [] then 0
    else ValueOf(digits[..|digits| - 1]) * 10 + digits[|digits| - 1] as int - 48
  }

  lemma {:induction false} DigitsRoundTrip(n: nat)
    ensures ValueOf(Digits(n)) == n
    ensures Digits(n) != [] && forall d :: d in Digits(n) ==> 48 <= d <= 57
  {
    if n >= 10 {
      DigitsRoundTrip(n / 10);
      assert Digits(n)[..|Digits(n)| - 1] == Digits(n / 10);
    } else {
      assert Digits(n)[..0] == [];
    }
  }

  lemma SignOfDecimal(n: int)
    ensures SEPARATOR !in Decimal(n) && Decimal(n) != []
    ensures Decimal(n)[0] == 45 <==> n < 0
    ensures n < 0 ==> ValueOf(Digits(-n)) == -n
    ensures n >= 0 ==> ValueOf(Digits(n)) == n
  {
    if n < 0 {
      DigitsRoundTrip(-n);
    } else {
      DigitsRoundTrip(n);
      assert Decimal(n)[0] in Digits(n);
    }
  }

  lemma DecimalIsInjective(m: int, n: int)
    ensures SEPARATOR !in Decimal(m)
    ensures Decimal(m) == Decimal(n) ==> m == n
  {
    SignOfDecimal(m);
    SignOfDecimal(n);
    if Decimal(m) == Decimal(n) {
      assert Decimal(m)[0] == Decimal(n)[0];
      assert m < 0 ==> Digits(-m) == Decimal(m)[1..];
      assert n < 0 ==> Digits(-n) == Decimal(n)[1..];
    }
  }

  // ---------------------------------------------------------------- the signed message

  /** The message, written out field by field. */
  function Message(schema: int, version: Bytes, path: Bytes, nonce: Bytes): Bytes {
    DOMAIN + [SEPARATOR] + (Decimal(schema) + [SEPARATOR] + (version + [SEPARATOR] + (path + [SEPARATOR] + nonce)))
  }

  function Separated(fields: seq<Bytes>): Bytes {
    if fields == [] then []
    else Separated(fields[..|fields| - 1]) + [SEPARATOR] + fields[|fields| - 1]
  }

  lemma FourFields(a: Bytes, b: Bytes, c: Bytes, d: Bytes)
    ensures DOMAIN + Separated([a, b, c, d])
         == DOMAIN + [SEPARATOR] + (a + [SEPARATOR] + (b + [SEPARATOR] + (c + [SEPARATOR] + d)))
  {
    assert [a, b, c, d][..3] == [a, b, c] && [a, b, c][..2] == [a, b] && [a, b][..1] == [a] && [a][..0] == [];
    assert Separated([a]) == [SEPARATOR] + a;
    assert Separated([a, b]) == [SEPARATOR] + a + [SEPARATOR] + b;
    assert Separated([a, b, c]) == [SEPARATOR] + a + [SEPARATOR] + b + [SEPARATOR] + c;
  }

  /** The publisher's encoder. */
  method SignedMessage(schema: int, version: Bytes, path: Bytes, nonce: Bytes) returns (message: Bytes)
    ensures message == Message(schema, version, path, nonce)
  {
    message := DOMAIN;
    var fields := [Decimal(schema), version, path, nonce];
    for i := 0 to |fields|
      invariant message == DOMAIN + Separated(fields[..i])
    {
      message := message + [SEPARATOR];
      message := message + fields[i];
      assert fields[..i + 1][..i] == fields[..i];
    }
    assert fields[..4] == fields;
    FourFields(Decimal(schema), version, path, nonce);
  }

  /** The client's encoder: what the publisher signed, as this client believes it. */
  method BelievedMessage(schema: int, version: Bytes, path: Bytes, nonce: Bytes) returns (message: Bytes)
    ensures message == Message(schema, version, path, nonce)
  {
    message := DOMAIN;
    var remaining := [Decimal(schema), version, path, nonce];
    ghost var done: seq<Bytes> := [];
    while remaining != []
      invariant done + remaining == [Decimal(schema), version, path, nonce]
      invariant message == DOMAIN + Separated(done)
      decreases |remaining|
    {
      var field := remaining[0];
      message := message + [SEPARATOR];
      message := message + field;
      assert (done + [field])[..|done|] == done;
      done, remaining := done + [field], remaining[1..];
    }
    assert done == [Decimal(schema), version, path, nonce];
    FourFields(Decimal(schema), version, path, nonce);
  }

  lemma FirstFieldSplits(a: Bytes, x: Bytes, b: Bytes, y: Bytes)
    requires SEPARATOR !in a && SEPARATOR !in b
    requires a + [SEPARATOR] + x == b + [SEPARATOR] + y
    ensures a == b && x == y
  {
    var s := a + [SEPARATOR] + x;
    assert s[|a|] == SEPARATOR && s[|b|] == SEPARATOR;
    assert a == s[..|a|] && b == s[..|b|] && x == s[|a| + 1..] && y == s[|b| + 1..];
  }

  /** Two different publishers, versions or questions never sign the same bytes. */
  lemma MessageIsInjective(s1: int, v1: Bytes, p1: Bytes, n1: Bytes, s2: int, v2: Bytes, p2: Bytes, n2: Bytes)
    requires SEPARATOR !in v1 && SEPARATOR !in p1 && SEPARATOR !in v2 && SEPARATOR !in p2
    ensures Message(s1, v1, p1, n1) == Message(s2, v2, p2, n2) <==> s1 == s2 && v1 == v2 && p1 == p2 && n1 == n2
  {
    if Message(s1, v1, p1, n1) == Message(s2, v2, p2, n2) {
      DecimalIsInjective(s1, s2);
      DecimalIsInjective(s2, s1);
      FirstFieldSplits(DOMAIN, Message(s1, v1, p1, n1)[|DOMAIN| + 1..], DOMAIN,
        Message(s2, v2, p2, n2)[|DOMAIN| + 1..]);
      FirstFieldSplits(Decimal(s1), v1 + [SEPARATOR] + (p1 + [SEPARATOR] + n1),
                       Decimal(s2), v2 + [SEPARATOR] + (p2 + [SEPARATOR] + n2));
      FirstFieldSplits(v1, p1 + [SEPARATOR] + n1, v2, p2 + [SEPARATOR] + n2);
      FirstFieldSplits(p1, n1, p2, n2);
    }
  }

  /** Why the separator must not occur in a field: moving a nul across a field boundary changes nothing. */
  lemma NulBreaksInjectivity(schema: int, a: Bytes, b: Bytes, c: Bytes, nonce: Bytes)
    ensures Message(schema, a + [SEPARATOR] + b, c, nonce) == Message(schema, a, b + [SEPARATOR] + c, nonce)
  {
    assert (a + [SEPARATOR] + b) + [SEPARATOR] + (c + [SEPARATOR] + nonce)
        == a + [SEPARATOR] + ((b + [SEPARATOR] + c) + [SEPARATOR] + nonce);
  }

  // ---------------------------------------------------------------- both ends of the proof

  function SeedBytes(lib: Library, seed: string): Option<Bytes> {
    match lib.goDecode(lib.trim(seed))
    case None => None
    case Some(raw) => if |raw| == SEED_LEN then Some(raw) else None
  }

  /** The public half as the hello carries it; None is a field left out. */
  function PublicKey(lib: Library, seed: string): Option<string> {
    if seed == "" then None
    else match SeedBytes(lib, seed)
      case None => None
      case Some(raw) => Some(lib.encode(lib.publicOf(raw)))
  }

  /** A challenge's nonce, refused unless it is base64 of exactly NONCE_LEN bytes. */
  function Nonce(lib: Library, encoded: string): Option<Bytes> {
    match lib.goDecode(encoded)
    case None => None
    case Some(raw) => if |raw| == NONCE_LEN then Some(raw) else None
  }

  /** The signature a publisher answers with, or None where it says nothing at all. */
  function Answer(lib: Library, seed: string, version: Bytes, path: Bytes, encoded: string): Option<string> {
    if seed == "" then None
    else match (Nonce(lib, encoded), SeedBytes(lib, seed))
      case (Some(nonce), Some(raw)) => Some(lib.encode(lib.sign(raw, Message(SCHEMA, version, path, nonce))))
      case _ => None
  }

  /** Whether a signature is one this key made over this client's own idea of the message. */
  predicate Holds(lib: Library, key: string, signature: string, nonce: Bytes, schema: int, version: Bytes,
      path: Bytes) {
    match (lib.swiftDecode(key), lib.swiftDecode(signature))
    case (Some(keyBytes), Some(signatureBytes)) =>
      lib.isKey(keyBytes) && lib.verify(keyBytes, signatureBytes, Message(schema, version, path, nonce))
    case _ => false
  }

  /**
   A publisher that announces a key answers every well-formed question, and its answer holds under
   the key it announced, for the version it announced and the path it is bound to.
   */
  lemma HonestAnswerHolds(lib: Library, seed: string, version: Bytes, path: Bytes, nonce: Bytes)
    requires Lawful(lib)
    requires PublicKey(lib, seed).Some? && |nonce| == NONCE_LEN
    ensures var answer := Answer(lib, seed, version, path, lib.encode(nonce));
      && answer.Some?
      && Holds(lib, PublicKey(lib, seed).value, answer.value, nonce, SCHEMA, version, path)
  {
    var raw := SeedBytes(lib, seed).value;
    var message := Message(SCHEMA, version, path, nonce);
    assert lib.goDecode(lib.encode(nonce)) == Some(nonce);
    assert lib.swiftDecode(lib.encode(lib.publicOf(raw))) == Some(lib.publicOf(raw));
    assert lib.swiftDecode(lib.encode(lib.sign(raw, message))) == Some(lib.sign(raw, message));
    assert lib.isKey(lib.publicOf(raw));
  }

  /** A publisher answers exactly the questions that are 32 bytes, and only while it has a key to announce. */
  lemma OnlyWellFormedQuestionsAreAnswered(lib: Library, seed: string, version: Bytes, path: Bytes, encoded: string)
    ensures Answer(lib, seed, version, path, encoded).Some? <==>
      && PublicKey(lib, seed).Some?
      && exists nonce :: |nonce| == 32 && lib.goDecode(encoded) == Some(nonce)
  {
    if lib.goDecode(encoded).Some? {
      assert lib.goDecode(encoded) == Some(lib.goDecode(encoded).value);
    }
  }

  /** Some key the text decodes to verifies some signature the text decodes to, over these bytes. */
  ghost predicate SignedUnder(lib: Library, key: string, signature: string, message: Bytes) {
    exists keyBytes, signatureBytes ::
      && lib.swiftDecode(key) == Some(keyBytes) && lib.swiftDecode(signature) == Some(signatureBytes)
      && lib.isKey(keyBytes) && lib.verify(keyBytes, signatureBytes, message)
  }

  /** Nothing but a signature that verifies over this client's own message is a proof. */
  lemma HoldsExactlyWhenSigned(lib: Library, key: string, signature: string, nonce: Bytes, schema: int,
      version: Bytes, path: Bytes)
    ensures Holds(lib, key, signature, nonce, schema, version, path)
       <==> SignedUnder(lib, key, signature, Message(schema, version, path, nonce))
  {
    if Holds(lib, key, signature, nonce, schema, version, path) {
      assert lib.verify(lib.swiftDecode(key).value, lib.swiftDecode(signature).value,
        Message(schema, version, path, nonce));
    }
  }

  /**
   An answer made by the publisher whose key this is, for whatever version, path and question, holds for a
   client if and only if it was made for the version the client was told, the path it dialled and the
   nonce it asked: an answer relayed from elsewhere, or replayed, is refused.
   */
  lemma AnswersHoldExactlyWhereMade(lib: Library, seed: string, version: Bytes, path: Bytes, encoded: string,
      told: Bytes, dialled: Bytes, asked: Bytes)
    requires Lawful(lib) && Binding(lib) && Answer(lib, seed, version, path, encoded).Some?
    requires SEPARATOR !in version && SEPARATOR !in path && SEPARATOR !in told && SEPARATOR !in dialled
    ensures PublicKey(lib, seed).Some?
    ensures Holds(lib, PublicKey(lib, seed).value, Answer(lib, seed, version, path, encoded).value, asked, SCHEMA,
              told, dialled)
       <==> version == told && path == dialled && Nonce(lib, encoded) == Some(asked)
  {
    var raw, nonce := SeedBytes(lib, seed).value, Nonce(lib, encoded).value;
    var message, believed := Message(SCHEMA, version, path, nonce), Message(SCHEMA, told, dialled, asked);
    MessageIsInjective(SCHEMA, version, path, nonce, SCHEMA, told, dialled, asked);
    assert lib.swiftDecode(lib.encode(lib.publicOf(raw))) == Some(lib.publicOf(raw));
    assert lib.swiftDecode(lib.encode(lib.sign(raw, message))) == Some(lib.sign(raw, message));
    assert lib.verify(lib.publicOf(raw), lib.sign(raw, message), message);
    assert lib.verify(lib.publicOf(raw), lib.sign(raw, message), believed) ==> message == believed;
  }
}
