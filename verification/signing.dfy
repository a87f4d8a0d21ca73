// The signed envelope: what the browser signs and what the server recovers.
module Signing {
  import opened Wrappers
  import opened Json
  import opened JsonRoundTrip
  import opened Canonical
  import opened Printers

  /** The dictionary comprehension that drops one key. */
  function Without(ms: seq<Member>, key: string): (r: seq<Member>)
    ensures forall m :: m in r <==> m in ms && m.key != key
  {
    if |ms| == 0 then []
    else
      assert ms == [ms[0]] + ms[1..];
      (if ms[0].key == key then [] else [ms[0]]) + Without(ms[1..], key)
  }

  /** The server's `envelope_signing_bytes`, as text. */
  function SigningText(envelope: Json): string
    requires envelope.Obj?
  {
    CanonicalJsonStr(Obj(Without(envelope.members, "signature")))
  }

  lemma {:induction false} FindWithout(ms: seq<Member>, key: string, k: string)
    ensures Find(Without(ms, key), k) == if k == key then None else Find(ms, k)
  {
    hide Find;
    if |ms| == 0 {
      FindEmpty(k);
    } else {
      assert ms == [ms[0]] + ms[1..];
      FindWithout(ms[1..], key, k);
      FindCons(ms[0], ms[1..], k);
      FindCons(ms[0], Without(ms[1..], key), k);
      assert [] + Without(ms[1..], key) == Without(ms[1..], key);
    }
  }

  lemma {:induction false} WithoutDistinct(ms: seq<Member>, key: string)
    requires DistinctKeys(ms)
    ensures DistinctKeys(Without(ms, key))
  {
    if |ms| > 0 {
      var tail := ms[1..];
      assert forall i | 0 <= i < |tail| :: tail[i] == ms[i + 1];
      WithoutDistinct(tail, key);
      var rest := Without(tail, key);
      forall j | 0 <= j < |rest| ensures rest[j].key != ms[0].key { assert rest[j] in tail; }
    }
  }

  lemma WithoutWellFormed(ms: seq<Member>, key: string)
    requires WellFormed(Obj(ms))
    ensures WellFormed(Obj(Without(ms, key)))
  {
    WithoutDistinct(ms, key);
    var r := Without(ms, key);
    forall i | 0 <= i < |r| ensures WellFormed(r[i].value) {
      assert r[i] in ms;
      var k :| 0 <= k < |ms| && ms[k] == r[i];
    }
  }

  lemma SameAsCanon(v: Json)
    requires WellFormed(v)
    ensures SameValue(v, Canon(v))
  {
    CanonWellFormed(v);
    CanonIdempotent(v);
    SameCanonMeansSameValue(v, Canon(v));
  }

  /** The body a client printing with `p` sends for unsigned members `ms` and signature text `sig`. */
  function SignedBody(ms: seq<Member>, sig: string, p: Printer): string {
    Render(Canon(Obj(ms + [Member("signature", Str(sig))])), p)
  }

  lemma SignedWellFormed(ms: seq<Member>, sig: string)
    requires WellFormed(Obj(ms)) && Find(ms, "signature").None?
    ensures ms + [Member("signature", Str(sig))] == Put(ms, "signature", Str(sig))
    ensures WellFormed(Obj(Put(ms, "signature", Str(sig))))
  {
    PutKeepsWellFormed(ms, "signature", Str(sig));
  }

  /** What the server parses out of a signed body, member by member. */
  lemma SignedMember(ms: seq<Member>, sig: string, k: string)
    requires WellFormed(Obj(ms)) && Find(ms, "signature").None?
    ensures
      var env := Canon(Obj(Put(ms, "signature", Str(sig))));
      Get(env, k) ==
      if k == "signature" then Some(Str(sig))
      else match Find(ms, k) case None => None case Some(x) => Some(Canon(x))
  {
    SignedWellFormed(ms, sig);
    FindPut(ms, "signature", Str(sig), k);
    GetOfCanon(Obj(Put(ms, "signature", Str(sig))), k);
  }

  /** Dropping the signature from the parsed envelope leaves the same value that was signed. */
  lemma UnsignedIsSame(ms: seq<Member>, sig: string)
    requires WellFormed(Obj(ms)) && Find(ms, "signature").None?
    ensures
      var env := Canon(Obj(Put(ms, "signature", Str(sig))));
      env.Obj? && SameValue(Obj(ms), Obj(Without(env.members, "signature")))
  {
    var env := Canon(Obj(Put(ms, "signature", Str(sig))));
    var kept := Without(env.members, "signature");
    forall i | 0 <= i < |ms|
      ensures Find(kept, ms[i].key).Some? && SameValue(ms[i].value, Find(kept, ms[i].key).value)
    {
      FindIsMembership(ms, ms[i].key, ms[i].value);
      SignedMember(ms, sig, ms[i].key);
      FindWithout(env.members, "signature", ms[i].key);
      SameAsCanon(ms[i].value);
    }
    forall j | 0 <= j < |kept| ensures Find(ms, kept[j].key).Some? {
      assert kept[j] in env.members;
      assert Get(env, kept[j].key).Some?;
      SignedMember(ms, sig, kept[j].key);
    }
  }

  lemma SignedPrintable(ms: seq<Member>, sig: string, p: Printer)
    requires Printable(Obj(ms), p)
    ensures Printable(Canon(Obj(ms + [Member("signature", Str(sig))])), p)
  {
    hide Canon;
    var v := Obj(ms + [Member("signature", Str(sig))]);
    CanonNumbers(v, IsBrowserNumber);
    CanonNumbers(v, IsStringifyNumber);
    NoNumbersInText(sig, IsBrowserNumber);
    NoNumbersInText(sig, IsStringifyNumber);
  }

  lemma NoNumbersInText(s: string, ok: Json -> bool)
    ensures AllNumbers(Str(s), ok)
  {
  }

  lemma SignedBodyParses(ms: seq<Member>, sig: string, p: Printer)
    requires WellFormed(Obj(ms)) && Printable(Obj(ms), p) && Find(ms, "signature").None?
    ensures Parse(SignedBody(ms, sig, p)) == Some(Canon(Obj(Put(ms, "signature", Str(sig)))))
    ensures WellFormed(Canon(Obj(Put(ms, "signature", Str(sig)))))
  {
    hide Canon, WellFormed, Printable, Put, Render, Find;
    SignedWellFormed(ms, sig);
    SignedPrintable(ms, sig, p);
    CanonWellFormed(Obj(Put(ms, "signature", Str(sig))));
    ParseOfRender(Canon(Obj(Put(ms, "signature", Str(sig)))), p);
  }

  /** For every envelope and signature and whichever printer wrote the body, the server parses it, drops the
      signature and re-canonicalises to its own canonical text of the unsigned envelope; every other member it reads
      has its canonical text, too. */
  lemma ServerReadsEnvelope(ms: seq<Member>, sig: string, p: Printer)
    requires WellFormed(Obj(ms)) && Printable(Obj(ms), p) && Find(ms, "signature").None?
    ensures
      var parsed := Parse(SignedBody(ms, sig, p));
      && parsed.Some? && parsed.value.Obj?
      && SigningText(parsed.value) == CanonicalJsonStr(Obj(ms))
      && Get(parsed.value, "signature") == Some(Str(sig))
      && forall k :: k != "signature" ==>
           match Find(ms, k)
           case None => Get(parsed.value, k).None?
           case Some(x) => Get(parsed.value, k).Some? && CanonicalJsonStr(Get(parsed.value, k).value) == CanonicalJsonStr(x)
  {
    hide Find, Put, Canon, SortMembers, Without, WellFormed, SameValue, Render, Printable, SignedBody;
    SignedBodyParses(ms, sig, p);
    var env := Canon(Obj(Put(ms, "signature", Str(sig))));
    SignedWellFormed(ms, sig);
    SignedMember(ms, sig, "signature");
    forall k | k != "signature"
      ensures match Find(ms, k)
              case None => Get(env, k).None?
              case Some(x) => Get(env, k).Some? && CanonicalJsonStr(Get(env, k).value) == CanonicalJsonStr(x)
    {
      SignedMember(ms, sig, k);
      if Find(ms, k).Some? { MemberCanonIdempotent(ms, k); }
    }
    UnsignedIsSame(ms, sig);
    WithoutWellFormed(env.members, "signature");
    SameTextIffSameValue(Obj(ms), Obj(Without(env.members, "signature")));
  }

  /** The server recovers the text the browser signed exactly when the envelope has no integral number from 2^53 on
      and below 10^16. */
  lemma ServerRecoversSignedTextIff(ms: seq<Member>, sig: string)
    requires IsBrowserJson(Obj(ms)) && Find(ms, "signature").None?
    ensures
      var parsed := Parse(SignedBody(ms, sig, Browser));
      && parsed.Some? && parsed.value.Obj?
      && (SigningText(parsed.value) == BrowserJsonStr(Obj(ms)) <==> PlainNumbers(Obj(ms)))
  {
    hide Find, Canon, WellFormed, AllNumbers, Render, SigningText, SignedBody, Parse, Get;
    ServerReadsEnvelope(ms, sig, Browser);
    PrintersAgreeIff(Obj(ms));
  }

  lemma MemberCanonIdempotent(ms: seq<Member>, k: string)
    requires WellFormed(Obj(ms)) && Find(ms, k).Some?
    ensures Canon(Canon(Find(ms, k).value)) == Canon(Find(ms, k).value)
  {
    var i :| 0 <= i < |ms| && ms[i] == Member(k, Find(ms, k).value);
    CanonIdempotent(ms[i].value);
  }

  /** A signing text determines every signed member: two envelopes with the same signing text
      agree, canonically, on every key except the signature. */
  lemma SigningTextDeterminesMembers(a: Json, b: Json, k: string)
    requires a.Obj? && b.Obj? && WellFormed(a) && WellFormed(b)
    requires SigningText(a) == SigningText(b) && k != "signature"
    ensures Get(a, k).Some? == Get(b, k).Some?
    ensures Get(a, k).Some? ==> Canon(Get(a, k).value) == Canon(Get(b, k).value)
  {
    var ka, kb := Obj(Without(a.members, "signature")), Obj(Without(b.members, "signature"));
    WithoutWellFormed(a.members, "signature");
    WithoutWellFormed(b.members, "signature");
    ParseOfCanonical(ka);
    ParseOfCanonical(kb);
    FindWithout(a.members, "signature", k);
    FindWithout(b.members, "signature", k);
    GetOfCanon(ka, k);
    GetOfCanon(kb, k);
  }

  // ---- the client ---------------------------------------------------------

  datatype SignOptions = SignOptions(
    protocolVersion: string, messageId: string, operation: string, senderId: string,
    publicKeyHex: string, timestamp: JsonValue, expiresAt: JsonValue, payload: JsonValue)

  function UnsignedPairs(o: SignOptions, payloadHash: string): (ms: seq<Member>)
  {
    [ Member("protocol_version", Str(o.protocolVersion)),
      Member("message_id", Str(o.messageId)),
      Member("target_module", Str("modulr.core")),
      Member("operation", Str(o.operation)),
      Member("sender_id", Str(o.senderId)),
      Member("sender_key_type", Str("ed25519")),
      Member("sender_public_key", Str(o.publicKeyHex)),
      Member("timestamp", o.timestamp),
      Member("expires_at", o.expiresAt),
      Member("payload", o.payload),
      Member("payload_hash", Str(payloadHash)),
      Member("signature_algorithm", Str("ed25519"))
    ]
  }

  /** The envelope object before it is signed. */
  function UnsignedMembers(o: SignOptions, payloadHash: string): seq<Member> {
    Dict(UnsignedPairs(o, payloadHash))
  }

  lemma UnsignedMembersLaws(o: SignOptions, payloadHash: string)
    ensures
      var ms := UnsignedMembers(o, payloadHash);
      && WellFormed(Obj(ms)) && Find(ms, "signature") == None
      && Find(ms, "timestamp") == Some(o.timestamp) && Find(ms, "expires_at") == Some(o.expiresAt)
      && Find(ms, "payload") == Some(o.payload) && Find(ms, "payload_hash") == Some(Str(payloadHash))
  {
    hide Find, Put, Dict;
    var pairs := UnsignedPairs(o, payloadHash);
    DictWellFormed(pairs);
    FindDictNone(pairs, "signature");
    FindDict(pairs, 7);
    FindDict(pairs, 8);
    FindDict(pairs, 9);
    FindDict(pairs, 10);
  }

  predicate AllOptions(o: SignOptions, ok: Json -> bool) {
    AllNumbers(o.timestamp, ok) && AllNumbers(o.expiresAt, ok) && AllNumbers(o.payload, ok)
  }

  lemma {:induction false} DictNumbers(pairs: seq<Member>, ok: Json -> bool)
    requires forall i | 0 <= i < |pairs| :: AllNumbers(pairs[i].value, ok)
    ensures AllNumbers(Obj(Dict(pairs)), ok)
  {
    if |pairs| > 0 {
      var last := pairs[|pairs| - 1];
      DictNumbers(pairs[..|pairs| - 1], ok);
      PutNumbers(Dict(pairs[..|pairs| - 1]), last.key, last.value, ok);
    }
  }

  lemma {:induction false} PutNumbers(ms: seq<Member>, key: string, value: Json, ok: Json -> bool)
    requires AllNumbers(Obj(ms), ok) && AllNumbers(value, ok)
    ensures AllNumbers(Obj(Put(ms, key, value)), ok)
  {
    if |ms| > 0 && ms[0].key != key { PutNumbers(ms[1..], key, value, ok); }
  }

  lemma FoundNumbers(ms: seq<Member>, key: string, ok: Json -> bool)
    requires AllNumbers(Obj(ms), ok) && Find(ms, key).Some?
    ensures AllNumbers(Find(ms, key).value, ok)
  {
    hide Find;
    var i :| 0 <= i < |ms| && ms[i] == Member(key, Find(ms, key).value);
    assert AllNumbers(ms[i].value, ok);
  }

  /** The envelope's numbers are those of the dates and the payload. */
  lemma UnsignedNumbers(o: SignOptions, payloadHash: string, ok: Json -> bool)
    ensures AllNumbers(Obj(UnsignedMembers(o, payloadHash)), ok) <==> AllOptions(o, ok)
  {
    hide Find, Put, Dict, AllNumbers;
    var pairs, ms := UnsignedPairs(o, payloadHash), UnsignedMembers(o, payloadHash);
    UnsignedMembersLaws(o, payloadHash);
    if AllNumbers(Obj(ms), ok) {
      FoundNumbers(ms, "timestamp", ok);
      FoundNumbers(ms, "expires_at", ok);
      FoundNumbers(ms, "payload", ok);
    }
    if AllOptions(o, ok) {
      forall i | 0 <= i < |pairs| ensures AllNumbers(pairs[i].value, ok) {
        if pairs[i].value.Str? { NoNumbersInText(pairs[i].value.s, ok); }
      }
      DictNumbers(pairs, ok);
    }
  }

  lemma UnsignedIsBrowserJson(o: SignOptions, payloadHash: string)
    requires AllOptions(o, IsBrowserNumber)
    ensures IsBrowserJson(Obj(UnsignedMembers(o, payloadHash)))
  {
    hide UnsignedMembers, AllNumbers, WellFormed, AllOptions;
    UnsignedMembersLaws(o, payloadHash);
    UnsignedNumbers(o, payloadHash, IsBrowserNumber);
  }

  /** Builds the envelope, signs its text, then adds the signature member and prints again. The server reading `body`
      recomputes the signed text exactly when the dates and the payload have no integral number from 2^53 on and
      below 10^16, and the hashed text exactly when the payload has none. */
  method BuildSignedMessageBody(o: SignOptions, sha256Hex: string -> string, sign: string -> string)
    returns (body: string, preimage: string)
    requires AllOptions(o, IsBrowserNumber)
    ensures preimage == BrowserJsonStr(Obj(UnsignedMembers(o, sha256Hex(BrowserJsonStr(o.payload)))))
    ensures body == SignedBody(UnsignedMembers(o, sha256Hex(BrowserJsonStr(o.payload))), sign(preimage), Browser)
    ensures
      var parsed := Parse(body);
      && parsed.Some? && parsed.value.Obj?
      && (SigningText(parsed.value) == preimage <==> AllOptions(o, IsPlainNumber))
      && Get(parsed.value, "signature") == Some(Str(sign(preimage)))
      && Get(parsed.value, "payload_hash") == Some(Str(sha256Hex(BrowserJsonStr(o.payload))))
      && Get(parsed.value, "payload").Some?
      && (CanonicalJsonStr(Get(parsed.value, "payload").value) == BrowserJsonStr(o.payload) <==> PlainNumbers(o.payload))
  {
    hide Find, Put, Canon, Render, UnsignedMembers, WellFormed, AllNumbers, Parse, Get;
    var hashed := SerializeJsonValue(o.payload);
    var payloadHash := sha256Hex(hashed);
    var envelope := UnsignedMembers(o, payloadHash);
    ghost var ms := envelope;
    UnsignedMembersLaws(o, payloadHash);
    UnsignedIsBrowserJson(o, payloadHash);
    preimage := SerializeJsonValue(Obj(envelope));
    var sig := sign(preimage);
    SignedWellFormed(ms, sig);
    SignedIsBrowserJson(ms, sig);
    envelope := Put(envelope, "signature", Str(sig));
    body := SerializeJsonValue(Obj(envelope));
    ServerRecoversSignedTextIff(ms, sig);
    UnsignedNumbers(o, payloadHash, IsPlainNumber);
    ServerReadsEnvelope(ms, sig, Browser);
    PrintersAgreeIff(o.payload);
    SignedBodyParses(ms, sig, Browser);
    SignedMember(ms, sig, "payload_hash");
    CanonOfStr(payloadHash);
  }

  lemma SignedIsBrowserJson(ms: seq<Member>, sig: string)
    requires IsBrowserJson(Obj(ms)) && Find(ms, "signature").None?
    ensures IsBrowserJson(Obj(Put(ms, "signature", Str(sig))))
  {
    hide Find, Put, WellFormed, AllNumbers;
    SignedWellFormed(ms, sig);
    NoNumbersInText(sig, IsBrowserNumber);
    PutNumbers(ms, "signature", Str(sig), IsBrowserNumber);
  }

  lemma CanonOfStr(s: string)
    ensures Canon(Str(s)) == Str(s)
  {
  }
}
