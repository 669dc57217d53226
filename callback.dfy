/**
 * The two HTTP entry points of the WeCom callback.
 *
 * The message handler reads the body under a size limit, parses the outer
 * XML envelope, checks the signature over the trimmed Encrypt field,
 * decrypts it, parses the inner message, drops a repeated delivery through
 * the Deduper and finally hands the message to the core exactly once. Each
 * failing stage ends the request with its own status (413, 400 or 403) and
 * the core is never reached; every request that gets past the stages is
 * answered 200 "success", whatever the core then does.
 *
 * The verify handler answers the URL check: signature over the echostr,
 * then its decryption, which is echoed back.
 *
 * XML decoding and SHA-256 are foreign library calls: they are the
 * function-valued fields of `Codec`. The request arrives as its query
 * values and its body bytes; a body whose transfer broke off is flagged.
 */
module Callback {
  import opened Wrappers
  import opened Text
  import opened Crypto
  import opened Message
  import opened Dedup

  const StatusOK: nat := 200
  const StatusBadRequest: nat := 400
  const StatusForbidden: nat := 403
  const StatusPayloadTooLarge: nat := 413

  /** The body limit used when the configured one is not positive: 1 MiB. */
  const DefaultMaxBodyBytes: nat := 0x10_0000

  /** The outer XML: the receiving corp and the base64 ciphertext. */
  datatype Envelope = Envelope(toUserName: string, encrypt: string)

  datatype Codec = Codec(
    /** xml.Unmarshal into the envelope; None when the bytes are not well-formed XML */
    parseEnvelope: seq<Byte> -> Option<Envelope>,
    /** xml.Unmarshal into IncomingMessage */
    parseMessage: seq<Byte> -> Option<IncomingMessage>,
    /** lower-case hex of the SHA-256 digest */
    sha256Hex: seq<Byte> -> string)

  /** The query parameters as received (a missing one reads as ""). */
  datatype Query = Query(msgSignature: string, timestamp: string, nonce: string, echostr: string)

  /** The request body: the bytes that arrived, and whether the transfer then failed. */
  datatype Body = Body(bytes: seq<Byte>, broken: bool)

  /** Why a request was refused; each reason has its status and its error text. */
  datatype Refusal = PayloadTooLarge | BadRequest | BadXml | MissingEncrypt | InvalidSignature | DecryptFailed

  function Status(f: Refusal): (s: nat)
    ensures s in {StatusBadRequest, StatusForbidden, StatusPayloadTooLarge}
    ensures s == StatusForbidden <==> f == InvalidSignature || f == DecryptFailed
    ensures s == StatusPayloadTooLarge <==> f == PayloadTooLarge
  {
    match f
    case PayloadTooLarge => StatusPayloadTooLarge
    case InvalidSignature => StatusForbidden
    case DecryptFailed => StatusForbidden
    case _ => StatusBadRequest
  }

  /** The text http.Error writes for each reason. */
  function ErrorText(f: Refusal): string {
    match f
    case PayloadTooLarge => "payload too large"
    case BadRequest => "bad request"
    case BadXml => "bad xml"
    case MissingEncrypt => "missing encrypt"
    case InvalidSignature => "invalid signature"
    case DecryptFailed => "decrypt failed"
  }

  /** What the client gets back: a refusal, 200 "success", or 200 with the echoed plaintext. */
  datatype Response = Reject(reason: Refusal) | Success | Echo(plain: seq<Byte>)

  /** MaxBodyBytes, with a non-positive setting replaced by 1 MiB. */
  function EffectiveLimit(maxBody: int): (r: nat)
    ensures r > 0
    ensures maxBody > 0 ==> r == maxBody
  {
    if maxBody <= 0 then DefaultMaxBodyBytes else maxBody
  }

  // ---------------------------------------------------------------------
  // The stages before the dedup check

  datatype Stage = Rejected(response: Response) | Accepted(msg: IncomingMessage, plain: seq<Byte>)

  /**
   * The signature check over the ciphertext, then its decryption: the
   * common core of both handlers.
   */
  function Open(p: Primitives, c: Crypto, q: Query, encrypted: string): (r: Result<seq<Byte>, Refusal>)
    ensures r.Ok? ==>
      VerifySignature(p, c, TrimSpace(q.msgSignature), TrimSpace(q.timestamp), TrimSpace(q.nonce), encrypted)
      && Decrypt(p, c, encrypted) == Ok(r.value)
    ensures r.Err? ==>
      || (r.error == InvalidSignature
          && !VerifySignature(p, c, TrimSpace(q.msgSignature), TrimSpace(q.timestamp), TrimSpace(q.nonce), encrypted))
      || (r.error == DecryptFailed
          && VerifySignature(p, c, TrimSpace(q.msgSignature), TrimSpace(q.timestamp), TrimSpace(q.nonce), encrypted)
          && Decrypt(p, c, encrypted).Err?)
  {
    if !VerifySignature(p, c, TrimSpace(q.msgSignature), TrimSpace(q.timestamp), TrimSpace(q.nonce), encrypted) then
      Err(InvalidSignature)
    else
      var plain := Decrypt(p, c, encrypted);
      if plain.Err? then Err(DecryptFailed) else Ok(plain.value)
  }

  /** Open succeeds exactly on a matching signature and a ciphertext that decrypts. */
  lemma OpenSucceedsIff(p: Primitives, c: Crypto, q: Query, encrypted: string)
    ensures Open(p, c, q, encrypted).Ok? <==>
      VerifySignature(p, c, TrimSpace(q.msgSignature), TrimSpace(q.timestamp), TrimSpace(q.nonce), encrypted)
      && Decrypt(p, c, encrypted).Ok?
    ensures !VerifySignature(p, c, TrimSpace(q.msgSignature), TrimSpace(q.timestamp), TrimSpace(q.nonce), encrypted)
      ==> Open(p, c, q, encrypted) == Err(InvalidSignature)
  {
  }

  /**
   * A correctly signed ciphertext that this instance encrypted opens to
   * its plaintext.
   */
  lemma OpenOfEncrypted(p: Primitives, c: Crypto, q: Query, plain: seq<Byte>, random16: seq<Byte>, encrypted: string)
    requires Lawful(p) && ValidAesKey(c.aesKey)
    requires |random16| == 16 && |plain| < Uint32Modulus
    requires Encrypt(p, c, plain, random16) == Ok(encrypted)
    requires TrimSpace(q.msgSignature) == Signature(p, c.token, TrimSpace(q.timestamp), TrimSpace(q.nonce), encrypted)
    ensures Open(p, c, q, encrypted) == Ok(plain)
  {
    DecryptEncrypt(p, c, plain, random16);
  }

  /** From the body bytes to the parsed inner message. */
  function Unwrap(p: Primitives, codec: Codec, c: Crypto, q: Query, bytes: seq<Byte>): (r: Stage)
    ensures r.Rejected? ==> r.response.Reject? && r.response.reason in {BadXml, MissingEncrypt, InvalidSignature, DecryptFailed}
    ensures r.Accepted? ==> codec.parseMessage(r.plain) == Some(r.msg)
  {
    var env := codec.parseEnvelope(bytes);
    if env.None? then Rejected(Reject(BadXml))
    else
      var encrypted := TrimSpace(env.value.encrypt);
      if encrypted == "" then Rejected(Reject(MissingEncrypt))
      else
        var plain := Open(p, c, q, encrypted);
        if plain.Err? then Rejected(Reject(plain.error))
        else
          var msg := codec.parseMessage(plain.value);
          if msg.None? then Rejected(Reject(BadXml))
          else Accepted(msg.value, plain.value)
  }

  /**
   * Everything up to the parsed inner message: the size limit, the read,
   * then Unwrap. A request is accepted only when every stage has passed;
   * each stage's failure has its own reason.
   */
  function Receive(p: Primitives, codec: Codec, c: Crypto, maxBody: int, q: Query, body: Body): (r: Stage)
    ensures r.Rejected? ==> r.response.Reject?
    ensures r.Accepted? ==> codec.parseMessage(r.plain) == Some(r.msg)
  {
    if |body.bytes| > EffectiveLimit(maxBody) then Rejected(Reject(PayloadTooLarge))
    else if body.broken then Rejected(Reject(BadRequest))
    else Unwrap(p, codec, c, q, body.bytes)
  }

  /**
   * A body over the limit is refused with 413 before anything else is
   * looked at; a body at the limit is read, and a transfer that broke off
   * within the limit is a 400.
   */
  lemma BodyLimit(p: Primitives, codec: Codec, c: Crypto, maxBody: int, q: Query, body: Body)
    ensures |body.bytes| > EffectiveLimit(maxBody) ==>
      Receive(p, codec, c, maxBody, q, body) == Rejected(Reject(PayloadTooLarge))
    ensures |body.bytes| <= EffectiveLimit(maxBody) && body.broken ==>
      Receive(p, codec, c, maxBody, q, body) == Rejected(Reject(BadRequest))
    ensures |body.bytes| <= EffectiveLimit(maxBody) && !body.broken ==>
      Receive(p, codec, c, maxBody, q, body) == Unwrap(p, codec, c, q, body.bytes)
  {
  }

  /** Once read, a body is never refused for its size or for a failed read. */
  lemma ReadBodyNotRefusedForSize(p: Primitives, codec: Codec, c: Crypto, maxBody: int, q: Query, body: Body)
    requires |body.bytes| <= EffectiveLimit(maxBody) && !body.broken
    ensures var r := Receive(p, codec, c, maxBody, q, body);
      r.Rejected? ==> r.response.reason != PayloadTooLarge && r.response.reason != BadRequest
  {
    var u := Unwrap(p, codec, c, q, body.bytes);
    assert Receive(p, codec, c, maxBody, q, body) == u;
  }

  /** The reason of each failing stage after the body has been read, in the order the stages run. */
  lemma RejectionReasons(p: Primitives, codec: Codec, c: Crypto, maxBody: int, q: Query, body: Body)
    requires |body.bytes| <= EffectiveLimit(maxBody) && !body.broken
    ensures var env := codec.parseEnvelope(body.bytes);
      var r := Receive(p, codec, c, maxBody, q, body);
      && (env.None? ==> r == Rejected(Reject(BadXml)))
      && (env.Some? && IsBlank(env.value.encrypt) ==> r == Rejected(Reject(MissingEncrypt)))
    ensures var env := codec.parseEnvelope(body.bytes);
      env.Some? && !IsBlank(env.value.encrypt) ==>
        (var opening := Open(p, c, q, TrimSpace(env.value.encrypt));
         var r := Receive(p, codec, c, maxBody, q, body);
         && (opening.Err? ==> r == Rejected(Reject(opening.error)))
         && (opening.Ok? && codec.parseMessage(opening.value).None? ==> r == Rejected(Reject(BadXml)))
         && (opening.Ok? && codec.parseMessage(opening.value).Some? ==>
               r == Accepted(codec.parseMessage(opening.value).value, opening.value)))
  {
    var env := codec.parseEnvelope(body.bytes);
    if env.Some? {
      BlankIffTrimsToEmpty(env.value.encrypt);
    }
  }

  /** Only an authentic request is accepted: every stage passed, and the message is the decrypted one. */
  lemma AcceptedIsAuthentic(p: Primitives, codec: Codec, c: Crypto, maxBody: int, q: Query, body: Body)
    requires Receive(p, codec, c, maxBody, q, body).Accepted?
    ensures |body.bytes| <= EffectiveLimit(maxBody) && !body.broken
    ensures codec.parseEnvelope(body.bytes).Some?
    ensures var e := TrimSpace(codec.parseEnvelope(body.bytes).value.encrypt);
      var r := Receive(p, codec, c, maxBody, q, body);
      && e != ""
      && VerifySignature(p, c, TrimSpace(q.msgSignature), TrimSpace(q.timestamp), TrimSpace(q.nonce), e)
      && Decrypt(p, c, e) == Ok(r.plain)
      && codec.parseMessage(r.plain) == Some(r.msg)
  {
    assert Receive(p, codec, c, maxBody, q, body) == Unwrap(p, codec, c, q, body.bytes);
    var e := TrimSpace(codec.parseEnvelope(body.bytes).value.encrypt);
    assert Open(p, c, q, e).Ok?;
  }

  // ---------------------------------------------------------------------
  // The dedup key

  /**
   * callbackDedupeKey: a task id, else the message id, else the digest
   * of the plaintext, else nothing.
   */
  function DedupeKey(codec: Codec, msg: IncomingMessage, plain: seq<Byte>): (k: string)
    ensures k == "" <==> TrimSpace(msg.taskId) == "" && TrimSpace(msg.msgId) == "" && plain == []
  {
    var user := TrimSpace(msg.fromUserName);
    var tid := TrimSpace(msg.taskId);
    var mid := TrimSpace(msg.msgId);
    if tid != "" then TaskKey(user, tid)
    else if mid != "" then MsgKey(user, mid)
    else if |plain| > 0 then DigestKey(codec.sha256Hex(plain))
    else ""
  }

  /** task:<user>:<task id> */
  function TaskKey(user: string, tid: string): (k: string)
    ensures |k| > 5 && k[..5] == "task:" && k[5..] == user + ":" + tid
  {
    "task:" + (user + ":" + tid)
  }

  /** msg:<user>:<message id> */
  function MsgKey(user: string, mid: string): (k: string)
    ensures |k| > 4 && k[..4] == "msg:" && k[4..] == user + ":" + mid
  {
    "msg:" + (user + ":" + mid)
  }

  /** sha256:<hex digest> */
  function DigestKey(hex: string): (k: string)
    ensures |k| >= 7 && k[..7] == "sha256:" && k[7..] == hex
  {
    "sha256:" + hex
  }

  /**
   * A task id takes precedence: the same trimmed task id from the same
   * trimmed sender gives the same key, whatever the message id and the
   * plaintext.
   */
  lemma TaskIdTakesPrecedence(codec: Codec, a: IncomingMessage, b: IncomingMessage, pa: seq<Byte>, pb: seq<Byte>)
    requires TrimSpace(a.taskId) != "" && TrimSpace(a.taskId) == TrimSpace(b.taskId)
    requires TrimSpace(a.fromUserName) == TrimSpace(b.fromUserName)
    ensures DedupeKey(codec, a, pa) == DedupeKey(codec, b, pb)
  {
  }

  /** Without a task id the trimmed message id and sender decide, whatever the plaintext. */
  lemma MsgIdBeforeDigest(codec: Codec, a: IncomingMessage, b: IncomingMessage, pa: seq<Byte>, pb: seq<Byte>)
    requires TrimSpace(a.taskId) == "" && TrimSpace(b.taskId) == ""
    requires TrimSpace(a.msgId) != "" && TrimSpace(a.msgId) == TrimSpace(b.msgId)
    requires TrimSpace(a.fromUserName) == TrimSpace(b.fromUserName)
    ensures DedupeKey(codec, a, pa) == DedupeKey(codec, b, pb)
  {
  }

  /** Splitting `u + ":" + t` at its first colon recovers u and t when u has no colon. */
  lemma SplitAtColon(u1: string, t1: string, u2: string, t2: string)
    requires ':' !in u1 && ':' !in u2
    requires u1 + ":" + t1 == u2 + ":" + t2
    ensures u1 == u2 && t1 == t2
  {
    var s := u1 + ":" + t1;
    IndexOfAfter(u1, ':', t1);
    IndexOfAfter(u2, ':', t2);
    assert |u1| == |u2|;
    assert u1 == s[..|u1|] == u2;
    assert t1 == s[|u1| + 1..] == t2;
  }

  /**
   * For senders whose ids hold no ':', two task keys agree only for the
   * same sender and the same trimmed task id, so distinct tasks are never
   * taken for repeats of each other.
   */
  lemma TaskKeysDistinguishTasks(codec: Codec, a: IncomingMessage, b: IncomingMessage, pa: seq<Byte>, pb: seq<Byte>)
    requires TrimSpace(a.taskId) != "" && TrimSpace(b.taskId) != ""
    requires ':' !in TrimSpace(a.fromUserName) && ':' !in TrimSpace(b.fromUserName)
    requires DedupeKey(codec, a, pa) == DedupeKey(codec, b, pb)
    ensures TrimSpace(a.fromUserName) == TrimSpace(b.fromUserName) && TrimSpace(a.taskId) == TrimSpace(b.taskId)
  {
    var ua, ta := TrimSpace(a.fromUserName), TrimSpace(a.taskId);
    var ub, tb := TrimSpace(b.fromUserName), TrimSpace(b.taskId);
    assert DedupeKey(codec, a, pa) == TaskKey(ua, ta);
    assert DedupeKey(codec, b, pb) == TaskKey(ub, tb);
    SplitAtColon(ua, ta, ub, tb);
  }

  /**
   * For senders whose ids hold no ':', two message keys agree only for the
   * same sender and the same trimmed message id, so a new message is never
   * dropped as a repeat of another one.
   */
  lemma MsgKeysDistinguishMessages(codec: Codec, a: IncomingMessage, b: IncomingMessage, pa: seq<Byte>, pb: seq<Byte>)
    requires TrimSpace(a.taskId) == "" && TrimSpace(b.taskId) == ""
    requires TrimSpace(a.msgId) != "" && TrimSpace(b.msgId) != ""
    requires ':' !in TrimSpace(a.fromUserName) && ':' !in TrimSpace(b.fromUserName)
    requires DedupeKey(codec, a, pa) == DedupeKey(codec, b, pb)
    ensures TrimSpace(a.fromUserName) == TrimSpace(b.fromUserName) && TrimSpace(a.msgId) == TrimSpace(b.msgId)
  {
    var ua, ma := TrimSpace(a.fromUserName), TrimSpace(a.msgId);
    var ub, mb := TrimSpace(b.fromUserName), TrimSpace(b.msgId);
    assert DedupeKey(codec, a, pa) == MsgKey(ua, ma);
    assert DedupeKey(codec, b, pb) == MsgKey(ub, mb);
    SplitAtColon(ua, ma, ub, mb);
  }

  /** The first character of a key tells which identifier produced it. */
  lemma KeyKind(codec: Codec, m: IncomingMessage, plain: seq<Byte>)
    requires DedupeKey(codec, m, plain) != ""
    ensures var k := DedupeKey(codec, m, plain);
      && (k[0] == 't' <==> TrimSpace(m.taskId) != "")
      && (k[0] == 'm' <==> TrimSpace(m.taskId) == "" && TrimSpace(m.msgId) != "")
  {
  }

  /** Keys of the three kinds never coincide. */
  lemma KeyKindsDisjoint(codec: Codec, a: IncomingMessage, b: IncomingMessage, pa: seq<Byte>, pb: seq<Byte>)
    requires DedupeKey(codec, a, pa) == DedupeKey(codec, b, pb)
    ensures TrimSpace(a.taskId) != "" <==> TrimSpace(b.taskId) != ""
    ensures TrimSpace(a.taskId) == "" && TrimSpace(b.taskId) == "" ==>
      (TrimSpace(a.msgId) != "" <==> TrimSpace(b.msgId) != "")
  {
    if DedupeKey(codec, a, pa) != "" {
      KeyKind(codec, a, pa);
      KeyKind(codec, b, pb);
    }
  }

  // ---------------------------------------------------------------------
  // The whole message handler

  /**
   * The outcome of one request: the response, the message passed to the
   * core (None when the core is not called) and the Deduper's map (None
   * when no Deduper is installed).
   */
  datatype Outcome = Outcome(response: Response, handled: Option<IncomingMessage>, marks: Option<map<string, int>>)

  function CallbackStep(p: Primitives, codec: Codec, c: Crypto, maxBody: int, q: Query, body: Body,
                        marks: Option<map<string, int>>, ttl: int, now: int): (o: Outcome)
    ensures o.handled.Some? ==> o.response == Success
    ensures marks.None? ==> o.marks == None
  {
    var r := Receive(p, codec, c, maxBody, q, body);
    if r.Rejected? then Outcome(r.response, None, marks)
    else
      var key := DedupeKey(codec, r.msg, r.plain);
      if marks.Some? && key != "" then
        var m := SeenOrMarkStep(marks.value, ttl, key, now);
        Outcome(Success, if m.seen then None else Some(r.msg), Some(m.data))
      else Outcome(Success, Some(r.msg), marks)
  }

  /** A request refused by a stage never reaches the core and leaves the Deduper alone. */
  lemma RejectedNeverReachesCore(p: Primitives, codec: Codec, c: Crypto, maxBody: int, q: Query, body: Body,
                                 marks: Option<map<string, int>>, ttl: int, now: int)
    requires Receive(p, codec, c, maxBody, q, body).Rejected?
    ensures CallbackStep(p, codec, c, maxBody, q, body, marks, ttl, now)
         == Outcome(Receive(p, codec, c, maxBody, q, body).response, None, marks)
  {
  }

  /** The core only ever sees the message of an accepted request. */
  lemma HandledWasAccepted(p: Primitives, codec: Codec, c: Crypto, maxBody: int, q: Query, body: Body,
                           marks: Option<map<string, int>>, ttl: int, now: int)
    requires CallbackStep(p, codec, c, maxBody, q, body, marks, ttl, now).handled.Some?
    ensures var r := Receive(p, codec, c, maxBody, q, body);
      r.Accepted? && r.msg == CallbackStep(p, codec, c, maxBody, q, body, marks, ttl, now).handled.value
  {
  }

  /** Without a Deduper every accepted request reaches the core once and is answered "success". */
  lemma NoDeduperDeliversAll(p: Primitives, codec: Codec, c: Crypto, maxBody: int, q: Query, body: Body,
                             ttl: int, now: int)
    requires Receive(p, codec, c, maxBody, q, body).Accepted?
    ensures CallbackStep(p, codec, c, maxBody, q, body, None, ttl, now)
         == Outcome(Success, Some(Receive(p, codec, c, maxBody, q, body).msg), None)
  {
  }

  /** With a Deduper, a delivery whose key is live is answered "success" without reaching the core. */
  lemma LiveKeyIsDropped(p: Primitives, codec: Codec, c: Crypto, maxBody: int, q: Query, body: Body,
                         marks: map<string, int>, ttl: int, now: int)
    requires Receive(p, codec, c, maxBody, q, body).Accepted?
    requires var r := Receive(p, codec, c, maxBody, q, body);
      var key := DedupeKey(codec, r.msg, r.plain);
      key != "" && key in marks && !Expired(marks[key], now)
    ensures CallbackStep(p, codec, c, maxBody, q, body, Some(marks), ttl, now) == Outcome(Success, None, Some(marks))
  {
  }

  /**
   * A request that reached the core, delivered again within the TTL, is
   * answered "success" and does not reach the core a second time.
   */
  lemma RedeliveryWithinTtlIsDropped(p: Primitives, codec: Codec, c: Crypto, maxBody: int, q: Query, body: Body,
                                     marks: map<string, int>, ttl: int, t1: int, t2: int)
    requires var r := Receive(p, codec, c, maxBody, q, body);
      r.Accepted? && DedupeKey(codec, r.msg, r.plain) != ""
    requires CallbackStep(p, codec, c, maxBody, q, body, Some(marks), ttl, t1).handled.Some?
    requires t1 <= t2 <= t1 + ttl
    ensures var o1 := CallbackStep(p, codec, c, maxBody, q, body, Some(marks), ttl, t1);
      CallbackStep(p, codec, c, maxBody, q, body, o1.marks, ttl, t2) == Outcome(Success, None, o1.marks)
  {
    var r := Receive(p, codec, c, maxBody, q, body);
    var key := DedupeKey(codec, r.msg, r.plain);
    var m := SeenOrMarkStep(marks, ttl, key, t1);
    assert !m.seen;
    assert m.data[key] == t1 + ttl;
    LiveKeyIsDropped(p, codec, c, maxBody, q, body, m.data, ttl, t2);
  }

  /** A request whose ciphertext opens to a parsable message reaches the core, absent a Deduper. */
  lemma OpenedMessageIsDelivered(p: Primitives, codec: Codec, c: Crypto, maxBody: int, q: Query,
                                 body: Body, plain: seq<Byte>, msg: IncomingMessage)
    requires |body.bytes| <= EffectiveLimit(maxBody) && !body.broken
    requires codec.parseEnvelope(body.bytes).Some?
    requires var e := TrimSpace(codec.parseEnvelope(body.bytes).value.encrypt);
      e != "" && Open(p, c, q, e) == Ok(plain)
    requires codec.parseMessage(plain) == Some(msg)
    ensures CallbackStep(p, codec, c, maxBody, q, body, None, 0, 0) == Outcome(Success, Some(msg), None)
  {
    assert Receive(p, codec, c, maxBody, q, body) == Accepted(msg, plain);
  }

  /**
   * A correctly signed envelope around a message encrypted for this
   * instance reaches the core (with no Deduper installed) and is answered
   * "success": the stages accept everything the sender side produces.
   */
  lemma SignedEncryptedMessageIsDelivered(p: Primitives, codec: Codec, c: Crypto, maxBody: int, q: Query,
                                          body: Body, plain: seq<Byte>, random16: seq<Byte>, msg: IncomingMessage)
    requires Lawful(p) && ValidAesKey(c.aesKey)
    requires |random16| == 16 && |plain| < Uint32Modulus
    requires |body.bytes| <= EffectiveLimit(maxBody) && !body.broken
    requires codec.parseEnvelope(body.bytes).Some?
    requires var e := codec.parseEnvelope(body.bytes).value.encrypt;
      && Encrypt(p, c, plain, random16) == Ok(e) && e != "" && TrimSpace(e) == e
      && TrimSpace(q.msgSignature) == Signature(p, c.token, TrimSpace(q.timestamp), TrimSpace(q.nonce), e)
    requires codec.parseMessage(plain) == Some(msg)
    ensures CallbackStep(p, codec, c, maxBody, q, body, None, 0, 0) == Outcome(Success, Some(msg), None)
  {
    var e := codec.parseEnvelope(body.bytes).value.encrypt;
    OpenOfEncrypted(p, c, q, plain, random16, e);
    OpenedMessageIsDelivered(p, codec, c, maxBody, q, body, plain, msg);
  }

  /** The message handler with its one effect on the Deduper; `handled` is the core's single call. */
  method Serve(p: Primitives, codec: Codec, c: Crypto, maxBody: int, q: Query, body: Body,
               d: Deduper?, now: int) returns (response: Response, handled: Option<IncomingMessage>)
    modifies d
    ensures var o := CallbackStep(p, codec, c, maxBody, q, body,
                                  if d == null then None else Some(old(d.data)),
                                  if d == null then 0 else d.ttl, now);
      && response == o.response && handled == o.handled
      && (d != null ==> o.marks == Some(d.data))
  {
    var r := Receive(p, codec, c, maxBody, q, body);
    if r.Rejected? {
      return r.response, None;
    }
    var key := DedupeKey(codec, r.msg, r.plain);
    if d != null && key != "" {
      var seen := d.SeenOrMark(key, now);
      if seen {
        return Success, None;
      }
    }
    return Success, Some(r.msg);
  }

  // ---------------------------------------------------------------------
  // The URL verification handler

  /** NewCallbackVerifyHandler: signature over the echostr, then its decryption, echoed back. */
  function VerifyStep(p: Primitives, c: Crypto, q: Query): (r: Response)
    ensures r.Echo? || r == Reject(InvalidSignature) || r == Reject(DecryptFailed)
    ensures r.Echo? ==> Decrypt(p, c, TrimSpace(q.echostr)) == Ok(r.plain)
  {
    match Open(p, c, q, TrimSpace(q.echostr))
    case Err(f) => Reject(f)
    case Ok(plain) => Echo(plain)
  }

  /** A correctly signed echostr encrypted for this instance is answered with its plaintext. */
  lemma VerifyEchoesPlaintext(p: Primitives, c: Crypto, q: Query, plain: seq<Byte>, random16: seq<Byte>)
    requires Lawful(p) && ValidAesKey(c.aesKey)
    requires |random16| == 16 && |plain| < Uint32Modulus
    requires Encrypt(p, c, plain, random16) == Ok(TrimSpace(q.echostr))
    requires TrimSpace(q.msgSignature) == Signature(p, c.token, TrimSpace(q.timestamp), TrimSpace(q.nonce), TrimSpace(q.echostr))
    ensures VerifyStep(p, c, q) == Echo(plain)
  {
    OpenOfEncrypted(p, c, q, plain, random16, TrimSpace(q.echostr));
  }

  /** A wrong signature is refused before any decryption. */
  lemma VerifyRefusesBadSignature(p: Primitives, c: Crypto, q: Query)
    requires !VerifySignature(p, c, TrimSpace(q.msgSignature), TrimSpace(q.timestamp), TrimSpace(q.nonce), TrimSpace(q.echostr))
    ensures VerifyStep(p, c, q) == Reject(InvalidSignature)
  {
  }
}
