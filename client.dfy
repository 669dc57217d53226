/**
 * The WeCom API client: an access-token cache in front of the
 * "gettoken" call, and message sending through "message/send".
 *
 * The two HTTP round trips are parameters: an `Exchange` is either a
 * failure (the request could not be built or sent, or its JSON body could
 * not be decoded) or the decoded body. The client records the requests it
 * makes, in order, so that "no fetch happened" is a statement about that
 * log. The clock is the `now` parameter, in nanoseconds.
 */
module WeComClient {
  import opened Wrappers
  import opened Clock
  import opened Text
  import opened Message

  datatype ClientConfig = ClientConfig(apiBaseURL: string, corpId: string, agentId: int, secret: string)

  /** The decoded body of a gettoken reply. */
  datatype TokenReply = TokenReply(errCode: int, errMsg: string, accessToken: string, expiresIn: int)

  /** The decoded body of a message/send reply. */
  datatype SendReply = SendReply(errCode: int, errMsg: string)

  /** One HTTP round trip as the client sees it. */
  datatype Exchange<T> = Failed(reason: string) | Answered(body: T)

  datatype ClientError =
    | Transport(reason: string)
    | TokenApiError(code: int, msg: string)
    | TokenEmpty
    | ApiError(code: int, msg: string)

  /** The requests the client puts on the wire. */
  datatype Request =
    | TokenRequest(corpId: string, secret: string)
    | SendRequest(token: string, payload: Value)

  /** A cached token is reused only while it is more than two minutes from expiry. */
  const TokenMargin: int := 2 * Minute

  datatype TokenCache = TokenCache(token: string, exp: int)

  predicate Usable(cache: TokenCache, now: int) {
    cache.token != "" && now < cache.exp - TokenMargin
  }

  /** What one getAccessToken call returns and leaves in the cache, and whether it fetched. */
  datatype TokenOutcome = TokenOutcome(result: Result<string, ClientError>, cache: TokenCache, fetched: bool)

  /** getAccessToken, as a function of the cache and the gettoken exchange it would make. */
  function TokenStep(cache: TokenCache, now: int, fetch: Exchange<TokenReply>): (o: TokenOutcome)
    ensures o.fetched <==> !Usable(cache, now)
    ensures o.result.Ok? ==> o.result.value != "" && o.cache.token == o.result.value
    ensures o.result.Err? ==> o.cache == cache
    ensures !o.fetched ==> o.result == Ok(cache.token) && o.cache == cache
  {
    if Usable(cache, now) then TokenOutcome(Ok(cache.token), cache, false)
    else match fetch
      case Failed(reason) => TokenOutcome(Err(Transport(reason)), cache, true)
      case Answered(b) =>
        if b.errCode != 0 then TokenOutcome(Err(TokenApiError(b.errCode, b.errMsg)), cache, true)
        else if b.accessToken == "" || b.expiresIn == 0 then TokenOutcome(Err(TokenEmpty), cache, true)
        else TokenOutcome(Ok(b.accessToken), TokenCache(b.accessToken, now + b.expiresIn * Second), true)
  }

  /** A fetch that succeeds caches the fetched token for expires_in seconds from now. */
  lemma SuccessfulFetchCaches(cache: TokenCache, now: int, b: TokenReply)
    requires !Usable(cache, now)
    requires b.errCode == 0 && b.accessToken != "" && b.expiresIn != 0
    ensures TokenStep(cache, now, Answered(b)) ==
      TokenOutcome(Ok(b.accessToken), TokenCache(b.accessToken, now + b.expiresIn * Second), true)
  {
  }

  /** A fetch answered with an error code, an empty token or a zero lifetime is an error. */
  lemma RejectedFetchFails(cache: TokenCache, now: int, b: TokenReply)
    requires !Usable(cache, now)
    requires b.errCode != 0 || b.accessToken == "" || b.expiresIn == 0
    ensures TokenStep(cache, now, Answered(b)).result.Err?
  {
  }

  /**
   * After a successful fetch of a token living `expiresIn` seconds, every
   * call made before the two-minute margin is served from the cache, so
   * the second of two sends in that window does not fetch.
   */
  lemma FetchedTokenIsReused(cache: TokenCache, t1: int, fetch: Exchange<TokenReply>,
                             t2: int, fetch2: Exchange<TokenReply>)
    requires var o := TokenStep(cache, t1, fetch); o.fetched && o.result.Ok?
    requires fetch.Answered? && t1 <= t2 < t1 + fetch.body.expiresIn * Second - TokenMargin
    ensures var o := TokenStep(cache, t1, fetch);
      TokenStep(o.cache, t2, fetch2) == TokenOutcome(o.result, o.cache, false)
  {
  }

  /** The message/send payload of a text message. */
  function TextPayload(agentId: int, toUser: string, content: string): Value {
    Obj(map[
      "touser" := Str(toUser),
      "msgtype" := Str("text"),
      "agentid" := Int(agentId),
      "text" := Obj(map["content" := Str(content)])])
  }

  /** The message/send payload of a template card. */
  function CardPayload(agentId: int, toUser: string, card: TemplateCard): Value {
    Obj(map[
      "touser" := Str(toUser),
      "msgtype" := Str("template_card"),
      "agentid" := Int(agentId),
      "template_card" := Obj(card)])
  }

  datatype SendOutcome = SendOutcome(err: Option<ClientError>, cache: TokenCache, requests: seq<Request>)

  /** sendMessage: a token, then one message/send request carrying it. */
  function SendStep(cfg: ClientConfig, cache: TokenCache, now: int, fetch: Exchange<TokenReply>,
                    send: Exchange<SendReply>, payload: Value): (o: SendOutcome)
    ensures o.cache == TokenStep(cache, now, fetch).cache
  {
    var t := TokenStep(cache, now, fetch);
    var fetches := if t.fetched then [TokenRequest(cfg.corpId, cfg.secret)] else [];
    match t.result
    case Err(e) => SendOutcome(Some(e), t.cache, fetches)
    case Ok(token) =>
      var requests := fetches + [SendRequest(token, payload)];
      match send
      case Failed(reason) => SendOutcome(Some(Transport(reason)), t.cache, requests)
      case Answered(b) =>
        if b.errCode != 0 then SendOutcome(Some(ApiError(b.errCode, b.errMsg)), t.cache, requests)
        else SendOutcome(None, t.cache, requests)
  }

  /**
   * A token failure is returned as it is and nothing is sent; otherwise
   * exactly one send goes out, carrying the token, and a non-zero errcode
   * in its reply is an error.
   */
  lemma SendStepOutcomes(cfg: ClientConfig, cache: TokenCache, now: int, fetch: Exchange<TokenReply>,
                         send: Exchange<SendReply>, payload: Value)
    ensures var t := TokenStep(cache, now, fetch);
      var o := SendStep(cfg, cache, now, fetch, send, payload);
      && (t.result.Err? ==>
            && o.err == Some(t.result.error)
            && forall i :: 0 <= i < |o.requests| ==> o.requests[i].TokenRequest?)
      && (t.result.Ok? ==>
            && o.requests[|o.requests| - 1] == SendRequest(t.result.value, payload)
            && (o.err.None? <==> send.Answered? && send.body.errCode == 0))
  {
  }

  /**
   * Two sends at t1 <= t2 within the token's lifetime (less the margin)
   * fetch the token once: the first send's log starts with the fetch, the
   * second's holds only the send.
   */
  lemma TwoSendsOneFetch(cfg: ClientConfig, cache: TokenCache, t1: int, t2: int, b: TokenReply,
                         fetch2: Exchange<TokenReply>, send1: Exchange<SendReply>, send2: Exchange<SendReply>,
                         p1: Value, p2: Value)
    requires !Usable(cache, t1)
    requires b.errCode == 0 && b.accessToken != "" && b.expiresIn != 0
    requires t1 <= t2 < t1 + b.expiresIn * Second - TokenMargin
    ensures var o1 := SendStep(cfg, cache, t1, Answered(b), send1, p1);
      var o2 := SendStep(cfg, o1.cache, t2, fetch2, send2, p2);
      && o1.requests == [TokenRequest(cfg.corpId, cfg.secret), SendRequest(b.accessToken, p1)]
      && o2.requests == [SendRequest(b.accessToken, p2)]
  {
    SuccessfulFetchCaches(cache, t1, b);
    var c1 := TokenCache(b.accessToken, t1 + b.expiresIn * Second);
    assert SendStep(cfg, cache, t1, Answered(b), send1, p1).cache == c1;
    assert Usable(c1, t2);
  }

  // ---------------------------------------------------------------------
  // task_id default of SendTemplateCard

  const TaskIdPrefix: string := "daily-help-"

  /** The card with a task_id: the existing one, else "daily-help-" and the decimal nanosecond clock. */
  function WithTaskId(card: TemplateCard, now: int): (r: TemplateCard)
    ensures "task_id" in r
    ensures "task_id" in card ==> r == card
    ensures "task_id" !in card ==> r["task_id"] == Str(TaskIdPrefix + IntToDecimal(now))
    ensures forall k :: k in card ==> k in r && (k != "task_id" ==> r[k] == card[k])
    ensures forall k :: k in r ==> k in card || k == "task_id"
  {
    if "task_id" in card then card else card["task_id" := Str(TaskIdPrefix + IntToDecimal(now))]
  }

  /** The default task_id carries the clock reading it was made from. */
  lemma DefaultTaskIdEncodesClock(card: TemplateCard, now: nat)
    requires "task_id" !in card
    ensures var id := WithTaskId(card, now)["task_id"];
      id.Str? && |id.s| > |TaskIdPrefix| && id.s[..|TaskIdPrefix|] == TaskIdPrefix
      && DecimalValue(id.s[|TaskIdPrefix|..]) == now
  {
    var id := TaskIdPrefix + NatToDecimal(now);
    assert id[|TaskIdPrefix|..] == NatToDecimal(now);
    DecimalRoundTrip(now);
  }

  /** A template-card message; sending it may add the task_id to its card in place. */
  class CardMessage {
    const toUser: string
    var card: TemplateCard

    constructor (toUser: string, card: TemplateCard)
      ensures this.toUser == toUser && this.card == card
    {
      this.toUser := toUser;
      this.card := card;
    }
  }

  class Client {
    const cfg: ClientConfig
    var accessToken: string
    var accessTokenExp: int
    /** Every request put on the wire, in order. */
    var requests: seq<Request>

    constructor (cfg: ClientConfig)
      ensures this.cfg == cfg && accessToken == "" && requests == []
    {
      this.cfg := cfg;
      accessToken := "";
      accessTokenExp := 0;
      requests := [];
    }

    function Cache(): TokenCache
      reads this
    {
      TokenCache(accessToken, accessTokenExp)
    }

    /** getAccessToken */
    method GetAccessToken(now: int, fetch: Exchange<TokenReply>) returns (r: Result<string, ClientError>)
      modifies this
      ensures var o := TokenStep(old(Cache()), now, fetch);
        && r == o.result && Cache() == o.cache
        && requests == old(requests) + (if o.fetched then [TokenRequest(cfg.corpId, cfg.secret)] else [])
    {
      if accessToken != "" && now < accessTokenExp - TokenMargin {
        return Ok(accessToken);
      }
      requests := requests + [TokenRequest(cfg.corpId, cfg.secret)];
      match fetch {
        case Failed(reason) =>
          return Err(Transport(reason));
        case Answered(b) =>
          if b.errCode != 0 {
            return Err(TokenApiError(b.errCode, b.errMsg));
          }
          if b.accessToken == "" || b.expiresIn == 0 {
            return Err(TokenEmpty);
          }
          accessToken := b.accessToken;
          accessTokenExp := now + b.expiresIn * Second;
          return Ok(b.accessToken);
      }
    }

    /** sendMessage */
    method SendMessage(now: int, fetch: Exchange<TokenReply>, send: Exchange<SendReply>, payload: Value)
      returns (err: Option<ClientError>)
      modifies this
      ensures var o := SendStep(cfg, old(Cache()), now, fetch, send, payload);
        && err == o.err && Cache() == o.cache && requests == old(requests) + o.requests
    {
      var token := GetAccessToken(now, fetch);
      if token.Err? {
        return Some(token.error);
      }
      requests := requests + [SendRequest(token.value, payload)];
      match send {
        case Failed(reason) =>
          return Some(Transport(reason));
        case Answered(b) =>
          if b.errCode != 0 {
            return Some(ApiError(b.errCode, b.errMsg));
          }
          return None;
      }
    }

    /** SendText */
    method SendText(now: int, fetch: Exchange<TokenReply>, send: Exchange<SendReply>, toUser: string, content: string)
      returns (err: Option<ClientError>)
      modifies this
      ensures var o := SendStep(cfg, old(Cache()), now, fetch, send, TextPayload(cfg.agentId, toUser, content));
        && err == o.err && Cache() == o.cache && requests == old(requests) + o.requests
    {
      err := SendMessage(now, fetch, send, TextPayload(cfg.agentId, toUser, content));
    }

    /** SendTemplateCard: the card gains a default task_id in place, then is sent. */
    method SendTemplateCard(now: int, fetch: Exchange<TokenReply>, send: Exchange<SendReply>, msg: CardMessage)
      returns (err: Option<ClientError>)
      modifies this, msg
      ensures msg.card == WithTaskId(old(msg.card), now)
      ensures var o := SendStep(cfg, old(Cache()), now, fetch, send, CardPayload(cfg.agentId, msg.toUser, msg.card));
        && err == o.err && Cache() == o.cache && requests == old(requests) + o.requests
    {
      if "task_id" !in msg.card {
        msg.card := msg.card["task_id" := Str(TaskIdPrefix + IntToDecimal(now))];
      }
      err := SendMessage(now, fetch, send, CardPayload(cfg.agentId, msg.toUser, msg.card));
    }
  }
}
