/** The REST client (kis/rest.py): the credential cache kept between calls,
    the retry bound of every request, and the transaction-id and field
    choices of the two account calls the trading loops use. The HTTP
    exchange itself is an input: each call receives the outcome of the
    request it would have sent, and each clock reading is a parameter. */
module Rest {
  import opened Util

  /** The exceptions the client raises, by cause. */
  datatype RestError =
    | RequestFailed      // `_request` gave up after its last attempt
    | BadNumber          // `int()` or `float()` rejected a response field
    | TokenMissing       // no access_token in the token response
    | ApprovalKeyMissing // no approval_key in the approval response
    | CashMissing        // neither buying-power key in the response
    | HashkeyMissing     // no HASH in the hashkey response
    | OrderFailed        // every order transaction id was refused

  // ---------------------------------------------------------------------------
  // `_request`: the retry bound
  // ---------------------------------------------------------------------------

  /** One HTTP attempt: it raised before a response (connection error,
      timeout), or it produced a status and a body text. */
  datatype Attempt = Raised | Response(status: int, text: string)

  /** The outcome of attempt `k`; attempts past the end of the input raise. */
  function AttemptAt(attempts: seq<Attempt>, k: nat): Attempt {
    if k < |attempts| then attempts[k] else Raised
  }

  /** What one attempt yields: nothing when it raised, when the status is
      400 or more, or when the body does not parse; the empty object for an
      empty body; the parsed body otherwise. */
  function AttemptBody<B>(a: Attempt, parse: string -> Option<B>, empty: B): Option<B> {
    match a
    case Raised => None
    case Response(status, text) =>
      if status >= 400 then None
      else if text == "" then Some(empty)
      else parse(text)
  }

  /** `_request(..., retry=retry)`: up to `retry + 1` attempts, returning the
      body of the first one that yields a body. `made` is the number of
      attempts made. */
  method Request<B>(attempts: seq<Attempt>, retry: nat, parse: string -> Option<B>, empty: B)
    returns (r: Result<B, RestError>, made: nat)
    ensures 1 <= made <= retry + 1
    ensures forall k :: 0 <= k < made - 1 ==> AttemptBody(AttemptAt(attempts, k), parse, empty).None?
    ensures r.Success? ==> AttemptBody(AttemptAt(attempts, made - 1), parse, empty) == Some(r.value)
    ensures r.Failure? ==>
      r.error == RequestFailed && made == retry + 1
      && AttemptBody(AttemptAt(attempts, made - 1), parse, empty).None?
  {
    made := 0;
    while made < retry + 1
      invariant made <= retry + 1
      invariant forall k :: 0 <= k < made ==> AttemptBody(AttemptAt(attempts, k), parse, empty).None?
    {
      var body := AttemptBody(AttemptAt(attempts, made), parse, empty);
      made := made + 1;
      if body.Some? {
        return Success(body.value), made;
      }
    }
    r := Failure(RequestFailed);
  }

  // ---------------------------------------------------------------------------
  // Access token and approval key cache
  // ---------------------------------------------------------------------------

  /** `_access_token`, `_token_expire_at`, `_approval_key`. Times are whole
      seconds. */
  datatype Credentials = Credentials(accessToken: Option<string>, expireAt: int, approvalKey: Option<string>)

  const EmptyCache := Credentials(None, 0, None)

  /** A cached value is used when it is present and non-empty. */
  predicate Truthy(v: Option<string>) {
    v.Some? && v.value != ""
  }

  /** Seconds before expiry from which a cached token is no longer used. */
  const ExpiryMargin: int := 30
  /** Lower bound on the lifetime given to a fetched token. */
  const MinLifetime: int := 60

  /** The cached token serves a call at clock reading `now`. */
  predicate TokenHit(c: Credentials, now: int) {
    Truthy(c.accessToken) && now < c.expireAt - ExpiryMargin
  }

  /** The token response: its access_token ("" when absent) and the text of
      its expires_in (None when absent). */
  datatype TokenReply = TokenReply(accessToken: string, expiresIn: Option<string>)

  /** `int(res.get("expires_in", 0)) or 0`; None when `int()` raises. */
  function ExpiresIn(reply: TokenReply): Option<int> {
    match reply.expiresIn
    case None => Some(0)
    case Some(t) => ParseInt(t)
  }

  function Max(a: int, b: int): int {
    if a >= b then a else b
  }

  /** The new cache, the call's outcome, and whether a request was sent. */
  datatype Outcome = Outcome(cache: Credentials, result: Result<string, RestError>, requested: bool)

  /** `get_access_token()` at clock reading `now`; `res` is the outcome of
      the token request and `doneAt` the clock when it completed. */
  function AccessTokenStep(c: Credentials, now: int, res: Result<TokenReply, RestError>, doneAt: int): (o: Outcome)
    ensures o.requested <==> !TokenHit(c, now)
    ensures !o.requested ==> o.cache == c && o.result == Success(c.accessToken.value)
    ensures o.result.Failure? ==> o.cache == c
    ensures o.cache.approvalKey == c.approvalKey
  {
    if TokenHit(c, now) then Outcome(c, Success(c.accessToken.value), false)
    else match res
      case Failure(e) => Outcome(c, Failure(e), true)
      case Success(reply) =>
        match ExpiresIn(reply)
        case None => Outcome(c, Failure(BadNumber), true)
        case Some(e) =>
          if reply.accessToken == "" then Outcome(c, Failure(TokenMissing), true)
          else Outcome(
            c.(accessToken := Some(reply.accessToken), expireAt := doneAt + Max(MinLifetime, e)),
            Success(reply.accessToken), true)
  }

  /** `get_approval_key()`; `res` is the approval response's approval_key
      ("" when absent), or the request's failure. */
  function ApprovalKeyStep(c: Credentials, res: Result<string, RestError>): (o: Outcome)
    ensures o.requested <==> !Truthy(c.approvalKey)
    ensures !o.requested ==> o.cache == c && o.result == Success(c.approvalKey.value)
    ensures o.requested && res.Success? && res.value != "" ==>
      o.result == Success(res.value) && o.cache == c.(approvalKey := Some(res.value))
    ensures o.requested && (res.Failure? || res.value == "") ==> o.result.Failure? && o.cache == c
    ensures o.result.Success? ==> o.cache.approvalKey == Some(o.result.value) && o.result.value != ""
    ensures o.cache.accessToken == c.accessToken && o.cache.expireAt == c.expireAt
  {
    if Truthy(c.approvalKey) then Outcome(c, Success(c.approvalKey.value), false)
    else match res
      case Failure(e) => Outcome(c, Failure(e), true)
      case Success(key) =>
        if key == "" then Outcome(c, Failure(ApprovalKeyMissing), true)
        else Outcome(c.(approvalKey := Some(key)), Success(key), true)
  }

  /** `force_refresh_tokens()`: clear all three fields, then fetch the token
      and, if that succeeded, the approval key. The error is the first
      exception raised, if any. */
  function ForceRefreshStep(
    c: Credentials, now: int, tokenRes: Result<TokenReply, RestError>, doneAt: int,
    keyRes: Result<string, RestError>): (r: (Credentials, Option<RestError>))
    ensures r.0.accessToken.Some? ==> tokenRes.Success? && r.0.accessToken.value == tokenRes.value.accessToken
    ensures r.0.approvalKey.Some? ==> keyRes.Success? && r.0.approvalKey.value == keyRes.value
    ensures r.1.Some? ==> r.0.approvalKey.None?
  {
    var o1 := AccessTokenStep(EmptyCache, now, tokenRes, doneAt);
    if o1.result.Failure? then (o1.cache, Some(o1.result.error))
    else
      var o2 := ApprovalKeyStep(o1.cache, keyRes);
      (o2.cache, if o2.result.Failure? then Some(o2.result.error) else None)
  }

  /** The token call sends no request exactly when the cached token is
      present and more than 30 seconds from expiry, and then returns it and
      keeps the cache. */
  lemma AccessTokenCacheHit(c: Credentials, now: int, res: Result<TokenReply, RestError>, doneAt: int)
    ensures var o := AccessTokenStep(c, now, res, doneAt);
      && (o.requested <==> !(Truthy(c.accessToken) && now < c.expireAt - 30))
      && (!o.requested ==> o.cache == c && o.result == Success(c.accessToken.value))
  {
  }

  /** A fetched token is cached with expiry `doneAt + max(60, expires_in)`,
      the approval key is kept, and the returned token is the cached one; a
      failed fetch changes nothing. */
  lemma AccessTokenFetch(c: Credentials, now: int, res: Result<TokenReply, RestError>, doneAt: int)
    requires !TokenHit(c, now)
    ensures var o := AccessTokenStep(c, now, res, doneAt);
      && (o.result.Success? <==>
            res.Success? && res.value.accessToken != "" && ExpiresIn(res.value).Some?)
      && (o.result.Success? ==>
            o.cache == Credentials(Some(o.result.value), doneAt + Max(60, ExpiresIn(res.value).value), c.approvalKey)
            && o.result.value == res.value.accessToken)
      && (o.result.Failure? ==> o.cache == c)
  {
  }

  /** A token that was just fetched serves every call made within 30
      seconds of the fetch completing, without a new request. */
  lemma FreshTokenServed(c: Credentials, now: int, res: Result<TokenReply, RestError>, doneAt: int,
                         later: int, res2: Result<TokenReply, RestError>, doneAt2: int)
    requires var o := AccessTokenStep(c, now, res, doneAt); o.requested && o.result.Success?
    requires later < doneAt + 30
    ensures var o := AccessTokenStep(c, now, res, doneAt);
      var o2 := AccessTokenStep(o.cache, later, res2, doneAt2);
      !o2.requested && o2.result == o.result
  {
  }

  /** `get_approval_key()` requests only when no key is cached; a missing
      key in the response raises and caches nothing; once a key is cached,
      the next call returns it without a request, whatever it would get. */
  lemma ApprovalKeyCache(c: Credentials, res: Result<string, RestError>, res2: Result<string, RestError>)
    ensures var o := ApprovalKeyStep(c, res);
      && (o.requested <==> !Truthy(c.approvalKey))
      && (o.result.Success? ==> o.cache.approvalKey == Some(o.result.value) && o.result.value != "")
      && (o.result.Failure? ==> o.cache == c)
      && o.cache.accessToken == c.accessToken && o.cache.expireAt == c.expireAt
    ensures var o := ApprovalKeyStep(c, res);
      var o2 := ApprovalKeyStep(o.cache, res2);
      o.result.Success? ==> !o2.requested && o2.result == o.result && o2.cache == o.cache
  {
  }

  /** A forced refresh always requests a new token whatever was cached. On
      success the cache holds exactly the two fetched credentials; when the
      token fetch fails, nothing at all is cached afterwards. */
  lemma {:induction false} ForceRefreshFetches(
    c: Credentials, c2: Credentials, now: int, tokenRes: Result<TokenReply, RestError>, doneAt: int,
    keyRes: Result<string, RestError>)
    ensures AccessTokenStep(EmptyCache, now, tokenRes, doneAt).requested
    ensures ForceRefreshStep(c, now, tokenRes, doneAt, keyRes) == ForceRefreshStep(c2, now, tokenRes, doneAt, keyRes)
    ensures var (cache, err) := ForceRefreshStep(c, now, tokenRes, doneAt, keyRes);
      && (err.None? ==>
            tokenRes.Success? && keyRes.Success?
            && cache.accessToken == Some(tokenRes.value.accessToken)
            && cache.approvalKey == Some(keyRes.value))
      && (AccessTokenStep(EmptyCache, now, tokenRes, doneAt).result.Failure? ==> cache == EmptyCache)
  {
    var o1 := AccessTokenStep(EmptyCache, now, tokenRes, doneAt);
    assert !TokenHit(EmptyCache, now);
    if o1.result.Success? {
      AccessTokenFetch(EmptyCache, now, tokenRes, doneAt);
      ApprovalKeyCache(o1.cache, keyRes, keyRes);
    }
  }

  /** The client object: its account environment and the credential cache
      it updates in place. */
  class KisRest {
    const env: string
    var accessToken: Option<string>
    var tokenExpireAt: int
    var approvalKey: Option<string>

    constructor(env: string)
      ensures this.env == env && Cache() == EmptyCache
    {
      this.env := env;
      accessToken := None;
      tokenExpireAt := 0;
      approvalKey := None;
    }

    function Cache(): Credentials
      reads this
    {
      Credentials(accessToken, tokenExpireAt, approvalKey)
    }

    /** `get_access_token()`. */
    method GetAccessToken(now: int, res: Result<TokenReply, RestError>, doneAt: int)
      returns (r: Result<string, RestError>, requested: bool)
      modifies this
      ensures var o := AccessTokenStep(old(Cache()), now, res, doneAt);
        Cache() == o.cache && r == o.result && requested == o.requested
    {
      if accessToken.Some? && accessToken.value != "" && now < tokenExpireAt - ExpiryMargin {
        return Success(accessToken.value), false;
      }
      requested := true;
      match res {
        case Failure(e) =>
          r := Failure(e);
        case Success(reply) =>
          var expiresIn := ExpiresIn(reply);
          if expiresIn.None? {
            r := Failure(BadNumber);
          } else if reply.accessToken == "" {
            r := Failure(TokenMissing);
          } else {
            accessToken := Some(reply.accessToken);
            tokenExpireAt := doneAt + Max(MinLifetime, expiresIn.value);
            r := Success(reply.accessToken);
          }
      }
    }

    /** `get_approval_key()`. */
    method GetApprovalKey(res: Result<string, RestError>)
      returns (r: Result<string, RestError>, requested: bool)
      modifies this
      ensures var o := ApprovalKeyStep(old(Cache()), res);
        Cache() == o.cache && r == o.result && requested == o.requested
    {
      if approvalKey.Some? && approvalKey.value != "" {
        return Success(approvalKey.value), false;
      }
      requested := true;
      match res {
        case Failure(e) =>
          r := Failure(e);
        case Success(key) =>
          if key == "" {
            r := Failure(ApprovalKeyMissing);
          } else {
            approvalKey := Some(key);
            r := Success(key);
          }
      }
    }

    /** `force_refresh_tokens()`. */
    method ForceRefreshTokens(now: int, tokenRes: Result<TokenReply, RestError>, doneAt: int,
                              keyRes: Result<string, RestError>)
      returns (err: Option<RestError>)
      modifies this
      ensures (Cache(), err) == ForceRefreshStep(old(Cache()), now, tokenRes, doneAt, keyRes)
    {
      accessToken := None;
      tokenExpireAt := 0;
      approvalKey := None;
      var t, _ := GetAccessToken(now, tokenRes, doneAt);
      if t.Failure? {
        return Some(t.error);
      }
      var k, _ := GetApprovalKey(keyRes);
      err := if k.Failure? then Some(k.error) else None;
    }
  }

  // ---------------------------------------------------------------------------
  // Buying power
  // ---------------------------------------------------------------------------

  const VtsCashTrId := "VTTC8908R"
  const ProdCashTrId := "TTTC8908R"

  /** The transaction id of `inquire_psbl_cash`. */
  function CashTrId(env: string): (r: string)
    ensures r == VtsCashTrId <==> env == "vts"
    ensures r == ProdCashTrId <==> env != "vts"
  {
    if env == "vts" then VtsCashTrId else ProdCashTrId
  }

  /** `int(float(v))`. */
  function IntOfFloat(v: string): Result<int, RestError> {
    match ParseFloat(v)
    case None => Failure(BadNumber)
    case Some(x) => Success(Trunc(x))
  }

  /** The buying power read from the response's `output` object (the empty
      map when absent or empty): the first present of ord_psbl_cash and
      ORD_PSBL_CASH. */
  function PsblCash(output: map<string, string>): (r: Result<int, RestError>)
    ensures r != Failure(CashMissing) <==> "ord_psbl_cash" in output || "ORD_PSBL_CASH" in output
  {
    if "ord_psbl_cash" in output then IntOfFloat(output["ord_psbl_cash"])
    else if "ORD_PSBL_CASH" in output then IntOfFloat(output["ORD_PSBL_CASH"])
    else Failure(CashMissing)
  }

  /** The lower-case key wins when both are present; with neither present
      the call raises; a decimal rendering of an amount reads back as that
      amount. */
  lemma PsblCashKeys(output: map<string, string>, n: nat)
    ensures "ord_psbl_cash" in output ==> PsblCash(output) == IntOfFloat(output["ord_psbl_cash"])
    ensures "ord_psbl_cash" !in output && "ORD_PSBL_CASH" in output ==>
      PsblCash(output) == IntOfFloat(output["ORD_PSBL_CASH"])
    ensures PsblCash(output) != Failure(CashMissing) <==> "ord_psbl_cash" in output || "ORD_PSBL_CASH" in output
    ensures PsblCash(map["ord_psbl_cash" := NatToString(n)]) == Success(n)
  {
    var s := NatToString(n);
    ParseIntRoundTrip(n);
    ParseFloatExtendsParseInt(s);
  }

  // ---------------------------------------------------------------------------
  // Cash orders
  // ---------------------------------------------------------------------------

  /** The (buy, sell) transaction-id pairs `order_cash` tries, in order. */
  function OrderCandidates(env: string): (r: seq<(string, string)>)
    ensures |r| == 2
  {
    if env == "vts" then [("VTTC0012U", "VTTC0011U"), ("VTTC0802U", "VTTC0801U")]
    else [("TTTC0012U", "TTTC0011U"), ("TTTC0802U", "TTTC0801U")]
  }

  function OrderTrId(pair: (string, string), side: string): string {
    if side == "buy" then pair.0 else pair.1
  }

  /** `out.get("ODNO") or out.get("odno")`, with "" standing for absent. */
  function OrderNo(output: map<string, string>): Option<string> {
    if "ODNO" in output && output["ODNO"] != "" then Some(output["ODNO"])
    else if "odno" in output && output["odno"] != "" then Some(output["odno"])
    else None
  }

  /** `hashkey(body)`: the HASH field of the response ("" when absent). */
  function Hashkey(res: Result<string, RestError>): Result<string, RestError> {
    match res
    case Failure(e) => Failure(e)
    case Success(h) => if h == "" then Failure(HashkeyMissing) else Success(h)
  }

  /** The order response for candidate `k`; a missing one is a failed
      request. */
  function ReplyAt(replies: seq<Result<map<string, string>, RestError>>, k: nat): Result<map<string, string>, RestError> {
    if k < |replies| then replies[k] else Failure(RequestFailed)
  }

  /** The candidate's reply carries an order number. */
  predicate Accepted(replies: seq<Result<map<string, string>, RestError>>, k: nat) {
    ReplyAt(replies, k).Success? && OrderNo(ReplyAt(replies, k).value).Some?
  }

  /** `order_cash(side, ...)`: compute the hashkey once, then try the
      candidates in order with the buy id when `side == "buy"` and the sell
      id otherwise; return the first order number. `sent` lists the
      (tr_id, hashkey) headers of the orders sent. */
  method OrderCash(env: string, side: string, hashRes: Result<string, RestError>,
                   replies: seq<Result<map<string, string>, RestError>>)
    returns (r: Result<string, RestError>, sent: seq<(string, string)>)
    ensures Hashkey(hashRes).Failure? ==> r == Hashkey(hashRes) && sent == []
    ensures Hashkey(hashRes).Success? ==>
      && 1 <= |sent| <= 2
      && (forall k :: 0 <= k < |sent| ==>
            sent[k] == (OrderTrId(OrderCandidates(env)[k], side), Hashkey(hashRes).value))
      && (forall k :: 0 <= k < |sent| - 1 ==> !Accepted(replies, k))
      && (r.Success? <==> Accepted(replies, |sent| - 1))
      && (r.Success? ==> Some(r.value) == OrderNo(ReplyAt(replies, |sent| - 1).value))
      && (r.Failure? ==> r.error == OrderFailed && |sent| == 2)
  {
    var hk := Hashkey(hashRes);
    if hk.Failure? {
      return hk, [];
    }
    var candidates := OrderCandidates(env);
    sent := [];
    var i := 0;
    while i < |candidates|
      invariant 0 <= i <= 2 && |sent| == i
      invariant forall k :: 0 <= k < i ==> sent[k] == (OrderTrId(candidates[k], side), hk.value)
      invariant forall k :: 0 <= k < i ==> !Accepted(replies, k)
    {
      var trId := if side == "buy" then candidates[i].0 else candidates[i].1;
      sent := sent + [(trId, hk.value)];
      var reply := ReplyAt(replies, i);
      if reply.Success? && OrderNo(reply.value).Some? {
        return Success(OrderNo(reply.value).value), sent;
      }
      i := i + 1;
    }
    r := Failure(OrderFailed);
  }

  /** The transaction ids in the order they are tried, per venue and side. */
  lemma OrderTrIds(env: string, side: string)
    ensures var ids := [OrderTrId(OrderCandidates(env)[0], side), OrderTrId(OrderCandidates(env)[1], side)];
      ids == (if env == "vts" then
                (if side == "buy" then ["VTTC0012U", "VTTC0802U"] else ["VTTC0011U", "VTTC0801U"])
              else
                (if side == "buy" then ["TTTC0012U", "TTTC0802U"] else ["TTTC0011U", "TTTC0801U"]))
  {
  }
}
