/** The stream client (kis/ws.py): how each incoming frame updates the
    tables the receive loop keeps (encryption keys, the latest order book and
    trade price per stock with their sequence numbers, and the queue of fills
    per order), and the three waits that read those tables.

    The socket, AES decryption and JSON parsing are inputs: `parse` turns a
    control frame into its header fields and `decrypt` is the
    base64/AES-CBC/PKCS#7 routine, both as functions that fail with None. A
    wait is driven by the frames that arrive while it waits. */
module Ws {
  import opened Util

  // ---------------------------------------------------------------------------
  // Values
  // ---------------------------------------------------------------------------

  /** The first level of an order book: `(ask1, askq1, bid1, bidq1)`. */
  datatype Quote = Quote(ask: int, askQty: int, bid: int, bidQty: int)

  /** `ExecFill`: one execution notification accepted as a real fill. */
  datatype ExecFill = ExecFill(orderNo: string, pdno: string, qty: int, price: int, rawFields: seq<string>)

  /** A parsed control frame: header tr_id and encrypt, body.output key and
      iv. "" stands for a header or field that is absent or empty. */
  datatype ControlMsg = ControlMsg(trId: string, encrypt: string, key: string, iv: string)

  /** A message from the socket: text, or anything else (bytes). */
  datatype Frame = Text(s: string) | Binary

  /** The functions the receive loop calls but that are outside this model,
      and the execution-notification topic of the configured venue. */
  datatype Decoders = Decoders(
    execTrId: string,
    parse: string -> Option<ControlMsg>,
    decrypt: (string, string, string) -> Option<string>)

  const OrderbookTrId := "H0STASP0"
  const TradeTrId := "H0STCNT0"

  // ---------------------------------------------------------------------------
  // Field helpers
  // ---------------------------------------------------------------------------

  /** `_is_truthy(v)`: the stripped, upper-cased flag is Y, 1, T or TRUE. The
      empty string stands for None. */
  predicate IsTruthy(v: string): (b: bool)
    ensures Strip(v) == "" ==> !b
    ensures b ==> |Strip(v)| == 1 || |Strip(v)| == 4
  {
    var u := Upper(Strip(v));
    u == "Y" || u == "1" || u == "T" || u == "TRUE"
  }

  /** `_safe_int(v, default)`: `int(float(v.strip()))`, or `default` when the
      text is not a number. */
  function SafeInt(v: string, default: int): (r: int)
    ensures ParseFloat(v).None? ==> r == default
    ensures ParseFloat(v).Some? && ParseFloat(v).value >= 0.0 ==>
      r as real <= ParseFloat(v).value < r as real + 1.0
    ensures ParseFloat(v).Some? && ParseFloat(v).value < 0.0 ==>
      r as real - 1.0 < ParseFloat(v).value <= r as real
  {
    match ParseFloat(v)
    case None => default
    case Some(x) => Trunc(x)
  }

  /** The empty flag is false, the lower-case "true" is true, and `_safe_int`
      reads back a decimal rendering and falls back to its default on text
      that is not a number. */
  lemma FieldHelpers(n: nat, default: int)
    ensures !IsTruthy("")
    ensures IsTruthy("true")
    ensures SafeInt(NatToString(n), default) == n
    ensures SafeInt("", default) == default
  {
    FlagLowerTrue();
    ParseIntRoundTrip(n);
    ParseFloatExtendsParseInt(NatToString(n));
  }

  /** The flag ignores letter case: lower-casing it first changes nothing. */
  lemma TruthyCaseless(v: string)
    ensures IsTruthy(Lower(v)) == IsTruthy(v)
  {
    StripLower(v);
    UpperLower(Strip(v));
  }

  /** The flag ignores surrounding whitespace. */
  lemma TruthyPadded(v: string, c: char)
    requires IsSpace(c)
    ensures IsTruthy([c] + v) == IsTruthy(v)
    ensures IsTruthy(v + [c]) == IsTruthy(v)
  {
    StripPad(v, c);
  }

  // One lemma per example flag: each reads its text once.

  lemma FlagLowerY()
    ensures IsTruthy("y")
  {
    StripFixed("y");
    assert Upper("y") == "Y";
  }

  lemma FlagOne()
    ensures IsTruthy("1")
  {
    StripFixed("1");
    assert Upper("1") == "1";
  }

  lemma FlagT()
    ensures IsTruthy("T")
  {
    StripFixed("T");
    assert Upper("T") == "T";
  }

  lemma FlagN()
    ensures !IsTruthy("N")
  {
    StripFixed("N");
    assert Upper("N") == "N";
  }

  lemma FlagZero()
    ensures !IsTruthy("0")
  {
    StripFixed("0");
    assert Upper("0") == "0";
  }

  lemma FlagYes()
    ensures !IsTruthy("YES")
  {
    StripFixed("YES");
    assert Upper("YES") == "YES";
  }

  lemma FlagTrueWord()
    ensures IsTruthy("True")
  {
    StripFixed("True");
    assert Upper("True") == "TRUE";
  }

  lemma FlagLowerTrue()
    ensures IsTruthy("true")
  {
    StripFixed("true");
    assert Upper("true") == "TRUE";
  }

  lemma PaddedTrueText()
    ensures "True" + [' '] == "True " && [' '] + "True " == " True "
  {
  }

  lemma FlagPaddedTrue()
    ensures IsTruthy(" True ")
  {
    FlagTrueWord();
    PaddedTrueText();
    TruthyPadded("True", ' ');
    TruthyPadded("True ", ' ');
  }

  /** Y, 1, T and TRUE in any case and with surrounding blanks are true;
      N, 0 and YES are not. */
  lemma TruthyExamples()
    ensures IsTruthy("y") && IsTruthy("1") && IsTruthy("T") && IsTruthy(" True ")
    ensures !IsTruthy("N") && !IsTruthy("0") && !IsTruthy("YES")
  {
    FlagLowerY();
    FlagOne();
    FlagT();
    FlagN();
    FlagZero();
    FlagYes();
    FlagPaddedTrue();
  }

  /** `d.get(key, default)`. */
  function Get<V>(m: map<string, V>, key: string, default: V): V {
    if key in m then m[key] else default
  }

  /** `_bump_seq(d, key)`: the counter of `key` becomes its old value (0 when
      absent) plus one; every other entry is kept. */
  function Bumped(m: map<string, int>, key: string): (r: map<string, int>)
    ensures r.Keys == m.Keys + {key}
    ensures r[key] == Get(m, key, 0) + 1
    ensures forall k :: k in m && k != key ==> r[k] == m[k]
  {
    m[key := Get(m, key, 0) + 1]
  }

  /** `_ensure_event` / `_get_order_queue`: insert `init` under `key` only
      when the key is absent. */
  function EnsureKey<V>(m: map<string, V>, key: string, init: V): (r: map<string, V>)
    ensures r.Keys == m.Keys + {key}
    ensures r[key] == Get(m, key, init)
    ensures forall k :: k in m ==> r[k] == m[k]
  {
    if key in m then m else m[key := init]
  }

  /** Getting or inserting twice is getting or inserting once, and an
      existing entry is never replaced. */
  lemma EnsureKeyIdempotent<V>(m: map<string, V>, key: string, init: V, other: V)
    ensures EnsureKey(EnsureKey(m, key, init), key, other) == EnsureKey(m, key, init)
    ensures key in m ==> EnsureKey(m, key, init) == m
  {
  }

  // ---------------------------------------------------------------------------
  // Frame decoding
  // ---------------------------------------------------------------------------

  /** The order-book payload `code^...`: fields 3, 13, 23 and 33 are ask1,
      bid1, askq1 and bidq1. Any missing or non-integer field rejects the
      frame. */
  function DecodeOrderbook(data: string): (r: Option<(string, Quote)>)
    ensures var v := Split(data, '^');
      r.Some? <==>
        |v| > 33 && ParseInt(v[3]).Some? && ParseInt(v[13]).Some? && ParseInt(v[23]).Some? && ParseInt(v[33]).Some?
    ensures var v := Split(data, '^');
      r.Some? ==> r.value == (v[0], Quote(ParseInt(v[3]).value, ParseInt(v[23]).value, ParseInt(v[13]).value, ParseInt(v[33]).value))
  {
    var v := Split(data, '^');
    if |v| <= 33 then None
    else
      match (ParseInt(v[3]), ParseInt(v[13]), ParseInt(v[23]), ParseInt(v[33]))
      case (Some(ask), Some(bid), Some(askQty), Some(bidQty)) => Some((v[0], Quote(ask, askQty, bid, bidQty)))
      case _ => None
  }

  /** The trade payload `code^time^price^...`. */
  function DecodeTrade(data: string): (r: Option<(string, int)>)
    ensures var v := Split(data, '^');
      r.Some? <==> |v| > 2 && ParseInt(v[2]).Some?
    ensures var v := Split(data, '^');
      r.Some? ==> r.value == (v[0], ParseInt(v[2]).value)
  {
    var v := Split(data, '^');
    if |v| <= 2 then None
    else match ParseInt(v[2])
      case None => None
      case Some(p) => Some((v[0], p))
  }

  /** `fields[k] if len(fields) > k else default`. */
  function FieldOr(fields: seq<string>, k: nat, default: string): string {
    if |fields| > k then fields[k] else default
  }

  /** A decrypted execution notification: field 2 is the order number, 8 the
      stock, 9 the filled quantity, 10 the fill price and 12 the reject
      flag. Only a notification that is not rejected and has a positive
      quantity and price is a fill. */
  function DecodeExec(plain: string): (r: Option<ExecFill>)
    ensures var f := Split(plain, '^');
      r.Some? <==>
        !IsTruthy(FieldOr(f, 12, "")) && SafeInt(FieldOr(f, 9, "0"), 0) > 0 && SafeInt(FieldOr(f, 10, "0"), 0) > 0
    ensures r.Some? ==> r.value.qty > 0 && r.value.price > 0
    ensures var f := Split(plain, '^');
      r.Some? ==> r.value == ExecFill(FieldOr(f, 2, ""), FieldOr(f, 8, ""),
                                      SafeInt(FieldOr(f, 9, "0"), 0), SafeInt(FieldOr(f, 10, "0"), 0), f)
  {
    var fields := Split(plain, '^');
    var orderNo := FieldOr(fields, 2, "");
    var pdno := FieldOr(fields, 8, "");
    var qty := SafeInt(FieldOr(fields, 9, "0"), 0);
    var price := SafeInt(FieldOr(fields, 10, "0"), 0);
    var isReject := IsTruthy(FieldOr(fields, 12, ""));
    if !isReject && qty > 0 && price > 0 then Some(ExecFill(orderNo, pdno, qty, price, fields)) else None
  }

  /** What a frame asks the receive loop to do. */
  datatype Action =
    | Ignore
    | SetKey(trId: string, key: string, iv: string)
    | Book(code: string, quote: Quote)
    | Trade(code: string, price: int)
    | Fill(fill: ExecFill)

  /** The control-frame branch: keys are recorded only for an encrypted
      topic whose tr_id, iv and key are all present. */
  function ControlAction(m: Option<ControlMsg>): (r: Action)
    ensures r.SetKey? <==> m.Some? && m.value.encrypt == "Y" && m.value.trId != "" && m.value.iv != "" && m.value.key != ""
    ensures r.SetKey? ==> r == SetKey(m.value.trId, m.value.key, m.value.iv)
    ensures !r.SetKey? ==> r == Ignore
  {
    match m
    case None => Ignore
    case Some(c) =>
      if c.encrypt == "Y" && c.trId != "" && c.iv != "" && c.key != "" then SetKey(c.trId, c.key, c.iv) else Ignore
  }

  /** The four `|`-separated parts of a data frame, when there are four. */
  function DataParts(s: string): (r: Option<seq<string>>)
    ensures r.Some? ==> |r.value| == 4 && Join(r.value, '|') == s
    ensures r.Some? ==> '|' !in r.value[0] && '|' !in r.value[1] && '|' !in r.value[2]
  {
    if '|' !in s then None
    else
      var parts := SplitN(s, '|', 3);
      if |parts| < 4 then None else Some(parts)
  }

  /** The data-frame branch: dispatch on the tr_id in the second part. An
      execution notification is decrypted only on the configured topic with
      data type "1" and when a key and iv are recorded for it. */
  function DataAction(dec: Decoders, keys: map<string, string>, ivs: map<string, string>, p: seq<string>): (r: Action)
    requires |p| == 4
    ensures r.Fill? ==>
      && p[1] == dec.execTrId && p[0] == "1" && p[1] != OrderbookTrId && p[1] != TradeTrId
      && Get(keys, p[1], "") != "" && Get(ivs, p[1], "") != ""
      && dec.decrypt(p[3], keys[p[1]], ivs[p[1]]).Some?
      && DecodeExec(dec.decrypt(p[3], keys[p[1]], ivs[p[1]]).value) == Some(r.fill)
    ensures r.Fill? ==> r.fill.qty > 0 && r.fill.price > 0
    ensures r.Book? ==> p[1] == OrderbookTrId && DecodeOrderbook(p[3]) == Some((r.code, r.quote))
    ensures r.Trade? ==> p[1] == TradeTrId && DecodeTrade(p[3]) == Some((r.code, r.price))
    ensures !r.SetKey?
  {
    var dataType, trId, data := p[0], p[1], p[3];
    if trId == OrderbookTrId then
      match DecodeOrderbook(data)
      case None => Ignore
      case Some((code, q)) => Book(code, q)
    else if trId == TradeTrId then
      match DecodeTrade(data)
      case None => Ignore
      case Some((code, price)) => Trade(code, price)
    else if trId == dec.execTrId && dataType == "1" then
      var key := Get(keys, trId, "");
      var iv := Get(ivs, trId, "");
      if key == "" || iv == "" then Ignore
      else match dec.decrypt(data, key, iv)
        case None => Ignore
        case Some(plain) =>
          match DecodeExec(plain)
          case None => Ignore
          case Some(fill) => Fill(fill)
    else Ignore
  }

  /** One iteration of `_recv_loop` on the frame `f`, as an action. */
  function Classify(dec: Decoders, keys: map<string, string>, ivs: map<string, string>, f: Frame): (r: Action)
    ensures f.Binary? ==> r == Ignore
    ensures r.Fill? ==> r.fill.qty > 0 && r.fill.price > 0
    ensures r.SetKey? ==> f.Text? && |f.s| > 0 && f.s[0] == '{' && r == ControlAction(dec.parse(f.s))
    ensures !r.Ignore? && !r.SetKey? ==>
      f.Text? && (|f.s| == 0 || f.s[0] != '{') && DataParts(f.s).Some?
      && r == DataAction(dec, keys, ivs, DataParts(f.s).value)
  {
    match f
    case Binary => Ignore
    case Text(s) =>
      if |s| > 0 && s[0] == '{' then ControlAction(dec.parse(s))
      else match DataParts(s)
        case None => Ignore
        case Some(p) => DataAction(dec, keys, ivs, p)
  }

  // ---------------------------------------------------------------------------
  // Tables
  // ---------------------------------------------------------------------------

  /** The dictionaries the receive loop writes. */
  datatype Tables = Tables(
    aesKey: map<string, string>,
    aesIv: map<string, string>,
    orderbook: map<string, Quote>,
    orderbookSeq: map<string, int>,
    tradePrice: map<string, int>,
    tradeSeq: map<string, int>,
    fills: map<string, seq<ExecFill>>)

  const EmptyTables := Tables(map[], map[], map[], map[], map[], map[], map[])

  /** The fills waiting for `order` (none when it has no queue). */
  function Queue(t: Tables, order: string): seq<ExecFill> {
    Get(t.fills, order, [])
  }

  /** `_get_order_queue(order)` followed by `put_nowait(fill)`. */
  function Enqueue(fills: map<string, seq<ExecFill>>, fill: ExecFill): map<string, seq<ExecFill>> {
    var q := EnsureKey(fills, fill.orderNo, []);
    q[fill.orderNo := q[fill.orderNo] + [fill]]
  }

  /** The effect of an action on the tables. */
  function Apply(t: Tables, a: Action): Tables {
    match a
    case Ignore => t
    case SetKey(trId, key, iv) => t.(aesIv := t.aesIv[trId := iv], aesKey := t.aesKey[trId := key])
    case Book(code, q) => t.(orderbook := t.orderbook[code := q], orderbookSeq := Bumped(t.orderbookSeq, code))
    case Trade(code, p) => t.(tradePrice := t.tradePrice[code := p], tradeSeq := Bumped(t.tradeSeq, code))
    case Fill(fill) => t.(fills := Enqueue(t.fills, fill))
  }

  /** One frame never removes a key, a quote, a price or a fill queue. */
  function Step(t: Tables, dec: Decoders, f: Frame): (r: Tables)
    ensures t.aesKey.Keys <= r.aesKey.Keys && t.aesIv.Keys <= r.aesIv.Keys
    ensures t.orderbook.Keys <= r.orderbook.Keys && t.tradePrice.Keys <= r.tradePrice.Keys
    ensures t.fills.Keys <= r.fills.Keys
  {
    ApplyEffect(t, Classify(dec, t.aesKey, t.aesIv, f));
    Apply(t, Classify(dec, t.aesKey, t.aesIv, f))
  }

  function Steps(t: Tables, dec: Decoders, frames: seq<Frame>): Tables
    decreases |frames|
  {
    if |frames| == 0 then t else Steps(Step(t, dec, frames[0]), dec, frames[1..])
  }

  lemma {:induction false} StepsAppend(t: Tables, dec: Decoders, a: seq<Frame>, b: seq<Frame>)
    ensures Steps(t, dec, a + b) == Steps(Steps(t, dec, a), dec, b)
    decreases |a|
  {
    if |a| > 0 {
      assert (a + b)[0] == a[0] && (a + b)[1..] == a[1..] + b;
      StepsAppend(Step(t, dec, a[0]), dec, a[1..], b);
    } else {
      assert a + b == b;
    }
  }

  /** Each action is all or nothing, and each kind touches only its own
      tables: an order-book action stores the quote under its code and
      raises that code's order-book sequence by exactly one; a trade action
      does the same for the trade price; a key action only records key and
      iv; a fill is appended at the end of its order's queue; anything else
      changes nothing. */
  lemma ApplyEffect(t: Tables, a: Action)
    ensures var u := Apply(t, a);
      && (a.Ignore? ==> u == t)
      && (a.Book? ==>
            u == t.(orderbook := t.orderbook[a.code := a.quote], orderbookSeq := u.orderbookSeq)
            && Get(u.orderbookSeq, a.code, 0) == Get(t.orderbookSeq, a.code, 0) + 1
            && forall c :: c != a.code ==> Get(u.orderbookSeq, c, 0) == Get(t.orderbookSeq, c, 0))
      && (a.Trade? ==>
            u == t.(tradePrice := t.tradePrice[a.code := a.price], tradeSeq := u.tradeSeq)
            && Get(u.tradeSeq, a.code, 0) == Get(t.tradeSeq, a.code, 0) + 1
            && forall c :: c != a.code ==> Get(u.tradeSeq, c, 0) == Get(t.tradeSeq, c, 0))
      && (a.SetKey? ==> u == t.(aesKey := t.aesKey[a.trId := a.key], aesIv := t.aesIv[a.trId := a.iv]))
      && (a.Fill? ==>
            u == t.(fills := u.fills)
            && u.fills.Keys == t.fills.Keys + {a.fill.orderNo}
            && Queue(u, a.fill.orderNo) == Queue(t, a.fill.orderNo) + [a.fill]
            && forall o :: o != a.fill.orderNo ==> Get(u.fills, o, []) == Get(t.fills, o, []))
  {
  }

  /** One action never lowers a sequence number. */
  lemma ApplySeqMonotone(t: Tables, a: Action, code: string)
    ensures Get(Apply(t, a).orderbookSeq, code, 0) >= Get(t.orderbookSeq, code, 0)
    ensures Get(Apply(t, a).tradeSeq, code, 0) >= Get(t.tradeSeq, code, 0)
  {
    match a
    case Book(c, _) =>
      var m := Bumped(t.orderbookSeq, c);
      if code != c && code in t.orderbookSeq {
        assert m[code] == t.orderbookSeq[code];
      }
    case Trade(c, _) =>
      var m := Bumped(t.tradeSeq, c);
      if code != c && code in t.tradeSeq {
        assert m[code] == t.tradeSeq[code];
      }
    case _ =>
  }

  /** Sequence numbers never decrease over any run of frames. */
  lemma {:induction false} StepsSeqMonotone(t: Tables, dec: Decoders, frames: seq<Frame>, code: string)
    ensures Get(Steps(t, dec, frames).orderbookSeq, code, 0) >= Get(t.orderbookSeq, code, 0)
    ensures Get(Steps(t, dec, frames).tradeSeq, code, 0) >= Get(t.tradeSeq, code, 0)
    decreases |frames|
  {
    if |frames| > 0 {
      var a := Classify(dec, t.aesKey, t.aesIv, frames[0]);
      ApplySeqMonotone(t, a, code);
      StepsSeqMonotone(Apply(t, a), dec, frames[1..], code);
    }
  }

  /** `q` is an initial part of `q2`. */
  predicate IsPrefix<T(==)>(q: seq<T>, q2: seq<T>) {
    |q| <= |q2| && q2[..|q|] == q
  }

  lemma PrefixTrans<T>(q: seq<T>, q1: seq<T>, q2: seq<T>)
    requires IsPrefix(q, q1) && IsPrefix(q1, q2)
    ensures IsPrefix(q, q2)
  {
    assert q2[..|q|] == q2[..|q1|][..|q|];
  }

  /** One action leaves a queue as it was or appends the action's fill. */
  lemma ApplyQueue(t: Tables, a: Action, code: string)
    ensures code in t.fills ==> code in Apply(t, a).fills
    ensures IsPrefix(Queue(t, code), Queue(Apply(t, a), code))
  {
    ApplyEffect(t, a);
  }

  /** Queues are never removed, and they only grow at the end, over any run
      of frames. */
  lemma {:induction false} StepsQueueMonotone(t: Tables, dec: Decoders, frames: seq<Frame>, code: string)
    ensures code in t.fills ==> code in Steps(t, dec, frames).fills
    ensures IsPrefix(Queue(t, code), Queue(Steps(t, dec, frames), code))
    decreases |frames|
  {
    if |frames| > 0 {
      var a := Classify(dec, t.aesKey, t.aesIv, frames[0]);
      var u := Apply(t, a);
      ApplyQueue(t, a, code);
      StepsQueueMonotone(u, dec, frames[1..], code);
      PrefixTrans(Queue(t, code), Queue(u, code), Queue(Steps(u, dec, frames[1..]), code));
    }
  }

  /** Every fill in every queue has a positive quantity and price. */
  ghost predicate FillsPositive(t: Tables) {
    forall o, k :: o in t.fills && 0 <= k < |t.fills[o]| ==> t.fills[o][k].qty > 0 && t.fills[o][k].price > 0
  }

  /** Enqueuing only positive fills keeps every queued fill positive. */
  lemma ApplyFillsPositive(t: Tables, a: Action)
    requires FillsPositive(t)
    requires a.Fill? ==> a.fill.qty > 0 && a.fill.price > 0
    ensures FillsPositive(Apply(t, a))
  {
    ApplyEffect(t, a);
    if a.Fill? {
      var u := Apply(t, a);
      forall o, k | o in u.fills && 0 <= k < |u.fills[o]|
        ensures u.fills[o][k].qty > 0 && u.fills[o][k].price > 0
      {
        if o == a.fill.orderNo {
          assert u.fills[o] == Queue(t, o) + [a.fill];
          if k < |Queue(t, o)| {
            assert o in t.fills;
          }
        } else {
          assert u.fills[o] == Get(t.fills, o, []);
        }
      }
    }
  }

  /** Handling a frame keeps every queued fill positive: a frame only ever
      enqueues a positive fill. */
  lemma StepFillsPositive(t: Tables, dec: Decoders, f: Frame)
    requires FillsPositive(t)
    ensures FillsPositive(Step(t, dec, f))
  {
    ApplyFillsPositive(t, Classify(dec, t.aesKey, t.aesIv, f));
  }

  // ---------------------------------------------------------------------------
  // Concrete frames
  // ---------------------------------------------------------------------------

  /** Splitting the join of parts that contain no separator (except possibly
      the last) gives the parts back. */
  lemma {:induction false} SplitNJoin(parts: seq<string>, sep: char, n: nat)
    requires |parts| == n + 1
    requires forall i :: 0 <= i < n ==> sep !in parts[i]
    ensures SplitN(Join(parts, sep), sep, n) == parts
    decreases n
  {
    if n > 0 {
      var s := Join(parts, sep);
      var rest := parts[1..];
      JoinCons(parts[0], rest, sep);
      assert [parts[0]] + rest == parts;
      IndexOfCut(parts[0], sep, Join(rest, sep));
      SplitNJoin(rest, sep, n - 1);
    }
  }

  lemma {:induction false} SplitJoin(parts: seq<string>, sep: char)
    requires |parts| >= 1
    requires forall i :: 0 <= i < |parts| ==> sep !in parts[i]
    ensures Split(Join(parts, sep), sep) == parts
    decreases |parts|
  {
    var s := Join(parts, sep);
    if |parts| == 1 {
      assert s == parts[0];
      assert IndexOf(s, sep).None?;
    } else {
      var rest := parts[1..];
      JoinCons(parts[0], rest, sep);
      assert [parts[0]] + rest == parts;
      IndexOfCut(parts[0], sep, Join(rest, sep));
      SplitJoin(rest, sep);
    }
  }

  /** The text `dataType|trId|third|data` of a data frame. */
  function DataFrame(dataType: string, trId: string, third: string, data: string): string {
    Join([dataType, trId, third, data], '|')
  }

  lemma DataFrameParts(dataType: string, trId: string, third: string, data: string)
    requires '|' !in dataType && '|' !in trId && '|' !in third
    ensures DataParts(DataFrame(dataType, trId, third, data)) == Some([dataType, trId, third, data])
  {
    var s := DataFrame(dataType, trId, third, data);
    SplitNJoin([dataType, trId, third, data], '|', 3);
    JoinCons(dataType, [trId, third, data], '|');
    assert [dataType] + [trId, third, data] == [dataType, trId, third, data];
    assert s[|dataType|] == '|';
  }

  /** A data frame whose data type does not start with `{` is not read as a
      control frame. */
  lemma DataFrameNotControl(dataType: string, trId: string, third: string, data: string)
    requires |dataType| == 0 || dataType[0] != '{'
    ensures var s := DataFrame(dataType, trId, third, data); |s| > 0 && s[0] != '{'
  {
    var s := DataFrame(dataType, trId, third, data);
    JoinCons(dataType, [trId, third, data], '|');
    assert [dataType] + [trId, third, data] == [dataType, trId, third, data];
    if |dataType| == 0 {
      assert s[0] == '|';
    } else {
      assert s[0] == dataType[0];
    }
  }

  /** A text frame that is not a control frame and splits into four parts
      applies the data-frame action of those parts. */
  lemma StepData(t: Tables, dec: Decoders, s: string)
    requires (|s| == 0 || s[0] != '{') && DataParts(s).Some?
    ensures Step(t, dec, Text(s)) == Apply(t, DataAction(dec, t.aesKey, t.aesIv, DataParts(s).value))
  {
  }

  /** On the order-book topic the action is the decoded quote, or nothing. */
  lemma OrderbookAction(dec: Decoders, keys: map<string, string>, ivs: map<string, string>, p: seq<string>)
    requires |p| == 4 && p[1] == OrderbookTrId
    ensures DataAction(dec, keys, ivs, p) ==
      match DecodeOrderbook(p[3])
      case None => Ignore
      case Some((code, q)) => Book(code, q)
  {
  }

  /** An H0STASP0 frame whose payload fields 3, 13, 23 and 33 are integers
      stores (ask = f3, askq = f23, bid = f13, bidq = f33) under code f0;
      otherwise it changes nothing. */
  lemma OrderbookFrame(t: Tables, dec: Decoders, dataType: string, third: string, data: string)
    requires '|' !in dataType && '|' !in third && (|dataType| == 0 || dataType[0] != '{')
    ensures var v := Split(data, '^');
      var u := Step(t, dec, Text(DataFrame(dataType, OrderbookTrId, third, data)));
      if |v| > 33 && ParseInt(v[3]).Some? && ParseInt(v[13]).Some? && ParseInt(v[23]).Some? && ParseInt(v[33]).Some?
      then
        var q := Quote(ParseInt(v[3]).value, ParseInt(v[23]).value, ParseInt(v[13]).value, ParseInt(v[33]).value);
        u == t.(orderbook := t.orderbook[v[0] := q], orderbookSeq := Bumped(t.orderbookSeq, v[0]))
      else u == t
  {
    var s := DataFrame(dataType, OrderbookTrId, third, data);
    var p := [dataType, OrderbookTrId, third, data];
    assert '|' !in OrderbookTrId;
    DataFrameParts(dataType, OrderbookTrId, third, data);
    DataFrameNotControl(dataType, OrderbookTrId, third, data);
    StepData(t, dec, s);
    OrderbookAction(dec, t.aesKey, t.aesIv, p);
  }

  /** On the trade topic the action is the decoded price, or nothing. */
  lemma TradeAction(dec: Decoders, keys: map<string, string>, ivs: map<string, string>, p: seq<string>)
    requires |p| == 4 && p[1] == TradeTrId
    ensures DataAction(dec, keys, ivs, p) ==
      match DecodeTrade(p[3])
      case None => Ignore
      case Some((code, price)) => Trade(code, price)
  {
  }

  /** An H0STCNT0 frame whose payload field 2 is an integer stores it as
      the trade price of code f0 and raises that code's trade sequence by
      one; otherwise it changes nothing. */
  lemma TradeFrame(t: Tables, dec: Decoders, dataType: string, third: string, data: string)
    requires '|' !in dataType && '|' !in third && (|dataType| == 0 || dataType[0] != '{')
    ensures var v := Split(data, '^');
      var u := Step(t, dec, Text(DataFrame(dataType, TradeTrId, third, data)));
      if |v| > 2 && ParseInt(v[2]).Some?
      then u == t.(tradePrice := t.tradePrice[v[0] := ParseInt(v[2]).value], tradeSeq := Bumped(t.tradeSeq, v[0]))
      else u == t
  {
    var s := DataFrame(dataType, TradeTrId, third, data);
    var p := [dataType, TradeTrId, third, data];
    assert '|' !in TradeTrId;
    DataFrameParts(dataType, TradeTrId, third, data);
    DataFrameNotControl(dataType, TradeTrId, third, data);
    StepData(t, dec, s);
    TradeAction(dec, t.aesKey, t.aesIv, p);
  }

  /** On the execution topic with data type "1" the action is the decoded
      fill of the decrypted text, or nothing when no key or iv is recorded,
      the text does not decrypt or it is not a fill. */
  lemma ExecAction(dec: Decoders, keys: map<string, string>, ivs: map<string, string>, p: seq<string>)
    requires |p| == 4 && p[0] == "1" && p[1] == dec.execTrId && p[1] != OrderbookTrId && p[1] != TradeTrId
    ensures var key := Get(keys, p[1], "");
      var iv := Get(ivs, p[1], "");
      DataAction(dec, keys, ivs, p) ==
        if key == "" || iv == "" || dec.decrypt(p[3], key, iv).None? then Ignore
        else match DecodeExec(dec.decrypt(p[3], key, iv).value)
          case None => Ignore
          case Some(fill) => Fill(fill)
  {
  }

  /** An execution notification with data type "1" on the configured topic
      appends its decoded fill at the end of the fill's order queue when a
      key and iv are recorded, the text decrypts and the notification is a
      fill; in every other case it changes nothing. */
  lemma ExecFrame(t: Tables, dec: Decoders, third: string, data: string)
    requires '|' !in dec.execTrId && '|' !in third
    requires dec.execTrId != OrderbookTrId && dec.execTrId != TradeTrId
    ensures var key := Get(t.aesKey, dec.execTrId, "");
      var iv := Get(t.aesIv, dec.execTrId, "");
      var u := Step(t, dec, Text(DataFrame("1", dec.execTrId, third, data)));
      if key != "" && iv != "" && dec.decrypt(data, key, iv).Some? && DecodeExec(dec.decrypt(data, key, iv).value).Some?
      then
        var fill := DecodeExec(dec.decrypt(data, key, iv).value).value;
        && u == t.(fills := Enqueue(t.fills, fill))
        && Queue(u, fill.orderNo) == Queue(t, fill.orderNo) + [fill]
      else u == t
  {
    var s := DataFrame("1", dec.execTrId, third, data);
    var p := ["1", dec.execTrId, third, data];
    assert '|' !in "1";
    DataFrameParts("1", dec.execTrId, third, data);
    DataFrameNotControl("1", dec.execTrId, third, data);
    StepData(t, dec, s);
    ExecAction(dec, t.aesKey, t.aesIv, p);
    ApplyEffect(t, DataAction(dec, t.aesKey, t.aesIv, p));
  }

  /** The order-book payload that `OrderbookFrame` decodes, built from its
      fields with `^`. */
  lemma OrderbookPayload(v: seq<string>)
    requires |v| > 33 && forall i :: 0 <= i < |v| ==> '^' !in v[i]
    ensures Split(Join(v, '^'), '^') == v
  {
    SplitJoin(v, '^');
  }

  /** Frames that are not text, that hold no `|`, or that split into fewer
      than four parts change nothing. */
  lemma MalformedFrames(t: Tables, dec: Decoders, s: string)
    ensures Step(t, dec, Binary) == t
    ensures (|s| == 0 || s[0] != '{') && '|' !in s ==> Step(t, dec, Text(s)) == t
    ensures (|s| == 0 || s[0] != '{') && |SplitN(s, '|', 3)| < 4 ==> Step(t, dec, Text(s)) == t
  {
  }

  /** A fill is enqueued only from an execution notification on the
      configured topic with data type "1" and recorded key and iv, whose
      decrypted reject flag is not truthy and whose quantity and price are
      positive. */
  lemma FillConditions(t: Tables, dec: Decoders, f: Frame)
    requires Classify(dec, t.aesKey, t.aesIv, f).Fill?
    ensures var a := Classify(dec, t.aesKey, t.aesIv, f);
      var p := DataParts(f.s).value;
      && f.Text? && p[1] == dec.execTrId && p[0] == "1"
      && p[1] in t.aesKey && p[1] in t.aesIv && t.aesKey[p[1]] != "" && t.aesIv[p[1]] != ""
      && var plain := dec.decrypt(p[3], t.aesKey[p[1]], t.aesIv[p[1]]).value;
         var fields := Split(plain, '^');
         && !IsTruthy(FieldOr(fields, 12, ""))
         && a.fill.qty == SafeInt(FieldOr(fields, 9, "0"), 0) > 0
         && a.fill.price == SafeInt(FieldOr(fields, 10, "0"), 0) > 0
         && a.fill.orderNo == FieldOr(fields, 2, "")
  {
  }

  // ---------------------------------------------------------------------------
  // Reading the tables
  // ---------------------------------------------------------------------------

  /** What `wait_next_orderbook` returns once it holds: the code's sequence
      number, when it is past `lastSeq` and a snapshot exists, and the current
      snapshot. */
  function NextSnapshot(t: Tables, code: string, lastSeq: int): (r: Option<(int, Quote)>)
    ensures r.Some? <==> Get(t.orderbookSeq, code, 0) > lastSeq && code in t.orderbook
    ensures r.Some? ==> r.value == (Get(t.orderbookSeq, code, 0), t.orderbook[code]) && r.value.0 > lastSeq
  {
    var cur := Get(t.orderbookSeq, code, 0);
    if cur > lastSeq && code in t.orderbook then Some((cur, t.orderbook[code])) else None
  }

  /** What `wait_trade_reach` returns once it holds: the last trade price of
      the code, when it has reached the target. */
  function TradeReached(t: Tables, code: string, target: int): (r: Option<int>)
    ensures r.Some? <==> code in t.tradePrice && t.tradePrice[code] >= target
    ensures r.Some? ==> r.value == t.tradePrice[code] >= target
  {
    if code in t.tradePrice && t.tradePrice[code] >= target then Some(t.tradePrice[code]) else None
  }

  /** `(sum of qty, sum of qty * price)` over a run of fills. */
  function FillTotals(fills: seq<ExecFill>): (int, int) {
    if |fills| == 0 then (0, 0)
    else
      var (q, v) := FillTotals(fills[..|fills| - 1]);
      var f := fills[|fills| - 1];
      (q + f.qty, v + f.qty * f.price)
  }

  /** Totals over positive fills are positive, and a value is at least its
      quantity times the smallest price. */
  lemma {:induction false} FillTotalsPositive(fills: seq<ExecFill>)
    requires forall k :: 0 <= k < |fills| ==> fills[k].qty > 0 && fills[k].price > 0
    ensures FillTotals(fills).0 >= |fills| && FillTotals(fills).1 >= FillTotals(fills).0
    ensures FillTotals(fills).0 == 0 <==> fills == []
  {
    if |fills| > 0 {
      FillTotalsPositive(fills[..|fills| - 1]);
      var f := fills[|fills| - 1];
      assert f.qty * f.price >= f.qty;
    }
  }

  /** The tables after the first `k` fills of `order` have been taken off
      its queue. */
  function Drop(t: Tables, order: string, k: nat): Tables
    requires k <= |Queue(t, order)|
  {
    t.(fills := t.fills[order := Queue(t, order)[k..]])
  }

  /** Taking fills off the front of one queue commutes with every action:
      an action appends only at the end of a queue. */
  lemma ApplyDrop(t: Tables, a: Action, order: string, k: nat)
    requires order in t.fills && k <= |Queue(t, order)|
    ensures order in Apply(t, a).fills && k <= |Queue(Apply(t, a), order)|
    ensures Apply(Drop(t, order, k), a) == Drop(Apply(t, a), order, k)
  {
    ApplyEffect(t, a);
    if a.Fill? {
      var d := Drop(t, order, k);
      ApplyEffect(d, a);
      var u := Apply(t, a);
      var lhs := Apply(d, a);
      var rhs := Drop(u, order, k);
      assert lhs.fills.Keys == rhs.fills.Keys;
      forall o | o in lhs.fills ensures lhs.fills[o] == rhs.fills[o] {
        if o == order && o == a.fill.orderNo {
          assert Queue(t, o)[k..] + [a.fill] == (Queue(t, o) + [a.fill])[k..];
        }
      }
      assert lhs.fills == rhs.fills;
    }
  }

  /** Taking fills off one queue commutes with handling a frame, which reads
      only the key tables. */
  lemma StepDrop(t: Tables, dec: Decoders, f: Frame, order: string, k: nat)
    requires order in t.fills && k <= |Queue(t, order)|
    ensures order in Step(t, dec, f).fills && k <= |Queue(Step(t, dec, f), order)|
    ensures Step(Drop(t, order, k), dec, f) == Drop(Step(t, dec, f), order, k)
  {
    var a := Classify(dec, t.aesKey, t.aesIv, f);
    var d := Drop(t, order, k);
    assert d.aesKey == t.aesKey && d.aesIv == t.aesIv;
    ApplyDrop(t, a, order, k);
  }

  lemma {:induction false} StepsDrop(t: Tables, dec: Decoders, frames: seq<Frame>, order: string, k: nat)
    requires order in t.fills && k <= |Queue(t, order)|
    ensures order in Steps(t, dec, frames).fills && k <= |Queue(Steps(t, dec, frames), order)|
    ensures Steps(Drop(t, order, k), dec, frames) == Drop(Steps(t, dec, frames), order, k)
    decreases |frames|
  {
    if |frames| > 0 {
      StepDrop(t, dec, frames[0], order, k);
      StepsDrop(Step(t, dec, frames[0]), dec, frames[1..], order, k);
    }
  }

  lemma DropMore(t: Tables, order: string, k: nat)
    requires order in t.fills && k < |Queue(t, order)|
    ensures Queue(Drop(t, order, k), order) == Queue(t, order)[k..]
    ensures Drop(Drop(t, order, k), order, 1) == Drop(t, order, k + 1)
  {
    assert Queue(t, order)[k..][1..] == Queue(t, order)[k + 1..];
  }

  /** `now` is `full` with the fills `drained` taken off the front of the
      queue of `order`. */
  ghost predicate Drained(full: Tables, order: string, drained: seq<ExecFill>, now: Tables) {
    && order in full.fills && |drained| <= |full.fills[order]|
    && drained == full.fills[order][..|drained|]
    && now == Drop(full, order, |drained|)
  }

  /** Taking the head of the remaining queue extends the drained fills by
      the next fill of the full queue. */
  lemma DrainedPop(full: Tables, order: string, drained: seq<ExecFill>, now: Tables)
    requires Drained(full, order, drained, now) && |Queue(now, order)| > 0
    ensures order in now.fills
    ensures Drained(full, order, drained + [now.fills[order][0]],
      now.(fills := now.fills[order := now.fills[order][1..]]))
  {
    DropMore(full, order, |drained|);
    assert full.fills[order][..|drained| + 1] == drained + [now.fills[order][0]];
  }

  /** Handling frames keeps the drained fills at the front of the queue. */
  lemma DrainedSteps(full: Tables, order: string, drained: seq<ExecFill>, now: Tables, dec: Decoders, frames: seq<Frame>)
    requires Drained(full, order, drained, now)
    ensures Drained(Steps(full, dec, frames), order, drained, Steps(now, dec, frames))
  {
    StepsDrop(full, dec, frames, order, |drained|);
    StepsQueueMonotone(full, dec, frames, order);
    var q := Queue(full, order);
    var q2 := Queue(Steps(full, dec, frames), order);
    assert q2[..|drained|] == q2[..|q|][..|drained|];
  }

  /** One delivery while waiting for fills: the handled frames extend the
      delivered ones, and the drained fills stay the front of the queue. */
  lemma DeliverStep(start: Tables, full: Tables, dec: Decoders, arrivals: seq<Arrival>, used: nat,
                    order: string, drained: seq<ExecFill>, now: Tables)
    requires used < |arrivals| && arrivals[used].Deliver?
    requires full == Steps(start, dec, Delivered(arrivals[..used]))
    requires Drained(full, order, drained, now)
    ensures Steps(full, dec, arrivals[used].batch) == Steps(start, dec, Delivered(arrivals[..used + 1]))
    ensures Drained(Steps(full, dec, arrivals[used].batch), order, drained, Steps(now, dec, arrivals[used].batch))
  {
    DrainedSteps(full, order, drained, now, dec, arrivals[used].batch);
    StepsAppend(start, dec, Delivered(arrivals[..used]), arrivals[used].batch);
    DeliveredSnoc(arrivals, used);
  }

  lemma FillTotalsSnoc(fills: seq<ExecFill>, f: ExecFill)
    ensures FillTotals(fills + [f]) == (FillTotals(fills).0 + f.qty, FillTotals(fills).1 + f.qty * f.price)
  {
    assert (fills + [f])[..|fills|] == fills;
  }

  // ---------------------------------------------------------------------------
  // The receive loop and the waits, over the live tables
  // ---------------------------------------------------------------------------

  /** What arrives while a wait is blocked: a batch of frames, handled by the
      receive loop before the waiter resumes, or the wait's timeout. */
  datatype Arrival = Deliver(batch: seq<Frame>) | Expire

  /** The frames delivered by a run of arrivals, in order. */
  function Delivered(arrivals: seq<Arrival>): seq<Frame> {
    if |arrivals| == 0 then []
    else
      var last := arrivals[|arrivals| - 1];
      Delivered(arrivals[..|arrivals| - 1]) + (if last.Deliver? then last.batch else [])
  }

  lemma DeliveredSnoc(arrivals: seq<Arrival>, i: nat)
    requires i < |arrivals|
    ensures Delivered(arrivals[..i + 1]) ==
      Delivered(arrivals[..i]) + (if arrivals[i].Deliver? then arrivals[i].batch else [])
  {
    assert arrivals[..i + 1][..i] == arrivals[..i];
  }

  /** One pass of `wait_trade_reach`: the clock before the price check, the
      clock read for the remaining time, and the frames handled while it
      waited. */
  datatype Wake = Wake(clock: int, recheck: int, batch: seq<Frame>)

  function WokenFrames(wakes: seq<Wake>): seq<Frame> {
    if |wakes| == 0 then [] else WokenFrames(wakes[..|wakes| - 1]) + wakes[|wakes| - 1].batch
  }

  lemma WokenSnoc(wakes: seq<Wake>, i: nat)
    requires i < |wakes|
    ensures WokenFrames(wakes[..i + 1]) == WokenFrames(wakes[..i]) + wakes[i].batch
  {
    assert wakes[..i + 1][..i] == wakes[..i];
  }

  /** `KISWebSocket`'s tables, updated in place by the receive loop. */
  class Dispatcher {
    const dec: Decoders
    var aesKey: map<string, string>
    var aesIv: map<string, string>
    var orderbook: map<string, Quote>
    var orderbookSeq: map<string, int>
    var tradePrice: map<string, int>
    var tradeSeq: map<string, int>
    var fillsByOrder: map<string, seq<ExecFill>>

    constructor(dec: Decoders)
      ensures this.dec == dec && State() == EmptyTables
    {
      this.dec := dec;
      aesKey, aesIv := map[], map[];
      orderbook, orderbookSeq := map[], map[];
      tradePrice, tradeSeq := map[], map[];
      fillsByOrder := map[];
    }

    function State(): Tables
      reads this
    {
      Tables(aesKey, aesIv, orderbook, orderbookSeq, tradePrice, tradeSeq, fillsByOrder)
    }

    /** `_get_order_queue(order)`: the order's queue, created empty when
        absent. */
    method GetOrderQueue(order: string) returns (q: seq<ExecFill>)
      modifies this
      ensures fillsByOrder == EnsureKey(old(fillsByOrder), order, [])
      ensures q == fillsByOrder[order] == Queue(old(State()), order)
      ensures State() == old(State()).(fills := fillsByOrder)
    {
      if order !in fillsByOrder {
        fillsByOrder := fillsByOrder[order := []];
      }
      q := fillsByOrder[order];
    }

    /** The effect of one classified frame on the tables. */
    method Perform(a: Action)
      modifies this
      ensures State() == Apply(old(State()), a)
    {
      match a {
        case Ignore =>
        case SetKey(trId, key, iv) =>
          aesIv := aesIv[trId := iv];
          aesKey := aesKey[trId := key];
        case Book(code, q) =>
          orderbook := orderbook[code := q];
          orderbookSeq := Bumped(orderbookSeq, code);
        case Trade(code, price) =>
          tradePrice := tradePrice[code := price];
          tradeSeq := Bumped(tradeSeq, code);
        case Fill(fill) =>
          var q := GetOrderQueue(fill.orderNo);
          fillsByOrder := fillsByOrder[fill.orderNo := q + [fill]];
      }
    }

    /** One iteration of `_recv_loop`. */
    method HandleFrame(f: Frame)
      modifies this
      ensures State() == Step(old(State()), dec, f)
    {
      var a := Classify(dec, aesKey, aesIv, f);
      Perform(a);
    }

    method HandleFrames(frames: seq<Frame>)
      modifies this
      ensures State() == Steps(old(State()), dec, frames)
    {
      var i := 0;
      while i < |frames|
        invariant 0 <= i <= |frames|
        invariant Steps(old(State()), dec, frames) == Steps(State(), dec, frames[i..])
      {
        assert frames[i..][1..] == frames[i + 1..];
        HandleFrame(frames[i]);
        i := i + 1;
      }
    }

    /** `wait_next_orderbook(code, last_seq)`: the code's current snapshot as
        soon as its sequence number is past `lastSeq`; None when the wait
        times out. `used` arrivals were consumed and their frames handled. */
    method WaitNextOrderbook(code: string, lastSeq: int, arrivals: seq<Arrival>)
      returns (r: Option<(int, Quote)>, used: nat)
      modifies this
      ensures used <= |arrivals|
      ensures State() == Steps(old(State()), dec, Delivered(arrivals[..used]))
      ensures r == NextSnapshot(State(), code, lastSeq)
      ensures r.None? ==> used == |arrivals| || arrivals[used].Expire?
      ensures forall k :: 0 <= k < used ==> arrivals[k].Deliver?
      ensures NextSnapshot(old(State()), code, lastSeq).Some? ==> used == 0
    {
      r := NextSnapshot(State(), code, lastSeq);
      used := 0;
      while r.None? && used < |arrivals| && arrivals[used].Deliver?
        invariant used <= |arrivals|
        invariant State() == Steps(old(State()), dec, Delivered(arrivals[..used]))
        invariant r == NextSnapshot(State(), code, lastSeq)
        invariant forall k :: 0 <= k < used ==> arrivals[k].Deliver?
        invariant used > 0 ==> NextSnapshot(old(State()), code, lastSeq).None?
        decreases |arrivals| - used
      {
        ghost var before := State();
        HandleFrames(arrivals[used].batch);
        DeliveredSnoc(arrivals, used);
        StepsAppend(old(State()), dec, Delivered(arrivals[..used]), arrivals[used].batch);
        used := used + 1;
        r := NextSnapshot(State(), code, lastSeq);
      }
    }

    /** `wait_trade_reach(code, target, session_end=end)`: the last trade
        price once it reaches the target, or None once a clock reading is at
        or past `end`. Each wake is one pass of the loop: its clock reading,
        the reading taken for the remaining time, and the frames handled
        before the next pass. Running out of wakes counts as the clock
        passing `end`. `used` is the number of passes whose frames were
        handled. */
    method WaitTradeReach(code: string, target: int, end: int, wakes: seq<Wake>)
      returns (r: Option<int>, used: nat)
      modifies this
      ensures used <= |wakes|
      ensures State() == Steps(old(State()), dec, WokenFrames(wakes[..used]))
      ensures forall k :: 0 <= k < used ==> wakes[k].clock < end && wakes[k].recheck < end
      ensures r.Some? ==> used < |wakes| && wakes[used].clock < end && r == TradeReached(State(), code, target) && r.value >= target
      ensures r.None? ==> used == |wakes| || wakes[used].clock >= end || wakes[used].recheck >= end
      ensures |wakes| > 0 && wakes[0].clock < end && TradeReached(old(State()), code, target).Some? ==>
        used == 0 && r == TradeReached(old(State()), code, target)
    {
      used := 0;
      while used < |wakes| && wakes[used].clock < end
        invariant used <= |wakes|
        invariant State() == Steps(old(State()), dec, WokenFrames(wakes[..used]))
        invariant forall k :: 0 <= k < used ==> wakes[k].clock < end && wakes[k].recheck < end
        invariant used > 0 ==> TradeReached(old(State()), code, target).None?
        decreases |wakes| - used
      {
        var price := TradeReached(State(), code, target);
        if price.Some? {
          return price, used;
        }
        if wakes[used].recheck >= end {
          return None, used;
        }
        HandleFrames(wakes[used].batch);
        WokenSnoc(wakes, used);
        StepsAppend(old(State()), dec, WokenFrames(wakes[..used]), wakes[used].batch);
        used := used + 1;
      }
      r := None;
    }

    /** `wait_order_fills(order)`: wait for a first fill of the order, then
        keep taking fills until an idle timeout; return the quantity and value
        of exactly the fills taken. They are the front of the order's queue
        as it would be with every delivered frame handled, and the rest stays
        queued. With no first fill nothing is taken and (0, 0) is
        returned. */
    method WaitOrderFills(order: string, arrivals: seq<Arrival>)
      returns (qty: int, value: int, drained: seq<ExecFill>, used: nat)
      modifies this
      ensures used <= |arrivals|
      ensures (qty, value) == FillTotals(drained)
      ensures Drained(Steps(old(State()).(fills := EnsureKey(old(fillsByOrder), order, [])), dec, Delivered(arrivals[..used])),
        order, drained, State())
      ensures Queue(State(), order) == []
      ensures used == |arrivals| || arrivals[used].Expire?
    {
      var q := GetOrderQueue(order);
      ghost var start := State();
      qty, value, drained, used := 0, 0, [], 0;
      ghost var full := start;
      var idle := false;
      while !idle
        invariant used <= |arrivals|
        invariant qty == FillTotals(drained).0 && value == FillTotals(drained).1
        invariant full == Steps(start, dec, Delivered(arrivals[..used]))
        invariant Drained(full, order, drained, State())
        invariant idle ==> Queue(State(), order) == [] && (used == |arrivals| || arrivals[used].Expire?)
        decreases |arrivals| - used, |Queue(State(), order)|, if idle then 0 else 1
      {
        if order in fillsByOrder && |fillsByOrder[order]| > 0 {
          DrainedPop(full, order, drained, State());
          var head := fillsByOrder[order][0];
          fillsByOrder := fillsByOrder[order := fillsByOrder[order][1..]];
          FillTotalsSnoc(drained, head);
          qty, value, drained := qty + head.qty, value + head.qty * head.price, drained + [head];
        } else if used < |arrivals| && arrivals[used].Deliver? {
          DeliverStep(start, full, dec, arrivals, used, order, drained, State());
          HandleFrames(arrivals[used].batch);
          full := Steps(full, dec, arrivals[used].batch);
          used := used + 1;
        } else {
          idle := true;
        }
      }
    }
  }
}
