/** The trading routines (kis/strategy.py): picking a candidate from the
    fluctuation ranking, the IOC buy and sell loops, and the wait for the
    +1% target before selling.

    Everything these routines receive from outside is an input: each poll
    of the ranking, each order-book wait, each buying-power and order reply
    and each fill wait is one entry of an oracle sequence, and a clock
    reading is a field of the entry it precedes. An order-book wait is
    given as the tables at the moment the wait ends, or None when it timed
    out; the snapshot it returns is read from them with `NextSnapshot`, so
    it is newer than the last one by construction. */
module Strategy {
  import opened Util
  import opened Ws
  import opened Rest

  /** An exception that leaves a routine: a REST failure, or the unbound
      `rate_f` of an unreadable rate. */
  datatype Fault = RestFault(error: RestError) | RateUnreadable

  /** One subscription request sent on the stream. */
  datatype Sub = Subscribe(trId: string, code: string) | Unsubscribe(trId: string, code: string)

  /** Every subscription is immediately followed by the unsubscription of
      the same topic and code. */
  ghost predicate Paired(log: seq<Sub>) {
    && |log| % 2 == 0
    && forall i :: 0 <= i < |log| / 2 ==>
         log[2 * i].Subscribe? && log[2 * i + 1] == Unsubscribe(log[2 * i].trId, log[2 * i].code)
  }

  lemma {:induction false} PairedAppend(a: seq<Sub>, b: seq<Sub>)
    requires Paired(a) && Paired(b)
    ensures Paired(a + b)
  {
    var c := a + b;
    forall i | 0 <= i < |c| / 2
      ensures c[2 * i].Subscribe? && c[2 * i + 1] == Unsubscribe(c[2 * i].trId, c[2 * i].code)
    {
      if i < |a| / 2 {
        assert c[2 * i] == a[2 * i] && c[2 * i + 1] == a[2 * i + 1];
      } else {
        var j := i - |a| / 2;
        assert 0 <= j < |b| / 2;
        assert c[2 * i] == b[2 * j] && c[2 * i + 1] == b[2 * j + 1];
      }
    }
  }

  // ---------------------------------------------------------------------------
  // Candidate selection
  // ---------------------------------------------------------------------------

  /** A ranking entry: a JSON object (its fields as text, "" for absent or
      null) or anything else. */
  datatype Item = Record(fields: map<string, string>) | NotRecord

  /** A value of the ranking response: a list of entries, or anything else. */
  datatype Entry = ListOf(items: seq<Item>) | NotList

  type Response = map<string, Entry>

  const CodeKeys := ["stck_shrn_iscd", "mksc_shrn_iscd", "code"]
  const RateKeys := ["prdy_ctrt", "prdy_ctrt_1", "fluc_rt", "rate"]
  const ListKeys := ["output", "output1", "Output", "Output1"]

  /** Lower and upper rate bound, in percent. */
  const MinRate: real := 20.0
  const MaxRate: real := 28.0

  /** Seconds a stock stays skipped after it was last traded. */
  const CooldownSeconds: int := 1200

  /** `item.get(k1) or item.get(k2) or ...`: the first non-empty value, or
      "" when every key is absent or empty. */
  function FirstTruthy(fields: map<string, string>, keys: seq<string>): (r: string)
    ensures r == "" <==> forall i :: 0 <= i < |keys| ==> Get(fields, keys[i], "") == ""
    ensures r != "" ==>
      exists i :: 0 <= i < |keys| && r == Get(fields, keys[i], "") && (forall j :: 0 <= j < i ==> Get(fields, keys[j], "") == "")
  {
    if |keys| == 0 then ""
    else if Get(fields, keys[0], "") != "" then Get(fields, keys[0], "")
    else
      var r := FirstTruthy(fields, keys[1..]);
      assert forall i :: 1 <= i < |keys| ==> keys[i] == keys[1..][i - 1];
      r
  }

  /** `pick_code_from_ranking_item`: the stripped code when the rate is
      within [20, 28] and the code is not empty, None otherwise. A rate that
      does not read as a number (absent ones read as "None") leaves `rate_f`
      unbound, and the comparison raises. */
  function PickCode(fields: map<string, string>): (r: Result<Option<string>, Fault>)
    ensures r.Failure? <==> ParseFloat(FirstTruthy(fields, RateKeys)).None?
    ensures r.Failure? ==> r.error == RateUnreadable
    ensures r.Success? && r.value.Some? <==>
      && ParseFloat(FirstTruthy(fields, RateKeys)).Some?
      && MinRate <= ParseFloat(FirstTruthy(fields, RateKeys)).value <= MaxRate
      && Strip(FirstTruthy(fields, CodeKeys)) != ""
    ensures r.Success? && r.value.Some? ==> r.value.value == Strip(FirstTruthy(fields, CodeKeys)) != ""
  {
    var code := Strip(FirstTruthy(fields, CodeKeys));
    match ParseFloat(FirstTruthy(fields, RateKeys))
    case None => Failure(RateUnreadable)
    case Some(rate) => if MinRate <= rate <= MaxRate && code != "" then Success(Some(code)) else Success(None)
  }

  /** `last and (now - last) < timedelta(minutes=20)`. */
  predicate CoolingDown(cd: map<string, int>, code: string, now: int) {
    code in cd && now - cd[code] < CooldownSeconds
  }

  /** The response value holds a list. */
  predicate ListAt(res: Response, k: string) {
    k in res && res[k].ListOf?
  }

  /** The entries of the first of `keys` whose value is a list; none when no
      key holds a list. */
  function ItemsFrom(res: Response, keys: seq<string>): seq<Item> {
    if |keys| == 0 then []
    else if ListAt(res, keys[0]) then res[keys[0]].items
    else ItemsFrom(res, keys[1..])
  }

  lemma {:induction false} ItemsFromNone(res: Response, keys: seq<string>)
    requires forall i :: 0 <= i < |keys| ==> !ListAt(res, keys[i])
    ensures ItemsFrom(res, keys) == []
    decreases |keys|
  {
    if |keys| > 0 {
      assert !ListAt(res, keys[0]);
      forall i | 0 <= i < |keys| - 1 ensures !ListAt(res, keys[1..][i]) {
        assert keys[1..][i] == keys[i + 1];
      }
      ItemsFromNone(res, keys[1..]);
    }
  }

  lemma {:induction false} ItemsFromAt(res: Response, keys: seq<string>, i: nat)
    requires i < |keys| && ListAt(res, keys[i])
    requires forall j :: 0 <= j < i ==> !ListAt(res, keys[j])
    ensures ItemsFrom(res, keys) == res[keys[i]].items
    decreases i
  {
    if i > 0 {
      assert !ListAt(res, keys[0]);
      forall j | 0 <= j < i - 1 ensures !ListAt(res, keys[1..][j]) {
        assert keys[1..][j] == keys[j + 1];
      }
      assert keys[1..][i - 1] == keys[i];
      ItemsFromAt(res, keys[1..], i - 1);
    }
  }

  lemma ItemsFromFirst(res: Response, keys: seq<string>)
    ensures (forall i :: 0 <= i < |keys| ==> !ListAt(res, keys[i])) ==> ItemsFrom(res, keys) == []
    ensures forall i :: 0 <= i < |keys| && ListAt(res, keys[i]) && (forall j :: 0 <= j < i ==> !ListAt(res, keys[j])) ==>
      ItemsFrom(res, keys) == res[keys[i]].items
  {
    if forall i :: 0 <= i < |keys| ==> !ListAt(res, keys[i]) {
      ItemsFromNone(res, keys);
    }
    forall i | 0 <= i < |keys| && ListAt(res, keys[i]) && (forall j :: 0 <= j < i ==> !ListAt(res, keys[j]))
      ensures ItemsFrom(res, keys) == res[keys[i]].items
    {
      ItemsFromAt(res, keys, i);
    }
  }

  /** What the scan makes of one entry: None for an entry that is not an
      object, and the outcome of `pick_code_from_ranking_item` otherwise. */
  function PickOf(it: Item): Option<Result<Option<string>, Fault>> {
    if it.Record? then Some(PickCode(it.fields)) else None
  }

  /** The per-entry outcomes of a ranking list. */
  function Picks(items: seq<Item>): (r: seq<Option<Result<Option<string>, Fault>>>)
    ensures |r| == |items| && forall i :: 0 <= i < |items| ==> r[i] == PickOf(items[i])
  {
    seq(|items|, i requires 0 <= i < |items| => PickOf(items[i]))
  }

  /** An outcome the scan passes over: not an object, no code, or a code
      still cooling down. */
  predicate Skips(p: Option<Result<Option<string>, Fault>>, cd: map<string, int>, now: int) {
    || p.None?
    || (p.value.Success? && (p.value.value.None? || CoolingDown(cd, p.value.value.value, now)))
  }

  /** The scan over the entries' outcomes: the first one not passed over
      decides, with its code or with the exception it raises. */
  function ScanPicks(ps: seq<Option<Result<Option<string>, Fault>>>, cd: map<string, int>, now: int): (r: Result<Option<string>, Fault>)
    ensures r.Success? && r.value.Some? ==> !CoolingDown(cd, r.value.value, now)
    ensures r.Success? && r.value.Some? ==> exists i :: 0 <= i < |ps| && ps[i] == Some(r)
    decreases |ps|
  {
    if |ps| == 0 then Success(None)
    else if Skips(ps[0], cd, now) then
      var r := ScanPicks(ps[1..], cd, now);
      assert forall i :: 1 <= i < |ps| ==> ps[i] == ps[1..][i - 1];
      r
    else ps[0].value
  }

  /** The scan returns None exactly when every outcome is passed over;
      otherwise it returns the first outcome that is not. */
  lemma {:induction false} ScanPicksFirst(ps: seq<Option<Result<Option<string>, Fault>>>, cd: map<string, int>, now: int)
    ensures ScanPicks(ps, cd, now) == Success(None) <==> forall i :: 0 <= i < |ps| ==> Skips(ps[i], cd, now)
    ensures ScanPicks(ps, cd, now) != Success(None) ==>
      exists i :: 0 <= i < |ps| && !Skips(ps[i], cd, now)
        && (forall j :: 0 <= j < i ==> Skips(ps[j], cd, now))
        && Some(ScanPicks(ps, cd, now)) == ps[i]
    decreases |ps|
  {
    if |ps| > 0 {
      var rest := ps[1..];
      ScanPicksFirst(rest, cd, now);
      assert forall i :: 1 <= i < |ps| ==> ps[i] == rest[i - 1];
      if Skips(ps[0], cd, now) && ScanPicks(ps, cd, now) != Success(None) {
        var i :| 0 <= i < |rest| && !Skips(rest[i], cd, now)
          && (forall j :: 0 <= j < i ==> Skips(rest[j], cd, now))
          && Some(ScanPicks(rest, cd, now)) == rest[i];
        assert forall j :: 0 <= j < i + 1 ==> Skips(ps[j], cd, now) by {
          forall j | 0 <= j < i + 1 ensures Skips(ps[j], cd, now) {
            if j > 0 { assert ps[j] == rest[j - 1]; }
          }
        }
      }
    }
  }

  /** The scan of `find_candidate` over a ranking list. */
  function ScanItems(items: seq<Item>, cd: map<string, int>, now: int): (r: Result<Option<string>, Fault>)
    ensures r.Success? && r.value.Some? ==> r.value.value != "" && !CoolingDown(cd, r.value.value, now)
  {
    ScanPicks(Picks(items), cd, now)
  }

  /** An entry the scan passes over. */
  predicate Passed(it: Item, cd: map<string, int>, now: int) {
    Skips(PickOf(it), cd, now)
  }

  /** `find_candidate` returns None for a list exactly when every entry is
      passed over; otherwise it returns the outcome of the first entry that
      is not: an object whose rate cannot be read, or whose code is set and
      not cooling down. */
  lemma ScanItemsFirst(items: seq<Item>, cd: map<string, int>, now: int)
    ensures ScanItems(items, cd, now) == Success(None) <==> forall i :: 0 <= i < |items| ==> Passed(items[i], cd, now)
    ensures ScanItems(items, cd, now) != Success(None) ==>
      exists i :: 0 <= i < |items| && items[i].Record? && !Passed(items[i], cd, now)
        && (forall j :: 0 <= j < i ==> Passed(items[j], cd, now))
        && ScanItems(items, cd, now) == PickCode(items[i].fields)
  {
    var ps := Picks(items);
    ScanPicksFirst(ps, cd, now);
  }

  /** One poll of `find_candidate`: the clock before the request, the
      ranking response (or the failure the request raised) and the clock
      read after it. */
  datatype Poll = Poll(clock: int, response: Result<Response, RestError>, now: int)

  /** What one poll decides: a raised exception, a code, or nothing (poll
      again). */
  function PollOutcome(p: Poll, cd: map<string, int>): (r: Result<Option<string>, Fault>)
    ensures p.response.Failure? ==> r == Failure(RestFault(p.response.error))
    ensures r.Success? && r.value.Some? ==> r.value.value != "" && !CoolingDown(cd, r.value.value, p.now)
  {
    match p.response
    case Failure(e) => Failure(RestFault(e))
    case Success(res) => ScanItems(ItemsFrom(res, ListKeys), cd, p.now)
  }

  /** The `for k in ("output", ...)` loop: the entries under the first
      key that holds a list. */
  method FirstList(res: Response) returns (items: seq<Item>)
    ensures items == ItemsFrom(res, ListKeys)
  {
    items := [];
    var k := 0;
    while k < |ListKeys|
      invariant 0 <= k <= |ListKeys|
      invariant ItemsFrom(res, ListKeys) == ItemsFrom(res, ListKeys[k..])
    {
      if ListAt(res, ListKeys[k]) {
        items := res[ListKeys[k]].items;
        return;
      }
      assert ListKeys[k..][1..] == ListKeys[k + 1..];
      k := k + 1;
    }
  }

  /** The `for it in items` loop of one poll. */
  method ScanList(items: seq<Item>, cd: map<string, int>, now: int) returns (r: Result<Option<string>, Fault>)
    ensures r == ScanItems(items, cd, now)
  {
    ghost var ps := Picks(items);
    var j := 0;
    while j < |items|
      invariant 0 <= j <= |items|
      invariant ScanItems(items, cd, now) == ScanPicks(ps[j..], cd, now)
    {
      var it := items[j];
      assert ps[j..][1..] == ps[j + 1..] && ps[j..][0] == PickOf(it);
      if it.Record? {
        var code := PickCode(it.fields);
        if code.Failure? {
          return code;
        }
        if code.value.Some? && !CoolingDown(cd, code.value.value, now) {
          return code;
        }
      }
      j := j + 1;
    }
    r := Success(None);
  }

  /** `used` polls decided the scan's outcome `r`: every one of them was
      made before `end`, every one but the last gave nothing, and the scan
      returned the last one's outcome, or nothing once the polls ran out or
      the clock reached `end`. */
  ghost predicate ScanOutcome(cd: map<string, int>, end: int, polls: seq<Poll>, r: Result<Option<string>, Fault>, used: nat) {
    && used <= |polls|
    && (forall k :: 0 <= k < used ==> polls[k].clock < end)
    && (forall k :: 0 <= k < used - 1 ==> PollOutcome(polls[k], cd) == Success(None))
    && (r == Success(None) ==>
          && (used == |polls| || polls[used].clock >= end)
          && (forall k :: 0 <= k < used ==> PollOutcome(polls[k], cd) == Success(None)))
    && (r != Success(None) ==> used > 0 && r == PollOutcome(polls[used - 1], cd))
  }

  /** `find_candidate(cooldowns, session_end=end)`: poll the ranking while
      the clock is before `end` and return the first qualifying code of the
      first poll that has one. None comes back only once the clock has
      reached `end` (or the polls run out). `used` is the number of
      requests made. */
  method FindCandidate(cd: map<string, int>, end: int, polls: seq<Poll>)
    returns (r: Result<Option<string>, Fault>, used: nat)
    ensures used <= |polls|
    ensures forall k :: 0 <= k < used ==> polls[k].clock < end
    ensures forall k :: 0 <= k < used - 1 ==> PollOutcome(polls[k], cd) == Success(None)
    ensures r == Success(None) ==>
      && (used == |polls| || polls[used].clock >= end)
      && (forall k :: 0 <= k < used ==> PollOutcome(polls[k], cd) == Success(None))
    ensures r != Success(None) ==> used > 0 && r == PollOutcome(polls[used - 1], cd)
    ensures r.Success? && r.value.Some? ==> r.value.value != "" && !CoolingDown(cd, r.value.value, polls[used - 1].now)
  {
    used := 0;
    while used < |polls| && polls[used].clock < end
      invariant used <= |polls|
      invariant forall k :: 0 <= k < used ==> polls[k].clock < end && PollOutcome(polls[k], cd) == Success(None)
      decreases |polls| - used
    {
      var p := polls[used];
      used := used + 1;
      if p.response.Failure? {
        return Failure(RestFault(p.response.error)), used;
      }
      var items := FirstList(p.response.value);
      r := ScanList(items, cd, p.now);
      if r != Success(None) {
        return r, used;
      }
    }
    r := Success(None);
  }

  // ---------------------------------------------------------------------------
  // Order attempts
  // ---------------------------------------------------------------------------

  /** One order sent by a loop: at `price` for `qty`, with the order number
      returned and the (quantity, value) its fill wait reported. */
  datatype Order = Order(price: int, qty: int, orderNo: string, filled: (int, int))

  /** One attempt that got an order-book snapshot: its sequence number, the
      quote, and the order it sent, if any. */
  datatype Try = Try(seqNo: int, quote: Quote, order: Option<Order>)

  /** The sequence number the `k`-th attempt waits past: the starting one,
      then the one each attempt consumed. */
  function Prev(start: int, tries: seq<Try>, k: nat): int
    requires k <= |tries|
  {
    if k == 0 then start else tries[k - 1].seqNo
  }

  /** `(total_qty, total_value)`: the sum over the orders whose fill wait
      reported a positive quantity. */
  function Filled(tries: seq<Try>): (int, int) {
    if |tries| == 0 then (0, 0)
    else
      var (q, v) := Filled(tries[..|tries| - 1]);
      var t := tries[|tries| - 1];
      if t.order.Some? && t.order.value.filled.0 > 0 then (q + t.order.value.filled.0, v + t.order.value.filled.1)
      else (q, v)
  }

  /** An attempt that counts. */
  predicate Counted(t: Try) {
    t.order.Some? && t.order.value.filled.0 > 0
  }

  lemma FilledSnoc(tries: seq<Try>, t: Try)
    ensures Filled(tries + [t]) ==
      if Counted(t) then (Filled(tries).0 + t.order.value.filled.0, Filled(tries).1 + t.order.value.filled.1)
      else Filled(tries)
  {
    assert (tries + [t])[..|tries|] == tries;
  }

  /** The accumulated quantity is never negative, and it is positive
      exactly when some order's fill wait reported a positive quantity. */
  lemma {:induction false} FilledPositive(tries: seq<Try>)
    ensures Filled(tries).0 >= 0
    ensures Filled(tries).0 > 0 <==> exists k :: 0 <= k < |tries| && Counted(tries[k])
    decreases |tries|
  {
    if |tries| > 0 {
      var init := tries[..|tries| - 1];
      FilledPositive(init);
      assert forall k :: 0 <= k < |init| ==> init[k] == tries[k];
      if exists k :: 0 <= k < |init| && Counted(init[k]) {
        var k :| 0 <= k < |init| && Counted(init[k]);
        assert Counted(tries[k]);
      }
    }
  }

  /** Each attempt's sequence number is past the one before it. */
  ghost predicate Chained(start: int, tries: seq<Try>) {
    forall k :: 0 <= k < |tries| ==> tries[k].seqNo > Prev(start, tries, k)
  }

  /** Consumed snapshots are strictly newer, one after the other. */
  lemma {:induction false} ChainedIncreasing(start: int, tries: seq<Try>, j: nat)
    requires Chained(start, tries) && j < |tries|
    ensures start < tries[j].seqNo
    ensures forall i :: 0 <= i < j ==> tries[i].seqNo < tries[j].seqNo
  {
    assert tries[j].seqNo > Prev(start, tries, j);
    if j > 0 {
      ChainedIncreasing(start, tries, j - 1);
    }
  }

  /** The snapshot an order-book wait on `view` returns, when it returns. */
  function Snapshot(view: Option<Tables>, code: string, lastSeq: int): (r: Option<(int, Quote)>)
    ensures r.Some? ==> r.value.0 > lastSeq && view.Some? && r == NextSnapshot(view.value, code, lastSeq)
    ensures r.None? ==> view.None? || NextSnapshot(view.value, code, lastSeq).None?
  {
    if view.Some? then NextSnapshot(view.value, code, lastSeq) else None
  }

  // ---------------------------------------------------------------------------
  // The IOC buy loop
  // ---------------------------------------------------------------------------

  /** `int(psbl_cash * 0.98) // ask1`: the largest quantity whose cost at
      the ask fits in 98% of the buying power. */
  function Affordable(cash: int, ask: int): (r: int)
    requires ask > 0
    ensures var budget := Trunc(cash as real * 98.0 / 100.0);
      r * ask <= budget < (r + 1) * ask
  {
    Trunc(cash as real * 98.0 / 100.0) / ask
  }

  /** What one buy attempt meets: the clock before it, the tables when its
      order-book wait ends (None: timeout), the buying-power reply, the
      order reply and the fills its fill wait drained. */
  datatype BuyStep = BuyStep(
    clock: int,
    book: Option<Tables>,
    cash: Result<int, RestError>,
    order: Result<string, RestError>,
    fills: seq<ExecFill>)

  /** Why the buy loop ended. */
  datatype BuyStop =
    | AttemptsUsed                // every attempt was made
    | SessionOver                 // the clock reached the end before an attempt
    | BookTimeout                 // an order-book wait timed out (and raised)
    | NoCash                      // the affordable quantity was not positive
    | BuyRaised(error: RestError) // a buying-power or order request raised

  /** Attempt `t` of the buy loop on step `s`, after the snapshot `prev`.
      It took the snapshot the wait returns; an order is sent only at a
      positive ask, for the affordable quantity, and it records what the
      order and fill replies gave. */
  ghost predicate BuyTryOk(code: string, end: int, s: BuyStep, prev: int, t: Try) {
    && s.clock < end
    && Snapshot(s.book, code, prev) == Some((t.seqNo, t.quote))
    && (t.quote.ask <= 0 ==> t.order.None?)
    && (t.order.Some? ==>
          var o := t.order.value;
          && o.price == t.quote.ask > 0
          && s.cash.Success? && o.qty == Affordable(s.cash.value, o.price) > 0
          && s.order == Success(o.orderNo)
          && o.filled == FillTotals(s.fills))
  }

  /** Every attempt made satisfies `BuyTryOk` on its own step. */
  ghost predicate BuyTries(code: string, end: int, steps: seq<BuyStep>, startSeq: int, tries: seq<Try>)
    decreases |tries|
  {
    && |tries| <= |steps|
    && (|tries| > 0 ==>
          var n := |tries| - 1;
          BuyTries(code, end, steps, startSeq, tries[..n]) && BuyTryOk(code, end, steps[n], Prev(startSeq, tries, n), tries[n]))
  }

  lemma {:induction false} BuyTriesAt(code: string, end: int, steps: seq<BuyStep>, startSeq: int, tries: seq<Try>, k: nat)
    requires BuyTries(code, end, steps, startSeq, tries) && k < |tries|
    ensures BuyTryOk(code, end, steps[k], Prev(startSeq, tries, k), tries[k])
    decreases |tries|
  {
    var n := |tries| - 1;
    if k < n {
      var init := tries[..n];
      BuyTriesAt(code, end, steps, startSeq, init, k);
      assert init[k] == tries[k] && Prev(startSeq, init, k) == Prev(startSeq, tries, k);
    }
  }

  lemma BuyTriesSnoc(code: string, end: int, steps: seq<BuyStep>, startSeq: int, tries: seq<Try>, t: Try)
    requires BuyTries(code, end, steps, startSeq, tries) && |tries| < |steps|
    requires BuyTryOk(code, end, steps[|tries|], Prev(startSeq, tries, |tries|), t)
    ensures BuyTries(code, end, steps, startSeq, tries + [t])
  {
    var u := tries + [t];
    assert u[..|tries|] == tries;
    assert Prev(startSeq, u, |tries|) == Prev(startSeq, tries, |tries|);
  }

  /** The buy loop's run: the attempts it made, why it stopped, and the
      result it returned. */
  ghost predicate BuyOutcome(code: string, startSeq: int, end: int, maxAttempts: int, steps: seq<BuyStep>,
                             tries: seq<Try>, stop: BuyStop, qty: int, avg: real) {
    && |tries| <= Max(maxAttempts, 0)
    && BuyTries(code, end, steps, startSeq, tries)
    // An attempt at a positive ask sends its order, unless the loop ends there.
    && (forall k :: 0 <= k < |tries| && tries[k].order.None? && tries[k].quote.ask > 0 ==>
          k == |tries| - 1 && (stop.NoCash? || stop.BuyRaised?))
    && (stop.AttemptsUsed? ==> |tries| == Max(maxAttempts, 0))
    && (stop.SessionOver? ==> |tries| < maxAttempts && |tries| < |steps| && steps[|tries|].clock >= end)
    && (stop.BookTimeout? ==>
          |tries| < maxAttempts &&
          (|tries| == |steps| || (steps[|tries|].clock < end && Snapshot(steps[|tries|].book, code, Prev(startSeq, tries, |tries|)).None?)))
    && (stop.NoCash? || stop.BuyRaised? ==>
          && 0 < |tries| <= |steps|
          && var last := tries[|tries| - 1];
             var s := steps[|tries| - 1];
             && last.order.None? && last.quote.ask > 0
             && (stop.NoCash? ==> s.cash.Success? && Affordable(s.cash.value, last.quote.ask) <= 0)
             && (stop.BuyRaised? ==>
                   s.cash == Failure(stop.error)
                   || (s.cash.Success? && Affordable(s.cash.value, last.quote.ask) > 0 && s.order == Failure(stop.error))))
    // The result: nothing when nothing filled, else the total and the average price.
    && var (q, v) := Filled(tries);
       && qty == (if q <= 0 then 0 else q)
       && avg == (if q <= 0 then 0.0 else v as real / q as real)
  }

  /** One attempt of the buy loop once the wait returned a snapshot: the
      order at the ask for the affordable quantity, unless the ask is not
      positive, the buying power raises, nothing is affordable or the order
      raises. The loop goes on only after an order or a non-positive ask. */
  method BuyAttempt(code: string, end: int, s: BuyStep, prev: int) returns (t: Try, stop: BuyStop)
    requires s.clock < end && Snapshot(s.book, code, prev).Some?
    ensures BuyTryOk(code, end, s, prev, t)
    ensures stop.AttemptsUsed? <==> t.order.Some? || t.quote.ask <= 0
    ensures stop.AttemptsUsed? || stop.NoCash? || stop.BuyRaised?
    ensures stop.NoCash? ==> s.cash.Success? && Affordable(s.cash.value, t.quote.ask) <= 0
    ensures stop.BuyRaised? ==>
      s.cash == Failure(stop.error)
      || (s.cash.Success? && Affordable(s.cash.value, t.quote.ask) > 0 && s.order == Failure(stop.error))
  {
    var (sn, quote) := Snapshot(s.book, code, prev).value;
    t, stop := Try(sn, quote, None), AttemptsUsed;
    if quote.ask > 0 {
      if s.cash.Failure? {
        stop := BuyRaised(s.cash.error);
      } else {
        var affordable := Affordable(s.cash.value, quote.ask);
        if affordable <= 0 {
          stop := NoCash;
        } else if s.order.Failure? {
          stop := BuyRaised(s.order.error);
        } else {
          t := Try(sn, quote, Some(Order(quote.ask, affordable, s.order.value, FillTotals(s.fills))));
        }
      }
    }
  }

  /** `ioc_buy_with_ws(code, session_end=end, max_attempts=maxAttempts)`.
      The approval key is fetched before the subscription, so its failure
      raises with nothing subscribed; once subscribed, the loop ends at the
      first exception and the unsubscription follows on every path. */
  method IocBuy(code: string, approval: Result<string, RestError>, startSeq: int, end: int,
                maxAttempts: int, steps: seq<BuyStep>)
    returns (r: Result<(int, real), Fault>, tries: seq<Try>, stop: BuyStop, log: seq<Sub>)
    ensures approval.Failure? ==> r == Failure(RestFault(approval.error)) && tries == [] && log == []
    ensures approval.Success? ==>
      && r.Success?
      && log == [Subscribe(OrderbookTrId, code), Unsubscribe(OrderbookTrId, code)]
      && BuyOutcome(code, startSeq, end, maxAttempts, steps, tries, stop, r.value.0, r.value.1)
  {
    tries, stop := [], AttemptsUsed;
    if approval.Failure? {
      return Failure(RestFault(approval.error)), tries, stop, [];
    }
    log := [Subscribe(OrderbookTrId, code)];
    var totalQty, totalValue := 0, 0;
    var lastSeq := startSeq;
    var attempt := 0;  // the source counts attempts from 1
    while attempt < maxAttempts
      invariant 0 <= attempt == |tries| <= |steps|
      invariant attempt <= Max(maxAttempts, 0)
      invariant lastSeq == Prev(startSeq, tries, |tries|)
      invariant (totalQty, totalValue) == Filled(tries)
      invariant BuyTries(code, end, steps, startSeq, tries)
      invariant forall k :: 0 <= k < |tries| ==> tries[k].order.Some? || tries[k].quote.ask <= 0
      invariant stop == AttemptsUsed
    {
      if attempt >= |steps| {
        stop := BookTimeout;
        break;
      }
      var s := steps[attempt];
      if s.clock >= end {
        stop := SessionOver;
        break;
      }
      var snap := Snapshot(s.book, code, lastSeq);
      if snap.None? {
        stop := BookTimeout;
        break;
      }
      var t;
      t, stop := BuyAttempt(code, end, s, lastSeq);
      lastSeq := t.seqNo;
      BuyTriesSnoc(code, end, steps, startSeq, tries, t);
      FilledSnoc(tries, t);
      tries := tries + [t];
      if stop != AttemptsUsed {
        break;
      }
      if Counted(t) {
        totalQty, totalValue := totalQty + t.order.value.filled.0, totalValue + t.order.value.filled.1;
      }
      attempt := attempt + 1;
    }
    log := log + [Unsubscribe(OrderbookTrId, code)];
    if totalQty <= 0 {
      r := Success((0, 0.0));
    } else {
      r := Success((totalQty, totalValue as real / totalQty as real));
    }
  }

  /** Appending an attempt keeps the earlier attempts' predecessors. */
  lemma PrevSnoc(start: int, tries: seq<Try>, t: Try)
    ensures forall k :: 0 <= k <= |tries| ==> Prev(start, tries + [t], k) == Prev(start, tries, k)
    ensures Prev(start, tries + [t], |tries| + 1) == t.seqNo
  {
  }

  /** Over a buy run, the consumed snapshots are strictly newer one after
      the other, starting past the one the loop started from. */
  lemma BuySnapshotsIncrease(code: string, startSeq: int, end: int, maxAttempts: int, steps: seq<BuyStep>,
                             tries: seq<Try>, stop: BuyStop, qty: int, avg: real, i: nat, j: nat)
    requires BuyOutcome(code, startSeq, end, maxAttempts, steps, tries, stop, qty, avg)
    requires i < j < |tries|
    ensures startSeq < tries[i].seqNo < tries[j].seqNo
  {
    forall k | 0 <= k < |tries| ensures tries[k].seqNo > Prev(startSeq, tries, k) {
      BuyTriesAt(code, end, steps, startSeq, tries, k);
    }
    ChainedIncreasing(startSeq, tries, i);
    ChainedIncreasing(startSeq, tries, j);
  }

  /** Every order of a buy run is for the affordable quantity at the ask of
      a snapshot with a positive ask, and at most one order is sent per
      attempt, so never more than `maxAttempts`. */
  lemma BuyOrders(code: string, startSeq: int, end: int, maxAttempts: int, steps: seq<BuyStep>,
                  tries: seq<Try>, stop: BuyStop, qty: int, avg: real, k: nat)
    requires BuyOutcome(code, startSeq, end, maxAttempts, steps, tries, stop, qty, avg)
    requires k < |tries| && tries[k].order.Some?
    ensures k < maxAttempts && k < |steps|
    ensures var o := tries[k].order.value;
      && o.price == tries[k].quote.ask > 0
      && steps[k].cash.Success? && o.qty == Affordable(steps[k].cash.value, o.price) > 0
      && steps[k].order == Success(o.orderNo)
  {
    BuyTriesAt(code, end, steps, startSeq, tries, k);
  }

  /** The buy returns (0, 0.0) exactly when no order's fill wait reported a
      positive quantity; otherwise a positive quantity. */
  lemma BuyNothingFilled(code: string, startSeq: int, end: int, maxAttempts: int, steps: seq<BuyStep>,
                         tries: seq<Try>, stop: BuyStop, qty: int, avg: real)
    requires BuyOutcome(code, startSeq, end, maxAttempts, steps, tries, stop, qty, avg)
    ensures qty >= 0
    ensures qty == 0 <==> forall k :: 0 <= k < |tries| ==> !Counted(tries[k])
    ensures qty == 0 ==> avg == 0.0
  {
    FilledPositive(tries);
  }

  // ---------------------------------------------------------------------------
  // The IOC sell loop
  // ---------------------------------------------------------------------------

  /** What one sell attempt meets: the tables when its order-book wait ends
      (None: timeout), the order reply and the fills its fill wait drained.
      The sell loop reads no clock. */
  datatype SellStep = SellStep(book: Option<Tables>, order: Result<string, RestError>, fills: seq<ExecFill>)

  /** Why the sell loop ended. */
  datatype SellStop =
    | SoldOut                      // nothing remained to sell
    | SellAttemptsUsed             // every attempt was made
    | SellBookTimeout              // an order-book wait timed out (and raised)
    | SellRaised(error: RestError) // an order request raised

  /** Attempt `t` of the sell loop on step `s`, after the snapshot `prev`,
      with `remain` still to sell: an order is sent only at a positive bid,
      for everything that remains. */
  ghost predicate SellTryOk(code: string, s: SellStep, prev: int, remain: int, t: Try) {
    && remain > 0
    && Snapshot(s.book, code, prev) == Some((t.seqNo, t.quote))
    && (t.quote.bid <= 0 ==> t.order.None?)
    && (t.order.Some? ==>
          var o := t.order.value;
          && o.price == t.quote.bid > 0
          && o.qty == remain
          && s.order == Success(o.orderNo)
          && o.filled == FillTotals(s.fills))
  }

  /** Every attempt made satisfies `SellTryOk` on its own step, with what
      remained after the attempts before it. */
  ghost predicate SellTries(code: string, steps: seq<SellStep>, startSeq: int, qty: int, tries: seq<Try>)
    decreases |tries|
  {
    && |tries| <= |steps|
    && (|tries| > 0 ==>
          var n := |tries| - 1;
          && SellTries(code, steps, startSeq, qty, tries[..n])
          && SellTryOk(code, steps[n], Prev(startSeq, tries, n), qty - Filled(tries[..n]).0, tries[n]))
  }

  lemma {:induction false} SellTriesAt(code: string, steps: seq<SellStep>, startSeq: int, qty: int, tries: seq<Try>, k: nat)
    requires SellTries(code, steps, startSeq, qty, tries) && k < |tries|
    ensures SellTryOk(code, steps[k], Prev(startSeq, tries, k), qty - Filled(tries[..k]).0, tries[k])
    decreases |tries|
  {
    var n := |tries| - 1;
    if k < n {
      var init := tries[..n];
      SellTriesAt(code, steps, startSeq, qty, init, k);
      assert init[k] == tries[k] && Prev(startSeq, init, k) == Prev(startSeq, tries, k) && init[..k] == tries[..k];
    }
  }

  lemma SellTriesSnoc(code: string, steps: seq<SellStep>, startSeq: int, qty: int, tries: seq<Try>, t: Try)
    requires SellTries(code, steps, startSeq, qty, tries) && |tries| < |steps|
    requires SellTryOk(code, steps[|tries|], Prev(startSeq, tries, |tries|), qty - Filled(tries).0, t)
    ensures SellTries(code, steps, startSeq, qty, tries + [t])
  {
    var u := tries + [t];
    assert u[..|tries|] == tries;
    assert Prev(startSeq, u, |tries|) == Prev(startSeq, tries, |tries|);
  }

  /** The sell loop's run for `qty` shares: the attempts, why it stopped,
      and the (sold quantity, sold value) it returned. */
  ghost predicate SellOutcome(code: string, startSeq: int, qty: int, maxAttempts: int, steps: seq<SellStep>,
                              tries: seq<Try>, stop: SellStop, soldQty: int, soldValue: int) {
    && |tries| <= Max(maxAttempts, 0)
    && SellTries(code, steps, startSeq, qty, tries)
    && (forall k :: 0 <= k < |tries| && tries[k].order.None? && tries[k].quote.bid > 0 ==>
          k == |tries| - 1 && stop.SellRaised?)
    && (soldQty, soldValue) == Filled(tries)
    && (stop.SoldOut? ==> |tries| < maxAttempts && soldQty >= qty)
    && (stop.SellAttemptsUsed? ==> |tries| == Max(maxAttempts, 0))
    && (stop.SellBookTimeout? ==>
          |tries| < maxAttempts && soldQty < qty &&
          (|tries| == |steps| || Snapshot(steps[|tries|].book, code, Prev(startSeq, tries, |tries|)).None?))
    && (stop.SellRaised? ==>
          && 0 < |tries| <= |steps|
          && var last := tries[|tries| - 1];
             last.order.None? && last.quote.bid > 0 && steps[|tries| - 1].order == Failure(stop.error))
  }

  /** `ioc_sell_with_ws(code, qty_to_sell, max_attempts=maxAttempts)`: sell
      what remains at the bid until nothing remains or the attempts are
      used up; `sold + remain == qty` holds throughout. */
  method IocSell(code: string, approval: Result<string, RestError>, startSeq: int, qty: int,
                 maxAttempts: int, steps: seq<SellStep>)
    returns (r: Result<(int, int), Fault>, tries: seq<Try>, stop: SellStop, log: seq<Sub>)
    ensures approval.Failure? ==> r == Failure(RestFault(approval.error)) && tries == [] && log == []
    ensures approval.Success? ==>
      && r.Success?
      && log == [Subscribe(OrderbookTrId, code), Unsubscribe(OrderbookTrId, code)]
      && SellOutcome(code, startSeq, qty, maxAttempts, steps, tries, stop, r.value.0, r.value.1)
  {
    tries, stop := [], SellAttemptsUsed;
    if approval.Failure? {
      return Failure(RestFault(approval.error)), tries, stop, [];
    }
    log := [Subscribe(OrderbookTrId, code)];
    var remain := qty;
    var soldQty, soldValue := 0, 0;
    var lastSeq := startSeq;
    var attempt := 0;
    while attempt < maxAttempts
      invariant 0 <= attempt == |tries| <= |steps|
      invariant attempt <= Max(maxAttempts, 0)
      invariant soldQty + remain == qty
      invariant lastSeq == Prev(startSeq, tries, |tries|)
      invariant (soldQty, soldValue) == Filled(tries)
      invariant SellTries(code, steps, startSeq, qty, tries)
      invariant forall k :: 0 <= k < |tries| ==> tries[k].order.Some? || tries[k].quote.bid <= 0
      invariant stop == SellAttemptsUsed
    {
      if remain <= 0 {
        stop := SoldOut;
        break;
      }
      if attempt >= |steps| {
        stop := SellBookTimeout;
        break;
      }
      var s := steps[attempt];
      var snap := Snapshot(s.book, code, lastSeq);
      if snap.None? {
        stop := SellBookTimeout;
        break;
      }
      var (sn, quote) := snap.value;
      lastSeq := sn;
      var t := Try(sn, quote, None);
      if quote.bid > 0 {
        if s.order.Failure? {
          stop := SellRaised(s.order.error);
        } else {
          t := Try(sn, quote, Some(Order(quote.bid, remain, s.order.value, FillTotals(s.fills))));
        }
      }
      SellTriesSnoc(code, steps, startSeq, qty, tries, t);
      FilledSnoc(tries, t);
      tries := tries + [t];
      if stop != SellAttemptsUsed {
        break;
      }
      if Counted(t) {
        var filled := t.order.value.filled;
        soldQty, soldValue, remain := soldQty + filled.0, soldValue + filled.1, remain - filled.0;
      }
      attempt := attempt + 1;
    }
    log := log + [Unsubscribe(OrderbookTrId, code)];
    r := Success((soldQty, soldValue));
  }

  /** Every order of a sell run is for exactly what remained unsold before
      it, at the bid of a snapshot with a positive bid. */
  lemma SellOrderQty(code: string, startSeq: int, qty: int, maxAttempts: int, steps: seq<SellStep>,
                     tries: seq<Try>, stop: SellStop, soldQty: int, soldValue: int, k: nat)
    requires SellOutcome(code, startSeq, qty, maxAttempts, steps, tries, stop, soldQty, soldValue)
    requires k < |tries| && tries[k].order.Some?
    ensures tries[k].order.value.qty == qty - Filled(tries[..k]).0 > 0
    ensures tries[k].order.value.price == tries[k].quote.bid > 0
  {
    SellTriesAt(code, steps, startSeq, qty, tries, k);
  }

  /** The sell loop stops early with everything sold exactly when the sold
      quantity reached the quantity asked for before the attempts ran out;
      a raising order leaves something unsold. */
  lemma SellStopsWhenSold(code: string, startSeq: int, qty: int, maxAttempts: int, steps: seq<SellStep>,
                          tries: seq<Try>, stop: SellStop, soldQty: int, soldValue: int)
    requires SellOutcome(code, startSeq, qty, maxAttempts, steps, tries, stop, soldQty, soldValue)
    ensures stop.SellRaised? ==> soldQty < qty
    ensures stop.SoldOut? <==> (soldQty >= qty && |tries| < maxAttempts)
  {
    if stop.SellRaised? {
      var j := |tries| - 1;
      SellTriesAt(code, steps, startSeq, qty, tries, j);
      assert tries[..j] + [tries[j]] == tries;
      FilledSnoc(tries[..j], tries[j]);
    }
  }

  // ---------------------------------------------------------------------------
  // Waiting for the target, then selling
  // ---------------------------------------------------------------------------

  /** `math.ceil(avg_buy * 1.01)`: the smallest integer at or above the
      average price plus 1%. */
  function Target(avgBuy: real): (r: int)
    ensures r as real >= avgBuy * 101.0 / 100.0 > (r - 1) as real
  {
    Ceil(avgBuy * 101.0 / 100.0)
  }

  /** What the hold phase meets: the approval key, the tables when the
      trade wait returns (None: the session ended or the wait raised), and
      what the sell that follows meets. */
  datatype SellRun = SellRun(approval: Result<string, RestError>, startSeq: int, steps: seq<SellStep>)

  /** Sell attempts of `ioc_sell_with_ws` by default. */
  const SellAttempts: int := 30

  /** `wait_for_1pct_then_sell(code, buy_qty, avg_buy)`: wait for a trade at
      the target, then sell the whole bought quantity whatever the wait
      gave. The target is hit only when the trade wait returned a price at
      or above it. */
  method WaitThenSell(code: string, buyQty: int, avgBuy: real, approval: Result<string, RestError>,
                      reach: Option<Tables>, sell: SellRun)
    returns (r: Result<(int, int, bool), Fault>, tries: seq<Try>, stop: SellStop, log: seq<Sub>)
    ensures approval.Failure? ==> r == Failure(RestFault(approval.error)) && log == []
    ensures approval.Success? && sell.approval.Failure? ==>
      r == Failure(RestFault(sell.approval.error)) && log == [Subscribe(TradeTrId, code), Unsubscribe(TradeTrId, code)]
    ensures approval.Success? && sell.approval.Success? ==>
      && r.Success?
      && (r.value.2 <==> reach.Some? && TradeReached(reach.value, code, Target(avgBuy)).Some?)
      && log == [Subscribe(TradeTrId, code), Unsubscribe(TradeTrId, code),
                 Subscribe(OrderbookTrId, code), Unsubscribe(OrderbookTrId, code)]
      && SellOutcome(code, sell.startSeq, buyQty, SellAttempts, sell.steps, tries, stop, r.value.0, r.value.1)
  {
    tries, stop := [], SellAttemptsUsed;
    if approval.Failure? {
      return Failure(RestFault(approval.error)), tries, stop, [];
    }
    log := [Subscribe(TradeTrId, code)];
    var target := Target(avgBuy);
    var targetHit := false;
    if reach.Some? && TradeReached(reach.value, code, target).Some? {
      targetHit := true;
    }
    log := log + [Unsubscribe(TradeTrId, code)];
    var sold, sellLog;
    sold, tries, stop, sellLog := IocSell(code, sell.approval, sell.startSeq, buyQty, SellAttempts, sell.steps);
    log := log + sellLog;
    if sold.Failure? {
      return Failure(sold.error), tries, stop, log;
    }
    r := Success((sold.value.0, sold.value.1, targetHit));
  }

  /** Every routine's subscription log pairs each subscription with its
      unsubscription. */
  lemma LogsPaired(code: string)
    ensures Paired([Subscribe(OrderbookTrId, code), Unsubscribe(OrderbookTrId, code)])
    ensures Paired([Subscribe(TradeTrId, code), Unsubscribe(TradeTrId, code),
                    Subscribe(OrderbookTrId, code), Unsubscribe(OrderbookTrId, code)])
    ensures Paired([])
  {
    var l := [Subscribe(TradeTrId, code), Unsubscribe(TradeTrId, code),
              Subscribe(OrderbookTrId, code), Unsubscribe(OrderbookTrId, code)];
    assert |l| / 2 == 2;
    assert l[2 * 1] == Subscribe(OrderbookTrId, code);
  }
}
