/** One trading session (kis/session.py): up to five buy-then-sell cycles
    between the session start and end, the cooldown map written after
    every buy and every sell, and one forced liquidation at the end when a
    bought position was left unsold. Every REST reply, stream wait and
    clock reading a cycle meets is an input (`Cycle`). */
module Session {
  import opened Util
  import opened TimeUtils
  import opened Rest
  import opened Ws
  import opened Strategy

  /** Cycles a session completes at most. */
  const MaxTrades: int := 5
  /** Buy attempts of `ioc_buy_with_ws` by default. */
  const BuyAttempts: int := 20

  /** The cooldown dictionary: code to the time it was last bought or
      sold. It is shared with the caller and updated in place. */
  class Cooldowns {
    var last: map<string, int>

    constructor(init: map<string, int>)
      ensures last == init
    {
      last := init;
    }
  }

  /** What the buy routine of one cycle meets. */
  datatype BuyRun = BuyRun(approval: Result<string, RestError>, startSeq: int, steps: seq<BuyStep>)

  /** What the hold-then-sell routine of one cycle meets. */
  datatype Hold = Hold(approval: Result<string, RestError>, reach: Option<Tables>, sell: SellRun)

  /** One cycle's inputs: the clock at the loop test, the ranking polls,
      the buy, the clock after the buy, the hold phase and the clock after
      it. */
  datatype Cycle = Cycle(clock: int, polls: seq<Poll>, buy: BuyRun, boughtAt: int, hold: Hold, soldAt: int)

  /** `open_position`: (code, qty, avg_buy). */
  datatype Position = Position(code: string, qty: int, avgBuy: real)

  /** How one cycle ended. */
  datatype CycleResult =
    | NoCandidate                                              // the scan reached the end: stop
    | ScanFailed(fault: Fault)                                 // the scan raised
    | BuyFailed(code: string)                                  // nothing bought: scan again
    | BuyAborted(code: string, fault: Fault)                   // the buy raised
    | Held(pos: Position, sold: int, soldValue: int, targetHit: bool)  // bought, then sold `sold`
    | HoldAborted(pos: Position, fault: Fault)                 // bought, then the hold phase raised

  /** What the routines of one cycle did, as they report it: the polls the
      scan made, and the attempts and stop reason of the buy and of the
      sell (empty when the routine did not run). */
  datatype Trace = Trace(used: nat, buyTries: seq<Try>, buyStop: BuyStop, sellTries: seq<Try>, sellStop: SellStop)

  /** What the session does on the stream, in order. */
  datatype Event =
    | Connect
    | Stream(sub: Sub)
    | Liquidate(pos: Position, sold: int, soldValue: int, tries: seq<Try>, stop: SellStop)  // the forced sell
    | Close

  // ---------------------------------------------------------------------------
  // The session's bookkeeping as functions of the cycle results
  // ---------------------------------------------------------------------------

  /** A cycle after which the loop goes on. */
  predicate Continues(r: CycleResult) {
    r.BuyFailed? || r.Held?
  }

  /** A cycle that raised. */
  function Raised(r: CycleResult): Option<Fault> {
    match r
    case ScanFailed(f) => Some(f)
    case BuyAborted(_, f) => Some(f)
    case HoldAborted(_, f) => Some(f)
    case _ => None
  }

  /** A cycle that counts towards `done`: any positive sold quantity. */
  predicate Completed(r: CycleResult) {
    r.Held? && r.sold > 0
  }

  /** A cycle that set `open_position`. */
  predicate Opened(r: CycleResult) {
    r.Held? || r.HoldAborted?
  }

  /** `done` after the cycles `rs`. */
  function DoneCount(rs: seq<CycleResult>): (n: nat)
    ensures n <= |rs|
    decreases |rs|
  {
    if |rs| == 0 then 0
    else DoneCount(rs[..|rs| - 1]) + (if Completed(rs[|rs| - 1]) then 1 else 0)
  }

  /** `open_position` after the cycles `rs`: a buy sets it, overwriting
      what was carried; a positive sale clears it; a failed buy leaves it. */
  function Carried(rs: seq<CycleResult>): Option<Position>
    decreases |rs|
  {
    if |rs| == 0 then None
    else
      var r := rs[|rs| - 1];
      if Completed(r) then None
      else if Opened(r) then Some(r.pos)
      else Carried(rs[..|rs| - 1])
  }

  /** The code a cycle wrote into the cooldown map, if any. */
  function Touched(r: CycleResult): Option<string> {
    match r
    case BuyFailed(code) => Some(code)
    case Held(p, _, _, _) => Some(p.code)
    case HoldAborted(p, _) => Some(p.code)
    case _ => None
  }

  /** The time of a cycle's last cooldown write. */
  function WriteTime(c: Cycle, r: CycleResult): int {
    if r.Held? then c.soldAt else c.boughtAt
  }

  /** The cooldown map after one cycle: the code is written after the buy
      returns and again after the sell returns. */
  function Cool(cd: map<string, int>, c: Cycle, r: CycleResult): map<string, int> {
    match r
    case BuyFailed(code) => cd[code := c.boughtAt]
    case Held(p, _, _, _) => cd[p.code := c.boughtAt][p.code := c.soldAt]
    case HoldAborted(p, _) => cd[p.code := c.boughtAt]
    case _ => cd
  }

  /** The cooldown map after the cycles `rs` met `cycles`. */
  function Cooled(cd: map<string, int>, cycles: seq<Cycle>, rs: seq<CycleResult>): map<string, int>
    requires |rs| <= |cycles|
    decreases |rs|
  {
    if |rs| == 0 then cd
    else Cool(Cooled(cd, cycles, rs[..|rs| - 1]), cycles[|rs| - 1], rs[|rs| - 1])
  }

  /** The subscriptions in an event log. */
  function Subs(log: seq<Event>): (r: seq<Sub>)
    ensures |r| <= |log|
    decreases |log|
  {
    if |log| == 0 then []
    else Subs(log[..|log| - 1]) + (if log[|log| - 1].Stream? then [log[|log| - 1].sub] else [])
  }

  /** The liquidation events in an event log. */
  function Liquidations(log: seq<Event>): nat
    decreases |log|
  {
    if |log| == 0 then 0
    else Liquidations(log[..|log| - 1]) + (if log[|log| - 1].Liquidate? then 1 else 0)
  }

  function Streams(subs: seq<Sub>): (r: seq<Event>)
    ensures |r| == |subs|
    ensures forall i :: 0 <= i < |subs| ==> r[i] == Stream(subs[i])
  {
    seq(|subs|, i requires 0 <= i < |subs| => Stream(subs[i]))
  }

  /** The code a cycle's scan picked, if it picked one. */
  function Picked(r: CycleResult): Option<string> {
    match r
    case BuyFailed(code) => Some(code)
    case BuyAborted(code, _) => Some(code)
    case Held(p, _, _, _) => Some(p.code)
    case HoldAborted(p, _) => Some(p.code)
    case _ => None
  }

  // ---------------------------------------------------------------------------
  // Step lemmas used by the session loop
  // ---------------------------------------------------------------------------

  lemma ResultsSnoc(cd: map<string, int>, cycles: seq<Cycle>, rs: seq<CycleResult>, r: CycleResult)
    requires |rs| < |cycles|
    ensures DoneCount(rs + [r]) == DoneCount(rs) + (if Completed(r) then 1 else 0)
    ensures Carried(rs + [r]) == (if Completed(r) then None else if Opened(r) then Some(r.pos) else Carried(rs))
    ensures Cooled(cd, cycles, rs + [r]) == Cool(Cooled(cd, cycles, rs), cycles[|rs|], r)
    ensures forall k :: 0 <= k <= |rs| ==> (rs + [r])[..k] == rs[..k]
  {
    assert (rs + [r])[..|rs|] == rs;
  }

  lemma {:induction false} SubsAppend(a: seq<Event>, b: seq<Event>)
    ensures Subs(a + b) == Subs(a) + Subs(b)
    ensures Liquidations(a + b) == Liquidations(a) + Liquidations(b)
    decreases |b|
  {
    if |b| == 0 {
      assert a + b == a;
    } else {
      var n := |b| - 1;
      assert (a + b)[..|a + b| - 1] == a + b[..n];
      assert (a + b)[|a + b| - 1] == b[n];
      SubsAppend(a, b[..n]);
    }
  }

  lemma {:induction false} SubsStreams(subs: seq<Sub>)
    ensures Subs(Streams(subs)) == subs
    ensures Liquidations(Streams(subs)) == 0
    decreases |subs|
  {
    if |subs| > 0 {
      var n := |subs| - 1;
      assert Streams(subs)[..n] == Streams(subs[..n]);
      SubsStreams(subs[..n]);
      assert subs[..n] + [subs[n]] == subs;
    }
  }

  lemma PairedTail(s: seq<Sub>, subs: seq<Sub>)
    requires |s| > 0 && Paired(s[1..]) && Paired(subs)
    ensures Paired((s + subs)[1..])
  {
    assert (s + subs)[1..] == s[1..] + subs;
    PairedAppend(s[1..], subs);
  }

  lemma NoCloseInStreams(log: seq<Event>, subs: seq<Sub>)
    requires Close !in log
    ensures Close !in log + Streams(subs)
  {
    var l := log + Streams(subs);
    forall k | 0 <= k < |l| ensures l[k] != Close {
      if k >= |log| {
        assert l[k] == Streams(subs)[k - |log|];
      }
    }
  }

  /** Appending events to the session log. */
  lemma LogAppend(log: seq<Event>, events: seq<Event>)
    requires |Subs(log)| > 0 && Paired(Subs(log)[1..])
    requires Paired(Subs(events))
    ensures Subs(log + events) == Subs(log) + Subs(events)
    ensures Paired(Subs(log + events)[1..])
    ensures Liquidations(log + events) == Liquidations(log) + Liquidations(events)
  {
    SubsAppend(log, events);
    PairedTail(Subs(log), Subs(events));
  }

  /** Appending a routine's subscription log to the session log. */
  lemma LogStreams(log: seq<Event>, subs: seq<Sub>)
    requires |Subs(log)| > 0 && Paired(Subs(log)[1..])
    requires Paired(subs)
    ensures Subs(log + Streams(subs)) == Subs(log) + subs
    ensures Paired(Subs(log + Streams(subs))[1..])
    ensures Liquidations(log + Streams(subs)) == Liquidations(log)
  {
    SubsStreams(subs);
    LogAppend(log, Streams(subs));
  }

  /** The liquidation events of `a + b + [Close]` are those of `b`. */
  lemma LiquidatedOnce(a: seq<Event>, b: seq<Event>)
    requires forall k :: 0 <= k < |a| ==> !a[k].Liquidate?
    ensures var l := a + b + [Close];
      forall k :: 0 <= k < |l| && l[k].Liquidate? ==> |a| <= k < |a| + |b| && l[k] == b[k - |a|]
  {
  }

  lemma LogEvent(log: seq<Event>, e: Event)
    requires !e.Stream?
    ensures Subs(log + [e]) == Subs(log)
    ensures Liquidations(log + [e]) == Liquidations(log) + (if e.Liquidate? then 1 else 0)
  {
    assert (log + [e])[..|log|] == log;
  }

  lemma {:induction false} NoLiquidations(log: seq<Event>)
    requires Liquidations(log) == 0
    ensures forall k :: 0 <= k < |log| ==> !log[k].Liquidate?
    decreases |log|
  {
    if |log| > 0 {
      var n := |log| - 1;
      NoLiquidations(log[..n]);
      assert forall k :: 0 <= k < n ==> log[k] == log[..n][k];
    }
  }

  // ---------------------------------------------------------------------------
  // What the bookkeeping means
  // ---------------------------------------------------------------------------

  /** Cycle `k` is the last one that set `open_position`. */
  ghost predicate LastOpened(rs: seq<CycleResult>, k: int) {
    0 <= k < |rs| && Opened(rs[k]) && forall j :: k < j < |rs| ==> !Opened(rs[j])
  }

  /** `open_position` is decided by the last cycle that bought: it is that
      cycle's position unless that cycle sold something. So a new buy
      overwrites a carried unsold position, and failed buys after it leave
      it in place. */
  lemma {:induction false} CarriedLast(rs: seq<CycleResult>, k: int)
    requires LastOpened(rs, k)
    ensures Carried(rs) == (if Completed(rs[k]) then None else Some(rs[k].pos))
    decreases |rs|
  {
    var n := |rs| - 1;
    if k < n {
      var init := rs[..n];
      assert init[k] == rs[k];
      assert forall j :: k < j < n ==> init[j] == rs[j];
      assert !Opened(rs[n]);
      CarriedLast(init, k);
    }
  }

  /** With no cycle that bought, nothing is carried. */
  lemma {:induction false} CarriedNone(rs: seq<CycleResult>)
    requires forall k :: 0 <= k < |rs| ==> !Opened(rs[k])
    ensures Carried(rs) == None
    decreases |rs|
  {
    if |rs| > 0 {
      var n := |rs| - 1;
      assert forall k :: 0 <= k < n ==> rs[..n][k] == rs[k];
      assert !Opened(rs[n]);
      CarriedNone(rs[..n]);
    }
  }

  /** A carried position is the unsold one of the last cycle that bought. */
  lemma {:induction false} CarriedSome(rs: seq<CycleResult>)
    requires Carried(rs).Some?
    ensures exists k :: LastOpened(rs, k) && !Completed(rs[k]) && Carried(rs) == Some(rs[k].pos)
    decreases |rs|
  {
    var n := |rs| - 1;
    if Opened(rs[n]) {
      assert LastOpened(rs, n);
    } else {
      var init := rs[..n];
      assert Carried(rs) == Carried(init);
      CarriedSome(init);
      var k :| LastOpened(init, k) && !Completed(init[k]) && Carried(init) == Some(init[k].pos);
      assert init[k] == rs[k];
      assert forall j :: k < j < n ==> init[j] == rs[j];
      assert LastOpened(rs, k);
    }
  }

  /** A code no cycle wrote keeps its cooldown entry, or its absence. */
  lemma {:induction false} CooledUntouched(cd: map<string, int>, cycles: seq<Cycle>, rs: seq<CycleResult>, code: string)
    requires |rs| <= |cycles|
    requires forall k :: 0 <= k < |rs| ==> Touched(rs[k]) != Some(code)
    ensures code in Cooled(cd, cycles, rs) <==> code in cd
    ensures code in cd ==> Cooled(cd, cycles, rs)[code] == cd[code]
    decreases |rs|
  {
    if |rs| > 0 {
      var n := |rs| - 1;
      assert forall k :: 0 <= k < n ==> rs[..n][k] == rs[k];
      CooledUntouched(cd, cycles, rs[..n], code);
      assert Touched(rs[n]) != Some(code);
    }
  }

  /** A code's cooldown entry is the time of the last write to it: after
      the sale for a cycle that sold, after the buy otherwise. */
  lemma {:induction false} CooledLast(cd: map<string, int>, cycles: seq<Cycle>, rs: seq<CycleResult>, code: string, k: nat)
    requires |rs| <= |cycles|
    requires k < |rs| && Touched(rs[k]) == Some(code)
    requires forall j :: k < j < |rs| ==> Touched(rs[j]) != Some(code)
    ensures code in Cooled(cd, cycles, rs)
    ensures Cooled(cd, cycles, rs)[code] == WriteTime(cycles[k], rs[k])
    decreases |rs|
  {
    var n := |rs| - 1;
    if k < n {
      assert forall j :: 0 <= j < n ==> rs[..n][j] == rs[j];
      CooledLast(cd, cycles, rs[..n], code, k);
      assert Touched(rs[n]) != Some(code);
    }
  }

  /** Every cycle that picked a code and got past the buy writes that
      code's cooldown, whatever the buy returned. */
  lemma CoolWritesPicked(cd: map<string, int>, c: Cycle, r: CycleResult)
    ensures Touched(r).Some? <==> Picked(r).Some? && !r.BuyAborted?
    ensures Touched(r).Some? ==> Cool(cd, c, r) == cd[Touched(r).value := WriteTime(c, r)]
    ensures Touched(r).None? ==> Cool(cd, c, r) == cd
  {
  }

  // ---------------------------------------------------------------------------
  // run_trading_session
  // ---------------------------------------------------------------------------

  /** The scan of one cycle, seen from the session: a picked code is
      non-empty and was not cooling down at the poll that picked it, and
      nothing is picked only once the clock reached the end. */
  method ScanPhase(cd: map<string, int>, end: int, polls: seq<Poll>)
    returns (found: Result<Option<string>, Fault>, used: nat)
    ensures used <= |polls|
    ensures found.Success? && found.value.Some? ==>
      used > 0 && found.value.value != "" && !CoolingDown(cd, found.value.value, polls[used - 1].now)
    ensures found == Success(None) ==> used == |polls| || polls[used].clock >= end
    ensures ScanOutcome(cd, end, polls, found, used)
  {
    found, used := FindCandidate(cd, end, polls);
  }

  /** The buy of one cycle, seen from the session: what it returned and
      its subscription log. */
  method BuyPhase(code: string, end: int, b: BuyRun)
    returns (bought: Result<(int, real), Fault>, tries: seq<Try>, stop: BuyStop, subs: seq<Sub>)
    ensures Paired(subs)
    ensures b.approval.Failure? ==> bought == Failure(RestFault(b.approval.error))
    ensures b.approval.Success? ==> bought.Success? && bought.value.0 >= 0
    ensures b.approval.Success? ==>
      BuyOutcome(code, b.startSeq, end, BuyAttempts, b.steps, tries, stop, bought.value.0, bought.value.1)
  {
    bought, tries, stop, subs := IocBuy(code, b.approval, b.startSeq, end, BuyAttempts, b.steps);
    LogsPaired(code);
    if b.approval.Success? {
      BuyNothingFilled(code, b.startSeq, end, BuyAttempts, b.steps, tries, stop, bought.value.0, bought.value.1);
    }
  }

  /** The hold-then-sell phase of one cycle, seen from the session. */
  method HoldPhase(code: string, qty: int, avg: real, h: Hold)
    returns (sold: Result<(int, int, bool), Fault>, tries: seq<Try>, stop: SellStop, subs: seq<Sub>)
    ensures Paired(subs)
    ensures h.approval.Failure? ==> sold == Failure(RestFault(h.approval.error))
    ensures h.approval.Success? && h.sell.approval.Failure? ==> sold == Failure(RestFault(h.sell.approval.error))
    ensures h.approval.Success? && h.sell.approval.Success? ==>
      && sold.Success?
      && SellOutcome(code, h.sell.startSeq, qty, SellAttempts, h.sell.steps, tries, stop, sold.value.0, sold.value.1)
      && (sold.value.2 <==> h.reach.Some? && TradeReached(h.reach.value, code, Target(avg)).Some?)
  {
    sold, tries, stop, subs := WaitThenSell(code, qty, avg, h.approval, h.reach, h.sell);
    LogsPaired(code);
  }

  /** What the scan of a cycle returned, read off the cycle's result. */
  function Found(r: CycleResult): Result<Option<string>, Fault> {
    match r
    case NoCandidate => Success(None)
    case ScanFailed(f) => Failure(f)
    case BuyFailed(code) => Success(Some(code))
    case BuyAborted(code, _) => Success(Some(code))
    case Held(p, _, _, _) => Success(Some(p.code))
    case HoldAborted(p, _) => Success(Some(p.code))
  }

  /** The (quantity, average price) the buy returned, read off the result. */
  function BoughtOf(r: CycleResult): (int, real) {
    if Opened(r) then (r.pos.qty, r.pos.avgBuy) else (0, 0.0)
  }

  /** The hold phase of a cycle that bought `r.pos`: it is cut short exactly
      when one of its two approval keys fails, with that failure; otherwise
      it sold what `SellOutcome` says for the whole bought quantity, and the
      target was hit exactly when the trade wait saw a price at or above it. */
  ghost predicate HoldOf(h: Hold, r: CycleResult, tr: Trace)
    requires Opened(r)
  {
    && (r.HoldAborted? <==> !(h.approval.Success? && h.sell.approval.Success?))
    && (r.HoldAborted? ==>
          r.fault == RestFault(if h.approval.Failure? then h.approval.error else h.sell.approval.error))
    && (r.Held? ==>
          && SellOutcome(r.pos.code, h.sell.startSeq, r.pos.qty, SellAttempts, h.sell.steps,
                         tr.sellTries, tr.sellStop, r.sold, r.soldValue)
          && (r.targetHit <==> h.reach.Some? && TradeReached(h.reach.value, r.pos.code, Target(r.pos.avgBuy)).Some?))
  }

  /** The buy and hold of a cycle that picked a code: the buy is cut short
      exactly when its approval key fails, with that failure; otherwise it
      returned what `BuyOutcome` says, and a positive quantity is the
      position held and then sold. */
  ghost predicate PickedOf(end: int, c: Cycle, r: CycleResult, tr: Trace) {
    && Picked(r).Some?
    && (r.BuyAborted? <==> c.buy.approval.Failure?)
    && (r.BuyAborted? ==> r.fault == RestFault(c.buy.approval.error))
    && (!r.BuyAborted? ==>
          BuyOutcome(Picked(r).value, c.buy.startSeq, end, BuyAttempts, c.buy.steps,
                     tr.buyTries, tr.buyStop, BoughtOf(r).0, BoughtOf(r).1))
    && (Opened(r) ==> r.pos.qty > 0 && HoldOf(c.hold, r, tr))
  }

  /** `r` is how the cycle with inputs `c` ends, starting from the cooldown
      map `cd`: the scan's outcome over its polls decides whether a code is
      picked, and a picked code is bought and held as `PickedOf` says. */
  ghost predicate CycleOf(cd: map<string, int>, end: int, c: Cycle, r: CycleResult, tr: Trace) {
    && ScanOutcome(cd, end, c.polls, Found(r), tr.used)
    && (Picked(r).Some? ==> PickedOf(end, c, r, tr))
  }

  /** The hold phase of a cycle that bought `pos`, and the cooldown write
      after the sell when the hold phase returned. */
  method HoldStage(cd: Cooldowns, c: Cycle, pos: Position, tr: Trace)
    returns (r: CycleResult, subs: seq<Sub>, tr': Trace)
    requires pos.qty > 0
    modifies cd
    ensures Opened(r) && r.pos == pos
    ensures cd.last == (if r.Held? then old(cd.last)[pos.code := c.soldAt] else old(cd.last))
    ensures Paired(subs)
    ensures tr' == tr.(sellTries := tr'.sellTries, sellStop := tr'.sellStop)
    ensures HoldOf(c.hold, r, tr')
  {
    var sold, sellTries, sellStop;
    sold, sellTries, sellStop, subs := HoldPhase(pos.code, pos.qty, pos.avgBuy, c.hold);
    tr' := tr.(sellTries := sellTries, sellStop := sellStop);
    if sold.Failure? {
      return HoldAborted(pos, sold.error), subs, tr';
    }
    cd.last := cd.last[pos.code := c.soldAt];
    r := Held(pos, sold.value.0, sold.value.1, sold.value.2);
  }

  /** The buy of a picked code, the cooldown write after it, and the hold
      phase of a positive quantity. */
  method BuyStage(cd: Cooldowns, end: int, c: Cycle, code: string, position: Option<Position>, tr: Trace)
    returns (r: CycleResult, subs: seq<Sub>, position': Option<Position>, tr': Trace)
    modifies cd
    ensures Picked(r) == Some(code)
    ensures cd.last == Cool(old(cd.last), c, r)
    ensures Paired(subs)
    ensures position' == (if Completed(r) then None else if Opened(r) then Some(r.pos) else position)
    ensures tr'.used == tr.used
    ensures PickedOf(end, c, r, tr')
  {
    position' := position;
    var bought, buyTries, buyStop, buyLog := BuyPhase(code, end, c.buy);
    tr' := tr.(buyTries := buyTries, buyStop := buyStop);
    subs := buyLog;
    if bought.Failure? {
      return BuyAborted(code, bought.error), subs, position', tr';
    }
    cd.last := cd.last[code := c.boughtAt];
    var (qty, avg) := bought.value;
    if qty <= 0 {
      return BuyFailed(code), subs, position', tr';
    }
    var pos := Position(code, qty, avg);
    position' := Some(pos);
    var sellLog;
    r, sellLog, tr' := HoldStage(cd, c, pos, tr');
    PairedAppend(buyLog, sellLog);
    subs := buyLog + sellLog;
    if Completed(r) {
      position' := None;
    }
  }

  /** One pass of the session loop's body: scan, buy, write the cooldown,
      then hold and sell and write the cooldown again. `position` is
      `open_position` before the pass and `position'` after it. */
  method RunCycle(cd: Cooldowns, end: int, c: Cycle, position: Option<Position>)
    returns (r: CycleResult, subs: seq<Sub>, position': Option<Position>, used: nat, tr: Trace)
    modifies cd
    ensures cd.last == Cool(old(cd.last), c, r)
    ensures Paired(subs)
    ensures position' == (if Completed(r) then None else if Opened(r) then Some(r.pos) else position)
    ensures Opened(r) ==> r.pos.qty > 0
    ensures used <= |c.polls|
    ensures Picked(r).Some? ==>
      used > 0 && Picked(r).value != "" && !CoolingDown(old(cd.last), Picked(r).value, c.polls[used - 1].now)
    ensures r == NoCandidate ==> used == |c.polls| || c.polls[used].clock >= end
    ensures tr.used == used && CycleOf(old(cd.last), end, c, r, tr)
  {
    position' := position;
    subs := [];
    var found;
    found, used := ScanPhase(cd.last, end, c.polls);
    tr := Trace(used, [], AttemptsUsed, [], SellAttemptsUsed);
    if found.Failure? {
      return ScanFailed(found.error), subs, position', used, tr;
    }
    if found.value.None? {
      return NoCandidate, subs, position', used, tr;
    }
    r, subs, position', tr := BuyStage(cd, end, c, found.value.value, position, tr);
  }

  /** `e` records the forced sell of the whole remembered quantity of `p`
      at the bid, with `SellAttempts` attempts over the liquidation inputs. */
  ghost predicate LiquidationOf(e: Event, p: Position, liquidation: SellRun) {
    && e.Liquidate? && e.pos == p
    && SellOutcome(p.code, liquidation.startSeq, p.qty, SellAttempts, liquidation.steps, e.tries, e.stop, e.sold, e.soldValue)
  }

  /** The forced liquidation after the loop: sell the whole remembered
      quantity of the carried position; only the approval key's failure
      escapes, and the outcome of the sale is only logged. */
  method ForceLiquidation(p: Position, liquidation: SellRun) returns (raised: Option<Fault>, events: seq<Event>)
    ensures liquidation.approval.Failure? ==> raised == Some(RestFault(liquidation.approval.error)) && events == []
    ensures liquidation.approval.Success? ==>
      && raised.None? && |events| == 3
      && events[0] == Stream(Subscribe(OrderbookTrId, p.code))
      && events[1] == Stream(Unsubscribe(OrderbookTrId, p.code))
      && LiquidationOf(events[2], p, liquidation)
    ensures Paired(Subs(events)) && Close !in events
    ensures Liquidations(events) == (if liquidation.approval.Success? then 1 else 0)
    ensures forall k :: 0 <= k < |events| && events[k].Liquidate? ==> LiquidationOf(events[k], p, liquidation)
  {
    var sold, tries, stop, liqLog := IocSell(p.code, liquidation.approval, liquidation.startSeq, p.qty, SellAttempts, liquidation.steps);
    LogsPaired(p.code);
    SubsStreams(liqLog);
    NoCloseInStreams([], liqLog);
    assert [] + Streams(liqLog) == Streams(liqLog);
    events := Streams(liqLog);
    raised := None;
    if sold.Failure? {
      raised := Some(sold.error);
    } else {
      var e := Liquidate(p, sold.value.0, sold.value.1, tries, stop);
      LogEvent(events, e);
      events := events + [e];
    }
  }


  /** The connected session log so far: the connection and the execution
      stream's subscription first, every later subscription paired, no
      close and no liquidation yet. */
  ghost predicate OpenLog(log: seq<Event>, first: Sub) {
    && |log| >= 2 && log[0] == Connect && Close !in log
    && |Subs(log)| > 0 && Subs(log)[0] == first && Paired(Subs(log)[1..])
    && Liquidations(log) == 0
  }

  /** What the session loop did over `cycles`, taking the cooldown map from
      `cd0` to `cd1`: it ran a cycle only while fewer than five were done
      and the clock was before the end; only the last cycle can have
      stopped it; every bought position is positive; and it left only
      when a cycle stopped it, the cycles ran out, the clock reached the
      end or five cycles were done. */
  ghost predicate LoopRan(cd0: map<string, int>, cd1: map<string, int>, cycles: seq<Cycle>, end: int,
                          results: seq<CycleResult>) {
    && |results| <= |cycles|
    && DoneCount(results) <= MaxTrades
    && (forall k :: 0 <= k < |results| ==> cycles[k].clock < end && DoneCount(results[..k]) < MaxTrades)
    && (forall k :: 0 <= k < |results| - 1 ==> Continues(results[k]))
    && (forall k :: 0 <= k < |results| && Opened(results[k]) ==> results[k].pos.qty > 0)
    && cd1 == Cooled(cd0, cycles, results)
    && (|results| == 0 || Continues(results[|results| - 1]) ==>
          |results| == |cycles| || cycles[|results|].clock >= end || DoneCount(results) == MaxTrades)
  }

  /** A cycle's paired subscriptions keep the log open. */
  lemma OpenLogStreams(log: seq<Event>, subs: seq<Sub>, first: Sub)
    requires OpenLog(log, first) && Paired(subs)
    ensures OpenLog(log + Streams(subs), first)
  {
    LogStreams(log, subs);
    NoCloseInStreams(log, subs);
    assert (log + Streams(subs))[0] == log[0];
    assert (Subs(log) + subs)[0] == Subs(log)[0];
  }

  /** One more cycle run while fewer than five were done and the clock was
      before the end: every cycle so far started before the end, with
      fewer than five done. */
  lemma LoopStepGuard(cycles: seq<Cycle>, end: int, rs: seq<CycleResult>, r: CycleResult)
    requires |rs| < |cycles| && cycles[|rs|].clock < end && DoneCount(rs) < MaxTrades
    requires forall k :: 0 <= k < |rs| ==> cycles[k].clock < end && DoneCount(rs[..k]) < MaxTrades
    ensures var u := rs + [r];
      forall k :: 0 <= k < |u| ==> cycles[k].clock < end && DoneCount(u[..k]) < MaxTrades
  {
    var u := rs + [r];
    forall k | 0 <= k < |u|
      ensures cycles[k].clock < end && DoneCount(u[..k]) < MaxTrades
    {
      if k < |rs| {
        assert u[..k] == rs[..k];
      } else {
        assert u[..k] == rs;
      }
    }
  }

  /** Every cycle before the last one let the loop go on. */
  lemma LoopStepContinues(rs: seq<CycleResult>, r: CycleResult)
    requires forall k :: 0 <= k < |rs| ==> Continues(rs[k])
    ensures var u := rs + [r];
      && (forall k :: 0 <= k < |u| - 1 ==> Continues(u[k]))
      && (Continues(r) ==> forall k :: 0 <= k < |u| ==> Continues(u[k]))
  {
    var u := rs + [r];
    assert forall k :: 0 <= k < |rs| ==> u[k] == rs[k];
  }

  /** Every bought position so far is positive. */
  lemma LoopStepPositive(rs: seq<CycleResult>, r: CycleResult)
    requires forall k :: 0 <= k < |rs| && Opened(rs[k]) ==> rs[k].pos.qty > 0
    requires Opened(r) ==> r.pos.qty > 0
    ensures var u := rs + [r];
      forall k :: 0 <= k < |u| && Opened(u[k]) ==> u[k].pos.qty > 0
  {
    var u := rs + [r];
    assert forall k :: 0 <= k < |rs| ==> u[k] == rs[k];
  }

  /** Every cycle's result `rs[k]`, with trace `trs[k]`, is how cycle
      `cycles[k]` ends from the cooldown map the earlier cycles left. */
  ghost predicate CyclesOf(cd0: map<string, int>, end: int, cycles: seq<Cycle>, rs: seq<CycleResult>, trs: seq<Trace>) {
    && |rs| == |trs| && |rs| <= |cycles|
    && forall k {:trigger CycleOf(Cooled(cd0, cycles, rs[..k]), end, cycles[k], rs[k], trs[k])} :: 0 <= k < |rs| ==>
         CycleOf(Cooled(cd0, cycles, rs[..k]), end, cycles[k], rs[k], trs[k])
  }

  /** One more cycle tied to its inputs keeps the whole run tied. */
  lemma CyclesOfSnoc(cd0: map<string, int>, end: int, cycles: seq<Cycle>, rs: seq<CycleResult>, trs: seq<Trace>,
                     r: CycleResult, tr: Trace)
    requires CyclesOf(cd0, end, cycles, rs, trs) && |rs| < |cycles|
    requires CycleOf(Cooled(cd0, cycles, rs), end, cycles[|rs|], r, tr)
    ensures CyclesOf(cd0, end, cycles, rs + [r], trs + [tr])
  {
    var u, v := rs + [r], trs + [tr];
    forall k | 0 <= k < |u|
      ensures CycleOf(Cooled(cd0, cycles, u[..k]), end, cycles[k], u[k], v[k])
    {
      if k < |rs| {
        assert u[..k] == rs[..k] && u[k] == rs[k] && v[k] == trs[k];
      } else {
        assert u[..k] == rs;
      }
    }
  }

  /** A cycle that opened a position bought it: its code, quantity and
      average price are what the cycle's buy returned. */
  lemma OpenedBought(cd: map<string, int>, end: int, c: Cycle, r: CycleResult, tr: Trace)
    requires CycleOf(cd, end, c, r, tr) && Opened(r)
    ensures BuyOutcome(r.pos.code, c.buy.startSeq, end, BuyAttempts, c.buy.steps,
                       tr.buyTries, tr.buyStop, r.pos.qty, r.pos.avgBuy)
  {
    assert Picked(r) == Some(r.pos.code) && BoughtOf(r) == (r.pos.qty, r.pos.avgBuy);
    assert PickedOf(end, c, r, tr);
  }

  /** A carried position is the one the last buying cycle actually bought:
      its code, quantity and average price are what that cycle's buy
      returned on its own inputs. */
  ghost predicate CarriedBought(end: int, cycles: seq<Cycle>, rs: seq<CycleResult>, trs: seq<Trace>)
    requires |rs| <= |cycles| && |rs| == |trs|
  {
    Carried(rs).Some? ==>
      exists k :: LastOpened(rs, k) && !Completed(rs[k]) && Carried(rs) == Some(rs[k].pos)
        && BuyOutcome(rs[k].pos.code, cycles[k].buy.startSeq, end, BuyAttempts, cycles[k].buy.steps,
                      trs[k].buyTries, trs[k].buyStop, rs[k].pos.qty, rs[k].pos.avgBuy)
  }

  /** Over any run tied to its inputs, the carried position was bought. */
  lemma CarriedFromRun(cd0: map<string, int>, end: int, cycles: seq<Cycle>, rs: seq<CycleResult>, trs: seq<Trace>)
    requires CyclesOf(cd0, end, cycles, rs, trs)
    ensures CarriedBought(end, cycles, rs, trs)
  {
    if Carried(rs).None? {
      return;
    }
    CarriedSome(rs);
    var k :| LastOpened(rs, k) && !Completed(rs[k]) && Carried(rs) == Some(rs[k].pos);
    assert CycleOf(Cooled(cd0, cycles, rs[..k]), end, cycles[k], rs[k], trs[k]);
    OpenedBought(Cooled(cd0, cycles, rs[..k]), end, cycles[k], rs[k], trs[k]);
  }

  /** The session loop: `while done < 5 and kst_now() < session_end`. */
  method TradeLoop(cd: Cooldowns, end: int, cycles: seq<Cycle>, log0: seq<Event>, ghost first: Sub)
    returns (raised: Option<Fault>, results: seq<CycleResult>, traces: seq<Trace>, log: seq<Event>,
             position: Option<Position>)
    requires OpenLog(log0, first)
    modifies cd
    ensures LoopRan(old(cd.last), cd.last, cycles, end, results)
    ensures CyclesOf(old(cd.last), end, cycles, results, traces)
    ensures OpenLog(log, first)
    ensures position == Carried(results)
    ensures raised == (if |results| > 0 then Raised(results[|results| - 1]) else None)
  {
    results, traces, log, raised := [], [], log0, None;
    var done := 0;
    position := None;
    var i := 0;
    while done < MaxTrades && i < |cycles| && cycles[i].clock < end
      invariant i == |results| <= |cycles|
      invariant done == DoneCount(results) <= MaxTrades
      invariant position == Carried(results)
      invariant cd.last == Cooled(old(cd.last), cycles, results)
      invariant forall k :: 0 <= k < |results| ==> cycles[k].clock < end && DoneCount(results[..k]) < MaxTrades
      invariant forall k :: 0 <= k < |results| ==> Continues(results[k])
      invariant forall k :: 0 <= k < |results| && Opened(results[k]) ==> results[k].pos.qty > 0
      invariant OpenLog(log, first)
      invariant CyclesOf(old(cd.last), end, cycles, results, traces)
      invariant raised.None?
      decreases |cycles| - i
    {
      var r, subs, used, tr;
      r, subs, position, used, tr := RunCycle(cd, end, cycles[i], position);
      CyclesOfSnoc(old(cd.last), end, cycles, results, traces, r, tr);
      traces := traces + [tr];
      OpenLogStreams(log, subs, first);
      log := log + Streams(subs);
      ResultsSnoc(old(cd.last), cycles, results, r);
      LoopStepGuard(cycles, end, results, r);
      LoopStepContinues(results, r);
      LoopStepPositive(results, r);
      results := results + [r];
      if !Continues(r) {
        raised := Raised(r);
        break;
      }
      if Completed(r) {
        done := done + 1;
      }
      i := i + 1;
    }
  }

  /** Closing an open log after the liquidation's events: the close comes
      last and once, the subscriptions stay paired, and the liquidation
      entries are those of the events. */
  lemma ClosedLog(loopLog: seq<Event>, first: Sub, events: seq<Event>, position: Option<Position>,
                  liquidation: SellRun)
    requires OpenLog(loopLog, first)
    requires Paired(Subs(events)) && Close !in events
    requires forall k :: 0 <= k < |events| && events[k].Liquidate? ==>
      position.Some? && LiquidationOf(events[k], position.value, liquidation)
    ensures var log := loopLog + events + [Close];
      && |log| >= 3 && log[0] == Connect && log[|log| - 1] == Close && Close !in log[..|log| - 1]
      && |Subs(log)| > 0 && Subs(log)[0] == first && Paired(Subs(log)[1..])
      && Liquidations(log) == Liquidations(events)
      && forall k :: 0 <= k < |log| && log[k].Liquidate? ==>
           position.Some? && LiquidationOf(log[k], position.value, liquidation)
  {
    var log := loopLog + events + [Close];
    assert log[..|log| - 1] == loopLog + events;
    assert Close !in log[..|log| - 1];
    assert Subs(log) == Subs(loopLog) + Subs(events) && Paired(Subs(log)[1..])
           && Liquidations(log) == Liquidations(events) by {
      LogAppend(loopLog, events);
      LogEvent(loopLog + events, Close);
    }
    NoLiquidations(loopLog);
    LiquidatedOnce(loopLog, events);
  }

  /** After the loop: the forced liquidation of the carried position when
      the loop ended normally and the clock reached the end, then the close
      of the stream on every path. */
  method CloseSession(loopLog: seq<Event>, ghost first: Sub, loopRaised: Option<Fault>,
                      position: Option<Position>, end: int, finalClock: int, liquidation: SellRun)
    returns (raised: Option<Fault>, log: seq<Event>)
    requires OpenLog(loopLog, first)
    ensures |log| >= 3 && log[0] == Connect && log[|log| - 1] == Close && Close !in log[..|log| - 1]
    ensures |Subs(log)| > 0 && Subs(log)[0] == first && Paired(Subs(log)[1..])
    ensures var due := loopRaised.None? && position.Some? && finalClock >= end;
      && Liquidations(log) == (if due && liquidation.approval.Success? then 1 else 0)
      && (forall k :: 0 <= k < |log| && log[k].Liquidate? ==> position.Some? && LiquidationOf(log[k], position.value, liquidation))
      && (due && liquidation.approval.Success? ==>
            && |log| >= 6
            && log[|log| - 4] == Stream(Subscribe(OrderbookTrId, position.value.code))
            && log[|log| - 3] == Stream(Unsubscribe(OrderbookTrId, position.value.code))
            && log[|log| - 2].Liquidate?)
      && raised == (if loopRaised.Some? then loopRaised
                    else if due && liquidation.approval.Failure? then Some(RestFault(liquidation.approval.error))
                    else None)
  {
    raised := loopRaised;
    var events: seq<Event> := [];
    if loopRaised.None? && position.Some? && finalClock >= end {
      raised, events := ForceLiquidation(position.value, liquidation);
    }
    ClosedLog(loopLog, first, events, position, liquidation);
    log := loopLog + events + [Close];
    if |events| == 3 {
      assert log[|log| - 4] == events[0] && log[|log| - 3] == events[1] && log[|log| - 2] == events[2];
    }
  }

  /** `run_trading_session(cfg, rest, cooldowns, session_start=start,
      session_end=end)`. `connect` is the approval key the connection
      fetches, `finalClock` the clock read after the loop, and
      `liquidation` what the forced sell meets. `raised` is the exception
      the session lets escape; the stream is closed before it does. */
  method RunTradingSession(cd: Cooldowns, execTrId: string, htsId: string, start: int, end: int,
                           connect: Result<string, RestError>, cycles: seq<Cycle>,
                           finalClock: int, liquidation: SellRun)
    returns (raised: Option<Fault>, results: seq<CycleResult>, traces: seq<Trace>, log: seq<Event>)
    modifies cd
    // Every cycle run is tied to what its routines returned on its inputs,
    // and a carried position is what the last buying cycle bought.
    ensures CyclesOf(old(cd.last), end, cycles, results, traces)
    ensures CarriedBought(end, cycles, results, traces)
    // A weekend session, or a failed connection, does nothing else.
    ensures IsWeekend(start) ==> raised.None? && results == [] && log == [] && cd.last == old(cd.last)
    ensures !IsWeekend(start) && connect.Failure? ==>
      raised == Some(RestFault(connect.error)) && results == [] && log == [] && cd.last == old(cd.last)
    ensures !IsWeekend(start) && connect.Success? ==>
      // Connected: the execution stream first, the close last and only once.
      && |log| >= 3 && log[0] == Connect && log[|log| - 1] == Close && Close !in log[..|log| - 1]
      && |Subs(log)| > 0 && Subs(log)[0] == Subscribe(execTrId, htsId) && Paired(Subs(log)[1..])
      && LoopRan(old(cd.last), cd.last, cycles, end, results)
      // Forced liquidation: at most once, of the carried position, only
      // when the loop ended normally and the clock reached the end.
      && var due := (|results| == 0 || Raised(results[|results| - 1]).None?) && Carried(results).Some? && finalClock >= end;
         && Liquidations(log) == (if due && liquidation.approval.Success? then 1 else 0)
         && (forall k :: 0 <= k < |log| && log[k].Liquidate? ==>
               Carried(results).Some? && LiquidationOf(log[k], Carried(results).value, liquidation))
         && (due && liquidation.approval.Success? ==>
               && |log| >= 6
               && log[|log| - 4] == Stream(Subscribe(OrderbookTrId, Carried(results).value.code))
               && log[|log| - 3] == Stream(Unsubscribe(OrderbookTrId, Carried(results).value.code))
               && log[|log| - 2].Liquidate?)
         && raised == (if |results| > 0 && Raised(results[|results| - 1]).Some? then Raised(results[|results| - 1])
                       else if due && liquidation.approval.Failure? then Some(RestFault(liquidation.approval.error))
                       else None)
  {
    results, traces, log, raised := [], [], [], None;
    if IsWeekend(start) {
      return;
    }
    if connect.Failure? {
      raised := Some(RestFault(connect.error));
      return;
    }
    log := [Connect, Stream(Subscribe(execTrId, htsId))];
    assert log[..1] == [Connect];
    assert Subs(log) == [Subscribe(execTrId, htsId)];
    assert Liquidations(log[..1]) == 0;
    var position;
    var loopRaised;
    loopRaised, results, traces, log, position := TradeLoop(cd, end, cycles, log, Subscribe(execTrId, htsId));
    CarriedFromRun(old(cd.last), end, cycles, results, traces);
    raised, log := CloseSession(log, Subscribe(execTrId, htsId), loopRaised, position, end, finalClock, liquidation);
  }
}
