# Intraday momentum bot for the KIS Open API — a Dafny model

The bot trades Korean equities through the Korea Investment & Securities
(KIS) Open API. Once a day it refreshes its credentials at 08:30 and runs
one trading session between 09:20 and 15:00. In the session it repeats a
cycle up to five times. First it polls the fluctuation ranking for a stock
that is up 20–28 % and has not been traded in the last 20 minutes. Then it
buys the stock with immediate-or-cancel (IOC) limit orders at the best ask
of each fresh order-book snapshot. It waits for a trade at the average buy
price plus 1 %, and sells everything with IOC orders at the best bid. A
position still open at 15:00 gets one forced liquidation attempt.
Order-book, trade and execution-notification frames come from a websocket
stream. One receive loop folds them into shared tables.

This project models that decision logic and proves properties of it.
Every external effect becomes an input of the model, and a sequence of
inputs when the code loops:

- a frame arriving or a wait timing out;
- a REST reply or a REST error;
- a clock reading;
- an AES decryption.

Time is an integer number of seconds in the fixed +09:00 zone (KST). Each
source file has one module:

| file | module | source | form |
|---|---|---|---|
| `util.dfy` | `Util` | Python built-ins the core relies on | functions over `seq<char>` |
| `time_utils.dfy` | `TimeUtils` | `kis/time_utils.py` | pure functions |
| `scheduler.dfy` | `Scheduler` | the window arithmetic in `main.py` | pure functions |
| `config.dfy` | `Config` | `kis/config.py` | pure functions over an environment map |
| `rest.dfy` | `Rest` | `kis/rest.py` | class `KisRest` (credential cache); methods `Request` and `OrderCash` with loops |
| `ws.dfy` | `Ws` | `kis/ws.py` | pure frame decoding; class `Dispatcher` holding the tables that `HandleFrame` updates; the three waits |
| `strategy.dfy` | `Strategy` | `kis/strategy.py` | pure ranking filter; the candidate poll loop and the IOC buy and sell loops as methods |
| `session.dfy` | `Session` | `kis/session.py` | class `Cooldowns` updated in place; the session loop as methods |

The dispatcher's state appears twice. The class fields are changed in
place by `HandleFrame`. The value `Tables` is what `State()` reads back, and
`Step`/`Steps` are the specification that the methods are proved against.
Each wait returns what the pure read `NextSnapshot`, `TradeReached` or
`FillTotals` gives on the tables after the frames delivered during the
wait. The buy and sell loops take one `BuyStep` or `SellStep` per attempt:
the tables the order-book wait returned (or its timeout), the REST replies,
and the fills drained. Each loop records one `Try` per attempt. The
predicates `BuyOutcome` and `SellOutcome` relate the attempts to the inputs
and to the result. Every routine returns its subscribe/unsubscribe log, so
pairing can be stated. The session returns its event log, the result of
each cycle and the cooldown map it left.

The code and its natural description differ in these places; the model
follows the code:

- An order-book wait that times out inside the buy or sell loop raises into
  the loop's broad `except`, so it ends the loop (`BookTimeout`,
  `SellBookTimeout`). It does not skip to the next attempt.
- In `pick_code_from_ranking_item`, a rate that `float()` cannot read leaves
  `rate_f` unbound, so the comparison raises. The item is not skipped: the
  exception escapes `find_candidate` (`RateUnreadable`).
- The code is the first of the three keys whose raw value is non-empty
  (`or` chain), stripped afterwards. A key holding only spaces therefore
  shadows the later keys and gives an empty code.
- Any positive partial sale completes a cycle. A new buy overwrites a
  carried unsold position (`CarriedLast`).
- `_is_truthy` returns true only for "Y", "1", "T" and "TRUE" after the
  value is stripped and upper-cased. Missing fields are the empty string.

## Model

| member | source | states |
|---|---|---|
| `TimeUtils.SecondOfDay` | kis/time_utils.py:11-16 | the time of day is in [0, 86400) and the reading is day × 86400 plus it |
| `TimeUtils.AtTime` | kis/time_utils.py:13 | `base.replace(hour, minute, 0, 0)`: same day, and the requested slot as time of day |
| `TimeUtils.NextKstDateTime` | kis/time_utils.py:11-16 | the result has the requested hour and minute with zero seconds, and lies strictly after the base and at most one day after it; the clock stands in for a missing base |
| `TimeUtils.NextKstDateTimeIsEarliest` | kis/time_utils.py:13-16 | no time with that hour and minute lies strictly between the base and the result |
| `TimeUtils.SameSlotWholeDays` | kis/time_utils.py:13-15 | two times with the same time of day differ by whole days |
| `TimeUtils.Weekday` | kis/time_utils.py:28-29 | the weekday is in 0..6 (Monday = 0) |
| `TimeUtils.WeekdayNextDay` | kis/time_utils.py:28-29 | the weekday advances by one, modulo 7, every day |
| `TimeUtils.WeekdayPeriodic` | kis/time_utils.py:28-29 | the weekday and the weekend test repeat every week |
| `TimeUtils.WeekendExamples` | kis/time_utils.py:28-29 | a Saturday session start is a weekend and a Wednesday one is not |
| `Scheduler.RefreshAt` | main.py:28-35 | never in the past and at most a day ahead; when it is not at once it falls at 08:30 (`RefreshAtSpec` adds that it is at once exactly inside [08:30, 09:30)) |
| `Scheduler.SleepsBeforeRefresh` | main.py:37-39 | the scheduler sleeps before the refresh iff the clock is outside [08:30, 09:30) of its day |
| `Scheduler.RefreshAtSpec` | main.py:28-35 | the refresh is immediate exactly when 08:30 ≤ now < 09:30 today; otherwise it is at 08:30 within a day after now; it is never in the past |
| `Scheduler.RefreshAtEarliest` | main.py:31-35 | outside the window, no 08:30 strictly between now and the refresh time is skipped |
| `Scheduler.SessionWindow` | main.py:44-55 | a run window satisfies now ≤ start < end, lies within the clock's day and ends at 15:00 (`SessionWindowSpec` adds when a run happens and where it starts) |
| `Scheduler.SessionWindowSpec` | main.py:44-55 | a session runs iff 15:00 has not been reached today; then start = max(09:20 today, now) and end = 15:00 the same day, so now ≤ start < end |
| `Scheduler.SessionStartExamples` | main.py:44-55 | before 09:20 the session waits for 09:20; at 10:00 it starts at once; at 15:00 the day is skipped |
| `Config.RestBase` | kis/config.py:18-22 | the paper-trading REST endpoint iff env is "vts", else the production one |
| `Config.WsUrl` | kis/config.py:24-28 | the paper-trading websocket URL iff env is "vts", else the production one |
| `Config.ExecTrId` | kis/config.py:30-33 | H0STCNI9 iff env is "vts", else H0STCNI0 |
| `Config.ReadConfig` | kis/config.py:37-46 | every field comes out with no surrounding whitespace, env is also lower-cased, and the customer type is never empty |
| `Config.EmptyNames` | kis/config.py:48-54 | no longer than its input; empty iff every value is non-empty |
| `Config.Missing` | kis/config.py:48-54 | empty iff all five account fields are set |
| `Config.LoadConfig` | kis/config.py:36-61 | succeeds iff nothing is missing and env is prod or vts, and then returns the read config; otherwise it reports the missing list first and the unknown env only when nothing is missing |
| `Config.LoadConfigAccepted` | kis/config.py:36-61 | an accepted config names a known venue, has all five fields non-empty and a customer type, and stripping any of its six string fields gives the field back |
| `Config.DefaultEnv` | kis/config.py:37 | KIS_ENV defaults to "prod" |
| `Config.DefaultAccountProduct` | kis/config.py:43 | KIS_ACNT_PRDT_CD defaults to "01" |
| `Config.DefaultCusttype` | kis/config.py:45 | KIS_CUSTTYPE becomes "P" when unset or blank after trimming |
| `Config.MissingInOrder` | kis/config.py:48-54 | the missing list names exactly the empty fields in the order APP_KEY, APP_SECRET, CANO, ACNT_PRDT_CD, HTS_ID |
| `Config.EmptyEnvironment` | kis/config.py:36-57 | an empty environment reports exactly the four account variables that have no default |
| `Config.LoadConfigMissing` | kis/config.py:56-57 | any missing variable raises with exactly the missing list |
| `Config.MissingBeforeEnv` | kis/config.py:56-59 | with a variable missing, the value of KIS_ENV makes no difference to the failure |
| `Config.FieldOther` | kis/config.py:37-45 | setting one variable changes no field read under another name |
| `Rest.Request` | kis/rest.py:32-64 | at most retry + 1 attempts; every attempt before the last failed; success carries the last attempt's body (`{}` for an empty text); failure only after all attempts failed |
| `Rest.AccessTokenStep` | kis/rest.py:73-93 | a request is made iff the cached token does not serve `now`; without a request the cached token is returned and the cache kept; a failure changes nothing; the approval key is never touched (`AccessTokenFetch` adds what a success caches) |
| `Rest.AccessTokenCacheHit` | kis/rest.py:73-76 | a request is made iff no token is cached or now ≥ expiry − 30; otherwise the cached token is returned and the cache kept |
| `Rest.AccessTokenFetch` | kis/rest.py:84-93 | a fetch succeeds iff the reply has a token and a readable expires_in; the cache then holds that token with expiry = completion time + max(60, expires_in) and keeps the approval key; a failed fetch changes nothing |
| `Rest.FreshTokenServed` | kis/rest.py:73-93 | a just-fetched token serves every call within 30 seconds of the fetch without a new request |
| `Rest.ApprovalKeyStep` | kis/rest.py:95-113 | a request is made iff no non-empty key is cached; a cache hit returns the cached key and keeps the cache; a fetched non-empty key is returned and cached; a failed fetch or an empty key raises and caches nothing; the token and its expiry are never touched |
| `Rest.ApprovalKeyCache` | kis/rest.py:95-113 | a request is made iff no key is cached; a returned key is non-empty and cached; a failure keeps the cache; once a key is returned, the next call returns the same key from the cache without a request, whatever that request would have returned |
| `Rest.ForceRefreshStep` | kis/rest.py:66-71 | nothing cached before survives: a cached token is the fetched one, a cached key is the fetched one, and a failed refresh leaves no approval key (`ForceRefreshFetches` adds that a token is always requested) |
| `Rest.ForceRefreshFetches` | kis/rest.py:66-71 | a forced refresh always requests a token, whatever was cached; on success the cache holds exactly the two fetched credentials; a failed token fetch leaves nothing cached |
| `Rest.KisRest.constructor` | kis/rest.py:11-16 | a new client caches nothing |
| `Rest.KisRest.GetAccessToken` | kis/rest.py:73-93 | the new cache and the result are the access-token step on the old cache |
| `Rest.KisRest.GetApprovalKey` | kis/rest.py:95-113 | the new cache and the result are the approval-key step on the old cache, so a cached key is returned without a request, a fetched key is cached and returned, and a failed or empty fetch raises |
| `Rest.KisRest.ForceRefreshTokens` | kis/rest.py:66-71 | clears all three fields, then fetches the token and then the key |
| `Rest.CashTrId` | kis/rest.py:161 | VTTC8908R iff env is "vts", else TTTC8908R |
| `Rest.PsblCash` | kis/rest.py:185-189 | raises the missing-cash error iff neither ord_psbl_cash nor ORD_PSBL_CASH is in the output |
| `Rest.PsblCashKeys` | kis/rest.py:185-189 | int(float()) of ord_psbl_cash if present, else of ORD_PSBL_CASH; raises iff neither is present; a plain decimal reads back as itself |
| `Rest.OrderCandidates` | kis/rest.py:194-197 | two (buy, sell) tr_id pairs per venue |
| `Rest.OrderCash` | kis/rest.py:191-237 | hashkey computed once and raised before any order; orders sent in candidate order with the buy id iff side is "buy"; stops at the first reply with an order number and returns it; raises after both pairs fail |
| `Rest.OrderTrIds` | kis/rest.py:194-212 | the ids tried, per venue and side, are VTTC0012U/VTTC0802U, VTTC0011U/VTTC0801U, TTTC0012U/TTTC0802U and TTTC0011U/TTTC0801U |
| `Ws.IsTruthy` | kis/ws.py:25-27 | an empty or all-blank flag is false; a true flag has one or four characters once stripped (`TruthyCaseless`, `TruthyPadded` and `TruthyExamples` pin the meaning down) |
| `Ws.TruthyCaseless` | kis/ws.py:25-27 | the test ignores letter case: a lower-cased flag is truthy iff the flag is |
| `Ws.TruthyPadded` | kis/ws.py:25-27 | a blank added before or after a flag does not change the test |
| `Ws.TruthyExamples` | kis/ws.py:25-27 | "y", "1", "T" and " True " are truthy; "N", "0" and "YES" are not |
| `Ws.SafeInt` | kis/ws.py:29-33 | unreadable text gives the default; readable text gives its value truncated toward zero |
| `Ws.FieldHelpers` | kis/ws.py:25-33 | the empty flag is not truthy and "true" is; `_safe_int` reads a decimal as itself and falls back to the default on the empty string |
| `Ws.Bumped` | kis/ws.py:114-116 | the key's counter becomes its old value (0 if absent) plus one; no other key changes |
| `Ws.EnsureKey` | kis/ws.py:109-112 | the key is present afterwards; an existing entry is never replaced; other keys are unchanged |
| `Ws.EnsureKeyIdempotent` | kis/ws.py:149-152 | get-or-insert is idempotent and a no-op on a present key |
| `Ws.DecodeOrderbook` | kis/ws.py:210-222 | a result iff fields 3, 13, 23, 33 exist and parse as integers; then (ask = f3, askq = f23, bid = f13, bidq = f33) under code f0 |
| `Ws.DecodeTrade` | kis/ws.py:226-235 | a result iff field 2 exists and parses as an integer; then price f2 under code f0 |
| `Ws.DecodeExec` | kis/ws.py:246-272 | a fill iff the reject flag is not truthy and qty > 0 and price > 0; the fill is exactly order number f2, code f8, qty `_safe_int(f9)`, price `_safe_int(f10)` and the raw fields, with the defaults for missing fields |
| `Ws.ControlAction` | kis/ws.py:183-199 | keys are set iff encrypt is "Y" and tr_id, iv and key are all non-empty; otherwise nothing happens |
| `Ws.DataParts` | kis/ws.py:201-207 | the result, when present, has four parts that join back to the frame, and the first three contain no separator |
| `Ws.DataAction` | kis/ws.py:207-286 | a fill only for the execution tr_id with flag "1", cached key and iv, and a decrypted text that decodes to a fill; order-book and trade frames only for their own tr_id and decoders (`TradeAction`, `ExecAction`, `TradeFrame` and `ExecFrame` give the exact effects) |
| `Ws.Classify` | kis/ws.py:183-286 | non-strings do nothing; '{' frames only set keys through the control branch; everything else goes through the data branch |
| `Ws.ApplyEffect` | kis/ws.py:183-286 | each action changes exactly its own tables: an order-book frame stores the quote and bumps that code's order-book seq only; a trade frame stores the price and bumps the trade seq only; a fill is appended at the end of its order's queue |
| `Ws.Step` | kis/ws.py:177-286 | handling one frame never removes a key, an iv, a quote, a price or a fill queue (`ApplyEffect` says exactly what changes) |
| `Ws.StepsAppend` | kis/ws.py:177-286 | handling frames one after the other composes |
| `Ws.StepsSeqMonotone` | kis/ws.py:219 | the order-book and trade sequence numbers never decrease |
| `Ws.ApplyQueue` | kis/ws.py:269-272 | one frame only extends an order's queue at the end |
| `Ws.StepsQueueMonotone` | kis/ws.py:269-272 | over any frames, an order's queue only grows at the end and never disappears |
| `Ws.ApplyFillsPositive` | kis/ws.py:267-272 | every queued fill keeps a positive qty and price |
| `Ws.StepFillsPositive` | kis/ws.py:267-272 | handling a frame keeps every queued fill's qty and price positive |
| `Ws.SplitNJoin` | kis/ws.py:204 | `split("\|", 3)` recovers four parts joined by the separator when the first three contain none |
| `Ws.SplitJoin` | kis/ws.py:211 | `split("^")` recovers parts joined by the separator when none contains it |
| `Ws.DataFrameParts` | kis/ws.py:204-207 | a data frame built from four parts splits back into exactly those parts |
| `Ws.OrderbookFrame` | kis/ws.py:209-223 | an H0STASP0 frame with integer fields 3, 13, 23, 33 stores the quote under f0 and raises that code's seq by exactly 1; otherwise nothing changes |
| `Ws.TradeAction` | kis/ws.py:225-235 | an H0STCNT0 data frame is a trade of the decoded (code, price) when the payload decodes, and is ignored otherwise |
| `Ws.TradeFrame` | kis/ws.py:225-235 | an H0STCNT0 frame with an integer field 2 stores that price under f0 and raises that code's trade seq by exactly 1; otherwise nothing changes |
| `Ws.ExecAction` | kis/ws.py:239-272 | a data frame of the execution tr_id with flag "1" is a fill exactly when the key and iv are cached and non-empty, the text decrypts and the plaintext decodes to a fill; otherwise it is ignored |
| `Ws.ExecFrame` | kis/ws.py:239-272 | such a frame appends exactly the decoded fill at the end of its order's queue when all those conditions hold, and changes nothing otherwise |
| `Ws.OrderbookPayload` | kis/ws.py:211 | an order-book payload of fields without '^' splits back into those fields |
| `Ws.MalformedFrames` | kis/ws.py:201-206 | binary frames, frames without '\|' and frames with fewer than four parts change nothing |
| `Ws.FillConditions` | kis/ws.py:239-272 | a frame is acted on as a fill only when the tr_id is the exec id, the flag is "1", key and iv are cached, and the decrypted fields make a fill |
| `Ws.NextSnapshot` | kis/ws.py:121-125 | a snapshot iff the code's seq exceeds last_seq and a quote is stored; it is the current (seq, quote) |
| `Ws.TradeReached` | kis/ws.py:136-138 | a price iff a trade price is stored and ≥ target; it is that price |
| `Ws.FillTotalsPositive` | kis/ws.py:164-171 | over positive fills, the quantity sum is at least the count, the value sum at least the quantity sum, and both are zero only for no fills |
| `Ws.FillTotalsSnoc` | kis/ws.py:164-171 | one more fill adds its qty and qty × price |
| `Ws.DropMore` | kis/ws.py:160-171 | taking fills from the front removes exactly a prefix of the queue |
| `Ws.StepsDrop` | kis/ws.py:154-175 | taking fills commutes with handling frames |
| `Ws.Dispatcher.constructor` | kis/ws.py:46-65 | the tables start empty |
| `Ws.Dispatcher.GetOrderQueue` | kis/ws.py:149-152 | creates the order's queue only when absent and returns it |
| `Ws.Dispatcher.Perform` | kis/ws.py:193-271 | each classified frame changes the tables exactly as its action says: keys stored, quote stored and seq bumped, trade price stored and seq bumped, fill appended to its order's queue |
| `Ws.Dispatcher.HandleFrame` | kis/ws.py:177-286 | the new tables are one dispatch step of the receive loop on the old ones |
| `Ws.Dispatcher.HandleFrames` | kis/ws.py:177-286 | the new tables are the frames' steps in order |
| `Ws.Dispatcher.WaitNextOrderbook` | kis/ws.py:118-131 | returns only a snapshot with seq > last_seq, and it is the current one; it returns at once when one is already there; a timeout returns nothing |
| `Ws.Dispatcher.WaitTradeReach` | kis/ws.py:133-147 | returns only a price ≥ target, at once when one is already there before the end; no price once the clock reaches the end |
| `Ws.Dispatcher.WaitOrderFills` | kis/ws.py:154-175 | returns (Σqty, Σqty × price) over exactly the fills it took from the front of the order's queue, with every delivered frame handled; the queue is left empty at the idle timeout |
| `Strategy.PairedAppend` | kis/strategy.py:80-120 | paired subscription logs stay paired when concatenated |
| `Strategy.FirstTruthy` | kis/strategy.py:13-14 | the first non-empty value among the keys, or empty iff all are empty |
| `Strategy.PickCode` | kis/strategy.py:12-21 | raises iff the rate cannot be read; returns the stripped code iff 20.0 ≤ rate ≤ 28.0 and the code is non-empty |
| `Strategy.ItemsFromFirst` | kis/strategy.py:38-43 | the items are those of the first of output, output1, Output, Output1 that holds a list, or none |
| `Strategy.Picks` | kis/strategy.py:46-51 | one outcome per item, non-dict items skipped |
| `Strategy.ScanPicks` | kis/strategy.py:46-58 | a returned code is not cooling down and is one of the outcomes |
| `Strategy.ScanPicksFirst` | kis/strategy.py:46-58 | nothing is returned iff every outcome is passed over; otherwise the first one not passed over decides |
| `Strategy.ScanItems` | kis/strategy.py:46-58 | a returned code is non-empty and not cooling down |
| `Strategy.ScanItemsFirst` | kis/strategy.py:46-58 | nothing is returned iff every item is a non-dict, has no code, or is cooling down; otherwise the first other item decides, raising if its rate cannot be read |
| `Strategy.PollOutcome` | kis/strategy.py:34-58 | a REST error is raised; a returned code is non-empty and was not traded in the last 20 minutes |
| `Strategy.FirstList` | kis/strategy.py:38-43 | the loop picks the items of the first list-valued key |
| `Strategy.ScanList` | kis/strategy.py:46-58 | the loop gives the scan's outcome |
| `Strategy.FindCandidate` | kis/strategy.py:24-62 | polls only while the clock is before the end; returns the first poll's code or exception; returns nothing only once the clock reached the end, with every poll before it empty |
| `Strategy.FilledSnoc` | kis/strategy.py:109-115 | one more attempt adds its fill totals only when it filled a positive quantity |
| `Strategy.FilledPositive` | kis/strategy.py:109-115 | the accumulated quantity is never negative, and positive iff some attempt filled |
| `Strategy.ChainedIncreasing` | kis/strategy.py:91-92 | snapshots consumed one after the other have strictly increasing seq numbers |
| `Strategy.Snapshot` | kis/strategy.py:91 | a snapshot has seq > last_seq and is the order-book wait's result |
| `Strategy.Affordable` | kis/strategy.py:96-98 | the largest quantity whose cost at the ask fits in int(cash × 0.98) |
| `Strategy.BuyTriesAt` | kis/strategy.py:87-115 | every recorded buy attempt satisfies its own step's conditions |
| `Strategy.BuyAttempt` | kis/strategy.py:93-107 | after a snapshot, the order goes out at the ask for the affordable quantity; the loop stops on a raising buying-power request, on nothing affordable or on a raising order, and goes on only after an order or a non-positive ask |
| `Strategy.IocBuy` | kis/strategy.py:65-124 | an approval failure raises with nothing subscribed; otherwise the order-book stream is subscribed and unsubscribed; at most max_attempts attempts; the loop stops at the session end, on an order-book timeout, on no cash, or on a REST error; returns (0, 0.0) or (Σqty, Σvalue / Σqty) over the filled attempts |
| `Strategy.BuySnapshotsIncrease` | kis/strategy.py:84-92 | every consumed snapshot is newer than the starting seq and than the ones before it |
| `Strategy.BuyOrders` | kis/strategy.py:93-107 | every order is one per attempt, within max_attempts, for the affordable quantity > 0 at a positive ask |
| `Strategy.BuyNothingFilled` | kis/strategy.py:109-124 | the result is (0, 0.0) iff no attempt filled a positive quantity |
| `Strategy.SellTriesAt` | kis/strategy.py:146-168 | every recorded sell attempt satisfies its own step's conditions with what remained before it |
| `Strategy.IocSell` | kis/strategy.py:127-175 | the order-book stream is subscribed and unsubscribed; sold + remain == qty throughout; stops when nothing remains, after max_attempts, on an order-book timeout or a REST error; never reads the clock |
| `Strategy.SellOrderQty` | kis/strategy.py:150-159 | every order is for exactly the unsold remainder, at a positive bid |
| `Strategy.SellStopsWhenSold` | kis/strategy.py:146-148 | the loop stops early iff everything was sold before the attempts ran out; a raising order leaves something unsold |
| `Strategy.Target` | kis/strategy.py:194 | the smallest integer ≥ avg_buy × 1.01 |
| `Strategy.WaitThenSell` | kis/strategy.py:178-211 | approval failure raises with nothing subscribed; the trade stream is subscribed and unsubscribed before the sell; target_hit iff the trade wait returned a price ≥ target; the sell is always for the whole bought quantity |
| `Strategy.LogsPaired` | kis/strategy.py:80-120 | each routine's subscription log pairs every subscribe with the unsubscribe of the same topic and code |
| `Session.DoneCount` | kis/session.py:55-67 | `done` never exceeds the number of cycles run |
| `Session.ResultsSnoc` | kis/session.py:44-67 | `done` rises by exactly one iff the cycle sold a positive quantity; a sale clears the position, a buy sets it and a failed buy leaves it; the cooldown map takes the cycle's writes |
| `Session.CarriedLast` | kis/session.py:48-67 | the carried position is the one from the last cycle that bought, unless that cycle sold something, so a new buy overwrites a carried unsold position |
| `Session.CarriedNone` | kis/session.py:32-48 | nothing is carried while no cycle has bought |
| `Session.CarriedSome` | kis/session.py:48-67 | a carried position is the unsold one of the last cycle that bought |
| `Session.CooledUntouched` | kis/session.py:41-53 | a code no cycle wrote keeps its cooldown entry, or its absence |
| `Session.CooledLast` | kis/session.py:41-53 | a code's cooldown entry is the time of its last write: after the sale for a cycle that sold, after the buy otherwise |
| `Session.CoolWritesPicked` | kis/session.py:41-53 | every cycle whose buy returned writes the picked code's cooldown, whatever the buy gave |
| `Session.ScanPhase` | kis/session.py:36-39 | a picked code is non-empty and was not cooling down at the poll that picked it; nothing is picked only once the clock is past the end; every poll made was before the end, all but the last found nothing, and the last one's outcome is what the scan returns |
| `Session.BuyPhase` | kis/session.py:41 | the buy's subscriptions are paired; an approval failure raises; otherwise the quantity is never negative and the result and attempts are what `BuyOutcome` relates to the buy's inputs |
| `Session.HoldPhase` | kis/session.py:50-52 | the hold-then-sell subscriptions are paired; only an approval failure raises; otherwise the sale is what `SellOutcome` relates to the sell's inputs for the whole quantity, and target_hit iff the trade wait saw a price at or above the target |
| `Session.HoldStage` | kis/session.py:50-53 | the position opened is the one given; the cooldown is written after the sale only when the hold phase returned; the result is what the hold phase returned (`HoldOf`) |
| `Session.BuyStage` | kis/session.py:41-67 | the picked code is the cycle's; the cooldown writes follow the result; `open_position` moves as the result says; a failed buy is one whose buy returned 0, and an opened position has the code, quantity and average price the buy returned (`PickedOf`) |
| `Session.Cooldowns.constructor` | main.py:24 | the cooldown map shared by all sessions holds exactly the given entries |
| `Session.RunCycle` | kis/session.py:36-67 | one loop pass writes the cycle's cooldowns, keeps subscriptions paired, moves `open_position` as the cycle result says, and the result is tied to what the routines returned (`CycleOf`): the scan's outcome, a buy cut short only by its approval failure, a failed buy that returned 0, an opened position that is exactly the code and the (qty, avg) the buy returned, and a sale that is what the sell returned |
| `Session.ForceLiquidation` | kis/session.py:69-78 | subscribes and unsubscribes the order book of the position's code and logs the IOC sell outcome for that code and the whole remembered quantity; only the approval failure escapes, with nothing logged |
| `Session.TradeLoop` | kis/session.py:34-67 | runs cycles only while done < 5 and the clock is before the end; a missing candidate or an exception stops it; `done` and `open_position` are the functions of the cycle results; every cycle's result is tied to its own inputs from the cooldowns the earlier cycles left (`CyclesOf`) |
| `Session.CyclesOfSnoc` | kis/session.py:35-67 | a run tied to its inputs stays tied after one more tied cycle |
| `Session.OpenedBought` | kis/session.py:41-48 | a cycle that opened a position bought exactly it: code, quantity and average price are the buy's result on that cycle's inputs |
| `Session.CarriedFromRun` | kis/session.py:41-57 | over a tied run, a carried position was opened by the last buying cycle and is exactly what that cycle's buy returned |
| `Session.CloseSession` | kis/session.py:69-81 | the stream is closed last and once; a liquidation entry is logged only for the carried position, exactly once when the loop ended normally, the clock reached the end and the sell's approval succeeded; that entry is the IOC sell outcome of the carried position's code and quantity, right after the subscribe and unsubscribe of that code's order book; its approval failure is the raised exception |
| `Session.RunTradingSession` | kis/session.py:11-81 | a weekend does nothing; after connecting, the execution stream is subscribed first and the stream closed last on every path; every cycle is tied to its inputs and a carried position is what its cycle bought; at most one liquidation, only when the loop ended normally and the clock reached the end, and it is the IOC sell outcome of the carried position's code and quantity after the subscribe and unsubscribe of that code's order book |

## Left out

- WebSocket transport: `connect`, `close`, `send`, `recv` and the
  subscribe/unsubscribe JSON are left out (I/O). Subscriptions are log
  entries. `connect` is reduced to the approval key it fetches and the
  execution-notification subscription it sends.
- Cryptography: AES-CBC decryption with base64 and PKCS#7 unpadding is a
  function input (`Decoders.decrypt`) from text to an optional plaintext.
- JSON: `json.loads` of control frames is a function input
  (`Decoders.parse`) that returns the already-parsed (tr_id, encrypt, key,
  iv), or nothing when the text does not parse. REST replies are given
  already parsed: a `Response` maps each key to a list of items or to a
  non-list value.
- asyncio is left out: events, queues, `wait_for`, the receive task and the
  sleeps. Each wait takes the frames that arrive while it runs, batch by
  batch; `Expire` stands for a timeout. The total and idle timeouts of
  `wait_order_fills` are both `Expire`.
- The model does not interleave frames with the strategy's REST calls. The
  buy and sell loops see each order-book wait's final tables as an input.
- Running out of a sequence of inputs counts as a timeout for waits, and as
  the clock reaching the end for clock-bounded loops.
- The `_ensure_event` dictionaries of asyncio events are not part of the
  tables; they only wake waiters.
- Floating point: `float()` is an exact decimal reading with an optional
  sign, digits and an optional fraction. Exponents, `inf`, `nan` and
  underscores are not read. In `pick_code_from_ranking_item` this changes
  the outcome: for the rates "nan" and "inf" the program returns None (the
  range test is false) and for "2.5e1" it returns the code, while the model
  raises `RateUnreadable` in all three cases, so `FindCandidate` raises
  where the program would skip or pick the item. `int(psbl_cash * 0.98)`,
  `avg_buy * 1.01` and the average price are exact rational arithmetic, so
  IEEE rounding at the boundaries is not captured.
- `time.time()` and `kst_now()` readings are inputs. Each clock reading the
  code makes is a field of the step that consumes it.
- Strings are ASCII. `strip`, `upper` and `lower` treat only ASCII space and
  control whitespace and ASCII letters. `int()` reads an optional sign and
  ASCII digits with surrounding whitespace, and does not accept underscores.
- Logging, `print` and `traceback` output are left out, and so is the
  P&L computation that only feeds a log line.
- `sleep_until` and the endless `daily_scheduler` loop are left out. Only the
  window arithmetic of one pass is modelled. The cooldown map that the loop
  shares across days is the `Cooldowns` object the session updates in place.
- `get_ranking_fluctuation` and `hashkey` are REST calls with oracle
  replies. Their request headers and parameters are not modelled.
- HTTP status codes are reduced to "the attempt failed" in `Request`.
- `Rest.OrderCash`: the leading `get_access_token()` call is not modelled.
  Neither is its token request, its cache update, nor its failure, which
  raises before the hashkey is asked for. The same holds for the
  buying-power request (`PsblCash`) and the ranking request. These
  requests do not hold the client object, so they neither read nor change
  the credential cache. The strategy's oracle replies for the order, cash
  and ranking requests can still be any failure.
- `Strategy.IocBuy`: the approval key is an input of each routine rather
  than a call to the cached `KisRest.GetApprovalKey`, because the routines
  do not hold the client object.
- `Session.RunTradingSession`: the loop's cycle inputs are taken in order,
  so the model does not say that clock readings increase.
