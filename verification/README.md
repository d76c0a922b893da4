# blive: order-execution core, verified in Dafny

A model of how blive sizes, gates, places, follows and books orders, and of the arithmetic and state
machines this rests on, with machine-checked proofs. It covers:

- the declared order state machine and the IB broker that emits its events (`order_fsm.dfy`,
  `order_tracking.dfy`, `ib_broker*.dfy`, `order_responses.dfy`, `submissions.dfy`);
- banded price grids and where their tables come from (`price_grid.dfy`, `price_rules.dfy`);
- positions, the ledger, the sizer and the risk gate (`positions.dfy`, `ledger.dfy`, `sizer.dfy`, `sizer_money.dfy`,
  `risk.dfy`);
- the event drain and the multi-instrument IB pipeline (`answers.dfy`, `drain.dfy`, `order_events.dfy`,
  `ib_placement.dfy`, `ib_results.dfy`, `ib_rounds.dfy`, `ib_run_spec.dfy`, `ib_pipeline.dfy`);
- the paper broker and the paper pipeline (`paper_*.dfy`);
- the token-bucket limiter, the trend signals, and three IG machines: session recovery, bar stream and
  subscription budget (`rate_limiter.dfy`, `signals.dfy`, `ig_*.dfy`).

`dafny verify dfyconfig.toml` checks the whole project.

## How the model reads the code

- `Decimal` is `real`; time is integer microseconds; an order id is a number of which only equality matters.
- asyncio is a machine over atomic steps: code between real suspensions is one step, `create_task` appends to a
  FIFO of ready coroutines, and a put on the unbounded queue never suspends. The wire, the venue, the server
  and the scheduler choose the steps, so every result holds for every interleaving and every reply.
- A class in the source is a class here, its methods proved against pure functions. For both brokers, the
  limiter and the subscription budget a ghost history ties each object to the run that led to it; results about
  runs are lemmas about the step function.
- `IBPipeline.RunMulti` is proved to produce a history that `IBRunSpec.After` accepts; `IBRunSpec` then proves
  what every such history keeps. An operator may move the kill switch between any two gates; an order already
  past its gate still goes out.
- `OrderResponses`, `Submissions`, `SizingInMoney`, `IBRunSpec.SentAsGated` and `PaperPipeline.PaperAfterFollows`
  state what handlers, placement, sizing and the two runs do in the terms of their inputs and outputs alone.
- The suspensions of `submit` between snapping and placing are one: nothing it shares is read or written there.

## Where the code and its documentation differ

- `Inactive` after acceptance emits REJECTED out of ACCEPTED, which the table lacks (`OrderTracking.TraceIsRunIff`).
- The duplicate check of `submit` sees only tracked orders. It misses a submit still suspended before it
  registers, and an order rejected without being placed; so run results ask that an id is submitted freshly,
  which is exactly when the check protects it (`IBBrokerTheorems.FreshIff`, `ConcurrentDuplicateSubmits`,
  `ResubmittedAfterReject`). An order that cannot be announced at all may be submitted at any time.
- A re-delivered status is ignored but for one thing: the reason of a deferred REJECTED is read from the live
  trade on the last turn, and a repeat can change it (`IBBrokerTheorems.RedeliveryReasonIff`,
  `RepeatedStatusChangesReason`).
- The drain keeps only the last fill, and a fill seen after an engine cancel is ignored, so partial fills never
  reach the ledger (`Draining.BookedIffOneFullFill`, `IBPipeline.AppliedExactly`).
- The price-sanity check cannot fire in the pipelines: it sees the sizer's market order, before the limit is set
  (`IBPipeline.Gate`).
- A sub-tick price snaps to 0 and the order's own check then raises; across bands, order preservation
  needs aligned edges, and legality that each edge rounds up legally with the tick below
  (`PriceGrid.SubTickSnapsToZero`, `PriceGrid.MonotoneIffAligned`, `PriceGrid.LegalIffEdgesRound`).
- Weight zero flattens a position only if it is a whole number of shares (`Sizing.ExitFlattensIff`).
- The `historical` limiter default allows up to 100 requests in ten minutes, not 60; 60 holds for windows
  shorter than 132 seconds and no others (`RateLimiting.DefaultsAreTight`, `RateLimiting.HistoricalSixtyIff`).
- "Exactly 2 eligible" is one or two (`Signals.OneOrTwoEligible`).
- A paper order cancelled before its acknowledgement has CANCELED and no SUBMITTED
  (`PaperBrokerTheorems.PaperOrderTrace`); an id used again while an old lifecycle of it is still to resume
  revives that one (`PaperBrokerTheorems.ReuseIff`, `ReusedIdRevivesTask`).
- A malformed consolidation is meant to be skipped, but `InvalidOperation` is not among the exceptions caught:
  an unreadable traded price, an unreadable bid or offer where no traded price is there, and an unreadable
  volume each end the stream (`IGBarStream.RaisesIff`, `IGBarStream.StreamEndsIff`).
- A subscribe cancelled in flight keeps its permit: cancellation passes the `except Exception` handler
  (`IGSubscriptions.PermitsConserved` counts it as lost).

## Model

| member | source | states |
|---|---|---|
| `OrderFsm.TerminalIffStuck` | src/blive/domain/order_fsm.py:48-137 | Terminal states are exactly the states from which no trigger is legal. |
| `OrderFsm.RunIffAfter` | src/blive/domain/order_fsm.py:92-131 | A sequence of event kinds is emitted by some legal run from SUBMIT_PENDING if and only if replaying it through the table never gets stuck: observing events loses nothing. |
| `OrderFsm.RunIffLegal` | src/blive/domain/order_fsm.py:48-131 | The runs of the machine, spelled out: nothing, a lone REJECTED, or SUBMITTED followed by nothing, REJECTED, CANCELED, or ACCEPTED, any partial fills and at most one of FILLED, CANCELED, EXPIRED. |
| `OrderFsm.DriveDeterminesAfter` | src/blive/domain/order_fsm.py:92-131 | The events of a run determine the state it ends in. |
| `OrderFsm.AfterPrefix` | src/blive/domain/order_fsm.py:48-131 | Legality of a trace is closed under prefixes. |
| `OrderTracking.TraceHasShape` | src/blive/adapters/ib/broker.py:695-865 | For every callback sequence the queued events read SUBMITTED, at most one ACCEPTED right after it, fills only after ACCEPTED, at most one terminal event and nothing after it. |
| `OrderTracking.TraceIsRunIff` | src/blive/adapters/ib/broker.py:762-770 | The trace is a run of the declared machine if and only if no `Inactive` reaches the order between its acceptance and its terminal event. |
| `OrderTracking.InactiveAfterAcceptance` | src/blive/adapters/ib/broker.py:762-770 | The shortest illegal trace: acceptance, then `Inactive`, gives REJECTED out of ACCEPTED. |
| `OrderTracking.RedeliveryIgnored` | src/blive/adapters/ib/broker.py:785-865 | Only the first delivery of a status or execution id matters: two streams with equal first deliveries emit the same events — kind, fill, and every reason decided on the spot — and leave the same record; the reason of a deferred REJECTED stays open here. |
| `OrderTracking.RepeatInsertedAnywhere` | src/blive/adapters/ib/broker.py:785-865 | Inserting a repeat of an earlier callback anywhere later changes no emission: same kinds, fills and decided reasons; only a deferred REJECTED, whose reason is decided later, is left open. |
| `OrderTracking.FillsSumToCumulative` | src/blive/adapters/ib/broker.py:820-865 | Emitted fill quantities add up to the tracked cumulative quantity. |
| `OrderTracking.FillsAreFaithful` | src/blive/adapters/ib/broker.py:800-865 | Every emitted fill is valid, for this order, and carries quantity, price and commission of the first delivery of its execution; no execution is reported twice. |
| `OrderTracking.FilledIff` | src/blive/adapters/ib/broker.py:820-865 | FILLED is emitted if and only if the distinct well-formed executions delivered before the first cancellation or inactivation reach the order quantity; without over-execution, equal it. |
| `OrderResponses.Responds` | src/blive/adapters/ib/broker.py:695-865 | What each callback appends to a trace, told by the trace alone: ACCEPTED once on Submitted or PreSubmitted; on Cancelled or ApiCancelled REJECTED with the last non-zero log entry if there is one and no ACCEPTED, else CANCELED; REJECTED on Inactive; for a new execution ACCEPTED if missing and its fill, FILLED once the quantity is reached; nothing after a terminal event or otherwise. |
| `OrderResponses.AppendsOneThing` | src/blive/adapters/ib/broker.py:695-865 | That reference leaves no choice, so together they determine every trace. |
| `OrderResponses.PushResponds` | src/blive/adapters/ib/broker.py:695-865 | The same in every run, whatever is scheduled or queued meanwhile; and the error stash loses the order's entry exactly when the order ends with its reason known. |
| `IBBrokerModel.WaitingTasks` | src/blive/adapters/ib/broker.py:695-865 | The coroutines a callback schedules carry exactly the events the order's own machine emits, and none of another order. |
| `IBBrokerRuns.StepEvents` | src/blive/adapters/ib/broker.py:486-576 | No step of the broker reorders, drops or invents events of an order, whatever other orders are doing: it appends what the order's own machine adds. |
| `IBBrokerRuns.RunProjects` | src/blive/adapters/ib/broker.py:486-865 | Under every interleaving of submits, callbacks, errors and scheduled coroutines, an id that is submitted freshly (first, or while tracked, when the duplicate check refuses it) has exactly the events of one sequential machine fed with its callbacks; nothing is asked of other ids. |
| `IBBrokerRuns.RunKeepsInvariant` | src/blive/adapters/ib/broker.py:486-576 | In every such run the id is tracked, in flight or scheduled consistently, and nothing is scheduled behind its deferred reject. |
| `IBBrokerTheorems.EveryOrderTrace` | src/blive/adapters/ib/broker.py:551-865 | In every run that submits the id freshly its events are none, a lone REJECTED of an unplaced order, or a trace of the above shape. In full they are a run of the declared machine exactly unless a live accepted order was pushed `Inactive`; as far as queued, exactly unless that REJECTED is queued too. |
| `IBBrokerTheorems.FreshIff` | src/blive/adapters/ib/broker.py:511-551 | Exactly when submitting a valid, supported order is safe: its events stay none, a lone REJECTED or a legal trace, in every continuation that does not submit it again, if and only if the id is tracked (and so refused), or it has no event yet and no live submit in progress. |
| `IBBrokerTheorems.ConcurrentDuplicateSubmits` | src/blive/adapters/ib/broker.py:511-551 | The duplicate check alone does not protect: two submits of one id that both pass it before either registers are both placed and announced, which is no legal trace. |
| `IBBrokerTheorems.ResubmittedAfterReject` | src/blive/adapters/ib/broker.py:511-551 | The sequential failure: a priced order rejected for want of a grid, submitted again under its id with a grid, is placed and announced after its REJECTED. |
| `IBBrokerTheorems.RedeliveryInvisible` | src/blive/adapters/ib/broker.py:785-865 | Two whole runs that placed the same order and first-delivered the same callbacks to it, however the rest was interleaved, agree on every event in kind and fill, and on every reason but that of a final deferred REJECTED. |
| `IBBrokerTheorems.RedeliveredEvents` | src/blive/adapters/ib/broker.py:695-865 | The same on the queued events themselves: equal at every common position, but for that one reason. |
| `IBBrokerTheorems.RedeliveryReasonIff` | src/blive/adapters/ib/broker.py:1000-1061 | Once both runs have let the deferred reject take its last turn, their queued events are equal if and only if that turn read the same reason in both. |
| `IBBrokerTheorems.DeferredDecided` | src/blive/adapters/ib/broker.py:1000-1061 | A deferred REJECTED carries what its coroutine reads on its last turn, and stays the order's last event in every continuation. |
| `IBBrokerTheorems.RejectReads` | src/blive/adapters/ib/broker.py:1033-1047 | What that turn finds on the live trade is log and hold text of the last status delivered, re-deliveries and those after the order's end included. |
| `OrderResponses.DeferredSays` | src/blive/adapters/ib/broker.py:1033-1061 | A deferred REJECTED says the last status's last log message, else its hold text, else the error stashed for the order by then, else that no reason could be recovered. |
| `IBBrokerTheorems.RepeatedStatusChangesReason` | src/blive/adapters/ib/broker.py:1033-1047 | A run where the reason does change: an exact repeat of the acceptance, after the `Inactive`, replaces its hold text by the acceptance's log. |
| `IBBrokerTheorems.WireStaysOnGrid` | src/blive/adapters/ib/broker.py:624-658 | In every run only valid, supported orders are placed, and on a grid every price placed is legal there and positive. |
| `Submissions.EveryPlacement` | src/blive/adapters/ib/broker.py:519-576 | In every run whatever is on the wire was submitted and is placed as submitted, of a placeable type, but for prices moved, on a grid, to the legal price the policy picks for its side. |
| `Submissions.PlacesIff` | src/blive/adapters/ib/broker.py:519-576 | A suspended submit places and announces its order exactly when the order passes its checks, is no MOC or LOC, and any prices snap to positive ones; else it announces one REJECTED, if priced with no table, or nothing. |
| `IBBrokerTheorems.NoGridNeverPlaced` | src/blive/adapters/ib/broker.py:520-538 | A priced order whose grid is unknown gets one REJECTED and is never placed, in every continuation that does not submit its id anew. |
| `IBBrokerTheorems.NeverPlacedLater` | src/blive/adapters/ib/broker.py:486-576 | An order that left submission unplaced is never placed and gets no further event, in every continuation that does not submit its id anew. |
| `IBBrokerTheorems.EventsStayValid` | src/blive/adapters/ib/broker.py:695-1061 | Every event queued or scheduled satisfies its construction checks: fills on fill events only, a reason on every reject and cancel. |
| `IBBrokerTheorems.LateErrorIsReported` | src/blive/adapters/ib/broker.py:1000-1077 | Why the reject is deferred: an error pushed after `Inactive` but before the last loop turn becomes the reason; pushed later it is lost. |
| `IBBrokerAdapter.IBBroker.BeginSubmit` | src/blive/adapters/ib/broker.py:486-517 | Up to its first suspension `submit` only checks for a duplicate id: refused with no change, else in flight. |
| `IBBrokerAdapter.IBBroker.ResumeSubmit` | src/blive/adapters/ib/broker.py:519-576 | The rest of `submit` is the corresponding machine step: snap, then reject unplaced, raise, or place, register and announce. |
| `IBBrokerAdapter.IBBroker.SnapOrderPrices` | src/blive/adapters/ib/broker.py:624-658 | Both prices snapped for the order's side, or the error; an order whose snapped price is not positive fails its own checks. |
| `IBBrokerAdapter.IBBroker.OnOrderStatus` | src/blive/adapters/ib/broker.py:695-770 | The handler's effect on maps, error stash and scheduled work is the machine step of that callback, whose meaning is `OrderResponses.PushResponds`. |
| `IBBrokerAdapter.IBBroker.OnOrderFill` | src/blive/adapters/ib/broker.py:772-865 | The handler's effect is the machine step: dedup by execution id, implied acceptance, one fill event, terminal when the quantity is reached; its meaning is `OrderResponses.PushResponds`. |
| `IBBrokerAdapter.IBBroker.OnIbError` | src/blive/adapters/ib/broker.py:969-998 | An order-bound error is stashed under its request id; others change nothing. |
| `IBBrokerAdapter.IBBroker.RunReady` | src/blive/adapters/ib/broker.py:1000-1061 | One turn of the event loop is the machine step that runs the oldest scheduled coroutine. |
| `PriceGrid.BandFor` | src/blive/adapters/shared/price_grid.py:63-72 | The loop finds the last band with the greatest edge not above the price, else the lowest band. |
| `PriceGrid.SnapPrice` | src/blive/adapters/shared/price_grid.py:75-103 | Errors on a non-positive price or an empty table; otherwise the snapped price of the specification. |
| `PriceGrid.SnapPicksLegalPrice` | src/blive/adapters/shared/price_grid.py:75-103 | On an edge-aligned table covering 0, for every policy and side: the greatest legal price not above, the least not below, or the closest (upper on a tie). |
| `PriceGrid.NearestMovesHalfTick` | src/blive/adapters/shared/price_grid.py:90-103 | NEAREST moves a price by at most half the tick of its band. |
| `PriceGrid.SnapMonotone` | src/blive/adapters/shared/price_grid.py:75-103 | Snapping is monotone in the price, across bands. |
| `PriceGrid.SnapIdempotent` | src/blive/adapters/shared/price_grid.py:75-103 | A snapped price snaps to itself, under any policy. |
| `PriceGrid.MonotoneIffAligned` | src/blive/adapters/shared/price_grid.py:63-103 | Snapping is monotone for every price, side and policy if and only if every band edge is a tick of the band below. |
| `PriceGrid.LegalIffEdgesRound` | src/blive/adapters/shared/price_grid.py:63-103 | Every snapped price is legal, for every price, side and policy, if and only if rounding each band's edge up with the tick of the band below gives a legal price. |
| `PriceGrid.MisalignedOvershoots` | src/blive/adapters/shared/price_grid.py:63-103 | With a misaligned edge some price below it snaps to above it. |
| `PriceGrid.SubTickSnapsToZero` | src/blive/adapters/shared/price_grid.py:90-103 | A price below a tick rounds down to 0. |
| `PriceGrid.TicksSurviveIff` | src/blive/adapters/shared/price_grid.py:102-103 | Quantizing to the increment's last written digit keeps every tick of a band if and only if its edge is a multiple of that digit. |
| `PriceRules.FetchMarketRule` | src/blive/adapters/ib/price_rules.py:153-164 | Unreadable and non-positive rows are dropped; the rest come sorted by edge and are a permutation of those kept; a negative edge fails the rule. |
| `PriceRules.BandsAreRows` | src/blive/adapters/ib/price_rules.py:153-164 | The bands are those of the rows with both numbers readable and a positive increment. |
| `PriceRules.SortIsStable` | src/blive/adapters/ib/price_rules.py:163-163 | Bands of equal edge keep the venue's order. |
| `PriceRules.GoverningByPosition` | src/blive/adapters/ib/price_rules.py:133-151 | The rule asked for is the first filled id beside the target exchange, or the first filled one when none stands there or the lists do not match up. |
| `PriceRules.IncrementsFromDetails` | src/blive/adapters/ib/price_rules.py:106-131 | The governing rule's table when it has one, else one band from a positive minimum tick, else unavailable; a wire error degrades to the minimum tick. |
| `PriceRules.TableByRule` | src/blive/adapters/ib/price_rules.py:106-131 | What is served, by position of the governing id: that rule's usable rows when it reads, is fetched and has no negative edge; else the minimum tick from 0, when positive; else nothing. |
| `PriceRules.ServedTableUsable` | src/blive/adapters/ib/price_rules.py:106-164 | Every served table is non-empty, sorted, with positive increments and no negative edge. |
| `PriceRules.ServedNeverBadTable` | src/blive/adapters/ib/price_rules.py:64-72 | With a served table a submit never fails on the table itself. |
| `PriceRules.MinTickIsGrid` | src/blive/adapters/ib/price_rules.py:124-127 | The minimum-tick table covers 0 and is a grid, so all snapping results hold for it outright. |
| `PriceRules.IBPriceRuleService.IncrementsFor` | src/blive/adapters/ib/price_rules.py:64-72 | A cached table is returned without asking, a fetched one is kept, a failure is not, and other instruments are untouched. |
| `Draining.DrainOrder` | src/blive/runtime/ib_pipeline.py:756-822 | The answer is a function of the target order's own events among the items read, up to the first terminal one: the state names the last one's kind, the fill is the last one carried, acceptance was seen if an ACCEPTED or a fill was. Other orders' events and notices never matter; without a terminal event it uses the whole wait. |
| `Draining.BookedIffOneFullFill` | src/blive/runtime/ib_pipeline.py:586-619 | For one order the ledger books exactly the broker's fills if and only if there are none, or a single one that is FILLED and was read in time. |
| `Draining.PartialFillLost` | src/blive/runtime/ib_pipeline.py:802-810 | A partial fill followed by the completing one: only the second is booked. |
| `Answers.ReadOn` | src/blive/runtime/ib_pipeline.py:785-819 | Reading one more item changes the answer only by the order's own event, to the latest state, the latest fill, and acceptance once seen. |
| `Answers.AnswerReports` | src/blive/runtime/ib_pipeline.py:785-819 | What an answer says, kind by kind: FILLED, CANCELED, REJECTED, EXPIRED and each open state exactly when the last event read is of that kind, SUBMIT_PENDING exactly when none was. |
| `OrderEvents.OwnEventsSound` | src/blive/adapters/ib/broker.py:551-865 | In every run of fresh submits an order's queued events carry fills exactly on fill events, of that order, and nothing follows a terminal event; an unplaced order has no fills. |
| `OrderEvents.SubmissionRuns` | src/blive/adapters/ib/broker.py:486-576 | One submission, with the environment acting meanwhile, leaves the broker idle, tracks the order under its own id or not at all, and puts no other order on the wire. |
| `OrderEvents.BookedAllIff` | src/blive/runtime/ib_pipeline.py:586-619 | Over all orders of a run the booked fills are exactly the broker's fills if and only if every order had no fill or one full fill in time. |
| `IBPlacement.PlaceAndDrain` | src/blive/runtime/ib_pipeline.py:568-619 | Submit, wait, and, unless the wait gave a fill to book, a cancellation or a rejection, wait again: the answer reports what the first wait read, which is the start of the order's whole trace, and a submit that raises places nothing. |
| `Positions.ApplyFillBooks` | src/blive/domain/positions.py:33-110 | One fill, in all five cases: quantities add, the new position is valid, flat means zero cost, and cost basis less realised profit moves by signed quantity × price. |
| `Positions.ApplyFillFields` | src/blive/domain/positions.py:33-110 | A fill of another strategy or instrument is refused exactly while something is held; the opening time is that of the fill that opened or flipped the position, none when flat. |
| `Positions.ProfitIdentity` | src/blive/domain/positions.py:33-110 | For any fill sequence, through adds, partial closes, closes and flips: quantity is the signed sum, and quantity × average cost less all realised profit is the signed notional traded. |
| `Positions.AverageWithinLeg` | src/blive/domain/positions.py:64-84 | The average cost lies within any band holding every fill price since the position was last opened or flipped. |
| `Ledgers.ComputeEquity` | src/blive/runtime/ib_pipeline.py:652-668 | The loop computes cash plus the sum over holdings of quantity × mark, an unmarked holding counting zero, in whatever order it visits them. |
| `Ledgers.SettleEquity` | src/blive/runtime/ib_pipeline.py:591-601 | Settling a fill moves equity, at any marks, by signed quantity × (mark − price) less commission. |
| `Ledgers.SettleAllConserves` | src/blive/runtime/ib_pipeline.py:591-601 | Nothing is created or lost by any fills: equity at any marks is starting cash plus all gains, every holding the signed sum of its fills. |
| `Sizing.SizeOrders` | src/blive/sizing/sizer.py:62-134 | The loop returns whole-share orders in target order, or the first error in source order. |
| `SizingInMoney.SizingFailsIff` | src/blive/sizing/sizer.py:79-93 | Sizing works exactly with a positive slice and equity and every weight in [−1, 1] and price positive; otherwise the slice, equity, or first target at fault is reported, its weight before its price. |
| `SizingInMoney.OrdersCloseGaps` | src/blive/sizing/sizer.py:84-131 | Each order in money: targets in order, those whose gap — equity × slice × weight less the holding's worth — is a share's price or more have one market order, bought for a positive gap, that leaves less than a share's price of it; the others have none. |
| `Sizing.RebalanceFixedPoint` | src/blive/sizing/sizer.py:62-134 | Executing every order at its lookup price without commission leaves equity unchanged, each holding between its old and its desired quantity and within one share of the latter, and sizing again asks for nothing. |
| `SizingInMoney.RebalancedInMoney` | src/blive/sizing/sizer.py:62-134 | After executing the orders, for every weight in [−1, 1]: equity × slice × weight less the holding's worth is within one share's price, and the holding lies between the old one and equity × slice × weight / price. |
| `Sizing.ExitFlattensIff` | src/blive/sizing/sizer.py:96-113 | Weight zero closes the whole position if and only if the holding is a whole number of shares. |
| `Risk.RiskEngine.Approve` | src/blive/risk/checks.py:144-213 | Approved exactly when all five checks pass; otherwise the last breach is the one BLOCK, raised by the first check that fails; anything else is an artefact-age warning. |
| `Risk.GateMeans` | src/blive/risk/checks.py:144-297 | What passing means in the configuration's units: switch unarmed, the bar at most so many seconds old by the limit for the kind of strategy, in hours or allowed outside, every file there and younger than so many days, and a limit within the deviation of the reference. |
| `Risk.FirstFailure` | src/blive/risk/checks.py:144-213 | Which check drops an order: the kill switch first, then data age, hours, files, and price last. |
| `Risk.RiskEngine.CheckArtefactFreshness` | src/blive/risk/checks.py:299-372 | Blocks exactly when a file is missing or too old; otherwise warns exactly when some file has the warning age, or the warning age is not positive and there is a file. |
| `Risk.KillSwitch.Arm` | src/blive/risk/checks.py:59-63 | An empty reason is refused and leaves the latch as it was; otherwise armed with that reason. |
| `Risk.KillSwitch.Clear` | src/blive/risk/checks.py:65-67 | Disarmed, with no reason. |
| `Risk.Latest` | src/blive/adapters/paper/market_data.py:94-105 | On sorted bars, the newest bar closed at or before the instant, and none exactly when all are later. |
| `IBResults.BookOutcome` | src/blive/runtime/ib_pipeline.py:568-619 | Booking one outcome gives the specified result: every order counted once, only the deciding fill of a FILLED answer settled, a rejection counted as such, anything else as cancelled. |
| `IBResults.BookKeeps` | src/blive/runtime/ib_pipeline.py:568-619 | Booking keeps the run sound: counters count their outcomes, fills ≤ accepted ≤ submitted = fills + canceled + rejected, per-symbol counts add up with fills ≤ submitted, equity conserved. |
| `IBResults.BookingNeverFails` | src/blive/domain/positions.py:47-62 | On books of this strategy in the run's instruments `apply_fill` never raises for a recorded order, and they stay such books. |
| `IBResults.MarkEquity` | src/blive/runtime/ib_pipeline.py:621-634 | Appends one point with the cash, each held quantity, the marks and the equity at those marks. |
| `IBRounds.CollectBars` | src/blive/runtime/ib_pipeline.py:454-467 | Every bar is its instrument's last one closed by the instant; the rebalance goes ahead exactly when symbols are distinct and every instrument has a bar. |
| `IBRounds.SizeRebalance` | src/blive/runtime/ib_pipeline.py:472-525 | The sizer is called on the row's weights, equity and venue prices at the marks and the books' positions; its orders are market orders in the run's instruments, each the one its symbol stands for. |
| `IBRunSpec.LimitIsMarketable` | src/blive/runtime/ib_pipeline.py:671-738 | With a non-negative offset a limit order is marketable at the bar's venue price. |
| `IBRunSpec.EveryRunSound` | src/blive/runtime/ib_pipeline.py:439-645 | After any number of rebalances: orders are counted as filled, rejected or cancelled by whether their last event read is FILLED, REJECTED or neither, and as accepted if an ACCEPTED or a fill was read; at every equity point equity is starting cash plus the gains, at its marks, of the fills booked by then, each quantity the signed sum of its fills. |
| `IBRunSpec.EveryRunTimed` | src/blive/runtime/ib_pipeline.py:621-634 | One equity point per rebalance, at its close time. |
| `IBRunSpec.EveryRunLogged` | src/blive/runtime/ib_pipeline.py:568-574 | The orders in a run's history are its submissions, one record each, in order. |
| `IBRunSpec.NoLookAhead` | src/blive/runtime/ib_pipeline.py:527-568 | In every run, whatever was submitted rests on its instrument's last bar closed by then, no more seconds old than the limit for the kind of strategy, at a time with a weight row, passed a gate that saw the kill switch unarmed, and was sent as the gate saw it. |
| `IBRunSpec.SentAsGated` | src/blive/runtime/ib_pipeline.py:671-738 | What is sent has instrument, side, quantity and strategy of the candidate, the type configured for its symbol or the default, no stop price, and a limit price exactly on limit orders: 10000 × (limit − reference) is the offset × reference, up for a buy and down for a sell, the reference being the close, a tenth of it for QQL3. |
| `IBRunSpec.EveryRoundInMoney` | src/blive/runtime/ib_pipeline.py:459-548 | Every rebalance of every run: the sizer saw one target per instrument at the row's weight, the configured slice of the equity of the books at venue marks, and prices at those marks; and its candidates are, in order, the orders that close the targets' gaps. |
| `IBRunSpec.NothingAfterArming` | src/blive/risk/checks.py:160-170 | However an operator arms and clears the switch during a run: a gate sees it armed exactly when some arming with a reason, or the state before the run, has not been cleared since; and then its candidate is not submitted. |
| `IBRunSpec.LatchIff` | src/blive/risk/checks.py:59-67 | The switch is armed after some moves if and only if an arming with a reason, or the initial state, was not cleared since. |
| `IBRunSpec.ArmedSubmitsNothing` | src/blive/runtime/ib_pipeline.py:538-548 | A kill switch armed before the run and never cleared gives no submission and equity fixed at starting cash. |
| `IBPipeline.Gate` | src/blive/runtime/ib_pipeline.py:538-548 | Exactly the candidates passing every check go on; a dropped one leaves one block, and the price-sanity check never fires as it sees the sizer's market order. |
| `IBPipeline.ProcessOrder` | src/blive/runtime/ib_pipeline.py:527-619 | One candidate is dropped, or submitted as the order built from it (`IBRunSpec.SentAsGated`) and booked, exactly as the gate says, on the switch as the operator's moves left it; the new state is the specified one; when it raises, nothing unrecorded is on the wire, and it is not booking that raised. |
| `IBPipeline.Rebalance` | src/blive/runtime/ib_pipeline.py:459-634 | One rebalance is legal: sized on the books as they are, every sized order brought to the gate in order, equity marked at the same bars. |
| `IBPipeline.RunMulti` | src/blive/runtime/ib_pipeline.py:367-646 | Against any venue, wire, scheduler and operator. Finished or raised: a legal sequence of rebalances, every gate seeing the switch as the moves so far left it; every new placement is a recorded submission, snapped, and every recorded submission was sent as the gate saw it; never a booking error. Finished: one rebalance at every due close, sound books and counters, and applied fills equal to the broker's fills if and only if every order had none or one full fill in time. |
| `IBPipeline.AppliedExactly` | src/blive/runtime/ib_pipeline.py:586-619 | The if-and-only-if between applied fills and broker fills, for any finished run. |
| `IBPipeline.DrainStartup` | src/blive/runtime/ib_pipeline.py:744-753 | Empties the queue and changes nothing else. |
| `PaperBrokerModel.PaperRunKeeps` | src/blive/adapters/paper/broker.py:100-253 | In every run where lifecycles of an id do not overlap, that id is untouched or has a latest lifecycle whose phase and presence in the book say exactly which events it queued, all earlier ones being through; nothing is asked of other ids. |
| `PaperBrokerTheorems.PaperOrderTrace` | src/blive/adapters/paper/broker.py:100-253 | Under every interleaving, ids used again included, the trace of an order's latest lifecycle is a prefix of SUBMITTED, ACCEPTED followed by at most one of FILLED or CANCELED; it is a run of the declared machine if and only if no cancel preceded the acknowledgement; and the order is open exactly while submitted, not ended, and its fill did not raise. |
| `PaperBrokerTheorems.ReuseIff` | src/blive/adapters/paper/broker.py:100-113 | An ended order may be submitted again under its id if and only if no lifecycle of the id is still to resume: then the new lifeline is sound in every continuation, otherwise some continuation breaks it. |
| `PaperBrokerTheorems.CancelledEarlyIff` | src/blive/adapters/paper/broker.py:115-128 | The latest lifecycle's trace is a lone CANCELED if and only if a cancel reached the open order before its SUBMITTED. |
| `PaperBrokerTheorems.BookExactIff` | src/blive/adapters/paper/broker.py:184-253 | `_open_orders` is exactly the submitted orders whose latest lifecycle has no terminal event, if and only if no latest fill raised. |
| `PaperBrokerTheorems.PriceableNeverCrashes` | src/blive/adapters/paper/broker.py:226-241 | With positive prices and quantities and a non-negative commission no fill raises. |
| `PaperBrokerTheorems.FilledAsSubmitted` | src/blive/adapters/paper/broker.py:184-250 | Every FILLED event fills some order as submitted, whole, at the price and time its lifecycle was resumed with, the per-share commission, and its own execution id. |
| `PaperBrokerTheorems.NoExecutionTwice` | src/blive/adapters/paper/broker.py:173-241 | In every run, reused ids included, no two fills bear the same execution id. |
| `PaperBrokerTheorems.ReusedIdRevivesTask` | src/blive/adapters/paper/broker.py:104-113 | An id submitted again after its cancel revives the old lifecycle: SUBMITTED after CANCELED. |
| `PaperBrokerAdapter.PaperBroker.Submit` | src/blive/adapters/paper/broker.py:100-113 | Refused when disconnected, no change for an open id, else one order, one venue id, one lifecycle. |
| `PaperBrokerAdapter.PaperBroker.Cancel` | src/blive/adapters/paper/broker.py:115-128 | Closes an open order and queues CANCELED; nothing for an ended one. |
| `PaperBrokerAdapter.PaperBroker.Disconnect` | src/blive/adapters/paper/broker.py:88-98 | Stops every lifecycle, leaves the book alone, queues one notice. |
| `PaperBrokerAdapter.PaperBroker.Advance` | src/blive/adapters/paper/broker.py:184-253 | One resumption of a lifecycle: stop when the order was closed, else acknowledge, accept, or fill. |
| `PaperFilling.DrainPaper` | src/blive/runtime/paper_pipeline.py:281-330 | Reads up to the order's first terminal event and reports its last fill; otherwise reads everything. |
| `PaperFilling.FillOrder` | src/blive/runtime/paper_pipeline.py:215-220 | A market order fills whole at the current price and leaves the broker as before, unless no Fill accepts that fill: then the wait never ends. |
| `PaperPipeline.TradeStaysWealthy` | src/blive/sizing/sizer.py:79-113 | Trading whole shares toward a holding worth at most a tenth of equity, at a commission no larger than the price, keeps cash positive and the holding a non-negative whole number. |
| `PaperPipeline.WealthyIffCommissionBelowPrice` | src/blive/runtime/paper_pipeline.py:226-228 | Every trade of a wealthy account toward such a holding leaves it wealthy if and only if the per-share commission does not exceed the price. |
| `PaperPipeline.SizePaper` | src/blive/runtime/paper_pipeline.py:180-194 | Sizing succeeds exactly with a positive slice, equity and price and a weight in [−1, 1], and then asks for the due shares in one order, or for none. |
| `PaperPipeline.SolventSizes` | src/blive/sizing/sizer.py:79-113 | A solvent account can afford the shares that come due, commission included. |
| `PaperPipeline.TradePaper` | src/blive/runtime/paper_pipeline.py:196-230 | An order is filled exactly when every check passes, and then booked whole at the close with its commission; a dropped one changes nothing. |
| `PaperPipeline.PaperRebalance` | src/blive/runtime/paper_pipeline.py:173-243 | One rebalance is the stated function of ledger and curve: due shares traded if the gate lets them, then one point; a solvent account never fails and stays wealthy. |
| `PaperPipeline.MarkPaper` | src/blive/runtime/paper_pipeline.py:232-243 | The point's equity is its cash plus quantity × close, and both are what the fills leave of the starting cash. |
| `PaperPipeline.PaperAfterFollows` | src/blive/runtime/paper_pipeline.py:166-243 | The curve against the series, point by point: with the gate open the holding lies between the old one and slice × equity × position × leverage / close, its worth within one share's price of that, and cash pays for the whole shares traded with commission; with it closed neither moves. |
| `PaperPipeline.FlatWhenOut` | src/blive/runtime/paper_pipeline.py:177-243 | After a close at which the series says zero and the gate is open no share is held. |
| `PaperPipeline.RunPaper` | src/blive/runtime/paper_pipeline.py:89-247 | Every run: ledger and curve are the stated function of the inputs; the curve follows the position series (`PaperPipeline.PaperAfterFollows`); one point per scheduled close, each accounting for exactly the fills so far, each fill at the close of its own bar. With positions in {0, 1}, leverage in [0, 1], a slice of at most a tenth, positive closes in order and commission within every close: it never fails, cash stays positive, the holding whole and non-negative. |
| `RateLimiting.WindowBound` | src/blive/adapters/shared/rate_limiter.py:142-183 | However many waiters interleave: turns within any window of d microseconds grant at most capacity + rate × d, and the level never leaves [0, capacity]. |
| `RateLimiting.MostInWindow` | src/blive/adapters/shared/rate_limiter.py:142-183 | The exact maximum: in every monotone run a window grants at most n if and only if n is at least capacity plus the whole tokens earned in it. |
| `RateLimiting.LimiterBound` | src/blive/adapters/shared/rate_limiter.py:100-183 | The bound holds of the object: of all turns its history records on a bucket, those within any d microseconds were granted at most capacity + rate × d. |
| `RateLimiting.GlobalUnderCap` | src/blive/adapters/ib/rate_limiter.py:54-65 | The `global` default grants at most 40 in any second, under 50. |
| `RateLimiting.HistoricalBound` | src/blive/adapters/ib/rate_limiter.py:54-65 | The `historical` default grants at most 100 in any ten minutes. |
| `RateLimiting.HistoricalSixtyIff` | src/blive/adapters/ib/rate_limiter.py:17-20 | Windows of d microseconds grant at most 60 in every monotone run if and only if d is less than 132 seconds; the documented ten minutes is not. |
| `RateLimiting.DefaultsAreTight` | src/blive/adapters/ib/rate_limiter.py:54-65 | 40 a second and 100 in ten minutes are reached, so neither bound can be lowered. |
| `RateLimiting.ClockJumpDoublesBurst` | src/blive/adapters/shared/rate_limiter.py:172-183 | Without a monotone clock one instant can grant two full buckets. |
| `RateLimiting.CushionCoversDeficit` | src/blive/adapters/shared/rate_limiter.py:148-153 | Sleeping the deficit's refill time plus a microsecond, rounded to the nearest microsecond, always suffices. |
| `RateLimiting.TokenBucketRateLimiter.RefillBucket` | src/blive/adapters/shared/rate_limiter.py:172-183 | Refills one bucket by the elapsed time up to its capacity; other buckets are untouched. |
| `RateLimiting.TokenBucketRateLimiter.AcquireTurn` | src/blive/adapters/shared/rate_limiter.py:142-147 | One turn grants exactly when the refilled level suffices, and then takes the tokens. |
| `RateLimiting.TokenBucketRateLimiter.Acquire` | src/blive/adapters/shared/rate_limiter.py:123-153 | A lone caller: errors change nothing; every legal request is granted within two turns, at once if possible, else after a sleep within 1.5 microseconds of the deficit's refill time. |
| `RateLimiting.SimClock.Sleep` | src/blive/adapters/clock/sim.py:26-29 | Advances by the nearest whole microsecond, ties to even. |
| `Signals.TripleLevEligibility` | src/blive/runtime/signals.py:140-202 | The loop returns, per bar, the specified row, or the two argument errors. |
| `Signals.LegClosedForm` | src/blive/runtime/signals.py:176-186 | With complete non-negative closes and exit buffer ≤ enter buffer a leg has no hidden memory: out exactly when the last bar beyond either threshold was below the exit one. |
| `Signals.LegInTotals` | src/blive/runtime/signals.py:164-186 | The same in sums of closes: a leg is out exactly when, on some bar, window × close was less than the last window closes together × (1 + exit buffer), and on no later bar more than them × (1 + enter buffer). |
| `Signals.DirectedIff` | src/blive/runtime/signals.py:176-186 | A bar decides the state by itself if and only if it is not beyond both thresholds at once; when it is, the leg toggles. |
| `Signals.ThresholdsApart` | src/blive/runtime/signals.py:176-186 | Ordered buffers and a non-negative mean keep the thresholds apart. |
| `Signals.CrossedBuffersOscillate` | src/blive/runtime/signals.py:176-186 | Buffers the wrong way round: a constant price toggles the leg on every bar. |
| `Signals.RowsShowStates` | src/blive/runtime/signals.py:164-193 | Without missing closes the rows show exactly the leg states, warm-up included. |
| `Signals.OneOrTwoEligible` | src/blive/runtime/signals.py:111-117 | Two columns are eligible on every bar unless both risk legs are filtered out, then one; weights sum to one. |
| `Signals.WeightsSumToOne` | src/blive/runtime/signals.py:249-256 | For any columns: one and the same positive weight on exactly the eligible ones, summing to one; all zero when none is. |
| `Signals.FlipsCountLegToggles` | src/blive/runtime/signals.py:278-286 | The flip count of the TQQQ weights is the number of times its leg changed state between bars. |
| `IGSession.IGClient.DispatchWithRefresh` | src/blive/adapters/ig/client.py:304-352 | Against any server and any concurrent requests: calls and result are those the replies ask for, step by step — an expired send is followed by a refresh, a refresh with new tokens by a second send whose reply is the result unless it expired too, an expired or tokenless refresh and an expired second send by a login, a login with new tokens by a last send. It stops short only where it finds no tokens, which a connected client alone never does. |
| `IGSession.DispatchedMeans` | src/blive/adapters/ig/client.py:304-352 | So it always ends within the calls of a fixed recovery script; it returns only the body of its last send, which succeeded; every earlier send was answered by an expired session, which the caller never sees. |
| `IGSession.RecoveryBounded` | src/blive/adapters/ig/client.py:314-352 | That script holds at most three sends, one refresh and one login. |
| `IGSession.RepliesMean` | src/blive/adapters/ig/client.py:92-133 | How each reply is reported, by its own error code, a known code before the status: two codes mean an expired session, which is an authentication failure during login. |
| `IGSession.IGClient.SendOnce` | src/blive/adapters/ig/client.py:354-376 | At most one send, with the tokens held once the limiter lets it through; its result is its own reply, classified. |
| `IGSession.IGClient.RefreshSession` | src/blive/adapters/ig/client.py:378-412 | On success, which takes a readable 2xx with both headers, the tokens are those of the reply; a success without them counts as expired; any other failure is the reply's own. |
| `IGSession.IGClient.Connect` | src/blive/adapters/ig/client.py:183-210 | No call when connected, else one login, which works exactly on a readable 2xx with both headers; never reports an expired session. |
| `IGBarStream.BarStream` | src/blive/adapters/ig/market_data.py:301-327 | The loop emits the bars of the specification and stops where it raises. |
| `IGBarStream.StreamIsSegmentwise` | src/blive/adapters/ig/market_data.py:301-327 | Each bar is built from the merge of exactly the updates since the previous consolidation; what is carried is the merge of the open segment and never a consolidation mark. |
| `IGBarStream.CutIsExact` | src/blive/adapters/ig/market_data.py:301-327 | Cutting a stream at consolidations loses, repeats and reorders nothing, and each segment ends at its first consolidation. |
| `IGBarStream.LastWriteWins` | src/blive/adapters/ig/market_data.py:303-306 | A merged field has the last value written to it. |
| `IGBarStream.OnlyWritten` | src/blive/adapters/ig/market_data.py:303-306 | A field no update wrote is absent. |
| `IGBarStream.BuiltIff` | src/blive/adapters/ig/market_data.py:330-412 | Exactly which bar a consolidation gives: each price the traded one where there is one, else midway between bid and offer of its kind; closing at the timestamp, opening one length before; volume as read, a negative one as none; if these make a bar. |
| `IGBarStream.StreamConcat` | src/blive/adapters/ig/market_data.py:301-327 | When the first part ends at a consolidation and did not raise, the output of the whole is the concatenation of outputs. |
| `IGBarStream.RaisesIff` | src/blive/adapters/ig/market_data.py:330-410 | A consolidation ends the stream, instead of giving a bar or being skipped, if and only if its time reads and either the first of OPEN, HIGH, LOW, CLOSE without a price is garbled, or all four are prices and the volume is no number. |
| `IGBarStream.StreamEndsIff` | src/blive/adapters/ig/market_data.py:301-327 | A stream has raised if and only if the merge of one of its segments is such a state. |
| `IGSubscriptions.PermitsConserved` | src/blive/adapters/ig/market_data.py:157-233 | In every interleaving free permits, live subscriptions and calls holding one make the maximum less exactly the permits lost. |
| `IGSubscriptions.ObjectConserves` | src/blive/adapters/ig/market_data.py:157-233 | Conservation of the object, whatever was called on it: its permits, live subscriptions and calls holding one make the maximum less the permits its history lost. |
| `IGSubscriptions.NoOverlapConserves` | src/blive/adapters/ig/market_data.py:178-233 | For calls not overlapping on an instrument and not cancelled in flight nothing is lost, through failures, repeated unsubscribes and every interleaving. |
| `IGSubscriptions.IdleIsFull` | src/blive/adapters/ig/market_data.py:184-233 | Once idle every permit is back if and only if none was lost. |
| `IGSubscriptions.OverlapLosesPermit` | src/blive/adapters/ig/market_data.py:178-201 | Two overlapping subscribes of one instrument lose a permit for good. |
| `IGSubscriptions.IGMarketData.Subscribe` | src/blive/adapters/ig/market_data.py:178-187 | Refused for a live instrument, else waiting for a permit. |
| `IGSubscriptions.IGMarketData.Resume` | src/blive/adapters/ig/market_data.py:188-201 | A worked subscribe becomes live under its instrument; a failed one returns its permit. |
| `IGSubscriptions.IGMarketData.Cancelled` | src/blive/adapters/ig/market_data.py:188-201 | A subscribe cancelled in flight leaves its permit out. |
| `IGSubscriptions.IGMarketData.Unsubscribe` | src/blive/adapters/ig/market_data.py:216-224 | Takes a live instrument off; nothing for any other. |
| `IGSubscriptions.IGMarketData.Release` | src/blive/adapters/ig/market_data.py:230-233 | The permit comes back whether or not the wire call worked. |

## Left out

- IBPipeline.RunMulti: the risk configuration does not change during a run; connection checks, empty weight frames, alerts and the error-code histogram are not modelled; of a run that raises, counters and curve are not reported, as in the source.
- `run_ib_pipeline`, the single-instrument sibling: the same drain, gate and booking with one instrument.
- IBBrokerAdapter.IBBroker.OnOrderFill: does not model commission currency or the timestamp checks of a Fill; a fill whose payload no Fill accepts is modelled as raising after the execution id was recorded.
- IBBrokerAdapter.IBBroker.OnIbError: does not model the code classification and the histogram of observed codes.
- IB connect, disconnect, account snapshots and polling, position and order parsing, `cancel` beyond its effect of provoking pushes, `replace`.
- `OrderEvent` fields no result depends on: venue ids and times of IB events.
- Decimal's 28-digit rounding and conversion to and from float at the wire, in clocks and in pandas.
- `quantize_share_qty` at precisions other than one share.
- `PaperBroker.replace`: the lifecycle keeps the order it was created with, so a replacement is not reflected in the fill.
- PaperFilling.FillOrder: the lifecycle takes its three resumptions at once, as with the pipeline's zero latencies and its simulated clock; interleavings are covered by the paper broker's own results.
- PaperPipeline.RunPaper: the kill switch does not change during a run; the position series is an input; the strategy runner and its archetype check are not modelled.
- RateLimiting.TokenBucketRateLimiter.Acquire: one caller; many callers are `RateLimiting.WindowBound`, which bounds grants but claims no fairness.
- Signals.TripleLevEligibility: the index is unique; a missing close is `None` where the source has NaN.
- IGBarStream.BarStream: number syntax is a parameter, infinities, NaN and timestamps out of range are not modelled, and the subscription ends by itself.
- IGSession.IGClient.DispatchWithRefresh: request path, parameters and headers other than the two tokens are not modelled.
- IGSubscriptions.PermitsConserved: which waiting call a freed permit goes to is left to the scheduler.
- Contract details and their primary-exchange choice, instrument resolution, IG parsers and historical bars, credentials, persistence, bus, strategy loading, scripts.
