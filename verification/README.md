# A verified model of the AC-RL execution stack

The repository sells a large parent order in 20-lot tranches. A planner lays the tranches on an
Almgren-Chriss curve, a scheduler starts them, a policy decides how each is quoted, and an execution
coordinator keeps the child orders at the gateway in line with the decisions while order reports arrive
late, twice or out of order. Behind the gateway stands a matching engine; the policy was trained in a
simulated limit order book whose depth view is rebuilt from ranked quotes in production. This project models
these parts in Dafny and proves what they promise.

Run `dafny verify dfyconfig.toml` to check everything.

## How the model is laid out

* **Coordinator.** `Coordinator.dfy` gives every locked method of the coordinator as a function on a state of
  parents, child orders and targets. The gateway is a function from the number of a `send_order` call to the id
  it answers, empty for a refusal. `CoordinatorObject.dfy` is the class with its dictionaries, loops and early
  returns; each method is proved equal to its function. `CoordinatorSafety.dfy` holds the invariant,
  `CoordinatorReconcile.dfy` what one reconciliation achieves, `CoordinatorRuns.dfy` whole runs with every
  interleaving of calls and reports, `CoordinatorSums.dfy` the sums they need. Two assumptions are explicit:
  `FreshIds` (non-empty ids are not reused) and `Admissible` (a report is about an order the coordinator sent,
  its cumulative quantity is within the order's volume, and it is not above what was known when the order became
  final). `CoordinatorEffects.dfy` says what each call and each report does to the fields of parents, tranches, orders
  and targets. `CoordinatorLimits.dfy` says exactly what reports outside the second assumption do, and
  `CoordinatorWitnesses.dfy` gives runs in which the properties that do not always hold fail.
* **Coordinator and matching engine.** `MatchJoint.dfy` runs both as one system: requests reach the engine some
  time after they were sent, its reports come back in any order, again, or never. There nothing is assumed of
  reports but where they come from; `MatchComposition.dfy` shows that this makes them admissible.
* **Rounding, planning, scheduling.** `Models.dfy`, `Planner.dfy`, `Scheduler.dfy`, `Admission.dfy`,
  `DecisionClock.dfy`; `EngineRuns.dfy` joins the scheduler's admission with the coordinator's calls.
* **Simulated book.** `OrderBook.dfy` and `BookSteps.dfy` describe the book as one list of orders in order of
  arrival. `BookObject.dfy` is the class as stored, with price levels, id queues, orders by id, ids by owner and
  the flow log; it is proved to behave like the list and to keep all indexes in agreement
  (`BookIndexes.dfy`, `BookCoherence.dfy`, `BookPlans.dfy`, `FlowLog.dfy`). `BookEffects.dfy` says what each order does
  to the resting orders and what its message says of them. `BookVolumes.dfy` treats the
  volume-only book, `BookWitnesses.dfy` holds two runs in which it and the agent's mirror go wrong.
* **Learning agent.** `ExecutionPosition.dfy` is the agent's own bookkeeping, `RLOrders.dfy` and
  `RLTracking.dfy` its order list, `RLAgentObject.dfy` the class working on a `LimitOrderBook`.
* **Depth view.** `DepthProjection.dfy`.
* **Matching engine.** `MatchEngine.dfy` is the matching loop on two price-ordered books, `MatchReports.dfy` the
  stream of execution reports, `MatchEffects.dfy` what each event does to books and reports, `MatchObject.dfy` the
  classes.

Prices are integer ticks and quantities are integer lots; fractions, averages and times are exact reals.

## What the proofs found

* A refused child order (empty id) pauses the parent and drops the target, yet the enclosing reconciliation still
  sends the orders of all later buckets. `CoordinatorReconcile.RefusalPausesIff`: the parent ends paused exactly if
  some request was refused, and a request goes out under the paused parent exactly if one before the last was.
  `CoordinatorWitnesses.RefusedSendsOn` is such a run.
* A pause does not stop the closing path either: `CoordinatorReconcile.PausedSendsIff` says exactly what a tranche of
  a parent paused a moment ago sends when the timer's loop goes on, `CoordinatorWitnesses.PausedSendsAll` shows it.
* A repeated report of a rejection, or of a cancellation nobody asked for, pauses a parent again after it was
  resumed; no other repeated report does: `CoordinatorLimits.DuplicatePausesIff`,
  `CoordinatorWitnesses.RepeatPauses`.
* Without the assumption on reports after a final status a tranche can be oversold. `CoordinatorLimits.ReportFitsIff`
  and `CoordinatorLimits.LateFillOversellsIff` say exactly when, when the hard limits notice it, which they do only
  while something is live, and when the current target raises; `CoordinatorLimits.LedgersPartIff` says when the
  clamped ledgers then disagree with the fills. `CoordinatorWitnesses.LateFillOversells` is a run in which the limits
  fail, `CoordinatorWitnesses.LateFillHides` one in which 40 of 20 lots are sold and they hold.
* Adoption of unknown orders checks no limit; `CoordinatorLimits.AdoptionFitsIff` says exactly when it is safe,
  `CoordinatorWitnesses.AdoptionOversells` is a run in which it is not.
* At the parent's deadline the engine starts every waiting tranche at once; `Admission.DeadlineExceedsIff` says
  exactly when that exceeds the configured concurrency, `Admission.TwoAtTheDeadline` is an instance with a plan that
  the configured places suffice for. `EngineRuns.DeadlineLeavesUnfinished` says how many are live once all are closed.
* In the simulated book an order may modify another agent's order, and the learning agent does not take
  modifications in; `ExecutionPosition.OthersTrackIff` shows this is the only way it loses track of its volume,
  `BookWitnesses.MirrorBreaks` is a run in which it does.
* A cancellation by price and volume agrees between the volume-only book and the full book exactly when the agent
  owns as much of the requested volume at that price as everybody together: `BookVolumes.CancelVolumeAgreesIff`,
  with `BookWitnesses.VolumesPart` a run in which they part.
* With no bid left, the liquidation at the deadline fails after its cancellations, and the agent, which does not
  hear of those, has lost track exactly if something of it rested: `RLAgentObject.RLAgent.Liquidate`, with
  `BookWitnesses.LiquidationBreaks` a run in which it has.
* The book refuses a limit order that already has an id only after it has added its volume to the level. So a refusal
  leaves a trace exactly for such an order that does not cross, in the full book; its indexes then disagree:
  `BookObject.LimitOrderBook.ProcessOrder`, `BookSteps.RefusedLate`. The volume-only book accepts the order.
  `BookWitnesses.SecondSendingParts` and `BookWitnesses.SendTwice` are such a run.

## Model

| member | source | states |
|---|---|---|
| Models.RoundingConserves | vnpy_acrl_execution/vnpy_acrl_execution/models.py:211-226 | for any non-negative fractions the seven targets sum to the remaining lots |
| Models.TradedBucketBounds | vnpy_acrl_execution/vnpy_acrl_execution/models.py:211-226 | a traded bucket is at most half a lot above its exact share, and below it by at most half a lot or half a lot per earlier bucket, up to what the fractions miss of one |
| Models.InactiveBounds | vnpy_acrl_execution/vnpy_acrl_execution/models.py:211-226 | the inactive bucket is within three lots of its exact share, up to what the fractions miss of one |
| Models.ComputeTargets | vnpy_acrl_execution/vnpy_acrl_execution/models.py:211-226 | the loop computes the target function and its result sums to the remaining lots |
| CoordinatorSafety.NoOversell | vnpy_acrl_execution/vnpy_acrl_execution/coordinator.py:311-328 | under the invariant the hard-limit check holds for the parent and every tranche |
| CoordinatorSafety.LedgersAgree | vnpy_acrl_execution/vnpy_acrl_execution/coordinator.py:260-275 | the parent's fill equals the sum over its tranches and the sum over its child orders |
| CoordinatorSafety.SendDeficitsKeeps | vnpy_acrl_execution/vnpy_acrl_execution/coordinator.py:388-415 | sending for every bucket, whatever the gateway answers, keeps the invariant |
| CoordinatorSafety.SendKeeps | vnpy_acrl_execution/vnpy_acrl_execution/coordinator.py:506-554 | a request within the available lots keeps the invariant, answered or refused |
| CoordinatorSafety.BookKeeps | vnpy_acrl_execution/vnpy_acrl_execution/coordinator.py:260-275 | the fill of an admissible report is booked in full on order, tranche, parent and target: no clamp cuts anything, no error is raised, the ledgers stay equal |
| CoordinatorSafety.BookConsumes | vnpy_acrl_execution/vnpy_acrl_execution/coordinator.py:419-472 | a fill within the remaining lots is taken from the current target in full, so the error branch is not reached |
| CoordinatorSafety.ProcessOrderKeeps | vnpy_acrl_execution/vnpy_acrl_execution/coordinator.py:247-309 | an admissible report, in any order or repeated, raises nothing and keeps the invariant |
| CoordinatorEffects.ReportTaken | vnpy_acrl_execution/vnpy_acrl_execution/coordinator.py:255-269 | after any report on a known order: its status is taken over unless the order had ended, its quantity never falls, an ended order has nothing live, and no other order changes but for a wish to cancel it |
| CoordinatorEffects.ReportMovesParent | vnpy_acrl_execution/vnpy_acrl_execution/coordinator.py:280-306 | an alarm pauses a running or waiting parent; otherwise tranche and parent are completed exactly when filled, a filled tranche loses target and open orders, and nothing else changes |
| CoordinatorEffects.AdoptionRecords | vnpy_acrl_execution/vnpy_acrl_execution/coordinator.py:567-605 | an unknown order is recorded exactly if its reference names a known parent, with what the report says of it; an unknown tranche raises |
| CoordinatorSafety.ReconcileKeeps | vnpy_acrl_execution/vnpy_acrl_execution/coordinator.py:330-417 | reconciliation keeps the invariant and its final limit check never raises |
| CoordinatorSafety.PauseKeeps | vnpy_acrl_execution/vnpy_acrl_execution/coordinator.py:197-210 | pausing keeps the invariant |
| CoordinatorSafety.ResumeKeeps | vnpy_acrl_execution/vnpy_acrl_execution/coordinator.py:212-231 | resuming, when it is accepted, keeps the invariant although tranches go back to waiting |
| CoordinatorSafety.CancelKeeps | vnpy_acrl_execution/vnpy_acrl_execution/coordinator.py:233-245 | cancelling a parent keeps the invariant |
| CoordinatorEffects.PauseEffects | vnpy_acrl_execution/vnpy_acrl_execution/coordinator.py:197-210 | a running or waiting parent is paused, its active tranches are closing and the others as before, its open orders are asked to be cancelled, it has no target left, and nothing of others changes; any other parent is left alone |
| CoordinatorEffects.CancelEffects | vnpy_acrl_execution/vnpy_acrl_execution/coordinator.py:233-245 | unless completed or cancelled, a parent is cancelled, its tranches too unless completed or in error, its open orders are asked to be cancelled, and it has no target left |
| CoordinatorEffects.ResumeEffects | vnpy_acrl_execution/vnpy_acrl_execution/coordinator.py:212-231 | accepted exactly for a paused parent without open orders; its closing tranches with lots left wait again, nothing else changes |
| CoordinatorSafety.BeginCloseKeeps | vnpy_acrl_execution/vnpy_acrl_execution/coordinator.py:164-185 | starting the deadline close keeps the invariant |
| CoordinatorEffects.CloseEffects | vnpy_acrl_execution/vnpy_acrl_execution/coordinator.py:164-185 | the tranche is closing, or completed with nothing left, has no target, and its open orders are asked to be cancelled; others change only if a refusal pauses the parent |
| CoordinatorEffects.FinishEffects | vnpy_acrl_execution/vnpy_acrl_execution/coordinator.py:474-504 | one pass of the closing path completes the tranche exactly if nothing is left, and leaves orders and targets of others alone unless a refusal pauses the parent |
| CoordinatorEffects.SendRecordsRequest | vnpy_acrl_execution/vnpy_acrl_execution/coordinator.py:506-554 | an answered request is recorded as an order with its tranche, quantity, price, level and kind, unfilled; a refused one pauses a running parent |
| CoordinatorEffects.RegisterEffects | vnpy_acrl_execution/vnpy_acrl_execution/coordinator.py:77-79 | a new parent runs with the sum of its volumes as total, its tranches wait, nothing is traded |
| CoordinatorEffects.DecideEffects | vnpy_acrl_execution/vnpy_acrl_execution/coordinator.py:81-95 | a target that survives the decision is anchored at its best bid, totals the remaining lots, and each traded bucket is near the intent's share |
| CoordinatorEffects.RefreshEffects | vnpy_acrl_execution/vnpy_acrl_execution/coordinator.py:97-108 | a refresh moves only the target of an active tranche, to the new best bid and with the same lots |
| CoordinatorSums.ConsumeAll | vnpy_acrl_execution/vnpy_acrl_execution/coordinator.py:419-472 | going through the buckets from the preferred one consumes any fill up to the target's total and lowers that total by exactly the fill |
| CoordinatorEffects.ConsumesInOrder | vnpy_acrl_execution/vnpy_acrl_execution/coordinator.py:437-472 | a bucket is drawn on only once every bucket before it is empty: the preferred one, the inactive lots, then from the market bucket on |
| CoordinatorEffects.ReportConsumesInOrder | vnpy_acrl_execution/vnpy_acrl_execution/coordinator.py:419-472 | so for the target of any admissible report, starting at the bucket of the order's price, or at the market bucket for a market order |
| CoordinatorReconcile.ReconcileConverges | vnpy_acrl_execution/vnpy_acrl_execution/coordinator.py:330-417 | a reconciliation either leaves a cancellation unconfirmed and sends nothing, or sends exactly the missing lots, and then the live lots equal the target in every bucket if and only if the gateway answered every request |
| CoordinatorReconcile.SendDeficitsExact | vnpy_acrl_execution/vnpy_acrl_execution/coordinator.py:388-415 | the requests are exactly the missing lots of each bucket, not cut by the available lots and not depending on the answers |
| CoordinatorReconcile.ExcessIffOverfull | vnpy_acrl_execution/vnpy_acrl_execution/coordinator.py:336-386 | something is marked for cancellation if and only if some bucket holds more than desired |
| CoordinatorReconcile.KeptFits | vnpy_acrl_execution/vnpy_acrl_execution/coordinator.py:336-386 | what is not marked for cancellation fits each bucket |
| CoordinatorEffects.CancelsNewest | vnpy_acrl_execution/vnpy_acrl_execution/coordinator.py:360-380 | newest first: with an order every newer open one of its bucket is cancelled, and only if it does not fit beside the older ones |
| CoordinatorEffects.BucketIsRequested | vnpy_acrl_execution/vnpy_acrl_execution/coordinator.py:340-358 | an order is in a traded bucket exactly if it is what a request for that bucket would place at this best bid |
| CoordinatorEffects.ConfirmedThenSent | vnpy_acrl_execution/vnpy_acrl_execution/coordinator.py:330-417 | after a reconciliation that asked for cancellations, once all are confirmed, in any order and repeated or not, nothing is pending, all buckets fit, and the next one sends exactly the missing lots |
| CoordinatorReconcile.ReconcileRepeats | vnpy_acrl_execution/vnpy_acrl_execution/coordinator.py:330-417 | in every state a second reconciliation at the same best bid changes nothing and sends nothing, also while cancellations are unconfirmed or after a refusal |
| CoordinatorReconcile.FillNotReplenished | vnpy_acrl_execution/vnpy_acrl_execution/coordinator.py:419-472 | a fill while live lots equal the target leaves them equal, so a later reconciliation at the same best bid sends nothing |
| CoordinatorReconcile.CloseSendsRemainder | vnpy_acrl_execution/vnpy_acrl_execution/coordinator.py:474-504 | the closing path sends only with nothing live, and then exactly the remaining lots at the best bid |
| CoordinatorReconcile.CloseCancelsOffBid | vnpy_acrl_execution/vnpy_acrl_execution/coordinator.py:474-504 | while lots are live, closing leaves uncancelled only aggressive orders at the current best bid |
| CoordinatorReconcile.RefusalPausesIff | vnpy_acrl_execution/vnpy_acrl_execution/coordinator.py:388-415 | with nothing to cancel, every missing lot is requested whatever is refused; the parent ends paused and the target dropped if and only if a request was refused, and a request goes out under the paused parent if and only if one before the last was |
| CoordinatorReconcile.CloseSendsIff | vnpy_acrl_execution/vnpy_acrl_execution/coordinator.py:164-195 | closing sends exactly the remaining lots when the tranche's own status allows it and nothing is live, whatever the status of its parent |
| CoordinatorReconcile.PausedSendsIff | vnpy_acrl_execution/vnpy_acrl_execution/engine.py:282-307 | after a pause a tranche that was active or closing, with nothing live, still sends all it has left when closing goes on; no other does |
| CoordinatorRuns.StepKeeps | vnpy_acrl_execution/vnpy_acrl_execution/engine.py:233-307 | every call or report keeps the invariant, and none raises except a refused resume |
| CoordinatorRuns.RunNeverOversells | vnpy_acrl_execution/vnpy_acrl_execution/coordinator.py:311-328 | in every run, traded plus live lots stay within the volume of every tranche and parent, and all ledgers agree |
| CoordinatorRuns.RunTargetsTrackInventory | vnpy_acrl_execution/vnpy_acrl_execution/coordinator.py:81-95 | in every run a stored target totals the remaining lots of its tranche, which is active, under a running parent |
| CoordinatorRuns.RunFillsAreMaxima | vnpy_acrl_execution/vnpy_acrl_execution/coordinator.py:260-275 | in every run an order's fill is the largest cumulative quantity reported for it, and its tranche and its parent have the sums of these |
| CoordinatorRuns.MaximaIgnoreOrder | vnpy_acrl_execution/vnpy_acrl_execution/coordinator.py:260-275 | two runs given the same reports, in whatever order and however often, have the same fill for every order both know |
| CoordinatorRuns.StepIsMonotone | vnpy_acrl_execution/vnpy_acrl_execution/coordinator.py:260-269 | orders stay, fills only grow, and a final status is never replaced by another one |
| CoordinatorRuns.CancelledCompletesIff | vnpy_acrl_execution/vnpy_acrl_execution/coordinator.py:280-306 | a cancelled parent stays cancelled under every call and report, except that it becomes completed exactly by a report that fills what it had left and is no alarm |
| CoordinatorLimits.ReportFitsIff | vnpy_acrl_execution/vnpy_acrl_execution/coordinator.py:247-328 | for any report on a known order, true or not, from the state before it: exactly when fills and live lots stay within the tranche, exactly when the hard-limit check passes for tranche and parent, and exactly when the target raises |
| CoordinatorLimits.LedgersPartIff | vnpy_acrl_execution/vnpy_acrl_execution/coordinator.py:271-275 | the ledgers of orders, tranche and parent disagree exactly when the report adds more than the tranche or the parent had left |
| CoordinatorLimits.LateFillOversellsIff | vnpy_acrl_execution/vnpy_acrl_execution/coordinator.py:260-275 | a fill after a final status oversells exactly if it was no longer available; the hard-limit check notices it exactly while something of the tranche or parent is live |
| CoordinatorLimits.AdoptionFitsIff | vnpy_acrl_execution/vnpy_acrl_execution/coordinator.py:567-605 | an unknown order, filled or final or neither, oversells exactly if it claims more than is available; when the hard-limit check passes and when the target raises |
| CoordinatorLimits.DuplicatePausesIff | vnpy_acrl_execution/vnpy_acrl_execution/coordinator.py:280-289 | a repeated report changes no fill, and pauses a running parent exactly for a rejection or an unrequested cancellation |
| CoordinatorWitnesses.RefusedSendsOn | vnpy_acrl_execution/vnpy_acrl_execution/coordinator.py:528-531 | a run whose first request is refused and whose second is sent under the paused parent |
| CoordinatorWitnesses.PausedSendsAll | vnpy_acrl_execution/vnpy_acrl_execution/engine.py:282-307 | a run in which one tranche's refusal pauses the parent and the other tranche then sends all its lots |
| CoordinatorWitnesses.LateFillOversells | vnpy_acrl_execution/vnpy_acrl_execution/coordinator.py:260-275 | a run in which a fill after a reported cancellation breaks the limits |
| CoordinatorWitnesses.LateFillHides | vnpy_acrl_execution/vnpy_acrl_execution/coordinator.py:271-275 | a run in which 40 of 20 lots are sold and the limits hold |
| CoordinatorWitnesses.AdoptionOversells | vnpy_acrl_execution/vnpy_acrl_execution/coordinator.py:567-605 | an order of 30 lots adopted into a tranche of 20 breaks the limits |
| CoordinatorWitnesses.RepeatPauses | vnpy_acrl_execution/vnpy_acrl_execution/coordinator.py:280-289 | a repeated cancellation report pauses the resumed parent |
| CoordinatorObject.ExecutionCoordinator.Reconcile | vnpy_acrl_execution/vnpy_acrl_execution/coordinator.py:330-417 | the loops over the live orders and buckets compute the reconciliation function |
| CoordinatorObject.ExecutionCoordinator.CancelExcess | vnpy_acrl_execution/vnpy_acrl_execution/coordinator.py:360-380 | the loop from the newest order marks exactly the orders that exceed the bucket |
| CoordinatorObject.ExecutionCoordinator.SendOrder | vnpy_acrl_execution/vnpy_acrl_execution/coordinator.py:506-554 | records an answered request or pauses the parent on a refused one, and changes nothing else |
| CoordinatorObject.ExecutionCoordinator.ConsumeBuckets | vnpy_acrl_execution/vnpy_acrl_execution/coordinator.py:437-472 | the loop over the priority list takes from each bucket what is left to take |
| CoordinatorObject.ExecutionCoordinator.ProcessOrder | vnpy_acrl_execution/vnpy_acrl_execution/coordinator.py:247-309 | the whole new state after a report, adoption and every early return included, as the function of which CoordinatorEffects.ReportTaken and ReportMovesParent say what it does |
| CoordinatorObject.ExecutionCoordinator.AssertHardLimits | vnpy_acrl_execution/vnpy_acrl_execution/coordinator.py:311-328 | raises if and only if the parent or one of its tranches is over its limit |
| CoordinatorObject.ExecutionCoordinator.FinishClosingTranche | vnpy_acrl_execution/vnpy_acrl_execution/coordinator.py:474-504 | the whole new state after one pass of the closing path |
| CoordinatorObject.ExecutionCoordinator.PauseParent | vnpy_acrl_execution/vnpy_acrl_execution/coordinator.py:197-210 | the loop over tranches closes active ones, drops targets and marks live orders, with the effects CoordinatorEffects.PauseEffects states |
| CoordinatorObject.ExecutionCoordinator.ResumeParent | vnpy_acrl_execution/vnpy_acrl_execution/coordinator.py:212-231 | fails unless paused with nothing live; otherwise unfinished tranches wait again |
| CoordinatorObject.ExecutionCoordinator.CancelParent | vnpy_acrl_execution/vnpy_acrl_execution/coordinator.py:233-245 | the loop cancels every tranche that is not finished |
| CoordinatorObject.ExecutionCoordinator.ApplyIntent | vnpy_acrl_execution/vnpy_acrl_execution/coordinator.py:81-95 | stores the rounded target and reconciles |
| CoordinatorObject.ExecutionCoordinator.ReconcilePending | vnpy_acrl_execution/vnpy_acrl_execution/coordinator.py:97-108 | acts only on an active tranche with a target, at the new best bid |
| CoordinatorObject.ExecutionCoordinator.RegisterParent | vnpy_acrl_execution/vnpy_acrl_execution/coordinator.py:77-79 | the parent joins the others, which stay as they are |
| CoordinatorObject.ExecutionCoordinator.ContinueTrancheClose | vnpy_acrl_execution/vnpy_acrl_execution/coordinator.py:187-195 | one pass of the closing path for a closing tranche, nothing for any other |
| CoordinatorObject.ExecutionCoordinator.BeginTrancheClose | vnpy_acrl_execution/vnpy_acrl_execution/coordinator.py:164-185 | the whole new state when a tranche reaches its deadline |
| Planner.RemainingDecreases | vnpy_acrl_execution/vnpy_acrl_execution/ac_planner.py:15-22 | the remaining volume never rises with time, on both branches of the formula |
| Planner.CurveEnds | vnpy_acrl_execution/vnpy_acrl_execution/ac_planner.py:15-25 | the curve starts at nothing and ends at the total |
| Planner.CurveIsAlmgrenChriss | vnpy_acrl_execution/vnpy_acrl_execution/ac_planner.py:15-22 | what remains is to the total as sinh of the remaining time is to sinh of the whole, scaled by kappa; with next to no curvature it is a straight line |
| Planner.CompletionIsClose | vnpy_acrl_execution/vnpy_acrl_execution/ac_planner.py:27-42 | the curve crosses the target within the 81st halving of the duration around the result |
| Planner.CompletionMonotone | vnpy_acrl_execution/vnpy_acrl_execution/ac_planner.py:27-42 | a larger volume is never completed earlier |
| Planner.CompletionTimeFor | vnpy_acrl_execution/vnpy_acrl_execution/ac_planner.py:27-42 | the 80 rounds of bisection compute the completion time |
| Planner.BuildTranches | vnpy_acrl_execution/vnpy_acrl_execution/tranche_scheduler.py:21-47 | refuses volumes that are not multiples of 20; otherwise deadlines are positive, never decrease and end at the duration, and each start lies before its deadline by the horizon or at zero |
| Scheduler.Capacity | vnpy_acrl_execution/vnpy_acrl_execution/tranche_scheduler.py:64-76 | the sweep returns the largest number of half-open intervals that share a point |
| Admission.AdmitsByDeadline | vnpy_acrl_execution/vnpy_acrl_execution/tranche_scheduler.py:49-62 | whoever is started waits, is due, and comes before every due tranche that is not started, by deadline and sequence |
| Admission.DueAre | vnpy_acrl_execution/vnpy_acrl_execution/tranche_scheduler.py:49-62 | only due waiting tranches are started, each once, within the free places |
| Admission.NoPlaceLeft | vnpy_acrl_execution/vnpy_acrl_execution/tranche_scheduler.py:49-62 | if a due tranche is not started, every place is taken |
| Admission.CapacitySuffices | vnpy_acrl_execution/vnpy_acrl_execution/tranche_scheduler.py:15-17 | with places for the peak and no live or due tranche past its deadline, every due tranche is started |
| Admission.RunWithinLimit | vnpy_acrl_execution/vnpy_acrl_execution/engine.py:270-280 | in every run before the parent's deadline no more tranches are live than configured |
| Admission.RunStartsAllDue | vnpy_acrl_execution/vnpy_acrl_execution/engine.py:270-280 | in every such run with sufficient capacity a timer event starts everything due |
| Admission.DeadlineExceedsIff | vnpy_acrl_execution/vnpy_acrl_execution/engine.py:275-280 | exactly when the parent's deadline puts more tranches live than configured |
| Admission.TwoAtTheDeadline | vnpy_acrl_execution/vnpy_acrl_execution/engine.py:275-280 | two tranches one after the other, for which one place suffices, both still waiting: both are live at the deadline |
| EngineRuns.DeadlineLeavesUnfinished | vnpy_acrl_execution/vnpy_acrl_execution/engine.py:275-280 | after the pass at the parent's deadline, refusals and pauses within it included, the live tranches are exactly those with lots left |
| EngineRuns.PassIsRun | vnpy_acrl_execution/vnpy_acrl_execution/engine.py:275-280 | the pass is part of a run of the coordinator |
| EngineRuns.StepIsQuiet | vnpy_acrl_execution/vnpy_acrl_execution/engine.py:233-307 | no call and no report brings a tranche to life, except starting it or closing it while it waits |
| EngineRuns.EngineRefines | vnpy_acrl_execution/vnpy_acrl_execution/engine.py:270-307 | a run of timer events and coordinator calls is, on the statuses, a run of the scheduler's ticks and quiet changes |
| EngineRuns.EngineWithinLimit | vnpy_acrl_execution/vnpy_acrl_execution/engine.py:270-307 | from registration to the deadline, whatever calls and reports come between the timer events, no more tranches are live than configured, each of them due |
| EngineRuns.EngineStartsAllDue | vnpy_acrl_execution/vnpy_acrl_execution/engine.py:270-273 | with places for the plan's peak, a timer event of such a run starts every tranche that waits and is due |
| DecisionClock.TrancheClock.Activate | vnpy_acrl_execution/vnpy_acrl_execution/models.py:117-124 | succeeds exactly on a waiting tranche and starts its clock on the grid |
| DecisionClock.TrancheClock.DecideIfDue | vnpy_acrl_execution/vnpy_acrl_execution/models.py:134-153 | a decision is made exactly when one is due, and keeps the clock on its grid of ten points |
| DecisionClock.AtMostTen | vnpy_acrl_execution/vnpy_acrl_execution/models.py:134-153 | the decisions made along any run of timer events number at most ten, the clock's index counts them, and after the tenth none is due |
| DecisionClock.DueExactly | vnpy_acrl_execution/vnpy_acrl_execution/models.py:134-153 | in any run decision k is due exactly from the k-th tenth of the horizon on and before the deadline, for k below ten |
| DecisionClock.DecisionInItsPart | vnpy_acrl_execution/vnpy_acrl_execution/models.py:126-153 | in any run decision k is made at normalized time k/10 or later, and before the end |
| DecisionClock.LateStartNeverDecides | vnpy_acrl_execution/vnpy_acrl_execution/models.py:134-141 | a tranche started at or after its deadline never decides |
| OrderBook.TakeConserves | rlte/limit_order_book/limit_order_book.py:373-471 | a market order fills the requested volume or all there is, and the side shrinks by exactly that |
| OrderBook.FillsInPriority | rlte/limit_order_book/limit_order_book.py:418-456 | fills are in strict price-time priority, all but the last complete |
| OrderBook.FillsRested | rlte/limit_order_book/limit_order_book.py:418-456 | every filled order rested on the side and gets at most its volume |
| OrderBook.TakeRespectsPriority | rlte/limit_order_book/limit_order_book.py:418-456 | while an order remains, no order behind it in priority is touched |
| OrderBook.FilledLeave | rlte/limit_order_book/limit_order_book.py:418-456 | a filled order leaves the book, a partly filled one keeps the rest |
| OrderBook.UnfilledStay | rlte/limit_order_book/limit_order_book.py:418-456 | an order not among the fills stays as it was |
| BookEffects.FillsAreShares | rlte/limit_order_book/limit_order_book.py:418-456 | a market order fills each resting order by exactly what is left of its volume after everything with priority over it |
| BookEffects.QueueIsWait | rlte/limit_order_book/limit_order_book.py:621-634 | the queue position is that wait at the best price, and never more than it elsewhere |
| BookEffects.LimitEffects | rlte/limit_order_book/limit_order_book.py:324-370 | the message of an accepted limit order names an order that now rests and did not before, with its owner, side, price and volume; all others rest as before, and cancelling it straight away is accepted and restores the book |
| BookEffects.LimitAcceptedIff | rlte/limit_order_book/limit_order_book.py:339-354 | accepted exactly if no opposite order rests at its price or beyond and it has no id of its own |
| BookEffects.CancelEffects | rlte/limit_order_book/limit_order_book.py:474-497 | accepted exactly for an own resting order, which goes; the message carries its side, price and volume |
| BookEffects.ModifyEffects | rlte/limit_order_book/limit_order_book.py:548-561 | accepted exactly for a resting order that gets smaller, whoever asks; the message carries its side and both volumes, nothing else changes |
| BookEffects.MarketEffects | rlte/limit_order_book/limit_order_book.py:373-471 | accepted exactly if the side is not empty; the message carries what was asked for and got, and each order's share |
| BookEffects.CashAdds | rlte/limit_order_book/limit_order_book.py:426-448 | cash is price times quantity for a fill and adds up over fills |
| BookEffects.CancelsNewestFirst | rlte/limit_order_book/limit_order_book.py:512-536 | a cancellation by price and volume takes off each own order at the price exactly what is left of the volume after all newer ones |
| BookEffects.VolumeCancelEffects | rlte/limit_order_book/limit_order_book.py:499-538 | its message gives what it took off: the requested volume or all the agent had there |
| BookEffects.AcceptedAdvances | rlte/limit_order_book/limit_order_book.py:292-321 | only registered agents and no earlier times are accepted; every update is counted and sets the time, and a limit order gets the count as id |
| BookSteps.ProcessKeeps | rlte/limit_order_book/limit_order_book.py:292-321 | every accepted order of the five kinds keeps ids increasing, volumes positive and best bid below best ask |
| BookSteps.CancelConserves | rlte/limit_order_book/limit_order_book.py:499-538 | a cancellation by price and volume takes off the requested volume or all the agent has there |
| BookSteps.CancelSpares | rlte/limit_order_book/limit_order_book.py:499-538 | it touches nothing of other agents, sides or prices |
| BookSteps.QueueNeverWorsens | rlte/limit_order_book/limit_order_book.py:621-634 | while an order rests, no accepted order lengthens the queue ahead of it |
| BookSteps.RunQueueNeverWorsens | rlte/limit_order_book/limit_order_book.py:621-634 | nor does any run, and ids do not come back |
| BookSteps.FilledOnlyAtFront | rlte/limit_order_book/limit_order_book.py:418-456 | an order is filled only once nothing is ahead of it at its price or at a better one |
| BookSteps.RunKeeps | rlte/limit_order_book/limit_order_book.py:292-321 | every run keeps the book sound and uncrossed |
| BookVolumes.TakeDrains | rlte/limit_order_book/limit_order_book.py:385-407 | serving level by level and serving order by order leave the same levels |
| BookVolumes.LimitAndMarketAgree | rlte/limit_order_book/limit_order_book.py:345-407 | limit and market orders of any agents are answered alike by the volume-only and the full book, except exactly for a limit order that the full book refuses for its id |
| BookVolumes.CancelVolumeAgreesIff | rlte/limit_order_book/limit_order_book.py:505-510 | exactly when a cancellation by price and volume is answered alike |
| BookWitnesses.VolumesPart | rlte/limit_order_book/limit_order_book.py:505-510 | a run of two agents at one price after which the two books answer a cancellation by volume differently |
| BookSteps.RefusedLate | rlte/limit_order_book/limit_order_book.py:346-354 | the orders refused for their id are exactly the non-crossing limit orders that have a non-zero one |
| BookWitnesses.SecondSendingParts | rlte/limit_order_book/limit_order_book.py:346-354 | a run after which an order sent again is refused by the full book and accepted by the volume-only book |
| BookWitnesses.SendTwice | rlte/limit_order_book/limit_order_book.py:346-354 | the same run of the stored book: the level shows 13 lots where 9 rest, and the indexes disagree |
| BookVolumes.RunSimulates | rlte/limit_order_book/limit_order_book.py:345-351 | over any run of a single agent, or of limit and market orders alone, with limit orders sent once, both books show the same levels |
| BookCoherence.KeysCoincide | rlte/limit_order_book/limit_order_book.py:185-201 | both price indexes have the same keys |
| BookCoherence.LevelIsSumOfListed | rlte/limit_order_book/limit_order_book.py:185-201 | the volume of a level is positive and the sum of the volumes of the ids listed there |
| BookCoherence.IndexesAgree | rlte/limit_order_book/limit_order_book.py:185-201 | the id queues and the ids by owner both partition the order map, each id at its own price, side and owner |
| BookObject.LimitOrderBook.HandleLimitOrder | rlte/limit_order_book/limit_order_book.py:324-370 | refuses a crossing order without a trace, and one that has an id with its volume already on the level; any other joins all four indexes, which stay in agreement |
| BookObject.LimitOrderBook.DrainLevels | rlte/limit_order_book/limit_order_book.py:385-399 | the aggregate loop drains the levels best price first |
| BookObject.LimitOrderBook.ServeLevel | rlte/limit_order_book/limit_order_book.py:419-450 | the loop over a level's ids fills them oldest first, until the request or the level is used up |
| BookObject.LimitOrderBook.ServeLevels | rlte/limit_order_book/limit_order_book.py:409-456 | the per-order loop stops where the aggregate loop stopped, so the assertion between them holds, and it fills in priority |
| BookObject.LimitOrderBook.HandleMarketOrder | rlte/limit_order_book/limit_order_book.py:373-471 | both loops together execute the market order, report its fills and cash, and leave all indexes in agreement |
| BookObject.LimitOrderBook.Cancellation | rlte/limit_order_book/limit_order_book.py:474-497 | the order leaves all four indexes, an emptied level included; unknown ids and other owners are refused |
| BookObject.LimitOrderBook.Modification | rlte/limit_order_book/limit_order_book.py:548-561 | only a smaller positive volume is accepted, and the level shrinks by the difference |
| BookObject.LimitOrderBook.CancellationByPriceVolume | rlte/limit_order_book/limit_order_book.py:499-538 | the nested cancellations and modification are all accepted and together cancel newest first |
| BookObject.LimitOrderBook.ProcessOrder | rlte/limit_order_book/limit_order_book.py:292-321 | the stored book behaves as the list of orders, or as the volume-only book, keeps every index in agreement and the log balanced; a refused order changes nothing, except exactly a non-crossing limit order with a non-zero id in the full book, which changes its level and nothing else and breaks the agreement |
| BookObject.LimitOrderBook.ProcessOrders | rlte/limit_order_book/limit_order_book.py:540-545 | a list is processed up to the first refusal, which leaves the book after the orders before it; without one the result is the run; over the run limit flow less cancellations less market flow is the resting volume if and only if every market order was served in full |
| BookObject.MissedNothingIff | rlte/limit_order_book/limit_order_book.py:206-281 | market orders miss nothing over a list exactly if each asks for no more than its side holds |
| BookObject.LimitOrderBook.FindQueuePosition | rlte/limit_order_book/limit_order_book.py:621-634 | the loop sums exactly the volume ahead of the order at its price |
| BookPlans.PlanCancels | rlte/limit_order_book/limit_order_book.py:512-536 | carrying out the collected orders is cancelling newest first, one update each |
| FlowLog.Record | rlte/limit_order_book/limit_order_book.py:206-281 | the series stay aligned with strictly increasing time stamps and their totals grow by exactly the order's flow |
| FlowLog.FlowIsOfItsKind | rlte/limit_order_book/limit_order_book.py:257-281 | an order is counted in the series of its kind and side with its lots: limit volume, requested market volume, cancelled volume |
| FlowLog.FlowConserves | rlte/limit_order_book/limit_order_book.py:257-281 | placed less cancelled less requested by market orders is the change in resting volume, except for what market orders missed |
| ExecutionPosition.UpdateMirrors | rlte/simulation/agents.py:631-700 | every message keeps the agent's active volume equal to what rests for it, and accounts for its inventory |
| ExecutionPosition.UpdateCounts | rlte/simulation/agents.py:655-700 | what the agent's market orders take off the bids counts as market sales, what others' market orders take off its resting orders as limit sales, and exactly these leave the inventory |
| ExecutionPosition.OthersTrackIff | rlte/simulation/agents.py:646-649 | an order of somebody else leaves that exact if and only if it does not modify the agent's order |
| BookWitnesses.MirrorBreaks | rlte/simulation/agents.py:646-649 | a run after which another agent's modification leaves the mirror wrong |
| BookWitnesses.LiquidationBreaks | rlte/simulation/agents.py:702-715 | a run after which the liquidation without bids cancels the agent's order, is refused, and leaves the mirror wrong |
| ExecutionPosition.RunTracks | rlte/simulation/agents.py:631-700 | so does any run of other agents' orders that modify none of the agent's |
| ExecutionPosition.NothingLeft | rlte/simulation/agents.py:625-629 | zero inventory means nothing rests |
| RLOrders.LandsOnTarget | rlte/simulation/agents.py:983-1058 | no order of the list is refused, each level ends up with exactly its target, and nothing rests elsewhere |
| RLOrders.OwnIsOffered | rlte/simulation/agents.py:1262-1302 | all the agent has in the book is its volume per level plus its volume out of range |
| RLTracking.ListTracks | rlte/simulation/agents.py:625-700 | taking in the list's messages fails no check at any message and ends with the wanted volume active |
| RLAgentObject.RLAgent.UpdatePosition | rlte/simulation/agents.py:631-700 | one message, its passive fills summed in a loop |
| RLAgentObject.RLAgent.GetOrderAllocation | rlte/simulation/agents.py:1262-1302 | volumes per level and own ids in range, read off the price index, agree with the agent's orders and active volume; without bids all of it lies beyond the levels |
| RLAgentObject.RLAgent.Targets | rlte/simulation/agents.py:987-1000 | the lots of each entry but the last are at most half a lot above its share of the inventory, and below it by at most half a lot or half a lot per earlier entry, up to what the action misses of one; the last entry is off by at most half a lot per earlier entry, up to the same; together they are the inventory |
| RLAgentObject.RLAgent.GenerateOrder | rlte/simulation/agents.py:969-1058 | targets near the action's shares, as for Targets, and the list that leads to them: reductions, removals, sale, additions; its budget checks hold |
| RLAgentObject.RLAgent.SellRemainingPosition | rlte/simulation/agents.py:702-715 | the list cancels each of the agent's orders once and sells the whole inventory, whether there are bids or not |
| RLAgentObject.RLAgent.Decide | rlte/simulation/agents.py:969-1058 | before the deadline: targets near the action's shares; the sale is the first of them and counts as market sales, the book ends with exactly the others per level and nothing of the agent elsewhere, nothing is refused, no check fails, and the log misses exactly what the sale could not sell |
| RLAgentObject.RLAgent.Liquidate | rlte/simulation/agents.py:702-715 | at the deadline: nothing of the agent rests, and it is done if and only if the bids could take its inventory; without bids the sale is refused after the cancellations and the agent's counters stay behind |
| DepthProjection.DepthAtPrice | vnpy_acrl_execution/vnpy_acrl_execution/market_state.py:110-133 | the depth of the first quote at a price, zero if there is none |
| DepthProjection.ModelBookDepths | vnpy_acrl_execution/vnpy_acrl_execution/market_state.py:73-108 | refuses exactly the incomplete snapshots; otherwise each grid price gets its quoted depth or zero |
| DepthProjection.NearIsRanked | vnpy_acrl_execution/vnpy_acrl_execution/market_state.py:73-108 | a non-empty price within five ticks of the opposite best is among the first five quotes |
| DepthProjection.ProjectionIsLevel2 | rlte/limit_order_book/limit_order_book.py:569-612 | projecting the ranked quotes of any uncrossed book with five levels a side gives its own level-2 view |
| MatchEngine.AverageIsExact | QuickFIX/examples/ordermatch/Order.h:84-92 | the running average times the executed quantity is the exact cash |
| MatchEngine.InsertedInPriority | QuickFIX/examples/ordermatch/Market.h:44-45 | a new order goes behind all orders at its price or better and ahead of all worse ones |
| MatchEngine.MatchUncrosses | QuickFIX/examples/ordermatch/Market.cpp:59-86 | matching terminates with both books in order and uncrossed |
| MatchEngine.TradesAreFair | QuickFIX/examples/ordermatch/Market.cpp:107-119 | a trade has one quantity and one price for both sides, the ask's limit, within the bid's limit, and closes one order |
| MatchEngine.MatchConserves | QuickFIX/examples/ordermatch/Market.cpp:59-119 | both books lose exactly the traded lots |
| MatchEngine.MatchTakesFront | QuickFIX/examples/ordermatch/Market.cpp:64-82 | matching takes whole orders off the front of each book and at most part of the next one |
| MatchEngine.TradesInPriceOrder | QuickFIX/examples/ordermatch/Market.cpp:64-82 | trades go through bids and asks in price order |
| MatchEngine.EveryTradeInvolvesTheNewOrder | QuickFIX/examples/ordermatch/Application.cpp:204-218 | every trade that a new order sets off involves that order |
| MatchReports.StreamGrows | QuickFIX/examples/ordermatch/Application.cpp:145-172 | before any later report on an order a report is not final; cumulative quantities grow, strictly with each fill |
| MatchReports.FinalIsLargest | QuickFIX/examples/ordermatch/Application.cpp:145-172 | a final report is the last and carries the largest cumulative quantity |
| MatchReports.TotalsAreExact | QuickFIX/examples/ordermatch/Order.h:84-92 | the last report's cumulative quantity and average give the exact lots and cash of all reported fills |
| MatchReports.RestsIffLive | QuickFIX/examples/ordermatch/Application.cpp:204-225 | an order rests in the market if and only if it was accepted and no final report on it has been sent |
| MatchReports.MatchReportsWell | QuickFIX/examples/ordermatch/Application.cpp:209-214 | the reports of all trades of one matching continue a well-formed stream and agree with what still rests |
| MatchReports.CancelKeeps | QuickFIX/examples/ordermatch/Application.cpp:220-225 | a cancel request keeps books and stream consistent; what it does is MatchEffects.CancelEffects |
| MatchEffects.CancelEffects | QuickFIX/examples/ordermatch/Application.cpp:220-225 | a resting order is reported cancelled once, with nothing open and its executed quantity, and is in neither book and not live; all others keep their places; without such an order nothing happens |
| MatchEffects.SubmitEffects | QuickFIX/examples/ordermatch/Application.cpp:204-218 | a new order is accepted by the first report, all others are fills; what is executed of it leaves the opposite book lot for lot, and it rests exactly if something is left |
| MatchEffects.RefuseEffects | QuickFIX/examples/ordermatch/Application.cpp:174-202 | a refused order is reported once with nothing executed or open, and the books do not change |
| MatchReports.RunIsWellFormed | QuickFIX/examples/ordermatch/Application.cpp:204-225 | in every run of new orders, cancel requests and refusals the books stay uncrossed and the report stream well-formed |
| MatchObject.Market.Insert | QuickFIX/examples/ordermatch/Market.cpp:29-36 | the order goes to its place in its own book |
| MatchObject.Market.MatchOrders | QuickFIX/examples/ordermatch/Market.cpp:59-86 | the loop terminates and leaves books and queue of updates as the matching function says |
| MatchObject.Market.Erase | QuickFIX/examples/ordermatch/Market.cpp:38-57 | removes the first order with the id, if any |
| MatchObject.Application.ProcessOrder | QuickFIX/examples/ordermatch/Application.cpp:204-218 | accepts, matches and reports, and keeps the exchange's invariant |
| MatchObject.Application.ProcessCancel | QuickFIX/examples/ordermatch/Application.cpp:220-225 | cancels and reports, or ignores an unknown id, with the effects MatchEffects.CancelEffects states, and keeps the exchange's invariant |
| MatchComposition.StreamIsAdmissible | vnpy_acrl_execution/vnpy_acrl_execution/coordinator.py:247-269 | reports of a well-formed stream, delivered late, repeatedly or with gaps, always meet the coordinator's assumption |
| MatchJoint.TogetherNeverOversell | vnpy_acrl_execution/vnpy_acrl_execution/coordinator.py:311-328 | in every run of both, with no assumption on reports but their origin, the limits hold, and the lots executed and still open at the exchange stay within the volume of parent and tranche, told to the coordinator or not |
| MatchJoint.LedgerIsExecuted | vnpy_acrl_execution/vnpy_acrl_execution/coordinator.py:260-275 | the parent's ledger never exceeds what the exchange executed for it, and equals it exactly if for each order the report with its whole quantity has arrived |
| MatchJoint.ReportsNeverRaise | vnpy_acrl_execution/vnpy_acrl_execution/coordinator.py:247-309 | whatever the exchange reported on the coordinator's orders can be delivered at any time and raises nothing |
| MatchJoint.NothingUnrecorded | vnpy_acrl_execution/vnpy_acrl_execution/coordinator.py:506-554 | every order of the coordinator that the exchange knows is on the coordinator's record |
| MatchJoint.NeverStuck | QuickFIX/examples/ordermatch/Application.cpp:204-225 | every possible move can be made after every run, so the runs spoken of are all there are |

## Left out

- Interleaving inside a locked method, and reports published synchronously from within a `send_order` call: each locked method is one step.
- Aliasing: parents, tranches, child orders and resting orders are values stored in maps and sequences, not shared objects; an order object sent again carries its id as a value, and the one with the id 0, which the book accepts again, is a new order.
- What a book does after a limit order was refused for its id; its methods ask for indexes in agreement.
- Messages, callbacks, log texts and time fields of parents and tranches other than the decision clock.
- The engine's guard and the call it guards are one event; gateway log-on and market freshness checks only decide which event happens.
- Off-grid prices in the coordinator: prices are ticks, so its level 99 for a price off the tick grid is the same bucket as any other outside price.
- `order_state` and the observation vector; the rolling market-state cache and its flow inference.
- Floating point: tolerances, float32 rounding and NaN best prices; `sinh` is any strictly increasing function that vanishes at zero.
- The level-2, best-price and order snapshots that the book's log stores beside the flow series; totals of the flow series are related to resting volume for the book of orders only.
- The nested messages that a cancellation by price and volume carries, and the warnings on incomplete market orders.
- `clear_orders`, `log_to_df`, the level-2 view of a book with an empty opposite side, and agents other than the learning agent; any order of theirs is covered by the runs.
- Rewards and reference prices of the execution agent.
- RLAgentObject.RLAgent.Decide: a decision with an empty bid side is not covered; its reference price is then not a number.
- MatchReports.RunIsWellFormed: one symbol and positive quantities with unused client ids; the symbol table and rejections by field checks only choose a market or an event.
- FIX sessions, message parsing, market-data snapshots and everything else of the FIX engine.
- Neural policies, training, evaluation and plotting.
