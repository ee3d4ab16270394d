# Mercurio: a verified model of its protocol, money and custody

Mercurio moves parcels from hub to hub and pays every hop with Lightning hold
invoices; the platform never holds money. This project models the parts of it
that decide about money and custody, and proves what they promise over whole
runs.

- `Shipment`, `StateMachine`, `Books`, `Executor`: one shipment. Events go
  through the pure transition, its effects through the registry of conditional
  payments, the shadow ledger, the timers and the custody chain, and the event is
  projected onto the aggregate. `EffectRuns`, `Invariant`, `QuietSteps`,
  `LegSteps`, `ClaimSteps`, `EndSteps` and `Runs` prove one invariant over all
  runs from a creation with any commands; `Guarantees`, `Releases` and `Fees`
  draw the consequences.
- `Replay`, `Tables`: the custody chain and the row tables as the only memory.
  What the bundle loader rebuilds is the state that was kept step by step.
- `Service`: the executor and the timer sweep as they run, on rows updated in
  place.
- `Snapshots`, `Race`, `Acceptances`, `Misreads`, `Sweeps`, `Hazards`: invocations of
  the executor interleaved step by step. A scene stops at the first commit that went
  by another invocation's bonus hold (`Misled`), at the first armed timer that a sweep
  dropped (`TimerDropped`) and at the first that one left behind (`TimerLeft`): what is
  said of every interleaving is said up to there, and when each happens is stated
  exactly.
- `Economics`, `Potential`, `Payouts`, `Outlay`, `StaleQuotes`: the integer
  pricing engine with its nested truncations, the rational potential behind it, and the
  sender's account over whole runs.
- `Vault`, `Coordinator`: the escrow coordinator await by await. The process may
  die before any of them, wallets move on their own, and the executor writes
  into the same ledger keys.
- `Sorting`, `Masks`, `Route`: the subset dynamic programme that orders a
  carrier's stops. `Ranking`: the carrier's board.
- `Json`, `JsonParser`, `CustodyChain`: canonical JSON and the hash-linked chain.
- `Photo`: the upload guard that looks for GPS data in a JPEG.

Conventions. Amounts are millisatoshi and distances whole metres, both unbounded
integers, as in the original, which uses big integers for money. Identifiers are
natural numbers; where their order matters it stands for the order of the strings.
Facts the routes check before calling the machine (wallets, codes, photos) are
fields of the events. A predicate named `Quoted` says that a command carries the
amounts the route handlers compute from the shipment they load, which may be an
earlier one than the transaction meets; without it commands are arbitrary.

Assumptions. Distinct hubs are at least a metre apart and a hub has no distance to
itself (`Outlay.Proper`). Wallet states `Paid`, `Dropped` and `Lapsed` are final, a
payee can collect only with the preimage, and the coordinator is a single writer.
The digest prints 64 hex digits; nothing else is assumed of it.

## Where code and description part

- A boost of one millisatoshi passes the API and the machine, but its work part is
  zero and the pool formula then refuses the whole segment
  (`Outlay.OneMsatBoostRun`, `Outlay.PoolRefusedExactlyFor`).
- The executor's remark that compensated payments belong to one invocation only
  does not hold for `deposit_accept`, which reuses the id of the requested leg. Two
  acceptances of one request can cost the booked leg its holds, and one after a
  compensated failure books a leg on cancelled holds
  (`Acceptances.TwoAcceptancesClash`, `Acceptances.RetryBooksADeadHold`). As long as a
  race stays on its course nothing else can (`Race.OnlyTheAcceptedLegLoses`).
- A bonus hold that an unfinished acceptance created is read as the shipment's own by
  every other invocation, and `leg_funded` may then post its held entry under the
  wrong payment although the effects agree (`Misreads.MisledHappens`; exactly when, in
  `Misreads.ClearViewExactly` and `Misreads.MisledExactly`).
- The sweep takes a conflict for a stale timer and deletes it, also when it is still
  armed: when what its event would dissolve has changed
  (`Sweeps.ConflictDropsArmedTimer`), and with unchanged effects when the guarded
  status flip finds no row, because a parcel that had arrived without a bonus hold was
  rerouted in between (`Sweeps.RerouteDropsArmedTimer`); exactly when, in
  `Sweeps.DroppedExactly` and `Sweeps.OnlyTheStateChanged`. A storage timer that was
  disarmed and armed again in the meantime is a new row: the sweep neither drops it nor
  removes it when it ends the shipment (`Sweeps.LeftExactly`). The promises about
  timers are for runs in which neither happens.
- A payment can end up both settled and refunded in the journal: the executor commits
  its release, the wallet lets the hold die before the preimage leaves, and the next
  observation gives it back (`Vault.ConflictHappens`; exactly when, in
  `Vault.ConflictExactly`). Its release then stays pending for good.
- The EXIF scan does not know the TEM marker, which stands alone
  (`Photo.ScanIsExactly`, `Photo.TemMisread`), nor fill bytes
  (`Photo.FillByteStopsTheWalk`).
- A handler prices a leg on the shipment it loads, and nothing prices it anew under the
  row lock. A leg to a hub on the way, priced before a reroute and executed after it, is
  accepted, and the sender pays for the way twice (`StaleQuotes.StaleQuoteOverpays`).
  The bound holds for prices no check-in or reroute has come between
  (`Outlay.SenderNeverOverpays`).
- `cancel` is legal at the origin hub again after a return. Its compensation is a fee
  on the segment's work, outside the bound on the sender's outlay.
- A reroute that changes only the recipient clears the segment's boosts without
  freezing the pool; the sender's bound is therefore an inequality.
- `orderCustodyChain` does not end on rows in which two different reached rows share a
  hash (`CustodyChain.EndlessExample`).
- A timer can be stale only inside a sweep that ended its shipment
  (`Service.SweepAdvances`); no armed timer is ever stale on its own.
- A row that expires because its window closed may leave an invoice that can still be
  paid, if the cancellation of that invoice failed. Such a hold was never recognised
  (`Vault.RowSound`).

## Model

| member | source | states |
|---|---|---|
| `Runs.ReachableKeeps` | packages/core/src/state-machine/state-machine.ts:327-1655 | every state some run leads to satisfies the shipment invariant: books audited, at most one of leg, request and claim, the aggregate's holds exactly the undecided payments, timers exact, every reference minted once |
| `Runs.StepKeeps` | packages/core/src/state-machine/state-machine.ts:327-1655 | any command keeps that invariant, or fails in an ordinary way (refused by the machine, a non-positive or self-paying hold, an id already used) and changes nothing |
| `Runs.BirthKeeps` | packages/core/src/state-machine/state-machine.ts:338-380 | a created shipment satisfies the invariant |
| `Runs.PlayKeeps` | apps/api/src/shipments/executor.ts:128-436 | the invariant survives any sequence of commands, failed ones included |
| `Runs.DueTimerFires` | apps/api/src/shipments/timers.ts:16-75 | a due timer of a coherent shipment is never stale: the machine accepts its event and nothing on the way fails |
| `QuietSteps.OriginCheckinKeeps` | packages/core/src/state-machine/state-machine.ts:411-436 | keeps the invariant and fails only in ordinary ways: check-in at the origin; once accepted by the machine it executes |
| `QuietSteps.RequestLegKeeps` | packages/core/src/state-machine/state-machine.ts:439-523 | keeps the invariant and fails only in ordinary ways: a deposit request, which binds no money; accepted and with a new id, it executes |
| `QuietSteps.RequestRejectedKeeps` | packages/core/src/state-machine/state-machine.ts:621-651 | keeps the invariant and fails only in ordinary ways: a refused request |
| `QuietSteps.RequestExpiredKeeps` | packages/core/src/state-machine/state-machine.ts:654-681 | keeps the invariant and fails only in ordinary ways: a request that timed out |
| `QuietSteps.RequestWithdrawnKeeps` | packages/core/src/state-machine/state-machine.ts:684-703 | keeps the invariant and fails only in ordinary ways: a withdrawn request |
| `QuietSteps.NotedKeeps` | packages/core/src/state-machine/state-machine.ts:1292-1328 | keeps the invariant and fails only in ordinary ways: a rejection or a boost: noted, nothing moves |
| `LegSteps.DepositAcceptKeeps` | packages/core/src/state-machine/state-machine.ts:526-618 | keeps the invariant and fails only in ordinary ways: the holds of an accepted leg, three or four of them, unrecognised so far |
| `LegSteps.LegFundedKeeps` | packages/core/src/state-machine/state-machine.ts:706-762 | keeps the invariant and fails only in ordinary ways: a funded leg: all its holds recognised under the keys of the earlier creations; once accepted it executes |
| `LegSteps.LegFundingExpiredKeeps` | packages/core/src/state-machine/state-machine.ts:765-785 | keeps the invariant and fails only in ordinary ways: an unfunded leg: every hold refunded, no entry |
| `LegSteps.PickupCheckoutKeeps` | packages/core/src/state-machine/state-machine.ts:788-837 | keeps the invariant and fails only in ordinary ways: checkout: departure fee, custodian's bond refunded; once accepted it executes |
| `LegSteps.PickupTimeoutKeeps` | packages/core/src/state-machine/state-machine.ts:840-882 | keeps the invariant and fails only in ordinary ways: a no-show: bond slashed, everything else refunded |
| `LegSteps.LegCheckinKeeps` | packages/core/src/state-machine/state-machine.ts:885-950 | keeps the invariant and fails only in ordinary ways: arrival: leg paid, carrier's bond back, the arrival bond becomes the custodian's; once accepted it executes |
| `LegSteps.LegReturnKeeps` | packages/core/src/state-machine/state-machine.ts:953-1019 | keeps the invariant and fails only in ordinary ways: a return: leg unwound, a fresh bond for the old hub |
| `LegSteps.TransitTimeoutKeeps` | packages/core/src/state-machine/state-machine.ts:1406-1444 | keeps the invariant and fails only in ordinary ways: a lost parcel |
| `ClaimSteps.RecipientClaimKeeps` | packages/core/src/state-machine/state-machine.ts:1071-1170 | keeps the invariant and fails only in ordinary ways: a recipient's claim; accepted, with a new id and no self-payment, it executes |
| `ClaimSteps.ClaimFundedKeeps` | packages/core/src/state-machine/state-machine.ts:1173-1209 | keeps the invariant and fails only in ordinary ways: a funded claim |
| `ClaimSteps.ClaimFundingExpiredKeeps` | packages/core/src/state-machine/state-machine.ts:1212-1232 | keeps the invariant and fails only in ordinary ways: an unfunded claim |
| `ClaimSteps.RecipientClaimedPickupKeeps` | packages/core/src/state-machine/state-machine.ts:1235-1289 | keeps the invariant and fails only in ordinary ways: a collected claim |
| `EndSteps.OriginHubAcceptKeeps` | packages/core/src/state-machine/state-machine.ts:383-408 | keeps the invariant and fails only in ordinary ways: the origin hub's bond |
| `EndSteps.RecipientPickupKeeps` | packages/core/src/state-machine/state-machine.ts:1022-1068 | keeps the invariant and fails only in ordinary ways: delivery at the destination |
| `EndSteps.StorageExpiryKeeps` | packages/core/src/state-machine/state-machine.ts:1331-1403 | keeps the invariant and fails only in ordinary ways: forfeit: the else-if chain leaves no hold behind, because no two of leg, request and claim coexist |
| `EndSteps.RerouteKeeps` | packages/core/src/state-machine/state-machine.ts:1484-1561 | keeps the invariant and fails only in ordinary ways: a reroute, with the hub bonus refunded when the parcel had arrived |
| `EndSteps.CancelKeeps` | packages/core/src/state-machine/state-machine.ts:1564-1641 | keeps the invariant and fails only in ordinary ways: a cancellation in each of its three states |
| `Guarantees.CommitmentInClosedForm` | packages/core/src/state-machine/state-machine.ts:137-322 | in every reachable state the commitment account holds a fixed function of the state: one bond at a hub, three bonds and gross and both bonus shares while a leg is booked, two bonds and the same in transit, bond and claim holds while claimed, nothing at the end |
| `Guarantees.CustodianBonded` | packages/core/src/state-machine/state-machine.ts:383-408 | from origin acceptance to closure whoever has the parcel has an open, recognised bond of the full amount towards the sender |
| `Guarantees.NothingLeaks` | packages/core/src/state-machine/state-machine.ts:1343-1381 | in a terminal state every conditional payment ever opened is released or refunded, and its entries say so |
| `Guarantees.DecidedOnce` | apps/api/src/shipments/executor.ts:255-266 | over any continuation a decided payment stays as decided and no payment changes its terms |
| `Guarantees.NeverUnderivable` | apps/api/src/shipments/executor.ts:497-548 | on every reachable state no command can fail for an underivable key, an unbalanced entry, an unknown or twice decided payment, or a missing creation |
| `Guarantees.OneLedger` | apps/api/src/shipments/executor.ts:497-548 | no ledger key is derived twice in a run, and every entry under a payment's key has the postings the coordinator writes for it |
| `Guarantees.WritersCommute` | packages/db/src/ledger.ts:33-76 | of two entries under one key and with the same postings it does not matter which is written first |
| `Guarantees.TimersExact` | apps/api/src/shipments/executor.ts:382-411 | armed timers are a function of state and aggregate, with the same deadlines; terminal states have none |
| `Guarantees.FiringAdvances` | apps/api/src/shipments/timers.ts:16-75 | a due timer ends the shipment or returns it to plain storage |
| `Guarantees.TwoFiringsSuffice` | apps/api/src/shipments/timers.ts:16-75 | once the parcel is checked in, any two due firings end the shipment, in whichever order |
| `Releases.ReleasesAre` | packages/core/src/state-machine/state-machine.ts:840-1289 | which payments each event releases, and that it releases no other: the slashed bond, the leg payment, the hub bonus, the claim |
| `Releases.ExecuteTally` | apps/api/src/shipments/executor.ts:255-266 | any weighted tally of released payments grows by exactly what the command's event releases |
| `Fees.FeesAre` | packages/core/src/state-machine/state-machine.ts:194-225 | who pays which instant fee to whom on which event, that no other event pays one, and that each is followed by its own balanced entry |
| `Fees.FeeBookedOnce` | apps/api/src/shipments/executor.ts:497-512 | each fee of a run is booked under its own key exactly once |
| `Replay.ReplayRefines` | apps/api/src/shipments/context.ts:350-372 | after any run, replaying the custody chain yields the segment boosts, both bonus quotas, the post-arrival boost work and the request's frozen hub share kept step by step |
| `Replay.ReplayChain` | apps/api/src/shipments/context.ts:350-372 | the accumulation loop computes the replay |
| `Replay.RequestedHubBonus` | apps/api/src/shipments/context.ts:442-453 | the scan for a request's frozen hub share |
| `Replay.FindBonusHold` | apps/api/src/shipments/context.ts:325-332 | the scan for the pending hub-bonus hold returns the first one, or there is none |
| `Replay.BonusHoldRebuilt` | apps/api/src/shipments/context.ts:325-332 | that hold is the one the aggregate has, in every reachable state |
| `Replay.OneFact` | packages/core/src/state-machine/state-machine.ts:327-1655 | every accepted event appends exactly one custody event, of the right kind and payload |
| `Tables.BundleRebuilt` | apps/api/src/shipments/context.ts:222-348 | after any run the loader rebuilds stay, leg, claim and request exactly from the row tables and the chain |
| `Tables.StepBacked` | apps/api/src/shipments/executor.ts:579-876 | each event's row writes keep at most one row in each live status, and the loaded bundle equal to the projected aggregate |
| `Tables.LoadBundle` | apps/api/src/shipments/context.ts:222-250 | the loader's choice of rows by state and status |
| `Tables.FindLast` | apps/api/src/shipments/context.ts:223-225 | last row in a status |
| `Tables.FindFirst` | apps/api/src/shipments/context.ts:226-231 | first row in a set of statuses |
| `Service.ShipmentStore.ExecuteCommand` | apps/api/src/shipments/executor.ts:128-436 | the executor on rows updated in place equals the pure step, and changes nothing when it fails |
| `Service.ShipmentStore.Project` | apps/api/src/shipments/executor.ts:579-876 | the projection's assignments, event by event |
| `Service.RunEffects` | apps/api/src/shipments/executor.ts:248-407 | the effect loop, with ids of created payments by effect index, equals the fold over effects |
| `Service.DeriveLedgerKey` | apps/api/src/shipments/executor.ts:490-548 | the key of an entry from its neighbours, or from the booked leg or claim |
| `Service.ShipmentStore.FireDueTimers` | apps/api/src/shipments/timers.ts:40-75 | the sweep loop with its fired and stale counts |
| `Service.SweepAdvances` | apps/api/src/shipments/timers.ts:40-75 | one sweep over everything due ends the shipment or leaves it in plain storage; every timer is fired or stale, at least one fires, and a stale one means the shipment ended within the sweep |
| `Service.TwoSweepsSuffice` | apps/api/src/shipments/timers.ts:40-75 | two sweeps that find something due end any shipment in custody |
| `Race.RaceKeeps` | apps/api/src/shipments/executor.ts:128-236 | over every interleaving of invocations, each with snapshot, creations, recomputation under the row lock, the status flip guarded by the snapshot's status, commit or compensation, or a crash: as long as no commit went by a foreign bonus hold, no sweep dropped an armed timer and none ended the shipment beside a timer armed anew, the committed shipment is one some serial run leads to, creation keys and holds match, ids never clash, and every snapshot is an earlier state of that run |
| `Hazards.OnlyAcceptancesSpoil` | apps/api/src/shipments/executor.ts:178-236 | every race, up to the first misled commit, dropped or left timer: an undecided hold is lost, or a foreign bonus hold heeded, only if a deposit acceptance with holds in hand has not committed; an armed timer is dropped only by a sweep that came for its row and whose event would dissolve something else than at its snapshot, or that finds another state; one stays armed on an ended shipment only if it was disarmed and armed again since the snapshot |
| `Race.SameNext` | apps/api/src/shipments/executor.ts:196-236 | the status a commit writes comes from its snapshot; under the same status and with the same effects it is the one the locked shipment leads to |
| `Race.StandingExactly` | apps/api/src/shipments/executor.ts:463-484 | every undecided hold of the shipment stands if and only if no compensating refund reached one of them |
| `Race.OnlyTheAcceptedLegLoses` | apps/api/src/shipments/executor.ts:463-467 | the remark that compensated payments cannot belong to a concurrent winner holds for every hold except the payment and carrier's bond of a leg whose request was accepted twice |
| `Acceptances.TwoAcceptancesClash` | apps/api/src/shipments/executor.ts:463-484 | wherever a request waits, a race of two acceptances loses the booked leg's payment |
| `Acceptances.LoserTakesTheHold` | apps/api/src/shipments/executor.ts:195-200 | the later acceptance is refused under the lock whatever it sees, and backing out calls off the winner's hold |
| `Acceptances.RetryBooksADeadHold` | packages/escrow/src/coordinator.ts:101-136 | an acceptance after a compensated one finds the cancelled hold under its key and books the leg on it |
| `Misreads.ClearViewExactly` | apps/api/src/shipments/context.ts:325-332 | the lookup among the payment rows, ignoring one's own, can only yield the shipment's bonus hold, or rightly none, if and only if no foreign or unresolved bonus hold stands |
| `Misreads.MisledExactly` | apps/api/src/shipments/executor.ts:490-548 | a transaction whose effects agree with its plan in the status of its snapshot does something else than it should, ledger keys included, if and only if it saw another hold than the shipment's and its event is one of those that heed it |
| `Misreads.DeedsDifferExactly` | apps/api/src/shipments/executor.ts:490-548 | which events those are: funding, failure and return of a leg, delivery, storage expiry with a bonus hold at stake, a change of destination after arrival |
| `Misreads.MisledHappens` | apps/api/src/shipments/executor.ts:528-531 | wherever a request with a hub bonus waits, a race of two acceptances and `leg_funded` commits the held entry under the other acceptance's payment, with unchanged effects |
| `Race.CreatesItsOwn` | packages/core/src/state-machine/state-machine.ts:327-1655 | a transition creates holds only for rows its event brings along, except `deposit_accept` for the requested leg, and only that one a stay's bonus hold |
| `Snapshots.LaterStill` | apps/api/src/shipments/executor.ts:140-152 | what a snapshot says of leg, request, claim and stay stays true of the same leg, request, claim and stay for the rest of the run, except that a leg moves on |
| `Race.StillDue` | apps/api/src/shipments/timers.ts:48-56 | a timeout whose effects still agree under the lock names a timer that is still armed and due |
| `Race.TimeoutNeverRefused` | apps/api/src/shipments/timers.ts:59-64 | the event of an armed due timer is accepted whatever bonus hold is seen, so a refusal never drops an armed timer |
| `Sweeps.DroppedExactly` | apps/api/src/shipments/timers.ts:59-64 | a sweep drops an armed timer if and only if the armed row is the one it came for and the leg, request, claim or bonus hold seen that its event dissolves, or the state, is not the one of its snapshot |
| `Sweeps.OnlyTheStateChanged` | apps/api/src/shipments/executor.ts:225-236 | the state alone differs in one family only: a storage timer that fired where the parcel had arrived without a bonus hold, and that has been rerouted since and is only stored; the effects agree, the guarded flip finds no row |
| `Sweeps.LeftExactly` | apps/api/src/shipments/executor.ts:409-411 | a sweep ends the shipment with its timer still armed if and only if that timer is a newer row than the one it came for, nothing it depends on has changed and it went by the right bonus hold |
| `Sweeps.ConflictDropsArmedTimer` | apps/api/src/shipments/timers.ts:59-64 | wherever a request waits and the storage time is over, there is a race in which the request is withdrawn between snapshot and lock and the stored parcel loses its only timer |
| `Sweeps.RerouteDropsArmedTimer` | apps/api/src/shipments/executor.ts:225-236 | and wherever a parcel has arrived without a bonus hold and its storage time is over, a race in which it is sent on in between does the same, with all effects unchanged |
| `Outlay.SenderNeverOverpays` | packages/core/src/economics/economics.ts:255-258 | over every run priced by the handlers, each price taken on the shipment as it is or as it was earlier with no check-in and no reroute committed since, released leg payments, claim payment and hub bonus together with everything bound in holds never exceed the offer plus all boosts |
| `StaleQuotes.StaleQuoteOverpays` | apps/api/src/routes/shipment-lifecycle.ts:225-266 | a whole run in which one leg request, priced just before a reroute committed and executed after it, makes that bound fail: 1899 sat paid or bound on an offer of 1000 |
| `Outlay.PricesLast` | apps/api/src/routes/shipment-lifecycle.ts:225-266 | along a run, whatever was priced on an earlier shipment is still covered until a check-in or a reroute commits |
| `Outlay.StepSolvent` | apps/api/src/routes/shipment-lifecycle.ts:249-266 | each command, priced on an earlier shipment whose prices still hold, keeps the account: paid plus slope times distance plus unspent quotas stays within what was committed |
| `Outlay.OutlaidGrows` | packages/core/src/state-machine/state-machine.ts:885-1289 | what each event pays out of the sender's wallet |
| `Outlay.CommittedGrows` | packages/core/src/state-machine/state-machine.ts:1447-1481 | only boosts raise what the sender committed |
| `Outlay.LegQuoteCovered` | apps/api/src/routes/shipment-lifecycle.ts:249-266 | a quoted leg costs no more than the slope it walks down, and its bonus no more than the quota left |
| `Outlay.ClaimQuoteCovered` | apps/api/src/routes/shipment-lifecycle.ts:700-714 | a quoted claim costs no more than the work and carrier quota left, its hub share no more than the hub quota |
| `Outlay.BoostReserves` | apps/api/src/routes/shipment-lifecycle.ts:860-887 | a boost raises what is reserved by no more than its amount, wherever on the segment it was quoted to join |
| `Outlay.FrozenIsReserved` | apps/api/src/routes/shipment-lifecycle.ts:942-974 | what a destination change freezes was reserved; at a hub on the way it is exactly the current pool |
| `Outlay.CheckinReserves` | packages/core/src/state-machine/state-machine.ts:885-950 | a completed leg is paid from the reserve and leaves the rest of it |
| `Outlay.HubSharePaidOnce` | packages/core/src/state-machine/state-machine.ts:1022-1289 | over every run the hub bonus is paid at most once, and only by a delivery |
| `Outlay.CarrierSharePaidOnce` | apps/api/src/shipments/context.ts:350-372 | over every priced run the carrier bonus is paid at most once, by a final leg or by a claim before any arrival |
| `Outlay.PoolRefusedExactlyFor` | packages/core/src/economics/economics.ts:288-329 | over every priced run the parcel stays within its segment, and the pool formula is refused if and only if the segment holds a boost whose work part is zero |
| `Outlay.OneMsatBoostBlocksPricing` | packages/core/src/economics/economics.ts:310-313 | such a boost is accepted by the machine: one of a single msat, after which no leg, claim or change of destination can be priced |
| `Outlay.OneMsatBoostRun` | packages/core/src/economics/economics.ts:310-313 | such a run, from any creation whose origin hub is not the sender's, every command priced by the handlers |
| `Outlay.BlockedUntilReroute` | apps/api/src/routes/shipment-lifecycle.ts:942-1000 | only a change of recipient, or a change of destination after arrival, clears it |
| `Outlay.DestinationChangeKeepsPool` | apps/api/src/routes/shipment-lifecycle.ts:942-974 | a change of destination on the way leaves the remaining pool unchanged to the msat; after arrival it becomes the boosts made while waiting |
| `Economics.RemainingPool` | packages/core/src/economics/economics.ts:288-329 | the loop computes the pool, or the first guard tripped |
| `Potential.PoolBounds` | packages/core/src/economics/economics.ts:288-329 | the truncated pool is at most slope times distance, and less than one msat plus one per boost below it |
| `Potential.GrossBounds` | packages/core/src/economics/economics.ts:174-229 | a leg's gross against the slope, from both sides |
| `Payouts.CompletedSegmentPays` | packages/core/src/economics/economics.ts:174-229 | a segment completed in n legs with k boosts at rest pays G with W + ΣΔW − n(1001 + k) < G ≤ W + ΣΔW, however the journey is split |
| `Payouts.JourneyBounds` | packages/core/src/economics/economics.ts:174-329 | the same along any part of a journey |
| `Payouts.PoolRefusedOnlyForEmptyBoost` | packages/core/src/economics/economics.ts:288-329 | inside a segment the pool's guards fire if and only if some boost has no work part |
| `Payouts.WorkPartZero` | packages/core/src/economics/economics.ts:111-119 | a positive amount has no work part if and only if it is one msat |
| `Payouts.SplitConserves` | packages/core/src/economics/economics.ts:111-119 | a split never hands out more than the amount and keeps at most two msat |
| `Payouts.LegPriceConsistent` | packages/core/src/economics/economics.ts:174-229 | fees and net make up the gross, and the bonus is paid on final legs only and within the quota |
| `Payouts.AdmittedHubIsPriced` | packages/core/src/matching/matching.ts:114-145 | a hub that passes the board's progress filter is refused only for its fees |
| `Payouts.EstimateBrackets` | packages/core/src/economics/economics.ts:394-420 | every leg accepted from the same pool and distance pays both hubs inside the estimated range |
| `Vault.Heals` | apps/api/src/shipments/reconcile.ts:53-98 | once every payment is caught up and no verb is pending, each payment's audit is clean and each commitment account equals what is in flight |
| `Vault.CleanWhenCarriedOut` | apps/api/src/shipments/reconcile.ts:53-77 | the same payment by payment |
| `Vault.ConflictExactly` | packages/escrow/src/coordinator.ts:293-319 | settled and refunded in the journal of one payment: never for a settled one; for one cancelled or expired if and only if its release had been decided, its wallet having let the hold die; for an open one only within an interrupted observation |
| `Vault.ConflictFromScratch` | packages/escrow/src/coordinator.ts:254-260 | a run into it from the insertion of the row on |
| `Vault.ConflictHappens` | packages/escrow/src/coordinator.ts:254-260 | from any vault with a held, undecided payment: release decided, the wallet lets the hold die, the observation gives back what the journal calls settled |
| `Vault.NoReleaseNoConflict` | packages/escrow/src/coordinator.ts:293-319 | without a decided release, settled and refunded never coexist |
| `Vault.DriftKeeps` | packages/escrow/src/coordinator.ts:235-263 | whatever the wallets do between two awaits, the vault stays sound |
| `Vault.PostKeeps` | packages/db/src/ledger.ts:33-76 | an entry posted under its key keeps journal and balances in step |
| `Vault.FlipKeeps` | packages/escrow/src/coordinator.ts:364-377 | a guarded flip keeps the journal ahead of the row |
| `Vault.DecidedKeeps` | apps/api/src/shipments/executor.ts:255-288 | the executor's entry, written before the wallet acts, keeps the vault sound |
| `Coordinator.PreimageCoordinator.CreateConditionalPayment` | packages/escrow/src/coordinator.ts:91-174 | idempotent by key, refused for bad terms or on a key with other terms, resumable after a crash at any await |
| `Coordinator.PreimageCoordinator.Release` | packages/escrow/src/coordinator.ts:179-194 | reveals the preimage of a held row only; done means settled; a row that died is refused for good |
| `Coordinator.PreimageCoordinator.Refund` | packages/escrow/src/coordinator.ts:196-205 | done means cancelled or expired, and no preimage leaves |
| `Coordinator.PreimageCoordinator.Observe` | packages/escrow/src/coordinator.ts:235-263 | one row against its wallet; what it leaves of the payment is caught up, and its journal says settled and refunded if and only if the payment was decided to be released and the wallet answered that the hold is dead |
| `Coordinator.PreimageCoordinator.PollOnce` | packages/escrow/src/coordinator.ts:210-233 | a silent wallet stalls nobody else; if all answer, every payment is caught up |
| `Coordinator.PreimageCoordinator.MarkHeld` | packages/escrow/src/coordinator.ts:287-291 | held entry, then the row |
| `Coordinator.PreimageCoordinator.MarkSettled` | packages/escrow/src/coordinator.ts:293-303 | held and settled entries, then the row |
| `Coordinator.PreimageCoordinator.MarkResolved` | packages/escrow/src/coordinator.ts:307-319 | refunded entry if and only if the hold was ever recognised, then the row |
| `Coordinator.PreimageCoordinator.Decide` | apps/api/src/shipments/executor.ts:255-288 | the executor's entry and intent in one transaction |
| `Coordinator.PreimageCoordinator.CarryOut` | apps/api/src/shipments/reconcile.ts:137-158 | an intent is struck off exactly when its verb took effect |
| `Coordinator.PreimageCoordinator.RetryEscrowIntents` | apps/api/src/shipments/reconcile.ts:125-159 | executed intents plus remaining ones are the earlier ones |
| `Coordinator.PreimageCoordinator.Reconcile` | apps/api/src/shipments/reconcile.ts:32-98 | the audits report exactly the unclean payments and unbalanced shipments, and none if all wallets answered and no verb was pending |
| `Coordinator.PreimageCoordinator.AuditPayments` | apps/api/src/shipments/reconcile.ts:53-85 | the per-payment audit, and the expected balance per shipment |
| `Coordinator.PreimageCoordinator.AuditShipments` | apps/api/src/shipments/reconcile.ts:86-98 | the per-shipment comparison |
| `Route.OrderRouteWaypoints` | packages/core/src/matching/route.ts:40-124 | a permutation of the stops with every pickup before its shipment's drops, no longer than any other such permutation; refused if and only if there are more than nine stops |
| `Route.BestOrderIsOptimal` | packages/core/src/matching/route.ts:40-124 | for sorted stops an order always exists and the recurrence's answer is the shortest of all drivable ones |
| `Route.BestIsAWalk` | packages/core/src/matching/route.ts:79-100 | a finite table entry is the length of the feasible order that the parents lead back to |
| `Route.NoWalkIsShorter` | packages/core/src/matching/route.ts:79-100 | no feasible order of the same stops with the same end is shorter |
| `Route.SortedIsDrivable` | packages/core/src/matching/route.ts:25-29 | the canonical order is itself feasible |
| `Route.ShuffleInvariant` | packages/core/src/matching/route.ts:22-29 | shuffling the stops never changes the answer |
| `Route.WaitMasks` | packages/core/src/matching/route.ts:62-72 | the bit masks of what each stop waits for |
| `Route.FillTable` | packages/core/src/matching/route.ts:75-100 | the triple loop fills the table with the recurrence |
| `Route.Extend` | packages/core/src/matching/route.ts:86-99 | extending the walks that end at one stop, first parent kept on a tie |
| `Route.FollowBack` | packages/core/src/matching/route.ts:115-123 | reconstruction terminates, one stop fewer in the mask at each step, and yields the recurrence's order |
| `JsonParser.CanonicalInverts` | packages/core/src/state-machine/custody-chain.ts:16-45 | parsing the canonical text of a value yields its normal form: integers as decimal strings, undefined dropped or nulled, keys in order |
| `JsonParser.CanonicalIsFaithful` | packages/core/src/state-machine/custody-chain.ts:16-45 | two values have the same canonical text if and only if they have the same normal form |
| `JsonParser.CanonicalAgain` | apps/api/src/shipments/executor.ts:313-317 | what is stored after parsing the canonical text canonicalises to the same text |
| `JsonParser.FieldOrderIrrelevant` | packages/core/src/state-machine/custody-chain.ts:35-41 | two objects with the same fields, their keys distinct, have the same text, in whatever orders the fields were set |
| `JsonParser.BigIntSurvives` | apps/api/src/shipments/context.ts:96-108 | amounts of any size and sign are read back from the chain unchanged |
| `Json.CanonicalIsPrinted` | packages/core/src/state-machine/custody-chain.ts:16-45 | the canonical text is the plain print of the normal form, and exists exactly when that does |
| `JsonParser.BodyInverse` | packages/core/src/state-machine/custody-chain.ts:18-22 | every string of code units, lone surrogates included, survives quoting |
| `CustodyChain.VerifyCustodyChain` | packages/core/src/state-machine/custody-chain.ts:91-106 | accepts exactly the linked and rehashed chains, and reports the first bad row and why |
| `CustodyChain.TamperEvidence` | packages/core/src/state-machine/custody-chain.ts:66-106 | two accepted chains with the same last hash have the same length and the same events, or two rows are named, one of each, whose hashed texts differ and have the same digest |
| `CustodyChain.AppendAccepted` | apps/api/src/shipments/executor.ts:290-323 | every chain grown by the executor's append is accepted, though the stored payload is the reparsed one |
| `CustodyChain.CanonicalFactFaithful` | packages/core/src/state-machine/custody-chain.ts:66-83 | equal canonical events are equal field by field |
| `CustodyChain.OrderCustodyChain` | apps/api/src/shipments/context.ts:70-89 | fork, broken, or the walk in link order; says where the original would not terminate |
| `CustodyChain.Relinearises` | apps/api/src/shipments/context.ts:70-89 | any permutation of a linked chain with distinct hashes comes back in link order |
| `CustodyChain.AcceptedRelinearises` | apps/api/src/shipments/context.ts:70-89 | so does any permutation of a chain the verifier accepts, or two of its rows are named whose hashed texts differ and have the same digest |
| `CustodyChain.LinearIsTheRows` | apps/api/src/shipments/context.ts:70-89 | whatever is accepted is a linked permutation of the rows |
| `CustodyChain.EndlessExactlyWhenShared` | apps/api/src/shipments/context.ts:82-85 | the walk fails to terminate if and only if it passes two different rows with one hash |
| `CustodyChain.EndlessExample` | apps/api/src/shipments/context.ts:82-85 | two rows on which it does not |
| `Ranking.RankBoard` | packages/core/src/matching/matching.ts:204-236 | the board as a function of trip, shipments, hubs and distances |
| `Ranking.EvaluateShipment` | packages/core/src/matching/matching.ts:72-188 | the loop over hubs collects exactly the priced options |
| `Ranking.ProposalIsBest` | packages/core/src/matching/matching.ts:173-188 | the proposal is the surplus maximum among options within the deviation, or among all if none is; a match exactly if some option within it has no negative surplus |
| `Ranking.CardOfShuffledHubs` | packages/core/src/matching/matching.ts:51-58 | a card does not depend on the order of the hubs |
| `Ranking.BoardShuffledParcels` | packages/core/src/matching/matching.ts:60-70 | the board does not depend on the order of the shipments |
| `Ranking.RankEach` | apps/api/src/routes/trips.ts:603-636 | the loop that ranks each road parcel alone, under its own provider and its own hubs, collects the cards of all of them |
| `Ranking.MergedBoards` | apps/api/src/routes/trips.ts:583-643 | one group ranked under a common provider and hub list, the other parcel by parcel under their own, sorted together: one ranking in which every parcel is judged under its own view, and, where all views agree, the ranking of the union |
| `Ranking.TripBoardShuffled` | apps/api/src/routes/trips.ts:565-643 | the board does not depend on the order in which either group was loaded |
| `Ranking.FitsMeansSomeWay` | packages/core/src/matching/matching.ts:29-35 | comparing sorted sides is trying every way to turn the box |
| `Photo.JpegHasGpsExif` | apps/api/src/lib/photo-validation.ts:25-46 | terminates and stays in bounds on every input, and computes the walk |
| `Photo.TiffHasGpsIfd` | apps/api/src/lib/photo-validation.ts:48-64 | the bounded scan of the first directory |
| `Photo.ScanAgreesWithFormat` | apps/api/src/lib/photo-validation.ts:25-46 | for every JPEG of well-formed segments without TEM before the first Exif one, the answer is that of its first Exif segment before the image data |
| `Photo.ScanIsExactly` | apps/api/src/lib/photo-validation.ts:25-46 | for every JPEG of well-formed segments below 65282 bytes: found if and only if the first Exif segment points to GPS data and no TEM precedes it |
| `Photo.TemMisread` | apps/api/src/lib/photo-validation.ts:30-42 | of any size: at a TEM the walk takes the next marker for a length of at least 65280 and goes on there, if the file is that long |
| `Photo.GpsTagIsFound` | apps/api/src/lib/photo-validation.ts:25-64 | a JPEG whose first Exif segment carries a TIFF is found to hold GPS data exactly if the first directory lists the GPS tag |
| `Photo.TiffAgrees` | apps/api/src/lib/photo-validation.ts:48-64 | true exactly if the first directory lists the GPS tag, in both byte orders and wherever it lies |
| `Photo.FillByteStopsTheWalk` | apps/api/src/lib/photo-validation.ts:30-42 | with a fill byte before the Exif marker, which the format allows, the walk stops: the assumption is needed |

## Left out

- Outlay.SenderNeverOverpays: only for prices taken with no check-in and no reroute committed between loading and transaction; nothing re-prices a command, and `StaleQuotes.StaleQuoteOverpays` is a run in which the bound fails otherwise.
- Service.ShipmentStore.ExecuteCommand: one command is one atomic step; how invocations interleave is the subject of `Race` and the modules after it.
- Race.RaceKeeps: waiting until a hold is held (an invocation may fail at any point instead), instant fees paid before the transaction, compensating refunds that themselves fail, and holds that lapse or are cancelled by their wallets.
- Sweeps.DroppedExactly: the query for due timers and the snapshot of their event are one step; a row that goes or comes between the two is not modelled.
- Runs.StepKeeps: `leg_funded` and `claim_funded` may come at any time; that the pump waits until all holds are held is not modelled, and the invariant does not need it.
- Service.ShipmentStore.FireDueTimers: one shipment's due timers, without the limit of 50 rows, rows known by kind and reference (serial runs need no more; row ids are in `Race`), and without transient wallet failures, which keep a row for the next sweep.
- Coordinator.PreimageCoordinator.Release: takes for granted that the payment was decided to be released, which `Releases.ReleasesAre` and `Guarantees.DecidedOnce` say of the executor; likewise `Refund` that it was not.
- Coordinator.PreimageCoordinator.Reconcile: without the report on intents older than an hour.
- Coordinator.PreimageCoordinator.PollOnce: the listener queue of `events()` and encryption of the preimages.
- Guarantees.WritersCommute: entries are compared by key and postings; the two writers use different event names for the same fact.
- JsonParser.CanonicalInverts: the parser reads compact texts only; a finite number is known by its numeral, whose shape (section 6 of RFC 8259) is assumed of the language's own number printing.
- Ranking.RankBoard: distances are whole metres; the original adds kilometres as floats and rounds the sum, and the progress of a leg request is rounded after subtracting.
- Photo.ScanAgreesWithFormat: segments without fill bytes, and without TEM before the Exif one; both are shown to be needed.
- Misreads.MisledHappens: what a misled commit leads to afterwards; and a foreign row may be seen under any id the books do not know.
- Tables.BundleRebuilt: columns the machine never reads (timestamps of check-in and check-out, trip, progress, rejections, rate observations).
- HTTP routes, sessions, QR codes, one-time codes, e-mails, rate limits, the web application: their checked facts are event fields, and their effects are carried but do nothing.
- Road distances and their cache, haversine geometry, OSRM.
- SHA-256, AES-GCM, randomness: an arbitrary digest, and ids that are new when they are minted.
- The EUR rate, hub opening hours, reviews, code names, map clustering, pagination, photo purging: mostly queries and formatting.
