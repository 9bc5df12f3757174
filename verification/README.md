# Order pipeline verification

A Dafny model of the parts of the trading backend that carry money, state and sessions, with proofs about
them. `dafny verify dfyconfig.toml` verifies the whole project.

## What is modelled

- **Decimal strings and exchange filters** (`Decimal`, `ExchangeFilters`, `FilterValidator`, `FilterRules`,
  `FilterDecision`, `FilterReport`). Digit strings, powers of ten and the rational number a string denotes are built
  from scratch; the validator, which pushes onto one error list in place, is proved against a specification of that
  list, and the specification against rules stated on the raw order and the filters as listed, over exact rationals.
- **The stream contract and the exchange request** (`StreamContracts`, `ContractMeaning`, `ContractValidator`,
  `ExchangeRequest`, `OrderTypes`). Normalising, validating, building, parsing and dispatching the three command kinds, the dead
  letter, and the request parameters of a placement.
- **The order processor** (`Orders`, `Placement`, `Store`, `SubmitProcessor`, `CancelProcessor`,
  `CancelAllProcessor`, `Commands`). The store is a class of rows, events and published messages with one method
  per awaited call; any call may fail with or without effect, and a crash is a call that fails. The store carries
  a ghost history of placement steps, so results about every history hold of every store.
- **The stream consumer** (`StreamGroup`, `StreamSettling`, `StreamLimits`, `StreamCalls`, `StreamConsumer`).
  `StreamGroup` is the consumer group as a step system with lost answers and crashes before any step;
  `StreamSettling` proves that a stream which stops growing is settled, `StreamLimits` when the limit on attempts
  holds. `StreamCalls` says what handling an entry comes to, given the fate of every call; `StreamConsumer` is the
  loop as a class whose methods are proved to take exactly those courses, running the order processor on the store
  and keeping, for every processed entry, the stretch of the store's past in which that happened.
- **The gateway** (`OrderDraft`, `Gateway`, `GatewayService`, `CancelEndpoints`). Drafts, the steps of concurrent
  `POST /orders` requests among other writers, the handler as a method with everyone else acting before each call,
  and the two cancel endpoints on the store's failing calls.
- **Reconciliation** (`Reconciliation`, `ReconciliationCycle`, `AccountSnapshots`) of rows with exchange snapshots,
  and the cycle over a batch of orders and the accounts of their users, with others writing in between.
- **Refresh sessions** (`Sessions`, `SessionService`). Families of sessions under interleaved logins, refreshes
  and logouts, and the service methods call by call.
- **Positions** (`Positions`): weighted-average cost and realised profit over runs of fills.

`Wrappers`, `Text` and `Arithmetic` hold optional values, ASCII trimming and upper-casing, and facts about products
and quotients.

## What the proofs show about the code

- An order id or user id with white space around it is trimmed in the stream entry but not in the stored row, so
  the consumer works on a different order. `Gateway.RowIsFoundWhenTidy` gives the exact condition; the gateway
  results assume ids that need no trimming.
- A stored raw status with white space around it takes two reconciliation passes when the snapshot has no status:
  it is compared untrimmed but stored trimmed. `Reconciliation.SecondReconcileChangesNothing` is exact about it. Every
  writer of these services trims what it stores, so for their own rows one pass suffices
  (`Reconciliation.WritersTrim`, `Reconciliation.OnePassSuffices`).
- An order keeps the exchange id it had when a cancel-all read it, but an id that one of the results brought is
  erased by a later result about the same order that names none. `CancelAllProcessor.SettledExchangeId` is exact about
  it, `CancelAllProcessor.SecondResultErasesId` an example.
- An error whose text is nothing but white space cannot be dead-lettered, because building the letter throws; the
  entry stays pending beyond the allowed attempts although nothing has failed around it. An empty message is no such
  case: it reads "Error" or "Unknown error". `StreamLimits.LimitHoldsExactlyForPrintableReasons` shows that this is
  the one exception to the limit, and `StreamConsumer.ErrorTextIsBlank` which errors have such a text.
- If the acknowledgement of a processed entry took effect but its answer was lost, the entry counts as delivered
  once, so with a limit of one attempt it gets a dead letter although it was processed.
- An acceptance whose answer never arrives ends as a rejected order, which a duplicate entry may place again:
  that is the `lost` part of the placement bound. Whoever erases a saved exchange id lets the order be placed again,
  too: that is its `forgotten` part.
- A retried request sets the row's status back to received after its append, even if the consumer has already
  submitted the order; the exchange id keeps the order from being placed again.
- Closing a position deletes its row, and with it the realised profit; the position results speak of the time
  since the row was created.
- The contract document asks for idempotency by command id and order id; the code uses the order row alone. It
  lists quantity as required; the code accepts a quote quantity instead for market orders. The model follows the code.

## Model

| member | source | states |
|---|---|---|
| Placement.PlacedAtMostOncePlusLost | apps/execution-service/src/orderCommandProcessor.js:121-277 | In every run of submit attempts, redeliveries, duplicates, interruptions and arbitrary other writers, the exchange accepts an order at most once more than acceptances were lost before their id was saved and saved ids were erased |
| Placement.FaultFreePlacesOnce | apps/execution-service/src/orderCommandProcessor.js:121-277 | Without interruptions and unheard acceptances an order whose id the other writers keep is placed at most once, however often its command arrives |
| Placement.RecordedIsNotPlaced | apps/execution-service/src/orderCommandProcessor.js:711-715 | Once an order's exchange id is recorded, no later run in which the other writers keep it places the order again or forgets the id |
| Placement.KeptIsNotForgotten | apps/execution-service/src/orderCommandProcessor.js:121-277 | In a run whose other writers keep the order's exchange id, that id is never erased: no step of a submit attempt erases one |
| Placement.StepKeepsAccounts | apps/execution-service/src/orderCommandProcessor.js:121-277 | Every step keeps the account: acceptances of an order = lost ones + erased ones + at most one saved one + one in flight; a saved one is visible and no attempt for it is under way |
| Store.OrderStore.PlacedOnce | apps/execution-service/src/orderCommandProcessor.js:121-277 | The same bound for every order of a store, whatever sequence of the calls below has been made on it |
| SubmitProcessor.ProcessSubmit | apps/execution-service/src/orderCommandProcessor.js:111-304 | A submit ends with an error only if a call failed. Otherwise, case by case: one that was submitted before is only reported; else it is first marked pending, and the first of a failed check, a violated filter, a missing credential and a failing exchange rejects its row with its own text or the fixed fallback, placing nothing (an exchange that fails unheard apart); and only if nothing stands in the way is it placed, once, and its row given the exchange's id and status. A failing submit has touched no other row, no intent and no exchange id, and lost at most one placement; nothing is published before the order is recorded |
| SubmitProcessor.Submit | apps/execution-service/src/orderCommandProcessor.js:139-303 | The same for an order not submitted before, with its exact steps: pending mark, then acceptance and save, or rejection |
| SubmitProcessor.SaveOrder | apps/execution-service/src/orderCommandProcessor.js:233-303 | After acceptance: the row with the exchange's id, amounts, average (quote by executed where both are positive) and last fill, each from the reply or its fixed default; then the event, then the message, both saying what the row says; failing before the row is saved is the one way to lose the placement |
| SubmitProcessor.RejectOrder | apps/execution-service/src/orderCommandProcessor.js:523-569 | Event first, then the row with status and reason, then the message, field by field; no placement is added or lost |
| SubmitProcessor.Refusal | apps/execution-service/src/orderCommandProcessor.js:157-231 | A failed check, a violated filter, a missing credential and a failing exchange, in this order, each with its own text; none of them, no refusal |
| Orders.StatusNames | apps/execution-service/src/orderCommandProcessor.js:785-795 | The exchange's texts name five statuses, in any case and with white space around; every other text is a submitted order |
| Orders.SubmittedRowMeans | apps/execution-service/src/orderCommandProcessor.js:233-286 | What an accepted order's row says, field by field |
| Orders.CanceledRowMeans | apps/execution-service/src/orderCommandProcessor.js:648-672 | What a settled order's row says, field by field: the reply where it speaks, the row first read otherwise |
| SubmitProcessor.CarriedIsRecorded | docs/architecture/redis-stream-contracts.md:156 | A completed submit has recorded its order (exchange id, submitted status or rejection), published an event with the row's status, made the last stored event agree with the row, and touched nothing else |
| CancelProcessor.ProcessCancel | apps/execution-service/src/orderCommandProcessor.js:306-413 | A cancel ends with an error only if a call failed. Otherwise, case by case: a missing or foreign order is answered as not found and a finished one reported, and nothing is written; an open one is marked, with an event, and ends rejected with the credential's or the exchange's text or the fixed fallback, or settled with the reply's id, amounts and status, with a second event and one message that agree with its row; no other row is touched even when calls fail |
| CancelProcessor.CancelOpenOrder | apps/execution-service/src/orderCommandProcessor.js:352-412 | The same from the pending mark on: refusals keep the order with the reason, reports settle it; nothing is published before row and event are stored |
| CancelProcessor.MarkCancelPending | apps/execution-service/src/orderCommandProcessor.js:571-591 | Row, then event with the average or else the limit price and the executed or else the ordered quantity; nothing else changes and no placement is begun or lost |
| CancelProcessor.RejectCancelOrder | apps/execution-service/src/orderCommandProcessor.js:593-628 | Row, then event, then message of a refused cancel |
| CancelProcessor.PersistCanceledOrder | apps/execution-service/src/orderCommandProcessor.js:648-694 | For any reply and any row read before, field by field: status, id, amounts and average come from the reply where it speaks and from the row first read otherwise, event and message say what the row says, and only if neither reply nor row has an exchange id can the stored row lose one |
| CancelProcessor.CanceledRowKeeps | apps/execution-service/src/orderCommandProcessor.js:648-672 | The settled row keeps its intent, takes the reply's status, and has an exchange id exactly if the reply or the row read before had one |
| CancelAllProcessor.FindLocalOpenOrders | apps/execution-service/src/orderCommandProcessor.js:696-709 | Exactly the rows of the user and symbol in an open status, each once |
| CancelAllProcessor.ProcessCancelAll | apps/execution-service/src/orderCommandProcessor.js:415-521 | Exactly the user's orders of the symbol in one of the eight open statuses are written, with exactly one pending event each and then one event per outcome. Without credential or exchange all end rejected with the text or fallback; otherwise each ends with the status of the last result about it, or pending, and an exchange id exactly if it had one or that result names one. One message per outcome, the reported counts are exact, and it ends with an error only if a call failed |
| CancelAllProcessor.SettledStatus | apps/execution-service/src/orderCommandProcessor.js:483-513 | Each order ends with the status of the last result that resolves to it, or pending cancellation if there is none, and keeps its intent |
| CancelAllProcessor.CountIsNumberResolved | apps/execution-service/src/orderCommandProcessor.js:489-521 | The canceled count is the number of results that resolve to a local order |
| CancelAllProcessor.ResolveMeans | apps/execution-service/src/orderCommandProcessor.js:483-497 | A result is about the order with its original client order id, or if that is blank with its client order id, else the last one read with its exchange id, else about none |
| CancelAllProcessor.ByExchangeId | apps/execution-service/src/orderCommandProcessor.js:484-488 | The last of the orders read with that exchange id, or none if there is none |
| CancelAllProcessor.MarkAll | apps/execution-service/src/orderCommandProcessor.js:427-439 | Every order read is marked and has an event of its new status; all other rows are as before |
| CancelAllProcessor.RejectAll | apps/execution-service/src/orderCommandProcessor.js:630-646 | Every order read is rejected with the reason, has its event, and is published, in order |
| CancelAllProcessor.PersistAll | apps/execution-service/src/orderCommandProcessor.js:489-513 | After any results have been worked through, the rows are the settled ones, with one event and one message per counted result, each saying what its row had become by then |
| CancelAllProcessor.SettledExchangeId | apps/execution-service/src/orderCommandProcessor.js:483-513 | An order ends with an exchange id exactly if it had one when it was read, or the last result that resolves to it names one |
| CancelAllProcessor.SecondResultErasesId | apps/execution-service/src/orderCommandProcessor.js:648-672 | A concrete loss: of two results for an order that had no exchange id, the first names 7 and the second none, and the order ends without |
| Commands.ProcessOrderCommand | apps/execution-service/src/orderCommandProcessor.js:97-109 | The processor of the command's type runs; it ends with an error only if a call failed or a field the type needs is missing; however it ends no row loses its intent or exchange id. If it does not throw: a submit has recorded and published its order and written no other row; a cancel has published one message and written the user's own unfinished order, if it is one, and nothing else; a cancel-all has written exactly the open orders of the user and symbol; the last event of every order that was written agrees with its row |
| Commands.ValidSubmitHasOrder | apps/execution-service/src/orderCommandProcessor.js:24-55 | Every submit that parses names an order whose id and every part of whose intent is the command's own field, decimals as the library reads them, with exactly one size |
| Commands.ParsedLacksNothing | apps/execution-service/src/orderCommandProcessor.js:24-86 | A command of any kind that parses lacks no field its processor asks for, so processing it fails only if a call fails |
| StreamGroup.NothingIsLost | apps/execution-service/src/redisOrderStreamConsumer.js:8-186 | In every run each appended entry, whenever appended, is in exactly one place (undelivered, pending, acknowledged), and acknowledged only after processing without error or after a dead letter naming it |
| StreamGroup.DeliveriesAreBounded | apps/execution-service/src/redisOrderStreamConsumer.js:145-185 | No entry is delivered more often than the allowed attempts plus the unanswered calls and deaths that hit it plus the times its letter could not be built |
| StreamGroup.RunsAreSound | apps/execution-service/src/redisOrderStreamConsumer.js:94-186 | The invariant of every run: places, batch, delivery counts of the pending list, and the attempt bounds |
| StreamLimits.LimitHoldsExactlyForPrintableReasons | packages/redis-stream-contracts/src/index.js:397-399 | For every limit, entry and choice of error texts: in every run the entry's deliveries stay within the allowed attempts plus its faults if and only if its error text is not blank |
| StreamLimits.BlankReasonExceedsLimit | apps/execution-service/src/redisOrderStreamConsumer.js:157-170 | For every limit and every entry with a blank error text there is a run without any fault that delivers the entry once more than allowed |
| StreamSettling.RemainingCoversUnsettled | apps/execution-service/src/redisOrderStreamConsumer.js:206-264 | The deliveries left to the unsettled entries are never negative, between batches they are at least the number of unsettled entries, and they are none exactly when everything is settled |
| StreamSettling.RemainingDecreases | apps/execution-service/src/redisOrderStreamConsumer.js:206-264 | Without faults and new entries each delivery uses up as much as it hands out, each acknowledgement what its entry had left, and nothing else changes what is left |
| StreamSettling.FaultFreeRunsSettle | apps/execution-service/src/redisOrderStreamConsumer.js:206-264 | From any point of any run, a fault-free continuation delivers at most what the unsettled entries have left, and one that has nothing more to deliver has settled every entry |
| StreamSettling.StuckMeansSettled | apps/execution-service/src/redisOrderStreamConsumer.js:206-236 | In every run: between batches of an existing group, if neither a read nor a claim would hand out anything, every entry is settled |
| StreamSettling.SomethingToDeliver | apps/execution-service/src/redisOrderStreamConsumer.js:206-264 | While an entry is unsettled an idle consumer can read or claim something |
| StreamSettling.SettledIsFinal | apps/execution-service/src/redisOrderStreamConsumer.js:145-185 | An acknowledged entry stays acknowledged and is not delivered again |
| StreamCalls.ErrorEnds | apps/execution-service/src/redisOrderStreamConsumer.js:155-185 | After an error, if every call is answered, the entry gets its dead letter exactly when its attempts are used up and the text is not blank, and is left pending otherwise; a letter is written only when the attempts are used up, and a fault means that a call went unanswered |
| StreamCalls.ValidEnds | apps/execution-service/src/redisOrderStreamConsumer.js:132-185 | An entry that parses, if every call is answered: acknowledged exactly when its processing finished, otherwise dead-lettered or left pending by the same condition; without answers it is acknowledged without a letter only after processing, and only then meets a fault |
| StreamConsumer.ErrorTextIsBlank | apps/execution-service/src/config.js:127-142 | The text of an error is never empty, and blank exactly when its message, or failing that the thrown value's text, is nothing but white space |
| StreamConsumer.OrderConsumer.Handle | apps/execution-service/src/redisOrderStreamConsumer.js:94-186 | The state and the answer are exactly what the fates of the calls make of the entry. An entry that parses is acknowledged on the spot unless a call of the store or of Redis fails or the consumer dies: its processing raises an error only if a call of the store failed. If all Redis calls are answered: acknowledged when processing finished, dead-lettered when the entry does not parse or has used up its attempts with a text that is not blank, left pending otherwise. What was processed is witnessed by the stretch of the store's past this call added |
| StreamConsumer.OrderConsumer.HandleEntry | apps/execution-service/src/redisOrderStreamConsumer.js:94-186 | The same, with at most one letter, which names the entry and its reason; a finished command has made this store's rows, events and messages what its kind promises, and one that did not finish met a failed call |
| StreamConsumer.OrderConsumer.HandleInvalid | apps/execution-service/src/redisOrderStreamConsumer.js:107-131 | An entry that does not parse takes the course of count, letter and acknowledgement exactly as far as the calls are answered; StreamCalls.InvalidEnds says that answered calls end it dead-lettered |
| StreamConsumer.OrderConsumer.HandleError | apps/execution-service/src/redisOrderStreamConsumer.js:155-185 | With answered calls: dead-lettered if the attempts have reached the limit and the text is not blank, otherwise left pending; an unanswered call ends it as that call's fate says |
| StreamConsumer.OrderConsumer.WriteDeadLetterAndAck | apps/execution-service/src/redisOrderStreamConsumer.js:274-293 | One letter naming entry and reason is appended exactly if its call takes effect, the acknowledgement follows only an answered letter, and a blank reason writes nothing and leaves the entry pending |
| StreamConsumer.OrderConsumer.XAck | apps/execution-service/src/redisOrderStreamConsumer.js:145-156 | Acknowledged if answered; a failed acknowledgement after processing goes down the error path |
| StreamConsumer.OrderConsumer.DeliveryCount | apps/execution-service/src/redisOrderStreamConsumer.js:295-313 | The pending list's count, or 1 for an entry no longer pending |
| StreamConsumer.OrderConsumer.EnsureGroup | apps/execution-service/src/redisOrderStreamConsumer.js:8-16 | The group exists afterwards, from the beginning of the stream, whether or not it existed before |
| StreamConsumer.OrderConsumer.ClaimIdle | apps/execution-service/src/redisOrderStreamConsumer.js:58-92 | At most the asked number of distinct pending entries is handed out, and if the call takes effect each counts one delivery more and no other entry any |
| StreamConsumer.OrderConsumer.ReadNew | apps/execution-service/src/redisOrderStreamConsumer.js:40-56 | If the call takes effect, exactly the next undelivered entries up to the asked number become pending with count 1; an answered call returns them in stream order |
| StreamConsumer.OrderConsumer.HandleMessages | apps/execution-service/src/redisOrderStreamConsumer.js:238-264 | Every entry of the batch is handled in order unless the consumer dies; those logged as acknowledged or dead-lettered are acknowledged after processing or a letter; if no call of the store fails, every entry that parses and whose Redis calls are answered is acknowledged; no mark is taken back |
| StreamConsumer.OrderConsumer.Turn | apps/execution-service/src/redisOrderStreamConsumer.js:206-236 | One turn: group, claimed entries, new entries; if the three calls are answered and the consumer lives, all claimed entries and exactly the next available new ones are handled; no mark is taken back, and it ends with nothing in hand |
| StreamConsumer.OrderConsumer.Loop | apps/execution-service/src/redisOrderStreamConsumer.js:188-236 | Any number of turns keeps the stream's history, its evidence and the orders' intents and exchange ids; with answered calls every turn of a living consumer reads on by its count, up to the end of the stream |
| StreamConsumer.ReadsToTheEnd | apps/execution-service/src/redisOrderStreamConsumer.js:206-236 | With a read count of at least one, as many turns as entries are unread reach the end of the stream |
| StreamConsumer.OrderConsumer.AckedOnlyAfterRecording | docs/architecture/redis-stream-contracts.md:156 | In every reachable state an acknowledged entry was processed or is named by a dead letter, which is so exactly if its letter was written. A submit among them that no letter names has a point in the past of this very store at which its order was recorded, a message about it among those published since the processing began, no other row written in between, and its own, unless it had been submitted before, agreeing with its last event |
| StreamConsumer.OrderConsumer.LetterNamesOneEntry | apps/execution-service/src/redisOrderStreamConsumer.js:274-293 | Every dead letter names exactly one entry of the stream, and it is one whose letter was written |
| StreamConsumer.OrderConsumer.OthersKeepConsistent | apps/execution-service/src/redisOrderStreamConsumer.js:188-236 | Between entries anyone else may add to the store's past; the evidence for every acknowledged entry stays |
| StreamConsumer.OrderConsumer.StreamIsKept | apps/execution-service/src/redisOrderStreamConsumer.js:94-186 | The consumer's own stream loses nothing and bounds every entry's deliveries by attempts, faults and letters that could not be built |
| StreamContracts.ParseInvertsBuild | packages/redis-stream-contracts/src/index.js:165-212 | For all three kinds, parsing a built entry at any later time gives the normalised command without empty fields, also through the dispatcher |
| StreamContracts.RebuildGivesSameEntry | packages/redis-stream-contracts/src/index.js:165-192 | Building again from the parsed command gives the same entry |
| StreamContracts.DispatcherChooses | packages/redis-stream-contracts/src/index.js:364-384 | The named kind's own parser decides; a missing name means submit |
| StreamContracts.DispatchedIsValid | packages/redis-stream-contracts/src/index.js:364-384 | Everything the dispatcher returns meets the contract of some kind, whose parser it is |
| StreamContracts.ProblemsDecide | packages/redis-stream-contracts/src/index.js:79-163 | No problem is reported exactly when the command meets the declarative contract |
| ContractMeaning.ContractMeans | packages/redis-stream-contracts/src/index.js:79-163 | No problem is reported exactly if version, message type, ids, symbol and time are there and valid, the metadata is an object, and a submit follows the rules of its type |
| ContractMeaning.RulesMean | packages/redis-stream-contracts/src/index.js:100-160 | The rules of a submit: side, type, one size, price, stop price and time in force, which types need which, and what the others may leave out |
| ContractMeaning.PositivePattern | packages/redis-stream-contracts/src/index.js:50 | A positive decimal text is digits without a superfluous leading zero, possibly a dot and more digits, and some digit that is not zero |
| ContractMeaning.NormalizeMeans | packages/redis-stream-contracts/src/index.js:427-488 | What a normalised command has in each field: the input's own text in that field, trimmed, in upper case for the four tokens, with the fixed default for the four that have one |
| ContractMeaning.FieldsAreListed | packages/redis-stream-contracts/src/index.js:427-488 | Which fields each kind has |
| ContractMeaning.KindsAreNamed | packages/redis-stream-contracts/src/index.js:16-21 | The names of the three kinds on the stream |
| ContractMeaning.NormalizedRest | packages/redis-stream-contracts/src/index.js:427-488 | Missing and null metadata count as an empty object, and there are no fields besides the kind's own |
| ContractMeaning.BuildDecides | packages/redis-stream-contracts/src/index.js:165-192 | An entry is built exactly if the normalised command is valid, and keeps exactly its non-empty fields |
| ContractMeaning.ParseDecides | packages/redis-stream-contracts/src/index.js:194-212 | An entry parses exactly if its metadata is JSON and it is valid once normalised |
| ContractMeaning.ViewMeans | packages/redis-stream-contracts/src/index.js:79-163 | What the validators look at of each raw field |
| StreamContracts.NormalizeIsStable | packages/redis-stream-contracts/src/index.js:427-488 | Normalising what an entry kept gives the normalised command without its empty fields, whatever the time |
| StreamContracts.BuildDeadLetter | packages/redis-stream-contracts/src/index.js:386-425 | Succeeds exactly on a non-blank id and reason, a non-negative count and a valid failure time, which defaults to the clock's; the letter names the entry, the reason, the count and the time, and carries the command |
| ContractValidator.ValidateCommand | packages/redis-stream-contracts/src/index.js:79-163 | For raw input, with its defaults and spellings: the error list pushed field by field is the specified one, and empty exactly for contract-valid commands |
| StreamContracts.NormalizedIsViewedAsIs | packages/redis-stream-contracts/src/index.js:79-163 | Validating a normalised command looks at exactly that command: defaults and normalising change nothing more |
| ExchangeRequest.BuildOrderRequestParams | apps/execution-service/src/binanceSpotTestnetClient.js:368-459 | Succeeds exactly if sizes, symbol and side, and the price and stop price of the types that need them are there and positive; the request has the placement's own symbol and side in upper case, its type, size and client order id |
| ExchangeRequest.ValidSubmitYieldsRequest | apps/execution-service/src/binanceSpotTestnetClient.js:368-459 | Every contract-valid submit yields a request with the command's own symbol, side, type, one size and id, and price, stop price and time in force exactly where its type needs them |
| Decimal.FractionIsQuotient | packages/redis-stream-contracts/src/binanceFilterValidation.js:375-382 | A scaled integer denotes value / 10^scale |
| Decimal.ReadingMeans | packages/redis-stream-contracts/src/binanceFilterValidation.js:295-323 | Reading a text keeps its value, yields the canonical string, and reads its own result back unchanged |
| Decimal.RespellingReadsAlike | packages/redis-stream-contracts/src/binanceFilterValidation.js:295-323 | Two spellings of one number are read as the same string |
| Decimal.NormalizeMeans | packages/redis-stream-contracts/src/binanceFilterValidation.js:318-323 | Normalising gives a canonical string of the same value, for any number of digits |
| Decimal.CanonicalUnique | packages/redis-stream-contracts/src/binanceFilterValidation.js:318-323 | Canonical strings of the same value are the same string |
| Decimal.ParseMeans | packages/redis-stream-contracts/src/binanceFilterValidation.js:363-373 | Parsing succeeds exactly on plain decimals and yields the denoted number |
| Decimal.FormatMeans | packages/redis-stream-contracts/src/binanceFilterValidation.js:375-382 | Formatting yields the canonical string of value / 10^scale |
| Decimal.FormatParseRoundTrip | packages/redis-stream-contracts/src/binanceFilterValidation.js:363-382 | Formatting and parsing back denotes the same number |
| Decimal.ParseFormatRoundTrip | packages/redis-stream-contracts/src/binanceFilterValidation.js:363-382 | Parsing and formatting back gives the canonical spelling of what was parsed |
| Decimal.AlignMeans | packages/redis-stream-contracts/src/binanceFilterValidation.js:352-361 | Aligned operands keep their values on one common scale |
| Decimal.CompareMeans | packages/redis-stream-contracts/src/binanceFilterValidation.js:325-330 | The order of the rationals; throws exactly when an operand is no decimal |
| Decimal.CompareEqualMeansSameSpelling | packages/redis-stream-contracts/src/binanceFilterValidation.js:325-330 | Equal exactly when the normal forms are the same string |
| Decimal.AddMeans | packages/redis-stream-contracts/src/binanceFilterValidation.js:332-335 | The canonical string of the exact sum |
| Decimal.MultiplyMeans | packages/redis-stream-contracts/src/binanceFilterValidation.js:337-341 | The canonical string of the exact product |
| Decimal.IsMultipleMeans | packages/redis-stream-contracts/src/binanceFilterValidation.js:343-346 | True exactly for natural multiples of a non-zero step |
| Decimal.IsZeroMeans | packages/redis-stream-contracts/src/binanceFilterValidation.js:348-350 | True exactly for the number zero |
| FilterDecision.ValidatorDecides | packages/redis-stream-contracts/src/binanceFilterValidation.js:39-109 | The validator answers ok exactly when the raw order, symbol information and context meet the rules: symbol, exactly one size, bounds and step of the last listed quantity filter in force for the type, bounds and tick, required prices, notional bounds that apply to the type, counts, and the projected position of a buy |
| FilterReport.ErrorsSay | packages/redis-stream-contracts/src/binanceFilterValidation.js:39-289 | For every field and error code: such an error is reported exactly if that rule is broken, stated on the raw order, the listed filters and the context |
| FilterDecision.RespellingChangesNothing | packages/redis-stream-contracts/src/binanceFilterValidation.js:20-131 | Respelling any decimal of order, filters or context changes neither verdict, error list nor normalised filters |
| FilterDecision.FiltersMean | packages/redis-stream-contracts/src/binanceFilterValidation.js:20-37 | Each bound of the normalised filters is the number of that same bound of the last listed filter of the type, or for some types of the symbol object if none is listed; a filter is absent exactly if it bounds nothing |
| FilterDecision.LotDecides | packages/redis-stream-contracts/src/binanceFilterValidation.js:190-205 | No lot error exactly when the quantity is within bounds and on the step grid of the filter chosen for the type |
| FilterDecision.PriceDecides | packages/redis-stream-contracts/src/binanceFilterValidation.js:207-218 | No price error exactly when the price is within bounds and on the tick grid |
| FilterDecision.NotionalDecides | packages/redis-stream-contracts/src/binanceFilterValidation.js:220-262 | No notional error exactly when the order's notional, if it has one, is within the bounds that apply to its type |
| FilterDecision.RiskDecides | packages/redis-stream-contracts/src/binanceFilterValidation.js:264-289 | No risk error exactly when the counts and the projected position are within their limits |
| FilterValidator.ValidateOrderAgainstExchangeFilters | packages/redis-stream-contracts/src/binanceFilterValidation.js:39-109 | The in-place error list, the verdict and the normalised parts are the specified ones |
| FilterValidator.ValidateNotionalFilters | packages/redis-stream-contracts/src/binanceFilterValidation.js:220-239 | Pushes exactly the specified notional errors, in order |
| FilterValidator.ValidateOptionalRiskContext | packages/redis-stream-contracts/src/binanceFilterValidation.js:264-289 | Pushes exactly the specified risk errors, in order |
| Reconciliation.SecondReconcileChangesNothing | apps/execution-service/src/reconciliationWorker.js:173-276 | Reconciling the result again with the same snapshot and trades makes no change, except exactly for rows whose snapshot gives no status and whose stored raw status has white space around a status other than the default |
| Reconciliation.TwoPassesSuffice | apps/execution-service/src/reconciliationWorker.js:173-276 | A second pass, where one is needed, is the last, for every row and every partial snapshot |
| Reconciliation.SecondPassCorrectsStatus | apps/execution-service/src/reconciliationWorker.js:242-264 | What such a row goes through: submitted after the first pass, its own status after the second |
| Reconciliation.OnePassSuffices | apps/execution-service/src/reconciliationWorker.js:173-276 | A row whose raw status has no white space around it needs no second pass, for every snapshot and all trades |
| Reconciliation.AttemptsKeepRawTrimmed | apps/execution-service/src/orderCommandProcessor.js:121-277 | No step of a submit attempt makes a stored raw status untrimmed; only another kind of writer could |
| Reconciliation.WritersTrim | apps/execution-service/src/reconciliationWorker.js:248-276 | Every row that submitting, settling a cancel or reconciling writes has such a raw status, so one pass suffices for the rows these services store |
| Reconciliation.PaddedStatusNeedsTwoPasses | apps/execution-service/src/reconciliationWorker.js:314-323 | The exception is not empty: a filled status stored by someone else with a space before it |
| Reconciliation.LatestTrade | apps/execution-service/src/reconciliationWorker.js:310-312 | One of the trades, and none is later |
| Reconciliation.ReconcileOrder | apps/execution-service/src/reconciliationWorker.js:173-228 | Whatever has become of the stored row since it was read: nothing is written exactly if the row read already shows what the exchange says; otherwise the stored row then shows it, with one event and one message that say what the row says; it fails only if a call fails, and then leaves the row as it was or reconciled, and no other row touched |
| Reconciliation.ReconciledShows | apps/execution-service/src/reconciliationWorker.js:242-277 | Field by field, what the exchange says: amounts, id and raw status are the snapshot's where it has them and the read row's otherwise, the average is quote by executed, the last trade is the first of the latest, and the status is the one the source text names; a row counts as changed exactly if it does not show this |
| ReconciliationCycle.RunReconciliationCycle | apps/execution-service/src/reconciliationWorker.js:67-168 | With others writing at any time between the calls: if the batch cannot be read nothing is done; otherwise each order of the batch is visited exactly once, in turn, between two points of the store's past, and reported as unchanged if its row shows what the exchange says, as updated if the stored row was made to show it, and as an error only if it was not fetched, its credential not loaded or a call failed; every user of an order without error, and nobody else, is sent at most one snapshot of the account; the counters are exactly how often each of this happened |
| ReconciliationCycle.CheckOrder | apps/execution-service/src/reconciliationWorker.js:108-139 | One order of the cycle, whatever its stored row has become since the batch was read: what the exchange says is written over the row stored by then exactly if the row read does not show it, no other row is touched, and an error is reported only if the order could not be fetched or a call failed |
| ReconciliationCycle.UndisturbedCycle | apps/execution-service/src/reconciliationWorker.js:108-139 | If nobody else writes during the cycle, each order of the batch ends as read or reconciled as its report says, its last event agreeing with it if it was updated; all other rows are as before, and no intent or exchange id is lost |
| AccountSnapshots.PublishAccounts | apps/execution-service/src/reconciliationWorker.js:139-168 | Users are dealt with one by one; one who is counted as published was sent a snapshot, nobody was sent two, every snapshot holds that user's own balances, and published plus errors are all users |
| AccountSnapshots.NormalizeAccountBalances | apps/execution-service/src/reconciliationWorker.js:230-240 | The balances with an asset, in their order, with the asset in upper case and 0 for an amount that is missing or no decimal |
| ReconciliationCycle.NextCycleChangesNothing | apps/execution-service/src/reconciliationWorker.js:279-301 | With the same answers of the exchange the next cycle selects the same trades and changes nothing, with the same exact exception, and the one after never does |
| ReconciliationCycle.TradesUsedMean | apps/execution-service/src/reconciliationWorker.js:279-301 | The trades fetched are used if there is an exchange id other than zero and a positive executed quantity, and none otherwise |
| Gateway.EverySubmitHasItsRow | apps/backend/src/index.js:602-758 | In every run of concurrent requests, retries after failed appends, duplicates and other writers, every submit entry has a stored row under its order id with the same user, symbol, side, type, time in force and amounts |
| Gateway.IntentsStay | apps/backend/src/index.js:644-738 | No step deletes a row or rewrites what the user asked for |
| Gateway.RequestsKeepExchangeIds | apps/backend/src/index.js:706-738 | No request drops a recorded exchange id, although a retry may set a submitted order's status back to received |
| Gateway.RowIsFoundWhenTidy | apps/backend/src/index.js:607-613 | The entry of a request names its row exactly when order id and user id have no white space around them |
| Gateway.CancelEntriesAreNoSubmits | apps/backend/src/orderStreamProducer.js:81-176 | The entries of the cancel endpoints are no submits to their consumer |
| GatewayService.OrderTable.PostOrder | apps/backend/src/index.js:602-758 | With others acting before every call, the response is determined by the request, the rows and the fates of its calls: bad request, conflict (a row of a different intent), repeated with its status, append failed, server error, accepted. An accepted request has its entry in the stream and a row that says what the request asks for, part by part; neither conflicts, repeats nor bad requests append |
| GatewayService.OrderTable.PersistAndAppend | apps/backend/src/index.js:644-747 | The same from the draft on |
| GatewayService.OrderTable.Persist | apps/backend/src/index.js:644-682 | The append goes ahead exactly on a fresh row or on a row of the same intent left behind by a failed append; a row of a different intent is a conflict, any other one is reported with its status |
| GatewayService.OrderTable.SubmitsHaveRows | apps/backend/src/index.js:602-758 | The table's own submit entries all have their rows |
| OrderDraft.EntryMeansRow | apps/backend/src/orderStreamProducer.js:21-79 | The entry of a draft is, to its consumer, the order its row stores: same amounts, symbol, side, type and time in force, with the ids trimmed |
| OrderDraft.DraftStoresRequest | apps/backend/src/orderStreamProducer.js:21-79 | The stored intent is what the request asks for: user, symbol, side, type with its one alias, each decimal from its own field, and the time in force with its default |
| OrderDraft.AcceptedRequest | apps/backend/src/orderStreamProducer.js:213-244 | An accepted request has a symbol, a side, one size for market orders and a quantity for all others, and the prices and time in force its type needs, all positive |
| OrderDraft.SameIntentMeansEqual | apps/backend/src/orderStreamProducer.js:186-201 | A repeated request is taken for the same exactly when it would store the same intent |
| CancelEndpoints.CancelOrder | apps/backend/src/index.js:497-599 | The response is determined by path, row and the fates of the calls: blank id, missing or foreign order, cancellation under way, not cancelable, and otherwise requested or append failed; an error only if a call of the store failed. A command is appended only for the user's own open order, after its row and an event say the cancellation was requested; a refused request changes nothing; after a failed append the row says so if the calls succeed; no other row is ever touched |
| CancelEndpoints.CancelOpenOrders | apps/backend/src/index.js:406-494 | One command for exactly the user's open orders of the symbol, each requested with its event before the append; after a failed append each of them is requested or marked as failed, in its row and in its last event, and all are marked if the calls succeed; no other row is ever touched, and it fails only if a call fails |
| CancelEndpoints.RequestCancel | apps/backend/src/index.js:427-438 | Row, then event, of a requested cancellation |
| CancelEndpoints.RecordAppendFailure | apps/backend/src/index.js:567-577 | The failed append is recorded in the row and an event, both if the calls succeed, and nowhere else |
| CancelEndpoints.CancelEntryNamesOrder | apps/backend/src/orderStreamProducer.js:81-129 | The entry of a cancel is, to its consumer, a cancel of that order of that user in that symbol |
| Sessions.FamiliesAreChains | apps/backend/src/authService.js:59-74 | In every reachable state of logins, refreshes and logouts each family is one linear chain |
| Sessions.ExactlyOneTail | apps/backend/src/authService.js:196-246 | Exactly one session of a family is unrotated: its tail |
| Sessions.RotatedHasSuccessor | apps/backend/src/authService.js:196-246 | A rotated session's replacement is the one session whose parent it is |
| Sessions.ChainHasOneUser | apps/backend/src/authService.js:59-74 | All sessions of a family have one user |
| Sessions.DeadFamiliesStayDead | apps/backend/src/authService.js:142-153 | Once a family's tail is revoked, no later step gives the family an active session |
| Sessions.ReuseRevokesFamily | apps/backend/src/authService.js:142-153 | Reuse detection revokes every session of the family |
| Sessions.RevokedTailKillsFamily | apps/backend/src/authService.js:248-285 | Expiry or logout of the current token revokes the tail |
| Sessions.OneRotationPerToken | apps/backend/src/authService.js:196-246 | However many requests present a token, at most one rotates it |
| Sessions.OneWinnerPerToken | apps/backend/src/authService.js:196-246 | Two requests that rotated the same token are one request, with one successor |
| Sessions.IdentityStays | apps/backend/src/authService.js:196-246 | User, family, parent and expiry of a session never change |
| SessionService.SessionTable.RefreshAuthSession | apps/backend/src/authService.js:155-246 | With others acting before every call, the row read at one point of the history decides: none is invalid, a rotated unrevoked one is reuse and the whole family is revoked, a revoked one is refused, an expired one is revoked as expired, and any other is rotated into a fresh session of the same family and user unless it is no longer active when it is claimed, which is reuse. A token rotated before the call always ends revoked |
| SessionService.SessionTable.CreateFamily | apps/backend/src/authService.js:59-74 | A login adds one session under a fresh id, the start of a family of its own |
| SessionService.SessionTable.ClaimCreateLink | apps/backend/src/authService.js:196-237 | The transaction succeeds exactly on an active row, and then claims it, creates its successor and links the two |
| SessionService.SessionTable.LogoutRefreshSession | apps/backend/src/authService.js:248-285 | Logging out by token succeeds exactly if its row was there when it was looked up, and leaves the session revoked, and its family dead if it was the current one; by session id it leaves that session revoked |
| SessionService.SessionTable.RevokeReusedFamily | apps/backend/src/authService.js:142-153 | Exactly the unrevoked sessions of the family become revoked, for reuse and at this time; no other session changes |
| Positions.PositionStore.ApplyFill | apps/execution-service/src/index.js:515-571 | Exactly the row of user and upper-cased symbol changes, and only for positive sizes and BUY or SELL in any case: a buy adds the quantity and averages the price over both parts, a sale takes at most what is held, realises price minus average on it, and deletes the row when nothing is left |
| Positions.AverageMeans | apps/execution-service/src/index.js:541-546 | The average times both quantities is what both parts cost |
| Positions.BooksBalance | apps/execution-service/src/index.js:515-571 | For every run of fills: quantity is positive while the row exists, quantity times average price = bought notional - notional sold + realised profit since the row was created, and the average lies between the lowest and highest buy price |
| Positions.SplitFillChangesNothing | apps/execution-service/src/index.js:515-571 | Anywhere in a run, splitting a fill at one price changes nothing |
| Positions.SwappedBuysChangeNothing | apps/execution-service/src/index.js:515-571 | Anywhere in a run, swapping two adjacent buys changes nothing |

## Left out

- Gateway.EverySubmitHasItsRow: assumes order and user ids without surrounding white space; `Gateway.RowIsFoundWhenTidy` shows the condition is needed.
- StreamSettling.FaultFreeRunsSettle: counts deliveries, not time; that the loop keeps turning and that entries become idle is not modelled.
- Inside one call of an order processor, of the reconciliation of one order or of a cancel endpoint nobody else writes the order table, so the statements about the rows such a call leaves behind hold for undisturbed calls; the placement bound, the stream results, the reconciliation cycle and the submit endpoint cover other writers at any point. Other writers are taken to delete no order, which nothing in the repository does.
- Time: timestamps, stale and idle thresholds, the order of queries by time and the average-price minutes of filters; where time selects rows or entries, any selection is allowed.
- JSON, the date parser and the clock are parameters of the stream contract; serialised metadata objects are taken to parse back to themselves and the clock to yield timestamps (`StreamContracts.SoundIsPossible` shows that this can be met, and `StreamContracts.SoundClockWorks` that it is all the consumer asks of the clock).
- The decimal library is a parameter that reads plain decimal strings exactly (`ExchangeRequest.ExactIsPossible` shows that this can be met); its rounding in divisions and the precision of database columns are not modelled.
- Numbers in request bodies and replies that are not integers or decimals count as missing.
- Whether the filters pass in `POST /orders` is a parameter; that check's own failure is not modelled.
- Trimming and upper-casing cover ASCII only.
- Redis is taken to give every stream entry an id of its own that is not blank.
- Database isolation finer than one call or one transaction, and consumers running in parallel; the older command channel, which is off by default, would be a second consumer.
- Symbol and exchange metadata caches, rate limits and user data streams.
- Cryptography, cookies, password checks and HTTP plumbing; tokens, hashes and generated ids are fresh distinct values.
- The redaction of secrets in error texts and the JSON text of a dead letter's payload, which carries the command itself instead.
- Error codes besides the error message, client order ids of published messages, and log output.
- The frontend, event scoping, realtime payload validators and deployment files.
