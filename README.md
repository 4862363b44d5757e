# Cabs: money, distance, transits, contracts, driver fees and licences

This project is a Dafny model of the domain core of the Cabs taxi application, a PHP code base. It covers the following parts:

- **Money** (`money.dfy`): an immutable whole number of currency units. It can add, subtract, take a rounded percentage, take the largest of several amounts, and render `<amount>.00`.
- **Distance** (`distance.dfy`): an immutable number of kilometres. It formats as kilometres, miles or metres, and refuses any other unit.
- **Driver licence** (`driver_license.dfy`): a licence number. It is either checked against the 16-character pattern `[A-Z9]{5}\d{6}[A-Z9]{2}\d[A-Z]{2}` or taken without validation.
- **Transit** (`transit.dfy`): one ride as a class whose methods change its fields in place. This covers its status, pickup and destination, distance, estimated and final price, proposed drivers, and the two counters (pickup changes and awaited driver responses).
- **Contract and ContractAttachment** (`contract.dfy`): a contract negotiated with a partner, and the attachments proposed under it. An attachment moves from proposed to accepted by one side, then to accepted by both sides; it can also be rejected. A contract can be accepted once every attachment is accepted by both sides.
- **ContractService** (`contract_service.dfy`): the same operations driven through two repositories. Here the repositories are maps from id to entity.
- **DriverFee and DriverFeeService** (`driver_fee.dfy`, `driver_fee_service.dfy`): a driver's fee rule (flat or percentage, with an optional minimum), and what the driver earns on a transit.
- **Task-contract state table** (`offer_is_cheaper_than.dfy`, `task_contract_state.dfy`): the states of a task contract and the changes allowed between them. Four of those changes are open only when the offer's price is below a configured amount.

Error cases return a `Result`. The `Error` value says which PHP exception the code raises: `InvalidArgument`, `Runtime`, or `TypeError`, and `TypeError` also stands for PHP's `ArgumentCountError`.

Types are mapped as follows:
- Dates are integer seconds.
- Kilometres are exact reals.
- Drivers, clients and addresses are referred to by identity only.

The tariff in force for a transit is a `real -> Money` function (`Transit.Tariff`) given to the transit's constructor.

## Model

| member | source | states |
|---|---|---|
| Money.From | src/VO/Money.php:13-16 | `from`; FromToInt states its round trip. |
| Money.Zero | src/VO/Money.php:18-21 | `zero`; ZeroToInt states its amount. |
| Money.ToInt | src/VO/Money.php:51-54 | `toInt`; FromToInt and ZeroToInt state it. |
| Money.Add | src/VO/Money.php:23-26 | `add`; AddSubInverse states it is undone by `sub`. |
| Money.Sub | src/VO/Money.php:28-31 | `sub`; AddSubInverse states it undoes `add` and may go negative. |
| Money.Percentage | src/VO/Money.php:33-36 | `percentage`: RoundHundredth of amount × percentage; PercentageIdentities and PercentageExamples state it. |
| Money.RoundHundredth | src/VO/Money.php:35 | The result is the integer nearest to n/100, with halves rounded away from zero, as PHP's `round`. |
| Money.RoundHundredthUnique | src/VO/Money.php:35 | That characterisation determines the rounding uniquely. |
| Money.FromToInt | src/VO/Money.php:13-16 | `from(n)->toInt()` is n for every integer. |
| Money.ZeroToInt | src/VO/Money.php:18-21 | `zero()->toInt()` is 0. |
| Money.AddSubInverse | src/VO/Money.php:23-31 | Subtraction undoes addition and vice versa, with no clamping: `a - b` is negative when a < b. |
| Money.PercentageIdentities | src/VO/Money.php:33-36 | `percentage(100)` is the same amount and `percentage(0)` is zero. |
| Money.PercentageExamples | Unit/MoneyTest.php:50-51 | 10% of 100 is 10; 2% of 50 is 1 (not the 4 the test expects). |
| Money.MaxOf | src/VO/Money.php:41-47 | PHP's variadic `max` on a non-empty list returns an element of the list that no element exceeds. |
| Money.Max | src/VO/Money.php:38-49 | `max(...others)` is this value or one of the others, and at least as large as each. |
| Money.MaxOfNone | src/VO/Money.php:38-49 | The corrected `max` with no others is this value. |
| Money.MaxAsWritten | src/VO/Money.php:38-49 | As the code calls PHP's `max`: a TypeError exactly when there are no others, otherwise the same as `Max`. |
| Money.MaxAsWrittenFailsWithNoOthers | src/VO/Money.php:41-47 | With no others the call fails with a TypeError. |
| Money.ToString | src/VO/Money.php:56-59 | The text ends in ".00" and starts with '-' exactly for negative amounts. |
| Money.ToStringRoundTrip | src/VO/Money.php:56-59 | The text before ".00" reads back as the amount, so the amount is not divided by 100. |
| Money.ToStringExamples | Unit/MoneyTest.php:59-60 | 10 renders as "10.00" and 123 as "123.00". |
| Distance.OfKm | src/VO/Distance.php:15-18 | `ofKm`; OfKmRoundTrip states its round trip. |
| Distance.Zero | src/VO/Distance.php:20-23 | `zero`; OfKmRoundTrip states it is 0 km. |
| Distance.ToKmAsFloat | src/VO/Distance.php:25-28 | `toKmAsFloat`; OfKmRoundTrip states it. |
| Distance.OfKmRoundTrip | src/VO/Distance.php:15-28 | `ofKm(x)->toKmAsFloat()` is x, and `zero()` is 0 km. |
| Distance.Ceil | src/VO/Distance.php:33 | PHP's `ceil`: the least integer not below x. |
| Distance.Round | src/VO/Distance.php:34 | PHP's `round`: the nearest integer, with halves rounded away from zero. |
| Distance.Fixed3 | src/VO/Distance.php:37 | `%.3f`: a leading '-' exactly for negatives, and '.' followed by three digits at the end; Fixed3Accuracy states the digits of the whole part and the value. |
| Distance.Fixed3Accuracy | src/VO/Distance.php:37 | The three-decimal text reads back within 0.0005 of the number. |
| Distance.FormatAs | src/VO/Distance.php:30-52 | Fails with InvalidArgument "Invalid unit " + unit exactly when the unit is not km, miles or m. |
| Distance.FormatIntegralKm | src/VO/Distance.php:32-35 | An integral number of kilometres prints as that integer followed by "km". |
| Distance.FormatFractionalKm | src/VO/Distance.php:36-37 | A non-integral number of kilometres prints with three decimals. |
| Distance.FormatIntegralMiles | src/VO/Distance.php:39-43 | A whole number n of miles (km / 1.609344) prints as n followed by "miles". |
| Distance.FormatFractionalMiles | src/VO/Distance.php:39-45 | Any other number of miles prints with three decimals followed by "miles". |
| Distance.FormatMetres | src/VO/Distance.php:47-49 | Metres print as the integer nearest to km × 1000, halves away from zero, followed by "m". |
| Distance.FormatKmExample | tests/Unit/DistanceTest.php:34-37 | 100 km formats as "100km". |
| Distance.FormatMilesExample | tests/Unit/DistanceTest.php:39-42 | 100 km is "62.137miles", dividing by 1.609344. |
| Distance.FormatMetresExample | tests/Unit/DistanceTest.php:15-20 | 100 km is "100000m", and the unit "ultra meters" is refused. |
| DriverLicense.WithLicense | src/Entity/DriverLicense.php:18-25 | Succeeds exactly when the whole string matches the pattern. It then stores the string; otherwise it fails with "Illegal license no = " + s. |
| DriverLicense.WithLicenseAsWritten | src/Entity/DriverLicense.php:12 | As the pattern is written (no D modifier): also succeeds on a match followed by one final newline. |
| DriverLicense.WithoutValidation | src/Entity/DriverLicense.php:27-30 | `withoutValidation` stores any string; ToStringRoundTrip states it comes back unchanged. |
| DriverLicense.ToString | src/Entity/DriverLicense.php:32-35 | `__toString`; ToStringRoundTrip states it returns the stored number. |
| DriverLicense.MatchesPositionwise | src/Entity/DriverLicense.php:12 | Matching the pattern means one character per class, each character in its class. |
| DriverLicense.AcceptedShape | src/Entity/DriverLicense.php:12 | An accepted licence has 16 characters: five of [A-Z9], six digits, two of [A-Z9], a digit and two of [A-Z]. |
| DriverLicense.EmptyLicenseRejected | src/Entity/DriverLicense.php:20-22 | The empty string is refused with message "Illegal license no = ". |
| DriverLicense.ToStringRoundTrip | src/Entity/DriverLicense.php:27-35 | `__toString` returns the stored number through either factory. |
| DriverLicense.SampleMatches | tests/Common/Fixtures.php:62 | "FARME100165AB5EW" fits the pattern. |
| DriverLicense.SampleAccepted | tests/Common/Fixtures.php:62 | "FARME100165AB5EW" is accepted. |
| DriverLicense.InvalidSampleRejected | tests/Integration/ValidateDriverLicenceIntegrationTest.php:102-108 | "invalid license number" is refused with the message the test expects. |
| DriverLicense.TrailingNewlineAccepted | src/Entity/DriverLicense.php:12 | The pattern as written accepts "FARME100165AB5EW\n". |
| DriverLicense.TrailingNewlineRefused | src/Entity/DriverLicense.php:12 | The corrected check refuses it. |
| DriverLicense.AsWrittenAgreesWithoutFinalNewline | src/Entity/DriverLicense.php:12-25 | Both checks agree on every string that does not end in a newline. |
| OfferIsCheaperThan.Test | src/Contracts/Model/State/Dynamic/Config/Predicates/StateChange/OfferIsCheaperThan.php:16-19 | `test`, with EqualPriceFails, CommandIrrelevant and MonotoneInAmount as its properties. |
| OfferIsCheaperThan.EqualPriceFails | src/Contracts/Model/State/Dynamic/Config/Predicates/StateChange/OfferIsCheaperThan.php:18 | A price equal to the amount fails; the comparison is strict. |
| OfferIsCheaperThan.CommandIrrelevant | src/Contracts/Model/State/Dynamic/Config/Predicates/StateChange/OfferIsCheaperThan.php:16-19 | The result does not depend on the command. |
| OfferIsCheaperThan.MonotoneInAmount | src/Contracts/Model/State/Dynamic/Config/Predicates/StateChange/OfferIsCheaperThan.php:18 | True for an amount implies true for every larger amount. |
| TaskContractState.Assemble | src/Contracts/Model/State/Dynamic/Task/TaskContractStateAssembler.php:26-53 | The configuration starts in pre-offer. A change is allowed exactly when the reference table `Step` allows it for the offer's price. |
| TaskContractState.TableAllowsOnlySteps | src/Contracts/Model/State/Dynamic/Task/TaskContractStateAssembler.php:32-53 | Every listed edge whose guard holds is a change of the reference table. |
| TaskContractState.TableAllowsEveryStep | src/Contracts/Model/State/Dynamic/Task/TaskContractStateAssembler.php:32-53 | Every change of the reference table is a listed edge whose guard holds. |
| TaskContractState.AssembleAsWritten | src/Contracts/Model/State/Dynamic/Task/TaskContractStateAssembler.php:26-54 | As written: there is no return statement, so every call fails with a TypeError. |
| TaskContractState.GuardedEdges | src/Contracts/Model/State/Dynamic/Task/TaskContractStateAssembler.php:48-53 | From pre-offer or discounted, accepted-by-client and sold are open exactly when the price is below the amount. |
| TaskContractState.FinalStates | src/Contracts/Model/State/Dynamic/Task/TaskContractStateAssembler.php:34-53 | Rejected by manager, rejected by client and sold have no outgoing change. |
| TaskContractState.BeforeApproval | src/Contracts/Model/State/Dynamic/Task/TaskContractStateAssembler.php:32-53 | Without the guarded edges, a run stays among pre-offer, discounted and rejected-by-manager until approval. |
| TaskContractState.SoldOnlyThroughApproval | src/Contracts/Model/State/Dynamic/Task/TaskContractStateAssembler.php:38-53 | When the offer is not cheaper than the amount, every run ending in sold passes through approved-by-manager. |
| TaskContractState.CheapOfferSoldDirectly | src/Contracts/Model/State/Dynamic/Task/TaskContractStateAssembler.php:51 | A cheap offer can go from pre-offer straight to sold. |
| TaskContractState.EveryStateReachable | src/Contracts/Model/State/Dynamic/Task/TaskContractStateAssembler.php:14-53 | Every state is reachable from pre-offer, whatever the price. |
| Transit.ParseStatus | src/Entity/Transit.php:231-245 | A string names a status exactly when it is one of the seven constants, and then it names that status. |
| Transit.ParseStatusName | src/Entity/Transit.php:22-28 | Each status constant reads back as its own status, so the seven constants are distinct. |
| Transit.Transit.constructor | src/Entity/Transit.php:120-138 | A new transit is a draft for the given distance. Nothing is priced yet, there is no driver, and both counters are 0. |
| Transit.Transit.CalculateCost | src/Entity/Transit.php:392-397 | The price becomes the tariff's cost for the current kilometres. |
| Transit.Transit.EstimateCost | src/Entity/Transit.php:370-381 | Fails exactly for a completed transit, changing nothing. Otherwise the estimate is the tariff's cost and the price is cleared. |
| Transit.Transit.CalculateFinalCosts | src/Entity/Transit.php:383-390 | Succeeds exactly for a completed transit, whose price becomes the tariff's cost. |
| Transit.Transit.ProposeDriver | src/Entity/Transit.php:140-144 | Appends the driver and adds exactly one awaited response. The transit is then awaiting responses exactly when more than four are pending. |
| Transit.Transit.DriverAssignmentFailed | src/Entity/Transit.php:146-153 | Marks the failure, drops the driver and the distance, and re-estimates at 0 km. Nobody is awaited afterwards. |
| Transit.Transit.Publish | src/Entity/Transit.php:155-159 | The transit waits for a driver, published at the given time. |
| Transit.Transit.Cancel | src/Entity/Transit.php:161-182 | Succeeds exactly from draft, waiting-for-driver or transit-to-passenger. The transit is then cancelled, without driver, at 0 km, and estimated at the cost of 0 km. Otherwise nothing changes. |
| Transit.Transit.ChangeDestination | src/Entity/Transit.php:184-192 | Fails only for a completed transit, changing nothing. Otherwise it records the new address and distance and re-estimates. |
| Transit.Transit.ChangePickupAddress | src/Entity/Transit.php:194-219 | Succeeds exactly for a draft, a shift of at most 0.25 km, and a counter of at most 2. Each success adds one to the counter, which never exceeds 3; a failure changes nothing. |
| Transit.Transit.SetStatus | src/Entity/Transit.php:231-245 | Accepts exactly the seven status names; any other string fails and leaves the status as it was. |
| Transit.Transit.SetKm | src/Entity/Transit.php:317-321 | Always records the distance, then re-estimates. The re-estimate fails for a completed transit, which keeps its prices. |
| Transit.Transit.IsAwaitingForDriversResponses | src/Entity/Transit.php:434-437 | More than four responses are awaited; ProposeDriver states when it becomes true. |
| Transit.Transit.IsWaitingForDriverAssignmentTooLong | src/Entity/Transit.php:439-442 | Published more than 300 s before now, or cancelled; TooLongStaysTooLong and TooLongWithinTimeout state its properties. |
| Transit.TooLongStaysTooLong | src/Entity/Transit.php:439-442 | Once driver assignment takes too long, it stays so at every later time. |
| Transit.TooLongWithinTimeout | src/Entity/Transit.php:439-442 | Within 300 seconds of publication, only a cancelled transit counts as waiting too long. |
| Transit.ThreePickupChangesAtMost | src/Entity/Transit.php:209-218 | A fresh draft accepts three pickup changes and refuses the fourth. |
| Contract.AcceptedStatus | src/Entity/ContractAttachment.php:86-93 | One more acceptance gives both-sides exactly from one-side or both-sides, and one-side exactly from proposed or rejected. |
| Contract.ContractNumber | src/Entity/Contract.php:59 | The number is "C/", then the count in decimal, then "/", then the partner name. |
| Contract.ContractNumberInjective | src/Entity/Contract.php:59 | For one partner, different counts give different numbers. |
| Contract.AcceptTwiceReachesBothSides | src/Entity/ContractAttachment.php:86-93 | Two acceptances take a proposed or rejected attachment to both-sides, via one-side. |
| Contract.AcceptanceStable | src/Entity/ContractAttachment.php:88-89 | Acceptance is idempotent at both-sides and never leads to proposed or rejected. |
| Contract.ContractAttachment.constructor | src/Entity/ContractAttachment.php:34-44 | A new attachment is proposed and stores the given contract and data, with no dates set. |
| Contract.ContractAttachment.Reject | src/Entity/ContractAttachment.php:81-84 | Rejected from any status; only the status changes. |
| Contract.ContractAttachment.Accept | src/Entity/ContractAttachment.php:86-93 | The status becomes `AcceptedStatus` of the old one; only the status changes. |
| Contract.Contract.constructor | src/Entity/Contract.php:44-60 | A new contract is in negotiation, with no attachments and no dates set, numbered `C/<count>/<partner>`. |
| Contract.Contract.Accept | src/Entity/Contract.php:107-116 | Accepted exactly when every attachment is accepted by both sides, which holds vacuously with none. Otherwise a RuntimeException, with the status unchanged. |
| Contract.Contract.Reject | src/Entity/Contract.php:118-121 | Rejected from any status. |
| Contract.Contract.ProposeAttachment | src/Entity/Contract.php:123-134 | Fails unless in negotiation. Otherwise it appends exactly one fresh attachment, proposed, carrying the data and this contract; earlier attachments are left untouched. |
| Contract.Negotiate | src/Entity/Contract.php:107-134 | A new contract with one attachment, accepted twice, can itself be accepted. |
| ContractService.SubsetOfSameSize | src/Service/ContractService.php:38 | A subset of the same size is the whole set; this is the fact behind the count comparison. |
| ContractService.ContractService.CountsAgree | src/Service/ContractService.php:37-38 | The filtered count equals the total exactly when every attachment of the contract is accepted by both sides. |
| ContractService.ContractService.Find | src/Service/ContractService.php:67-75 | Succeeds exactly for a stored id and returns that contract; otherwise InvalidArgument "Contract does not exist". |
| ContractService.ContractService.CreateContract | src/Service/ContractService.php:23-32 | Stores one new contract under a new id. It is in negotiation and numbered with the partner's count of stored contracts plus one. |
| ContractService.ContractService.AcceptContract | src/Service/ContractService.php:34-43 | Accepted exactly when the contract exists and each of its stored attachments is accepted by both sides. Otherwise a RuntimeException with the status unchanged, or "Contract does not exist". |
| ContractService.ContractService.RejectContract | src/Service/ContractService.php:45-49 | Rejected whatever the status; fails only for a missing contract. |
| ContractService.ContractService.RejectAttachment | src/Service/ContractService.php:51-55 | The attachment is rejected whatever its status. |
| ContractService.ContractService.AcceptAttachment | src/Service/ContractService.php:57-65 | The attachment moves by the same rule as its own `accept`. |
| ContractService.ContractService.ProposeAttachment | src/Service/ContractService.php:82-98 | Fails unless the contract exists and is in negotiation. Otherwise it stores one new proposed attachment with the data and appends it to the contract's list. |
| ContractService.ContractService.ProposeAttachmentAsWritten | src/Service/ContractService.php:82-98 | As written: a TypeError exactly when the contract exists and is in negotiation; otherwise the same errors. |
| ContractService.ContractService.RemoveAttachment | src/Service/ContractService.php:100-104 | Removes the id from the attachment repository and nothing else, whichever contract owns it. |
| ContractService.RemovedAttachmentNotCounted | src/Service/ContractService.php:37-38 | A removed attachment no longer counts for `acceptContract`. |
| DriverFee.DriverFee.constructor | src/Entity/DriverFee.php:29-35 | Stores type, driver and amount as given. No minimum stays absent; an integer minimum m becomes money whose `toInt()` is m. |
| DriverFee.DriverFee.SetType | src/Entity/DriverFee.php:42-45 | Sets the type and nothing else. |
| DriverFee.DriverFee.SetDriver | src/Entity/DriverFee.php:52-55 | Sets the driver and nothing else. |
| DriverFee.DriverFee.SetAmount | src/Entity/DriverFee.php:62-65 | Sets the amount and nothing else. |
| DriverFee.DriverFee.SetMin | src/Entity/DriverFee.php:72-75 | Sets the minimum and nothing else. |
| DriverFeeService.ComputeFee | src/Service/DriverFeeService.php:35-41 | The fee is the rule's fee or the floor (the minimum, or 0 without one), whichever is larger. |
| DriverFeeService.FeeBounds | src/Service/DriverFeeService.php:41 | Without a minimum the fee is never negative; with one, never below it. |
| DriverFeeService.FeeAboveFloor | src/Service/DriverFeeService.php:35-39 | Above the floor, a flat fee is price minus amount; any other type gives the rounded percentage of the price. |
| DriverFeeService.FeeExamples | tests/Integration/CalculateDriverFeeIntegrationTest.php:25-65 | On a price of 100: flat 10 gives 90, 20% gives 20, and 5% with minimum 10 gives 10. |
| DriverFeeService.CalculateDriverFee | src/Service/DriverFeeService.php:21-42 | A missing transit or a missing fee rule fails with the code's messages. A recorded drivers fee is returned as is; otherwise the driver's rule applies to the transit's price. |

## Left out

- The awarded-miles ledger (`AwardsAccount`, `AwardedMiles`) is not part of this model; its implementation is not available.
- Persistence, SQL, HTTP controllers and DTOs are not modelled. The repositories are maps from id to entity, and one counter hands out new ids.
- Tariff: how a tariff is chosen for a time and how it computes a cost is not part of this model. A transit carries the cost function it was created with, and `setDateTime`, which re-chooses the tariff, is not modelled.
- Transit imports `Distance` and `Money` from the `Distance` and `Money` namespaces, which are not part of this model. Their `toKmInFloat` is taken to be the kilometre value that `Distance.ToKmAsFloat` gives, and Transit's price, estimated price and drivers fee are taken to be the `VO\Money` value modelled here, which is the class the `money` column type hydrates (src/Infrastructure/Doctrine/Types/MoneyType.php).
- Floating point: kilometres, miles and the 0.25 km threshold are exact reals. IEEE-754 rounding and `sprintf` tie behaviour are not modelled, and neither is PHP's integer overflow to float.
- DateTimeImmutable values are integer seconds. `new \DateTimeImmutable()` (the clock) is a `now` or `creationDate` parameter.
- Transit's exception messages that end in `id = ` + the transit id carry no id, since a transit's id is not modelled; `estimateCost` passes the id as the exception code, not in the message.
- Transit.Transit.ChangePickupAddress: the code's second check (refusing a transit waiting for a driver) can never fire after the draft check. The model keeps it in the same condition, where it changes nothing.
- Getters (of Transit, Contract, ContractAttachment and DriverFee) are field reads, and the other Transit setters (`setDriver`, `setPrice`, `setDriversFee`, `setCompleteAt`, `setAwaitingDriversResponses`) are field assignments. These are not separate members.
- The other Transit operations (payment statuses, driver rejections, start and completion dates) are outside this model.
- ContractService calls `setStatus`, `setContract`, `setData` and `setAttachments`, which the shown entities do not declare. The model writes those fields directly.
- DriverFeeService.CalculateDriverFee takes the fee repository as a map keyed by driver, standing for `findByDriver`; it requires a transit without a recorded fee to have a driver, and to have a price when that driver has a fee rule. The code would otherwise dereference null.
- ContractService.ContractService.RejectAttachment and ContractService.ContractService.AcceptAttachment require the attachment id to be stored. The code would otherwise call a method on null.
- Transit.Transit.IsWaitingForDriverAssignmentTooLong requires a publication time, for the same reason.
- The state builder and state configuration behind `assemble` are not part of this model. An edge is taken to be allowed when it is listed and its guard holds.
- Money.PercentageExamples: the unit test expects 2% of 50 to be 4. The code computes `round(50 * 2 / 100)` = 1, and the model follows the code.

## Findings

| source | as written | input that shows it | evidently intended | confidence | as-written member | corrected member |
|---|---|---|---|---|---|---|
| src/VO/Money.php:38-49 | `max(...$others)` passes `$this->amount` alone to PHP's `max` when there are no others; under strict types that is a TypeError | `Money::from(5)->max()` | the largest of this value and the others, i.e. this value when there are none | medium, not executed | Money.MaxAsWritten, Money.MaxAsWrittenFailsWithNoOthers | Money.Max, Money.MaxOfNone |
| src/Entity/DriverLicense.php:12 | the pattern ends in `$` without the D modifier, so it also matches before a final newline | `"FARME100165AB5EW\n"` is accepted | only 16-character licence numbers are accepted | high, not executed | DriverLicense.WithLicenseAsWritten, DriverLicense.TrailingNewlineAccepted | DriverLicense.WithLicense, DriverLicense.TrailingNewlineRefused |
| src/Contracts/Model/State/Dynamic/Task/TaskContractStateAssembler.php:26-54 | `assemble(): StateConfig` has no return statement, so every call raises a TypeError | any amount | return the configuration the builder calls describe | high, not executed | TaskContractState.AssembleAsWritten | TaskContractState.Assemble |
| src/Service/ContractService.php:90 | `new ContractAttachment()` passes no arguments to a constructor that requires the contract and the data, raising an ArgumentCountError | any contract in negotiation | build the attachment with the contract and the data, as `Contract::proposeAttachment` does at src/Entity/Contract.php:129 | high, not executed | ContractService.ContractService.ProposeAttachmentAsWritten | ContractService.ContractService.ProposeAttachment |
