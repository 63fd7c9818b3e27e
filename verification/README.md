# Verified model of a loan-application back end

A Dafny model of the parts of the back end that decide something over time, with
proofs of what they promise. `dafny verify dfyconfig.toml` covers the whole project.

| files | component |
|---|---|
| `DripSchedule`, `DripSorting`, `DripRules`, `DripTermination`, `DripIntakePlan`, `DripRoundCap`, `DripSparse`, `DripSparseSchedule`, `DripBusyDays`, `DripTrail`, `DripGrid` | the scheduler that turns nine ideal slots into send times |
| `ActionLinks`, `LinkProtocol`, `LinkDecisions`, `LinkLedger`, `LinkUniqueness`, `DepositAttempts`, `DepositOvershoot` | one-time borrower links and the micro-deposit confirmation, under every interleaving |
| `LoanStatus`, `LoanWorkflow`, `LoanInvariants`, `LoanRecords` | the status table, the actions that write a status, what every run of them keeps, and what the record says was done |
| `DripCancellation`, `DripStability`, `DripOutcomes` | eager teardown and lazy re-check of the reminder sequences, and what their rows say |
| `AdminSessions`, `SessionRuns`, `SessionUse`, `SignInLockout` | admin sessions, refresh rotation, reuse detection, the failure counter |
| `IntakeBlocking`, `IntakeRefusals`, `IntakeDuplicates` | what turns a submission away, and the soft duplicate flag |
| `EmailTypo`, `Amortisation` | edit distance with nearest-domain search, the monthly payment |

## How it is modelled

Time is an integer number of milliseconds and a time zone is a fixed offset, so local
time is `t + zone` and the weekday a division. A token is a fresh number and its hash
is injective, so hash columns hold the number itself. One database statement is one
step. Code that updates rows, arrays or counters in place is a class or an array
method whose postcondition ties the new state to a function of the old one; runs are
then sequences of requests applied to that function.

`LinkProtocol` is the only concurrent model, because the link table is the only place
where the code relies on a conditional update: each request carries a stage, a step of
any request may come next, and a step that is not enabled leaves the system alone, so
every sequence of steps is a run. Elsewhere calls are served one at a time.

## Where the code and its comments differ

The model follows the code.

* `DECLINED` is a universal exit of the status table (line 35 of
  `application-status.machine.ts`), although the comments above it and at
  `application-workflow.service.ts` 772-782 say a decline starts at underwriting.
* The scheduler's comment presents the fixpoint as reached because steps only move
  forward. Without the cap that is so (`EveryScheduleSettles`). With the cap of eight
  rounds it is not: for every submission there is a list of transactional sends that
  exhausts it (`CapCanBeExhausted`), and the plan obeys the rules exactly when a quiet
  round is met within nine (`ScheduleObeysRulesIff`). Transactional sends more than
  nine hours apart never need more than five, a single one no more than four
  (`SparseSendsSettle`, `OneSendSettles`), and nine hours is exactly the threshold
  (`NineHoursIsTheThreshold`): sends around 09:00 and 17:00 on the two days after an
  evening submission leave a reminder at 22:00 in the plan (`BusyDaysExhaustTheCap`).
  Intake's own call needs two rounds unless the confirmation falls close to a planned
  send (`IntakeScheduleIsClosedFormIff`).
* The comment of the 90-day cooldown says it is measured from the decision. The date
  told to the applicant is, but the rows are looked up by `created_at`.
  `ReapplyDateIsKeptIff` says exactly when that date is kept, and
  `ReapplyDateCanBeBroken` is a run in which it is not.
* The comment of the expiry sweep says any admin or borrower action resets its clock.
  A save that changes no column issues no statement, so sending the verification link
  or the agreement once more leaves `updated_at` where it was
  (`AcceptedCallStampsIff`, `ResendsDoNotPostponeExpiry`).
* The rule on open funded loans can never block anyone: a funded file is already
  caught as one in flight (`FundedRuleIsNeverReached`).
* A domain on the list of known domains is suggested to itself, at distance zero
  (`ListedDomainSuggestsItself`).
* Suppressing a borrower notice without a reason is reported as an error after the row
  has been committed (`ErrorAfterCommitIff`).
* The send-time job never reads the status of its own row, so a cancelled step is sent
  when the rules that cancelled it no longer hold (`CancelledRowIsSentIff`,
  `LiftedSuppressionSends`). Only lifting a suppression can make that happen; the
  repository defines that operation but nothing in it calls it.
* A link that has been superseded can still be claimed, and its action completed, by a
  request that had read it, and by no other (`SupersededLinkIsClaimedIff`,
  `SupersededLinkCanAct`). Two links of one file can be live at once after a race
  (`RacingIssuesLeaveTwoLinks`, `IssueDuringRedemptionLeavesTwoLinks`), though not
  when issues are atomic and none falls between a claim and its release
  (`OneLiveLinkUnderCare`). Likewise the limit of ten wrong deposit guesses is exact for
  one link and overshot by holders of several (`OneLinkTenGuesses`, `BoundIsAttained`).

## Model

| member | source | states |
|---|---|---|
| DripSchedule.BuildDripSchedule | src/queue/drip/drip.schedule.ts:267-378 | the returned plan is the specified schedule: ideal slots, capped resolving rounds, final sort |
| DripSchedule.ResolveInPlace | src/queue/drip/drip.schedule.ts:324-373 | the in-place loop with its flag and early exit leaves the array as the specified rounds do |
| DripSchedule.ApplyStepRules | src/queue/drip/drip.schedule.ts:329-350 | every send goes once through weekend, quiet-hour and conflict rules, and the flag says whether any send changed |
| DripSchedule.ApplyMinGap | src/queue/drip/drip.schedule.ts:356-370 | each send is pushed to two hours after its already pushed predecessor; the flag says whether any changed |
| DripSchedule.SortInPlace | src/queue/drip/drip.schedule.ts:353-354 | the array becomes its stable sort by send time |
| DripSorting.StableSortSorts | src/queue/drip/drip.schedule.ts:353-375 | the sort orders by time and is a permutation |
| DripSorting.StableSortIsStable | src/queue/drip/drip.schedule.ts:353-375 | sends at one instant keep their order, for every instant |
| DripSorting.SortedListIsUnique | src/queue/drip/drip.schedule.ts:353-375 | with no ties only one list is in order and holds the same sends |
| DripRules.QuietRoundIffRulesHold | src/queue/drip/drip.schedule.ts:326-373 | a round changes nothing if and only if the sorted plan obeys all four rules, pairwise gaps included |
| DripRules.ScheduleObeysRulesIff | src/queue/drip/drip.schedule.ts:324-377 | the returned plan obeys all rules if and only if a quiet round comes within one round more than the cap |
| DripRules.QuietExitObeysRules | src/queue/drip/drip.schedule.ts:262-266 | leaving the loop on a quiet round means all rules hold at once |
| DripRules.ScheduleIsHonest | src/queue/drip/drip.schedule.ts:282-377 | whatever the exit, the plan is sorted, a permutation of the requested slots, never early, and late exactly when the trail grew |
| DripTrail.TrailAccountsForLateness | src/queue/drip/drip.schedule.ts:329-370 | however the loop ends, each send is later than its slot by a day for every weekend shift, two hours for every collision, up to eleven hours for every quiet-hour push and up to sixteen for every gap push in its trail, and by nothing else; only finals are shifted for a weekend |
| DripTermination.StepRulesStayBelow | src/queue/drip/drip.schedule.ts:329-350 | the per-step rules push no send past a safe evening |
| DripTermination.RoundStaysOnLadder | src/queue/drip/drip.schedule.ts:326-371 | a round keeps the k-th earliest send at or before the k-th rung |
| DripTermination.ChangingRoundClimbs | src/queue/drip/drip.schedule.ts:326-371 | a round that changes anything strictly increases the sum of send times |
| DripTermination.UncappedLoopTerminates | src/queue/drip/drip.schedule.ts:259-266 | without the cap the loop settles within an explicit number of rounds, with all rules holding and the k-th send at or before rung k |
| DripTermination.EveryScheduleSettles | src/queue/drip/drip.schedule.ts:259-266 | for every submission time, zone, transactional list and choice of sequences the uncapped loop ends |
| DripTermination.ScheduleStaysOnLadder | src/queue/drip/drip.schedule.ts:324-377 | even a plan cut off by the cap keeps its k-th send at or before rung k |
| DripIntakePlan.FirstRoundSettlesIntake | src/queue/drip/drip.schedule.ts:281-373 | unless a transactional send is within 90 minutes of a planned one, one round reaches the closed form and a second changes nothing |
| DripIntakePlan.IntakeScheduleIsClosedFormIff | src/queue/drip/drip.schedule.ts:267-378 | for any list of transactional sends, intake's plan is the closed-form grid if and only if none is within 90 minutes of its nine times; then two rounds are enough and all rules hold |
| DripIntakePlan.PromptConfirmationIsClear | src/applications/services/application-intake.service.ts:354-389 | a confirmation within half an hour of the submission is clear of the plan, whatever the hour |
| DripTrail.StruckIsMovedAside | src/queue/drip/drip.schedule.ts:344-349 | a planned time of intake within ninety minutes of a transactional send is given up for one at least two hours later, with the collision in the trail |
| DripTrail.CollisionsAreToldIff | src/queue/drip/drip.schedule.ts:344-349 | some trail of the plan returned to intake tells of a collision if and only if one of the nine planned times is struck |
| DripGrid.EveryStepPlannedOnce | src/queue/drip/drip.schedule.ts:74-151 | whatever the input and however the loop ends, a plan has call steps 1 to 3 on days 1 to 3 and bank steps 1 to 6 on days 0, 1, 1, 2, 2 and 3 of the sequences asked for, each exactly once, the third call and the sixth bank step final, and nothing else |
| DripGrid.NoStepTwice | src/queue/drip/drip.schedule.ts:281-377 | no two sends of a plan are the same step of the same sequence |
| DripGrid.IntakeIsOnTimeIff | src/queue/drip/drip.schedule.ts:267-378 | at intake every step goes out when it is due on the borrower's clock (calls at 10:00; bank steps in the evening of day 0 or at 08:00 after it, then 14:30 and 18:00; a Sunday final on Monday) if and only if no transactional send is within ninety minutes of a due time, and then each sequence goes out in the order of its steps |
| DripSparse.BlocksJoin | src/queue/drip/drip.schedule.ts:326-371 | parts of a plan with a gap between their bounds settle as if each were alone |
| DripSparseSchedule.SparseSendsSettle | src/queue/drip/drip.schedule.ts:262-266 | for every submission, zone and choice of sequences, transactional sends more than 9 hours apart leave the loop a quiet round within five, within four when more than 16 hours apart, and all rules hold |
| DripSparseSchedule.OneSendSettles | src/queue/drip/drip.schedule.ts:262-266 | a single transactional send, at any time at all, never defeats the cap |
| DripBusyDays.BusyDaysExhaustTheCap | src/queue/drip/drip.schedule.ts:323-377 | for every submission from 18:00 on, with both sequences and a transactional send within half an hour of 09:00 and of 17:00 on each of the next two days, the loop needs exactly ten rounds and the returned plan has a send at 22:00 |
| DripBusyDays.NineHoursIsTheThreshold | src/queue/drip/drip.schedule.ts:262-377 | sends more than a given distance apart never keep a plan from obeying the rules, whatever the submission, zone and sequences, if and only if that distance is at least nine hours |
| DripRoundCap.CapCanBeExhausted | src/queue/drip/drip.schedule.ts:323-326 | for every submission, zone and choice of sequences some list of transactional sends makes the capped plan break the rules |
| EmailTypo.Levenshtein | src/common/validators/email.validator.ts:192-216 | the filled matrix yields the recursive distance |
| EmailTypo.DistanceIsShortestScript | src/common/validators/email.validator.ts:192-216 | that distance is the length of a shortest insert, delete and substitute script: one exists and none is shorter |
| EmailTypo.ZeroIffEqual | src/common/validators/email.validator.ts:192-216 | the distance is zero if and only if the strings are equal |
| EmailTypo.DistanceIsSymmetric | src/common/validators/email.validator.ts:192-216 | the distance is symmetric |
| EmailTypo.TriangleInequality | src/common/validators/email.validator.ts:192-216 | the distance satisfies the triangle inequality |
| EmailTypo.NearestDomain | src/common/validators/email.validator.ts:176-190 | over any list, the first entry attaining the minimum when it is at most two, otherwise none |
| EmailTypo.GetDomainSuggestion | src/common/validators/email.validator.ts:176-190 | the same over the shipped list, and a listed domain gets itself |
| EmailTypo.ListedDomainSuggestsItself | src/common/validators/email.validator.ts:102-111 | a listed domain's nearest entry is itself at distance zero, so the typo layer turns it away |
| EmailTypo.SuggestionIsATypoIff | src/common/validators/email.validator.ts:102-111 | a suggestion is a real near miss if and only if the domain is not listed |
| EmailTypo.TiesGoToTheFirst | src/common/validators/email.validator.ts:176-190 | an unlisted domain one edit from gmail.com is taken for it, however near other entries are |
| LoanStatus.Height | src/applications/application-status.machine.ts:118-143 | the rank reaches its top exactly at the four terminal statuses |
| LoanStatus.EdgesClimb | src/applications/application-status.machine.ts:32-116 | every legal edge raises the rank and none enters RECEIVED; an exit is open exactly from the live statuses |
| LoanStatus.EdgesAre | src/applications/application-status.machine.ts:32-116 | the legal edges, no more and no fewer |
| LoanStatus.TerminalIffNoExit | src/applications/application-status.machine.ts:118-150 | a status is terminal if and only if it has no outgoing edge |
| LoanWorkflow.Application.ChangeStatus | src/applications/services/application-workflow.service.ts:124-153 | the generic change: its refusals, the one row it commits, and its reply |
| LoanWorkflow.Application.CallIn | src/applications/services/application-workflow.service.ts:157-223 | marking as called in: refusals, committed row, reply |
| LoanWorkflow.Application.RequestBankVerification | src/applications/services/application-workflow.service.ts:234-282 | asking for bank verification: refusals, the row committed, none at all for a re-send, and the reply |
| LoanWorkflow.Application.BankVerified | src/applications/services/application-workflow.service.ts:288-360 | both committed hops of a verified account, or the one, or the refusal |
| LoanWorkflow.Application.SendAgreement | src/applications/services/application-workflow.service.ts:516-572 | sending the agreement: refusals, the row committed with its first sending time, none at all for a re-send |
| LoanWorkflow.Application.AgreementSignedByBorrower | src/applications/services/application-workflow.service.ts:575-593 | recording the signature: refusal, committed row |
| LoanWorkflow.Application.SendDeposit | src/applications/services/application-workflow.service.ts:603-655 | two amounts of 1 to 99 cents, the counter back to zero |
| LoanWorkflow.Application.IncrementAttempts | src/applications/services/borrower-action.service.ts:218-236 | the counter goes up by one and nothing else moves |
| LoanWorkflow.Application.ConfirmDeposit | src/applications/services/application-workflow.service.ts:664-703 | both committed hops, through confirmed to underwriting |
| LoanWorkflow.Application.ApproveLoan | src/applications/services/application-workflow.service.ts:707-753 | refusals for bad terms, then decision, term, APR and amount in one row |
| LoanWorkflow.Application.DeclineLoan | src/applications/services/application-workflow.service.ts:765-824 | refusals for missing or unknown reasons, then decision, codes and reapply date |
| LoanWorkflow.Application.FundLoan | src/applications/services/application-workflow.service.ts:826-862 | refuses an amount that is not positive or exceeds the file's, then funds |
| LoanWorkflow.Application.WithdrawApplication | src/applications/services/application-workflow.service.ts:927-963 | withdraws any live file |
| LoanWorkflow.Application.EditAmountRequested | src/applications/services/application-detail.service.ts:803-940 | an edit that changes nothing is refused; one that does changes no status or decision |
| LoanWorkflow.Application.ExpireIfStale | src/applications/services/application-expiry.service.ts:41-59 | one row of the sweep: expired if live and unsaved for 45 days |
| LoanInvariants.ActionFollowsTable | src/applications/services/application-workflow.service.ts:124-963 | every commit of every action, both hops of a two-hop one included, keeps the status or takes a legal edge |
| LoanRecords.CarriedOutIff | src/applications/services/application-workflow.service.ts:124-963 | for each action the exact condition on file and call under which it is carried out |
| LoanRecords.RefusedBecause | src/applications/services/application-workflow.service.ts:124-963 | for each refusal the exact condition under which it is the one given |
| LoanRecords.AfterIsTold | src/applications/services/application-workflow.service.ts:124-963 | column by column, who writes it and what; a call not carried out changes no column |
| LoanRecords.RowsWritten | src/applications/services/application-workflow.service.ts:1062-1110 | two rows exactly for a deposit confirmed and an account verified out of turn, the first of them spelled out; none exactly for refusals and re-sends |
| LoanRecords.AnswersErrorIff | src/applications/services/application-workflow.service.ts:1329-1342 | a call that was carried out is answered with an error if and only if it suppresses a notice without a reason; sweep, count and edit send none |
| LoanRecords.SaidIffDone | src/applications/services/application-workflow.service.ts:157-862 | over every run from its birth a file says that something was done, by whom, with what amounts, terms, codes and date, if and only if a call to that effect was carried out at some moment |
| LoanRecords.FundingIsRecorded | src/applications/services/application-workflow.service.ts:826-862 | a funding is carried out if and only if the file is approved and the amount positive and within the file's; the row then holds that amount and the one it was measured against, and no later call in any run changes either |
| LoanInvariants.EveryRunFollowsTable | src/applications/application-status.machine.ts:38-173 | every status ever committed over a run is unchanged or a legal edge from the one before |
| LoanInvariants.AtMostTenChanges | src/applications/application-status.machine.ts:38-143 | a file born in PENDING_CALL changes status at most ten times |
| LoanInvariants.TerminalIsAbsorbing | src/applications/application-status.machine.ts:118-143 | a terminal status is never left, over any run |
| LoanInvariants.RankNeverFalls | src/applications/application-status.machine.ts:126-139 | no call lowers the rank |
| LoanInvariants.FactsNeverTakenBack | src/applications/services/application-workflow.service.ts:157-360 | a recorded call and a verified account are never unset |
| LoanInvariants.EveryRunKeepsDecisions | src/applications/services/application-workflow.service.ts:707-862 | declined status if and only if declined decision with known codes and reapply date 90 days on; approved and funded carry decision, term, APR; funded at most the amount then on file |
| LoanInvariants.BornWhole | src/applications/services/application-intake.service.ts:241 | a new file satisfies the invariants of the two runs above and below |
| LoanInvariants.DeclineIsFinal | src/applications/services/application-workflow.service.ts:765-824 | decision, codes and reapply date of a declined file never change |
| LoanInvariants.OverridesChangeNoFile | src/applications/services/application-workflow.service.ts:1194-1275 | over any run the rows committed are the same whatever the email overrides are |
| LoanInvariants.AcceptedCallStampsIff | src/applications/services/application-workflow.service.ts:1062-1081 | an accepted call writes and stamps the file unless it only sends something again, and then it writes nothing |
| LoanInvariants.DeadLinkIff | src/applications/services/application-status.service.ts:183-222 | exactly the files for which a minted link would be refused on redemption |
| LoanInvariants.MintedLinksWork | src/applications/services/application-status.service.ts:147-222 | in every run without the two generic entries a link that is minted is not refused for status or amounts |
| LoanInvariants.GenericEntryMintsDeadLink | src/applications/services/application-workflow.service.ts:124-153 | the hypothesis on bank verification is needed: two generic changes lead to a dead link |
| LoanInvariants.GenericDepositMintsDeadLink | src/applications/services/application-workflow.service.ts:124-153 | so is the one on deposits: one generic change leads to a confirmation link with no amounts behind it |
| LoanInvariants.ResendsDoNotPostponeExpiry | src/applications/services/application-expiry.service.ts:33-59 | after any number of re-sends the file is unchanged and expires as if they had not happened |
| ActionLinks.TokenService.Issue | src/applications/services/borrower-action-token.service.ts:57-76 | outstanding links of the pair are revoked, then a fresh one is created |
| ActionLinks.TokenService.RevokeOutstanding | src/applications/services/borrower-action-token.service.ts:173-188 | nothing of the pair is outstanding any more, what was is now refused as superseded, and every other link is untouched |
| ActionLinks.TokenService.Consume | src/applications/services/borrower-action-token.service.ts:86-130 | every rejection in its order leaves the table alone; success marks the one link consumed |
| ActionLinks.TokenService.Verify | src/applications/services/borrower-action-token.service.ts:140-158 | the same checks without a claim |
| ActionLinks.TokenService.Release | src/applications/services/borrower-action-token.service.ts:166-171 | the claim mark is cleared, the revocation mark is not |
| ActionLinks.TokenService.PurgeExpired | src/applications/services/borrower-action-token.service.ts:235-242 | exactly the unconsumed links that expired before the limit go, and they are counted |
| ActionLinks.ReleaseUndoesClaim | src/applications/services/borrower-action-token.service.ts:117-171 | claiming and then releasing restores the table |
| ActionLinks.LinkIsGoodIff | src/applications/services/borrower-action-token.service.ts:86-130 | when a link can be redeemed, and exactly when its holder is told it is unknown, superseded, used or expired |
| ActionLinks.SupersedesIff | src/applications/services/borrower-action-token.service.ts:173-188 | a link is superseded if and only if it is outstanding and of the same application and purpose |
| ActionLinks.IssuedLinkLivesThirtyDays | src/applications/services/borrower-action-token.service.ts:19-76 | left alone, a link is good for its purpose alone and for thirty days to the millisecond |
| ActionLinks.PurgedIff | src/applications/services/borrower-action-token.service.ts:235-242 | the purge takes exactly the links nobody used that expired before its limit, and alters no other |
| LinkProtocol.MatchIgnoresOrder | src/applications/services/borrower-action.service.ts:208-216 | comparing the sorted pairs is equality of multisets |
| LinkProtocol.StepKeepsSafe | src/applications/services/borrower-action-token.service.ts:117-130 | every step of every request, re-issue, purge and action keeps one holder a link, each holding a consumed link of its own file and purpose |
| LinkProtocol.AtMostOneHolder | src/applications/services/borrower-action-token.service.ts:86-171 | so no interleaving ever gives a link two holders |
| LinkDecisions.ReadsIff | src/applications/services/borrower-action-token.service.ts:86-115 | a request gets past reading its link if and only if that is for its purpose, unused, not superseded and in date |
| LinkDecisions.ClaimingDoes | src/applications/services/borrower-action-token.service.ts:117-130 | a link that was read is claimed if and only if nobody has used it meanwhile; otherwise nothing changes |
| LinkDecisions.LoadingDoes | src/applications/services/borrower-action.service.ts:253-268 | the file is read as it is; when there is none the request ends and its link stays spent |
| LinkDecisions.HeldLinkFitsItsUse | src/applications/services/borrower-action-token.service.ts:86-130 | in every reachable state a request holds only a link of its own file, issued for what it does |
| LinkDecisions.DepositIsDecidedIff | src/applications/services/borrower-action.service.ts:189-236 | in every reachable state, a request deciding on a file that awaits confirmation with guesses left goes on to act if and only if the two amounts typed are the two on the file, in either order, and otherwise to count a wrong guess |
| LinkDecisions.DecidesIff | src/applications/services/borrower-action.service.ts:49-203 | the other branches: finished exactly when the work was done before or ten guesses are used up, the link handed back exactly when the file is not ready |
| LinkDecisions.ActingDoes | src/applications/services/borrower-action.service.ts:49-251 | in every reachable state acting completes and is logged if and only if the file still takes it, and makes of the file exactly what is spelled out for its kind |
| LinkDecisions.CountingCosts | src/applications/services/borrower-action.service.ts:218-236 | a wrong guess costs one attempt and nothing else, and the link goes back next |
| LinkDecisions.GivingBackRestores | src/applications/services/borrower-action-token.service.ts:166-171 | the link handed back is unused again and otherwise as it was, superseded included |
| LinkDecisions.RequestsKeepToThemselves | src/applications/services/borrower-action.service.ts:49-251 | no step of another request moves a request, and what it came for never changes |
| LinkDecisions.OthersMoveNobody | src/applications/services/borrower-action-token.service.ts:57-76 | issues, purges and other loan actions move no request |
| LinkDecisions.LookingChangesNothing | src/applications/services/borrower-action.service.ts:145-216 | arriving, reading link and file, and deciding change no table |
| LinkLedger.OneActionPerLink | src/applications/services/borrower-action-token.service.ts:86-171 | under every interleaving a link completes at most one action |
| LinkLedger.ClaimsAreSeparatedByOneRelease | src/applications/services/borrower-action-token.service.ts:117-171 | two successive successful claims of a link have exactly one release between them |
| LinkLedger.SupersededForGood | src/applications/services/borrower-action-token.service.ts:173-188 | revocation is never undone, nor is a purged number issued again |
| LinkLedger.ConsumedUntilReleased | src/applications/services/borrower-action-token.service.ts:235-242 | through any interleaving, purges included, a consumed link stays in the table with its mark until a release |
| LinkLedger.SupersededLinkIsClaimedIff | src/applications/services/borrower-action-token.service.ts:86-130 | an unused link that was superseded can come into a request's hands in some run if and only if a request had read it before |
| LinkLedger.SupersededLinkCanAct | src/applications/services/borrower-action-token.service.ts:117-127 | such a run from an empty system: a file is marked verified through a link superseded before it was claimed |
| DepositAttempts.WrongGuessesAreBounded | src/applications/services/borrower-action.service.ts:145-251 | a file's wrong guesses over its whole life are at most 9 + m, m the most requests holding one of its deposit links at once |
| DepositAttempts.HoldersBoundedByLinks | src/applications/services/borrower-action-token.service.ts:117-130 | those requests are no more than the file's deposit links |
| DepositAttempts.OneLinkTenGuesses | src/applications/services/borrower-action.service.ts:198-236 | with one link at a time the limit of ten is never passed, however requests race |
| DepositAttempts.ConfirmingTakesAMatch | src/applications/services/borrower-action.service.ts:208-216 | a request about to confirm holds amounts equal, as multisets, to those then on the file |
| DepositOvershoot.BoundIsAttained | src/applications/services/borrower-action.service.ts:145-251 | for every file and every m from 1 on, some run from an empty system, never with more than m holders, counts 9 + m wrong guesses |
| LinkUniqueness.OneLiveLinkIff | src/applications/services/borrower-action-token.service.ts:57-76 | a step keeps one live link a pair if and only if it neither creates beside a live link nor hands one back beside another |
| LinkUniqueness.OneLiveLinkUnderCare | src/applications/services/borrower-action-token.service.ts:57-188 | under every interleaving in which issues are atomic and none falls between a claim and its release, each pair has at most one live link in every state |
| LinkUniqueness.OneLiveLinkWhenServedOneByOne | src/applications/services/borrower-action-token.service.ts:57-188 | calls that do not overlap, files being opened and links handed back included, leave at most one live link a pair, the newest issued |
| LinkUniqueness.RacingIssuesLeaveTwoLinks | src/applications/services/borrower-action-token.service.ts:57-76 | two interleaved issues leave two live links |
| LinkUniqueness.IssueDuringRedemptionLeavesTwoLinks | src/applications/services/borrower-action-token.service.ts:117-171 | a run from an empty system in which an issue between a claim and its release leaves two live links |
| DripCancellation.SequencesCancelledBy | src/queue/drip/drip.constants.ts:142-160 | the list pushed to is the specified one |
| DripCancellation.EagerListIsLazyRule | src/queue/drip/drip.constants.ts:85-160 | a status is on the eager list of a sequence if and only if the lazy rule stops it for the status alone |
| DripCancellation.SequenceTable.UpsertSequenceStep | src/email-sequence/email-sequence.service.ts:18-38 | a new step is inserted, a scheduled one rescheduled, any other left alone |
| DripCancellation.SequenceTable.MarkSent | src/email-sequence/email-sequence.service.ts:54-69 | the one row is sent whatever it was, keeping its time and cancellation record; all other rows stay |
| DripCancellation.SequenceTable.MarkFailed | src/email-sequence/email-sequence.service.ts:71-86 | the one row is failed whatever it was; all other rows stay |
| DripCancellation.SequenceTable.CancelStep | src/email-sequence/email-sequence.service.ts:93-114 | a scheduled row is cancelled with trigger and time, a settled one keeps its story, all others stay |
| DripCancellation.SequenceTable.CancelSequences | src/queue/drip/drip.service.ts:145-200 | exactly the scheduled rows of the named sequences are cancelled, and the count is theirs |
| DripCancellation.SequenceTable.StartSequences | src/queue/drip/drip.service.ts:60-136 | the rows after the planned steps that got through |
| DripCancellation.Processor.Process | src/queue/drip/drip.processor.ts:41-147 | cancels, sends or fails the step from the file as it is now; a mail may have left although its row could not be marked |
| DripStability.FileStopsForGood | src/queue/drip/drip.constants.ts:85-135 | once status, call or verified account stops a sequence it stays stopped and not one more of its emails goes out, teardown failures and restarts included |
| DripStability.EagerImpliesLazy | src/applications/services/application-workflow.service.ts:1131-1183 | every sequence an action tears down is one the re-check would stop |
| DripStability.CancelledForGood | src/queue/drip/drip.processor.ts:55-128 | while no suppression is lifted a cancelled row never changes and its email never goes out, even if the schedule is started again |
| DripStability.CancelledRowIsSentIff | src/queue/drip/drip.processor.ts:41-128 | a cancelled step is sent after all exactly when the rules have let go of it |
| DripStability.LiftedSuppressionSends | src/queue/drip/drip.processor.ts:55-128 | such a run: cancelled while suppressed, sent once the suppression is lifted and the job runs again |
| DripOutcomes.StoppedBecause | src/queue/drip/drip.constants.ts:85-135 | exactly when the rules stop a sequence for each of their reasons, in their order |
| DripOutcomes.UnstoppedJobIff | src/queue/drip/drip.processor.ts:83-147 | a job the rules let through leaves its scheduled row sent if and only if it was delivered, failed if and only if its last attempt ended in an error, cancelled if and only if it was withheld |
| DripOutcomes.UnstoppedSettledIff | src/queue/drip/drip.processor.ts:83-147 | the same for a row settled before, which a withheld job leaves as it is |
| DripOutcomes.StoppedJobCancels | src/queue/drip/drip.processor.ts:55-81 | a job the rules stop sends nothing and cancels its row if still scheduled, with the rule's reason |
| DripOutcomes.MailLeavesIff | src/queue/drip/drip.processor.ts:41-147 | a mail leaves if and only if the rules let the job through and the send gets that far; no other row is touched |
| DripOutcomes.SentMeansMailed | src/queue/drip/drip.processor.ts:83-128 | over every run from an empty schedule, a step recorded as sent has left at least once |
| DripOutcomes.SettledByItsJob | src/queue/drip/drip.processor.ts:83-147 | over every run, a row says sent or failed only after some run of its own job was delivered, or ended in an error on the last attempt |
| DripOutcomes.CancelledRowsTellWhy | src/email-sequence/email-sequence.service.ts:93-145 | over every run from an empty schedule a cancelled row has a date and a reason, and the reason holds of the file as it is |
| DripOutcomes.TeardownOfRow | src/applications/services/application-workflow.service.ts:1145-1166 | the teardown by name and the one by status, each failing on its own: which rows are cancelled, and with which reason |
| DripOutcomes.TeardownIsComplete | src/applications/services/application-workflow.service.ts:1131-1183 | when all its updates get through, a teardown cancels exactly the rows still scheduled in the sequences the rules now stop |
| DripOutcomes.CancelledAreCounted | src/queue/drip/drip.service.ts:145-200 | the number a teardown reports is that of the rows it cancels |
| DripOutcomes.ActingLeaves | src/applications/services/application-workflow.service.ts:1131-1183 | a refused call, a counted guess and an edit leave every row alone |
| DripOutcomes.StartRecordsPlan | src/queue/drip/drip.service.ts:60-136 | starting a plan schedules each new step, moves one still scheduled, leaves a settled one, and touches no other row |
| DripOutcomes.StartedFromScratch | src/queue/drip/drip.service.ts:60-136 | a schedule started on an empty table leaves call reminders 1 to 3 and bank reminders 1 to 6 of the sequences wanted, each scheduled at its planned time, and no other row |
| AdminSessions.SessionService.Create | src/auth/session.service.ts:66-80 | a fresh row, two hours long |
| AdminSessions.SessionService.AssertUsable | src/auth/session.service.ts:116-164 | the checks in order; every rejection but the first revokes the row; success slides the idle window |
| AdminSessions.SessionService.Touch | src/auth/session.service.ts:89-101 | the request path: owner check, then the checks above |
| AdminSessions.SessionService.RevokeAllForUser | src/auth/session.service.ts:198-209 | every live session of the admin, and no other, is revoked and loses both hashes; the number returned is theirs |
| AdminSessions.SessionService.RevokeById | src/auth/session.service.ts:186-195 | the one live row is revoked |
| AdminSessions.SessionService.IssueRefreshToken | src/auth/session.service.ts:221-231 | a fresh current hash, no retired one, expiry that of the session |
| AdminSessions.SessionService.RotateRefreshToken | src/auth/session.service.ts:284-296 | the current hash is retired and a fresh one takes its place |
| AdminSessions.SessionService.DetectReuse | src/auth/session.service.ts:305-324 | a retired hash ends all its admin's sessions, any other changes nothing |
| AdminSessions.SessionService.ConsumeRefreshToken | src/auth/session.service.ts:241-276 | lookup by current hash, expiry, then the session checks |
| AdminSessions.SessionService.Refresh | src/auth/auth.service.ts:316-340 | consume, account check, rotate |
| AdminSessions.RotatingKeepsDistinct | src/auth/session.service.ts:221-296 | issuing or rotating a fresh token keeps all hashes distinct |
| SessionRuns.RunKeepsRows | src/auth/session.service.ts:19-34 | over any run a session's end never moves, its refresh expiry is null or equal to it, and a revoked session stays revoked with both hashes gone |
| SessionRuns.AcceptedWithinTwoHours | src/auth/session.service.ts:116-164 | in every reachable state an accepted request comes strictly before two hours, and the idle branch is unreachable |
| SessionRuns.RefreshedWithinTwoHours | src/auth/session.service.ts:241-276 | the same for refreshes |
| SessionRuns.OneRotationChain | src/auth/session.service.ts:221-296 | the tokens a session has accepted are those it was given, in order, all but the last; none is accepted twice; no hash is current or retired in two sessions |
| SessionRuns.RefreshAcceptedIff | src/auth/auth.service.ts:316-340 | a refresh is accepted if and only if an active admin's living session presents its newest token from its own address within two hours |
| SessionRuns.RetiredTokenEndsEverySession | src/auth/session.service.ts:305-324 | presenting a session's last retired token leaves its admin no live session and no hash |
| SessionRuns.DetectionReachesOneGeneration | src/auth/session.service.ts:284-324 | replaying a token that was rotated out changes any session if and only if its own session is live and it is the last one retired |
| SessionRuns.ForgottenToken | src/auth/session.service.ts:178-296 | once its session has ended or rotated again, a retired token is in no column anywhere |
| SessionUse.TouchAcceptedIff | src/auth/session.service.ts:89-164 | in every reachable state a request is accepted if and only if the session exists, is that admin's, is not revoked, has the request's address and is under two hours old |
| SessionUse.TouchLeaves | src/auth/session.service.ts:89-164 | an accepted request only slides the idle window; one too late, or in time from another address, ends the session for that reason with no hash left; any other changes nothing |
| SessionUse.ChecksInOrder | src/auth/session.service.ts:116-164 | the four checks in their order on any row at all, and the reason each of them ends a session for |
| SessionUse.StrangerLearnsNothing | src/auth/session.service.ts:94-98 | a session that is not there and one that is another admin's are answered alike |
| SessionUse.SignedInForTwoHours | src/auth/session.service.ts:66-101 | a session just created is its admin's from that address for two hours and no longer |
| SessionUse.RefreshLeaves | src/auth/auth.service.ts:316-340 | what a refresh with the newest token leaves behind: the session ended for lateness, address or a disabled account, or the token retired for its successor |
| SessionUse.TokensLastAsTheirSession | src/auth/session.service.ts:221-296 | on any row, a token issued or rotated in is current at once and expires with its session, and nothing else of the session moves |
| SessionUse.StaleTokenEndsItsSession | src/auth/session.service.ts:241-276 | on any table, a current token past its own expiry ends its session as expired |
| SessionUse.RevokingEndsExactly | src/auth/session.service.ts:178-209 | revoking ends exactly the live sessions meant, for the reason given |
| SessionUse.RevokedAreCounted | src/auth/session.service.ts:198-209 | the number of sessions reported is that of the rows ended |
| SessionUse.ReplayEndsExactly | src/auth/session.service.ts:305-324 | a replayed token ends exactly the live sessions of its admin |
| SignInLockout.Account.Login | src/auth/auth.service.ts:125-166 | inactive, locked, wrong and right password: the counter, the answer, whether the hash was compared, and the sessions ended by a lock |
| SignInLockout.Account.RegisterFailedAttempt | src/auth/auth.service.ts:444-461 | one more failure, a lock from the fifth on, and then no live session |
| SignInLockout.Account.Unlock | src/admin-users/admin-users.service.ts:126-132 | counter and lock are cleared |
| SignInLockout.Account.ResetPassword | src/admin-users/admin-users.service.ts:147-159 | counter and lock are cleared and every session ends |
| SignInLockout.LoginAnswersIff | src/auth/auth.service.ts:125-166 | the exact condition for each answer: a disabled account is never let in and its hash never compared, a locked one is told so whatever the password |
| SignInLockout.CounterTellsMisses | src/auth/auth.service.ts:147-461 | in every run the counter is the number of misses since it was last cleared, and from the fifth on the lock runs fifteen minutes from the last of them |
| SignInLockout.WrongGuessesAreRationed | src/auth/auth.service.ts:147-161 | over any run from a cleared counter, wrong passwords compared are at most 5, plus 5 for each clearing, plus one for each whole 15 minutes |
| SignInLockout.FiveGuessesThenOneAQuarter | src/auth/auth.service.ts:147-461 | without success, unlock or reset at most 5 + floor(t / 15 min) comparisons |
| SignInLockout.RationIsAttained | src/auth/auth.service.ts:444-461 | that bound is attained for every number of quarters of an hour |
| IntakeBlocking.IntakeService.AssertNotBlocked | src/applications/services/application-intake.service.ts:95-198 | the three rules in order, each refusal recorded once |
| IntakeBlocking.IntakeService.Submit | src/applications/services/application-intake.service.ts:53-87 | a refused submission changes no application, an admitted one adds one file |
| IntakeBlocking.Latest | src/applications/services/application-intake.service.ts:115 | the most recently created row that matches, or none matches |
| IntakeBlocking.OneFileInFlightPerSsn | src/applications/services/application-intake.service.ts:103-134 | over any run of submissions and loan actions an SSN never has two files outside declined, withdrawn and expired |
| IntakeBlocking.FundedRuleIsNeverReached | src/applications/services/application-intake.service.ts:176-197 | on any table the open-loan rule never blocks: every open loan is refused as a duplicate first |
| IntakeBlocking.AdmittedIff | src/applications/services/application-intake.service.ts:95-198 | a submission passes if and only if no file is in flight and none declined was created within 90 days |
| IntakeRefusals.TurnedAwayBecause | src/applications/services/application-intake.service.ts:95-198 | for each reason the exact condition on the rows: a duplicate for any file not declined, withdrawn or expired; otherwise the cooldown, with the date of the newest decline of the last 90 days; the open loan never |
| IntakeRefusals.SubmissionLeaves | src/applications/services/application-intake.service.ts:200-300 | a refusal leaves the table as it was; an admission adds one pending file to which nothing has been done |
| IntakeBlocking.CooldownNamesAFutureDate | src/applications/services/application-intake.service.ts:148-173 | in every reachable state a cooldown refusal names a date still to come, the reapply date a declined file was given |
| IntakeBlocking.ReapplyDateIsKeptIff | src/applications/services/application-intake.service.ts:136-173 | from some moment on the promised date is kept if and only if, for each decline, it has passed or some declined file was created no earlier than the decision |
| IntakeBlocking.ReapplyDateCanBeBroken | src/applications/services/application-intake.service.ts:136-173 | a run from an empty table: submitted on day 0, declined on day 60 with day 150 promised, admitted again on day 91 |
| IntakeDuplicates.FindPossibleDuplicate | src/applications/services/application-intake.service.ts:436-459 | flags exactly when a returned row matches in two signals or more |
| IntakeDuplicates.DuplicateIff | src/applications/services/application-intake.service.ts:436-459 | two rows are duplicates if and only if they agree in two of address, phone, name with birth date, and account with bank |
| IntakeDuplicates.CandidateIff | src/applications/services/application-intake.service.ts:407-434 | the query returns exactly the rows alike in one of the four ways at least, bank names compared as written |
| IntakeDuplicates.UncutPageIsFullScan | src/applications/services/application-intake.service.ts:407-459 | with at most a hundred candidates the filtered check equals a scan of the whole table |
| IntakeDuplicates.LimitedCheckIsFullScanIff | src/applications/services/application-intake.service.ts:407-459 | it equals that scan on every page the database may return if and only if the table has no duplicate or fewer than a hundred one-signal candidates |
| Amortisation.MonthlyPayment | src/applications/services/application-detail.service.ts:1035-1053 | null exactly for a zero principal or a term that is not positive; infinite exactly at -2400% with an even term; otherwise whole cents within half a cent of the exact payment |
| Amortisation.Rounded | src/applications/services/application-detail.service.ts:1045-1052 | two decimals are at most half a cent off |
| Amortisation.OnlyTheExactPaymentClearsTheLoan | src/applications/services/application-detail.service.ts:1048-1052 | the unrounded payment, and no other, brings the balance to zero after the term |
| Amortisation.ShownPaymentNearlyClearsTheLoan | src/applications/services/application-detail.service.ts:1035-1053 | the rounded payment leaves a balance of at most 0.005 times the size of the annuity |
| Amortisation.AnnuityInClosedForm | src/applications/services/application-detail.service.ts:1044-1048 | that annuity is ((1 + r)^n - 1) / r, or n without interest |
| Amortisation.PaymentRisesWithRate | src/applications/services/application-detail.service.ts:1042-1052 | a higher rate means a strictly higher payment |
| Amortisation.PaymentFallsWithTerm | src/applications/services/application-detail.service.ts:1042-1052 | a longer term means a strictly lower payment |
| Amortisation.ShownPaymentFollowsRateAndTerm | src/applications/services/application-detail.service.ts:1035-1053 | the rounded payment follows rate and term without strictness |
| Amortisation.EveryPaymentLowersTheBalance | src/applications/services/application-detail.service.ts:1048-1052 | with the exact payment the balance falls every month and reaches zero at the last and not before |
| Amortisation.PaymentsCoverPrincipalAndInterest | src/applications/services/application-detail.service.ts:1048-1052 | over the term the payments add up to the principal and the interest charged |

## Left out

- Controllers, validation of request bodies, guards, modules, migrations, seeders and configuration: wiring and finite tables.
- SMTP, HTML templates, storage, Plaid, BullMQ, bcrypt, TOTP, JWT, AES and HMAC: foreign calls. An email either goes out, fails or is suppressed; a password comparison is its answer.
- Daylight saving and the tables from ZIP code and state to time zone: a zone is a fixed offset, so nothing is claimed about clock changes, and a calendar day is 24 hours.
- Floating point: `Amortisation` is over the reals and rounds to the nearest cent; its results on monotony and on the falling balance are for rates above -100% a month.
- Document review, moderation, `requestDocuments`, `sendReviewInvitation` and `resendEmail`: they change no status.
- Audit rows, email logs, template keys, agreement, signature and deposit timestamps, and the IP recorded on a link: columns that nothing modelled here reads.
- `ApplicationDetailService.edit` beyond the loan amount: field copying, of which the model knows only whether something else changed. Edits of an SSN or an email address are not steps of the runs.
- LoanWorkflow.Application.ConfirmDeposit: saves of one row are serialised, so lost updates between two saves (the sweep racing an action, two refreshes of one session, two sign-ins of one account) are not modelled.
- LinkProtocol.StepKeepsSafe: loading a file, counting an attempt and running a workflow action are each one step, so the two commits of a two-hop action are not interleaved with other requests.
- DripStability.CancelledForGood: assumes no suppression is lifted; `CancelledRowIsSentIff` shows what happens otherwise.
- IntakeDuplicates.FindPossibleDuplicate: the normalisation of a bank's name is a parameter, and those of email and phone are done before the call.
- IntakeBlocking.OneFileInFlightPerSsn: submissions are serialised; two submissions of one SSN between check and insert are not modelled.
- The sweep's page of 500 rows, the throttle on status lookups, and the retries of a queue job.
- The dummy password comparison for unknown and inactive accounts: it does not touch an account's own hash and is not counted.
- The unique application number and its retry, dashboards, search, masking and formatting.
