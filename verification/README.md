# A model of the Paseo name and certificate ledgers

The runtime in this repository wires two ledgers together: a **name system** (registrar, registry,
resolver and marketplace, "PNS") and a **certificate system** ("ZK-PKI": roots, issuers, templates,
offers, certificates and the schedule that ends them). The bodies of their pallets live in sibling
repositories (Cargo.toml:136-158) and are not part of this model; what this model
follows are the runtime's regression tests, which fix each extrinsic's guards, storage maps and
hold movements, the runtime API, and the runtime configuration.

## How it is laid out

| file | contents |
|---|---|
| `Wrappers`, `Sums`, `Balances` | results and guards; sums over maps; free balances and named holds, with conservation and *solvency* (holds equal to the rows that record them) |
| `MintFees`, `AuraAuthor` | the fee split; the block author finder |
| `PnsTypes`, `PnsSteps` | the storage of the name system, and each extrinsic as a function from state to new state or error |
| `PnsInvariants`, `PnsRuns` | the invariant of the name system; every call and every run keeps it and conserves money |
| `PnsTree` | subnames and the names they are under: a name is live and counts its live subnames, and exactly when a run keeps that up |
| `PnsHistory`, `PnsEffects` | what holds in every reachable state and over runs; round trips, payments, who can end a listing |
| `PnsCleanup`, `PnsTitle` | clean-up of a whole deadline; whose a name is and how it can be taken |
| `PnsGifts`, `PnsSubnames` | which calls end a pending gift or an active subname, and whose calls those are |
| `PnsSales`, `PnsGuards` | exactly when a sale, and every other call, succeeds, in terms of the state and the balances alone |
| `PnsPayments` | account by account, what registering, renewing, transferring and listing cost |
| `PnsWrites`, `PnsErasures` | who writes records and texts; when they go; that they otherwise stay as written |
| `PnsListings` | what `get_listing` answers, how long, and what a sale makes of it |
| `PnsRuntimeApi` | the read view: `get_info`, `resolve_name`, `get_listing`, `lookup_by_name`, and the check that guards record writes |
| `PnsAnswers`, `PnsGovernance` | what calls do to what the read view answers; what only root can change |
| `PnsPallet` | the same extrinsics as methods that update storage in place, proved against `PnsSteps`, and a dispatcher that rolls back |
| `PkiTypes`, `PkiSteps` | the storage of the certificate system, its extrinsics and its hook |
| `PkiInvariants`, `PkiRuns` | the invariant of the certificate system, kept by every step and run |
| `PkiSchedule` | the schedule of expiries and purges refines a full scan of all certificates |
| `PkiHistory`, `PkiTrust`, `PkiEffects` | indexes, devices, templates, deposits, authority and lifetime; the chain of trust; payments and round trips |
| `PkiProxies`, `PkiOffers` | what proxies have to do with roots and issuers; what the offer index points at |
| `PkiGuards` | exactly when each extrinsic succeeds, what a mint costs, and what each call has written |
| `PkiSuspension`, `PkiPromises` | what a suspension does and for how long; offers and templates are kept to |
| `PkiPallet` | the extrinsics and the hook as methods over storage, proved against `PkiSteps` |
| `Chain` | both systems on the one set of balances they share |

Both ledgers have two layers. The *specification* layer says what a call does to a whole state; the
invariants and the theorems over runs are about it. The *storage* layer is a class with one field per
storage map, and each of its methods is proved to end in exactly the state, or the error, that the
specification gives; `Dispatch` restores the storage after an error, so that its effect is exactly one
step of the specification, and inherits every theorem.

A state is *reachable* when some run of calls leads to it from genesis. `OpWait` (names) and
`OpNextBlock`/`OpSkipTo` (certificates) move the clock; `OpNextBlock` runs the hook of the block,
`OpSkipTo` does not, as the tests do when they set the block number by hand.

## What the sources leave open

Each call of the name system carries a record `Open` of the choices that the tests do not fix; every
theorem is about all of them: to whom fees go and how much they are, whether tearing down a name takes
its live subnames along, is refused for their sake, or leaves them behind, whether a listing outlives a transfer or is refunded, whether text
entries survive a change of owner, who carries the cleanup deposit of a gift and how much it is, who owns
the token of a pending gift, what a finder is paid, what expiry a renewal sets, and which block the call
is in. A guard that no test fixes is left off, so that the runs of the model include those of the runtime.

Where a boundary or an order had to be chosen, the model chooses as follows.

- Registering over an expired name clears its offer row with everything else; an offer whose window is over
  does not free a name that has not itself expired.
- A name may be registered anew strictly after its expiry plus the grace period; the registrar's
  clean-up takes the names whose expiry plus grace is the given deadline, once the clock has reached it;
  a stale listing may be cleared from its expiry plus the listing grace on; an inactive certificate may be
  reaped from its expiry plus the purge period on. A registered name is useable strictly before its expiry.
- When several guards fail, the error is that of the first in the order of the test files' set-up.
- The thumbprint of a certificate is an injective function of root, issuer, user, expiry and body: a hash
  of canonical bytes that include them. That the expiry is among them is an assumption.
- An offer for no time at all, and a reissue for no time at all, are refused (`InvalidTtl`): a certificate
  that expires in the block it is minted in would have missed its bucket.
- A user holds at most one certificate of an issuer, because `UserIssuerIndex` has one slot for the pair.
- A certificate is filed for removal when its expiry is processed.
- The tier of a fee depends on the attestation: a template that requires proof of personhood is charged the
  PoP tier; otherwise a Packed attestation is charged the Packed tier and anything else the None tier.
  Comments at runtime/tests/zkpki_lifecycle.rs:31-33 and 166-167 speak of the None tier for a Packed mint,
  but runtime/tests/fee_system.rs:120-153 charges the Packed tier; both put 0.1 DOT on hold.
- The purge period is the 30 days of the configuration (runtime/src/configs/mod.rs:440). Two tests in
  runtime/tests/fee_system.rs (lines 296 and 347) compute with 60 days, which is later and so also reapable.
- `lookup` answers with the requested record types that exist, in the order requested.

## Model

| member | source | states |
|---|---|---|
| AuraAuthor.FindAuthor | runtime/src/configs/mod.rs:355-375 | the first Aura digest alone decides the author, whatever surrounds it; none if there is no Aura digest, if that digest does not decode, or if there are no authorities |
| AuraAuthor.EncodedSlotNamesItsAuthor | runtime/src/configs/mod.rs:362-371 | a digest that carries an encoded slot names the authority whose turn that slot is |
| AuraAuthor.WindowIsRotation | runtime/src/configs/mod.rs:367-368 | over as many consecutive slots as there are authorities, every authority is chosen exactly once |
| MintFees.SplitFits | runtime/tests/fee_system.rs:9-20 | deposit, protocol slice and the largest tip fit into every fee of at least twice the smallest deposit, in spite of flooring and saturation |
| MintFees.SplitFitsExactly | runtime/src/configs/mod.rs:453-459 | the exact bound for every fee: three units less than twice the smallest deposit, which flooring makes up for |
| MintFees.SplitIsExact | runtime/tests/fee_system.rs:38-48 | deposit, tip and protocol share add up to the fee; without a tip the protocol gets the fee less the deposit |
| MintFees.ConfiguredTiers | runtime/src/configs/mod.rs:456-459 | all three configured tiers can be split, and each holds the smallest deposit |
| MintFees.SharesOfFee | runtime/tests/fee_system.rs:38-48 | five percent of the fee is held, but at least a tenth of a unit, ten percent is the protocol's slice and forty percent the largest tip, each rounded down |
| PnsRuns.StepKeeps | runtime/tests/pns_core_regression.rs:157-504 | every call of the name system, whatever is left open about it, keeps the invariant (holds match rows, maps agree, owners and primary names match, subnames have token and origin exactly while active, records name owners) and conserves free plus held money |
| PnsRuns.RunKeeps | runtime/tests/pns_edge_regression.rs:396-436 | every run of calls from a state that satisfies the invariant ends in one, with the same amount of money |
| PnsRuns.GenesisIsSound | runtime/tests/pns_core_regression.rs:41-112 | the initial chain, with only the base node's token, satisfies the invariant |
| PnsTree.StepCounts | runtime/tests/pns_edge_regression.rs:124-196 | a name that counts its live subnames (none, if it is not registered) goes on doing so exactly if the step does not succeed in tearing it down with live subnames left behind |
| PnsTree.StepTree | runtime/tests/pns_edge_regression.rs:124-196 | all names do so after a step exactly if it leaves live subnames of no name behind |
| PnsTree.CountedWhileTidy | runtime/tests/pns_red_team_regression.rs:311-330 | all along a run a name counts its live subnames exactly if no step of it tears down that very name and leaves live subnames of it behind, whatever happens to other names |
| PnsHistory.CleanupHoldsAreOwed | runtime/tests/pns_red_team_regression.rs:245-284 | in every reachable state each account's cleanup hold is the sum of the deposit rows that name it: nothing is stranded by transfer, sale, gift, renewal, re-registration or clean-up |
| PnsHistory.ListingHoldsAreCounted | runtime/tests/pns_core_regression.rs:306-391 | in every reachable state each seller's listing hold is the listing deposit times the number of that seller's live listings |
| PnsHistory.OneNameEach | runtime/tests/pns_core_regression.rs:157-169 | no two accounts share a primary name, and no account owns two names that are not being given away |
| PnsHistory.OwnerRecordIsTrue | runtime/src/configs/mod.rs:204-209 | the SS58 record of a name not under a pending gift always names its owner, whose primary name it is |
| PnsHistory.ChildrenAreCounted | runtime/tests/pns_edge_regression.rs:124-196 | after any run in which no teardown of a parent leaves live subnames of it behind, its children field is the number of live subname tokens whose runtime origin is that parent; teardowns of other names do not matter |
| PnsHistory.SubnamesHaveLiveParents | runtime/tests/pns_red_team_regression.rs:311-330 | after any such run for its parent, the parent of a live subname is registered |
| PnsHistory.OrphansGoUncounted | runtime/tests/pns_edge_regression.rs:396-436 | a run in which a release leaves a subname behind and the name is registered anew: the subname is live and the name counts none |
| PnsHistory.SubnamesAreShallow | runtime/tests/pns_advanced_regression.rs:285-315 | every walk along runtime origins ends by itself within one step, at a canonical name, and no subname is ever a primary name |
| PnsHistory.StepSpares | runtime/tests/pns_red_team_regression.rs:205-238 | nothing but a successful registration or renewal of a name changes its origin record or expiry, or brings it back |
| PnsHistory.OriginSurvives | runtime/tests/pns_red_team_regression.rs:205-238 | from registration on the origin record stays the same through every run in which the name stays registered and nobody succeeds in registering it anew |
| PnsHistory.LapsedStaysLapsed | runtime/tests/pns_advanced_regression.rs:246-278 | over any run in which nobody succeeds in renewing or registering it, an expired name stays expired |
| PnsEffects.ListThenCancel | runtime/tests/pns_core_regression.rs:306-330 | cancelling a fresh listing restores the whole state and every balance |
| PnsEffects.OfferAcceptRelease | runtime/tests/pns_edge_regression.rs:124-196 | offering a subname, accepting it and releasing or revoking it restores the state exactly |
| PnsEffects.OfferRejectRevoke | runtime/tests/pns_core_regression.rs:458-504 | a rejected offer leaves the target's inbox but stays visible to the parent, whose revocation restores the state exactly |
| PnsEffects.ReleaseLeavesNothing | runtime/tests/pns_core_regression.rs:269-299 | after a release nothing is stored under the name but a listing, and that exactly where listings outlive names; subnames that go with it leave no trace, and otherwise their rows, tokens and origins are what they were |
| PnsEffects.ReleaseRefundsRecord | runtime/tests/pns_governance_regression.rs:108-133 | account by account: a release pays back the deposit as recorded, whatever the prices are now |
| PnsEffects.CleanupPaysFinder | runtime/tests/pns_lifecycle_regression.rs:193-236 | account by account: clean-up takes a name exactly if it is due and its subnames do not stand in the way, pays its finder a bounty that is not nothing, and its depositor the rest; otherwise it changes nothing |
| PnsCleanup.CleanupTakesDue | runtime/tests/pns_lifecycle_regression.rs:193-236 | clean-up of a list of candidates takes exactly those that are due and may go, and every account gains exactly the sum of what each of them is worth to it, in whatever order and however often they are listed |
| PnsCleanup.CleanupClearsDeadline | runtime/tests/pns_lifecycle_regression.rs:193-260 | clean-up succeeds exactly from the deadline on; if the candidates cover the names of the deadline, none that may go is left |
| PnsCleanup.FinderGainsBounties | runtime/tests/pns_lifecycle_regression.rs:216-217 | a finder with no deposit and no listing among the names taken gains exactly the sum of the bounties |
| PnsEffects.CleanupListingPaysFinder | runtime/tests/pns_lifecycle_regression.rs:125-186 | a listing can be cleared exactly when it exists and its grace is over; the bounty comes out of the listing deposit and the seller gets the rest |
| PnsEffects.TransferMovesDeposit | runtime/tests/pns_core_regression.rs:237-266 | a transfer moves the recorded deposit, unchanged, from the hold of its depositor to the hold of the recipient |
| PnsEffects.RenewalReleasesRecord | runtime/tests/pns_core_regression.rs:210-234 | a renewal releases the recorded deposit and holds the share of the current price |
| PnsEffects.ReRegistrationReleasesRecord | runtime/tests/pns_red_team_regression.rs:245-284 | any registration, over an expired name or not and with a gift declined on the way or not, releases what was recorded for whatever it tears down and holds what the prices ask for; a name still registered it takes only after grace |
| PnsEffects.UserRecordsDoNotSurvive | runtime/tests/pns_lifecycle_regression.rs:304-362 | no record that an owner can set outlives a transfer or a sale |
| PnsEffects.BuyPaysSeller | runtime/tests/pns_core_regression.rs:333-391 | the seller nets at least 98 percent of the price plus the deposits that were held, unless made to carry the deposit of a pending gift |
| PnsEffects.BuyMovesMoney | runtime/tests/pns_core_regression.rs:333-391 | account by account, where the price, the fees, the listing deposit and both cleanup deposits of a sale or gift go; the listing ends and the name is handed on |
| PnsEffects.BuyerPaysPrice | runtime/tests/pns_core_regression.rs:388-390 | the buyer pays at least the price exactly if no more comes back to the buyer, out of fees and a recorded deposit, than the deposit the buyer carries |
| PnsEffects.ListingEndsOnlyBy | runtime/tests/pns_lifecycle_regression.rs:157-186 | nobody but its owner ends a listing, save by buying it, by clearing it after its grace, or when the name itself lapses or is declined |
| PnsTitle.StepTitle | runtime/tests/pns_core_regression.rs:306-391 | sellers go on owning what they have listed exactly if no listing outlives, by a transfer or teardown that keeps it, the ownership it was made under |
| PnsTitle.SellersOwnWhileEnded | runtime/tests/pns_core_regression.rs:306-391 | the same all along a run |
| PnsTitle.SellersOwnFromGenesis | runtime/tests/pns_core_regression.rs:306-391 | and from genesis, whatever the initial balances, prices and reserved names |
| PnsTitle.StepOwner | runtime/tests/pns_red_team_regression.rs:176-199 | in every state an account keeps its name through a step exactly if the step is not its own successful transfer or release, a sale of the name, a new registration of it, or a clean-up that is due for it and may take it |
| PnsTitle.OwnerWhileNotTaken | runtime/tests/pns_red_team_regression.rs:176-199 | the same all along a run |
| PnsTitle.TitleIsSafe | runtime/tests/pns_red_team_regression.rs:176-199 | a name whose registration and grace are not over, and which nobody but its owner has listed, leaves its owner in a step exactly if it is the owner's own successful transfer or release, or a sale by the listing the owner made; other names and listings do not matter |
| PnsTitle.NameStaysWithOwner | runtime/tests/pns_red_team_regression.rs:176-199 | over any run in which it does not lapse, a name that at the start nobody but its owner has listed stays with the owner exactly as long as none of these succeeds |
| PnsTitle.StaleSaleTakesName | runtime/tests/pns_core_regression.rs:333-391 | a sale by a listing made before the name changed hands takes it from its owner, who gets nothing of the price |
| PnsTitle.NameIsTaken | runtime/tests/pns_core_regression.rs:237-266 | and where a transfer keeps the listing there is a run in which that happens |
| PnsGifts.StepGift | runtime/tests/pns_advanced_regression.rs:133-166 | a gift stays pending as it was made exactly if the step does not succeed in accepting it, declining it, registering the name anew, or a clean-up that is due for it and may take it |
| PnsGifts.GiftWhileNotEnded | runtime/tests/pns_advanced_regression.rs:133-278 | the same all along a run |
| PnsGifts.GiftIsSafe | runtime/tests/pns_advanced_regression.rs:172-240 | while the registration of the name and its grace are not over, a pending gift is ended by its recipient's acceptance, or declining by registration, and by nothing else |
| PnsGifts.GiftAwaitsAnswer | runtime/tests/pns_advanced_regression.rs:172-240 | over any run in which the name does not lapse, a gift is pending exactly until its recipient answers it |
| PnsSubnames.StepSubname | runtime/tests/pns_advanced_regression.rs:336-412 | an active subname stays its target's exactly if the step does not succeed in releasing it, in revoking it, or in tearing down its parent together with its live subnames |
| PnsSubnames.SubnameWhileNotEnded | runtime/tests/pns_edge_regression.rs:124-196 | the same all along a run |
| PnsSubnames.SubnameIsSafe | runtime/tests/pns_advanced_regression.rs:336-412 | under a current parent that is not being given away, an active subname is ended by its target's release, by the revocation of the parent's owner or by that owner's release of the parent with its subnames, and by nothing else |
| PnsSubnames.SubnameStaysWithTarget | runtime/tests/pns_advanced_regression.rs:336-412 | over any run through which its parent stays so, a subname is active exactly until one of these succeeds |
| PnsSales.BuySucceeds | runtime/tests/pns_core_regression.rs:333-391 | a sale succeeds if and only if the name is listed, registered and not on offer, buyer, seller and recipient are different accounts, a direct buyer has no name, the seller is left with 98 percent, and the balances cover price, fees and carried deposit, whoever coincides |
| PnsSales.PlainPurchase | runtime/tests/pns_core_regression.rs:333-391 | a buyer without a name, to whom nothing comes back, gets any listed name that is not on offer exactly if price and deposit are at hand |
| PnsSales.BuyRefusals | runtime/tests/pns_edge_regression.rs:336-390 | which refusal means that the name is not listed, that the buyer is its seller, or that the fees are too high |
| PnsGuards.RegisterSucceeds | runtime/tests/pns_core_regression.rs:157-204 | a registration succeeds if and only if the caller has no name, the name is not reserved and is new, past its grace or the gift declined, subnames do not stand in the way, and the caller, with what is torn down paid back, can pay the fees and hold five percent of the price |
| PnsGuards.DepositIsFivePercent | runtime/tests/pns_edge_regression.rs:264-295 | the price goes by the length of the label, with one price from eleven on, and the deposit is five percent of it |
| PnsGuards.RegisterHolds | runtime/tests/pns_governance_regression.rs:108-133 | account by account: a registration adds five percent of the price to the hold (25 units of 500), besides giving back what it tears down |
| PnsGuards.RenewSucceeds | runtime/tests/pns_core_regression.rs:210-234 | a renewal succeeds if and only if the caller has a name and can pay the fees and hold five percent of the price, the old deposit given back |
| PnsGuards.RenewExtends | runtime/tests/pns_core_regression.rs:210-234 | it sets the expiry and the block and leaves the owner, the records and offers alone |
| PnsGuards.TransferSucceeds | runtime/tests/pns_core_regression.rs:237-266 | a transfer succeeds if and only if the caller has a name, the recipient has none, and the recipient can hold the recorded deposit |
| PnsGuards.ReleaseSucceeds | runtime/tests/pns_core_regression.rs:269-299 | a name can be given up if and only if the caller has one whose subnames do not stand in the way |
| PnsGuards.AcceptSucceeds | runtime/tests/pns_advanced_regression.rs:172-200 | a gift can be accepted if and only if it is the caller's, who has no name, and its carrier can hold the deposit |
| PnsGuards.AcceptMovesDeposit | runtime/tests/pns_advanced_regression.rs:172-200 | account by account: an acceptance frees the recorded deposit and holds the new one on its carrier |
| PnsGuards.ListSucceeds | runtime/tests/pns_edge_regression.rs:301-330 | a listing succeeds if and only if the caller has a name, the expiry is still to come, no kept listing is in the way, and the deposit is at hand |
| PnsGuards.CancelSucceeds | runtime/tests/pns_core_regression.rs:306-330 | a listing can be cancelled if and only if it is of the caller's name |
| PnsGuards.OfferSubnameSucceeds | runtime/tests/pns_advanced_regression.rs:318-330 | whoever has a name can offer any inactive subname of it to anyone else, and only that; the row then says so |
| PnsGuards.AnswerSubnameSucceeds | runtime/tests/pns_core_regression.rs:458-504 | an open offer is accepted or rejected by its target alone, and the row then says which |
| PnsGuards.EndSubnameSucceeds | runtime/tests/pns_advanced_regression.rs:336-412 | an active subname is released by its target alone, and any row revoked by the owner of the parent alone; other rows stay |
| PnsPayments.RegisterCosts | runtime/tests/pns_core_regression.rs:157-169 | account by account: where fees, deposit and what is torn down go in a registration |
| PnsPayments.RenewCosts | runtime/tests/pns_core_regression.rs:210-234 | the same for a renewal |
| PnsPayments.TransferCosts | runtime/tests/pns_core_regression.rs:237-266 | the same for a transfer |
| PnsPayments.ListCosts | runtime/tests/pns_core_regression.rs:306-330 | the same for a listing, also one that replaces another |
| PnsPayments.CancelPays | runtime/tests/pns_core_regression.rs:306-330 | a cancelled listing pays its deposit to whoever made it |
| PnsPayments.OthersCostNothing | runtime/tests/pns_edge_regression.rs:204-258 | calls on subnames, records, texts and settings move no money |
| PnsWrites.SetRecordSucceeds | runtime/src/configs/mod.rs:250-257 | a record is set if and only if its type is neither SS58 nor ORIGIN, the caller owns the token of the node, and the node has no registration or one that has not expired; with the error in each other case |
| PnsWrites.SetTextSucceeds | runtime/src/configs/mod.rs:250-257 | a text is set under the same conditions |
| PnsWrites.StepWrites | runtime/tests/pns_red_team_regression.rs:291-350 | in no step is a record of a settable type added or changed but by the setting of it by the account that owns the node at that moment |
| PnsWrites.RecordsAreOwners | runtime/tests/pns_red_team_regression.rs:291-350 | over any run: what such a record says at the end it said at the start, or the owner of some moment in between set it to that |
| PnsWrites.TextsAreOwners | runtime/tests/pns_edge_regression.rs:204-258 | the same for texts |
| PnsErasures.StepErases | runtime/tests/pns_lifecycle_regression.rs:304-362 | any other call takes away the records of a node exactly if it ends the node or hands it on, its texts too unless they survive a change of owner, and leaves every one that it does not take as it was |
| PnsErasures.RecordStays | runtime/tests/pns_lifecycle_regression.rs:365-418 | over any run a record says what it said exactly until it is overwritten, its node ends, or the node is handed on |
| PnsErasures.RegistrationStartsAfresh | runtime/src/configs/mod.rs:203-226 | a name just registered carries its owner and the hash it comes from, and nothing that any owner before has written about it |
| PnsListings.AnswerIsListing | runtime/src/apis.rs:232-244 | the answer for a name is its listing; a name that does not parse, or is not listed, has none |
| PnsListings.ListingIsAnswered | runtime/src/apis.rs:232-244 | after a listing is made the answer is the caller, the price and the expiry asked for |
| PnsListings.AnsweredPriceMoves | runtime/tests/pns_core_regression.rs:333-391 | account by account: the price answered is what a sale moves, and there is no answer after it |
| PnsListings.StepListing | runtime/tests/pns_core_regression.rs:306-391 | a listing stays as made exactly if the step does not succeed in cancelling, replacing, clearing or selling it, or in transferring or tearing down the name without keeping it |
| PnsListings.AnswerStands | runtime/src/apis.rs:232-244 | all along a run the answer stays what it is exactly if no step does any of these |
| PnsGovernance.GovernedOnlyByRoot | runtime/tests/pns_governance_regression.rs:287-339 | prices, reserved names and the official account change by no call but the governance call for them, and only when root makes it; the clock moves by waiting alone |
| PnsGovernance.SettingsTakeEffect | runtime/tests/pns_governance_regression.rs:174-236 | root's prices are the prices, and of the reserved names exactly the one named is added or removed |
| PnsGovernance.HandoverTakesEffect | runtime/tests/pns_governance_regression.rs:242-276 | root's handover always succeeds, makes the new account the official one and the owner of the base token, and changes nothing else |
| PnsGovernance.HandoverMovesBase | runtime/tests/pns_governance_regression.rs:242-276 | after it the new account, and no other, writes the records of the base node |
| PnsGovernance.FrozenMeansReserved | runtime/tests/pns_governance_regression.rs:174-236 | a registration is refused as frozen exactly when the name is reserved and the caller has no name yet; reserving and unreserving switch that on and off |
| PnsGovernance.RepricingSparesHolds | runtime/tests/pns_governance_regression.rs:108-133 | a new price table changes no hold and no recorded deposit, and decides what the next registration holds |
| PnsAnswers.RegistrationResolves | runtime/tests/pns_red_team_regression.rs:176-199 | after any successful registration, over whatever stood in its way, the name resolves to its new owner exactly until a year is over |
| PnsAnswers.TransferRedirects | runtime/tests/pns_core_regression.rs:237-266 | a transfer changes whom a name resolves to, and neither whether it resolves nor its expiry, fee or capacity |
| PnsAnswers.PurchaseRedirects | runtime/tests/pns_core_regression.rs:333-391 | a name bought for oneself resolves to the buyer, no longer for sale, exactly when it resolved before |
| PnsAnswers.GiftHides | runtime/src/apis.rs:252-257 | a name bought as a gift resolves to nothing until the offer's window is over |
| PnsAnswers.AcceptanceReveals | runtime/tests/pns_advanced_regression.rs:172-203 | accepting the gift makes the name resolve at once to the recipient, whose primary name it becomes |
| PnsAnswers.RecordRoundTrip | runtime/tests/pns_lifecycle_regression.rs:365-418 | looking up a record that was set finds it, and no other answer changes |
| PnsAnswers.RecordIsFoundByName | runtime/src/apis.rs:276-284 | a record that was set is what a lookup by a name of the node finds |
| PnsAnswers.LookupIsInOrder | runtime/src/apis.rs:228-230 | asking for more types appends their answers, in the order requested |
| PnsAnswers.TextsAreApart | runtime/tests/pns_edge_regression.rs:204-259 | setting a text entry changes no lookup |
| PnsAnswers.LookupFinds | runtime/src/apis.rs:228-230 | a lookup answers with exactly those of the requested types that have a record, and with that record |
| PnsRuntimeApi.ResolveIsGetInfo | runtime/src/apis.rs:246-274 | resolving a name is `get_info` of its hash, for every label, state and time; a name that is no label resolves to nothing |
| PnsRuntimeApi.ForSaleMeansListed | runtime/src/apis.rs:232-244 | a resolved name is flagged for sale exactly when `get_listing` finds a listing |
| PnsRuntimeApi.VisibilityIsAnInterval | runtime/src/apis.rs:202-215 | with storage as it is, a registered name resolves exactly from the end of a pending gift's window up to, and not including, its expiry |
| PnsRuntimeApi.OfferHidesNinetyDays | runtime/src/apis.rs:202-226 | a pending offer hides an unexpired name for exactly ninety days, or until the clock saturates |
| PnsRuntimeApi.ExpiredStaysHidden | runtime/src/apis.rs:213-215 | once hidden by expiry a name resolves to nothing after any run in which nobody succeeds in renewing or registering it |
| PnsRuntimeApi.ForwardIsReverse | runtime/src/apis.rs:246-274 | a name not being given away resolves to an account exactly when it is that account's primary name and has not expired |
| PnsRuntimeApi.ReverseFailsOnlyForOffers | runtime/src/apis.rs:252-262 | a resolved owner's primary name is that name exactly when it has no offer row |
| PnsRuntimeApi.LookupAgreesWithResolve | runtime/src/apis.rs:228-230 | the SS58 record that lookup returns is the owner that resolving returns |
| PnsRuntimeApi.UnparsedNameHasNoRecords | runtime/src/apis.rs:276-280 | a name that does not parse is looked up under the default hash, which never has a record |
| PnsRuntimeApi.ResolvedOwnerMayWrite | runtime/src/configs/mod.rs:250-257 | a name resolves to an account exactly when the check lets that account write and no gift hides the name |
| PnsRuntimeApi.SubnameIsUseableByTarget | runtime/tests/pns_red_team_regression.rs:291-350 | a subname is useable by its target once accepted, and by nobody else |
| PnsPallet.Pallet.Dispatch | runtime/tests/pns_edge_regression.rs:301-391 | a call does exactly one step of the specification or, failing with its error, changes nothing; the invariant and the amount of money stay |
| PnsPallet.Pallet.Register | runtime/tests/pns_core_regression.rs:157-207 | ends as specified: one name per account, reserved names refused, a declined gift and an expired holder torn down first |
| PnsPallet.Pallet.Renew | runtime/tests/pns_core_regression.rs:210-234 | writes the new expiry and swaps the deposit row and hold, exactly as `PnsSteps.Renew` specifies (RenewalReleasesRecord says what that moves), or fails with its error |
| PnsPallet.Pallet.Transfer | runtime/tests/pns_core_regression.rs:237-266 | hands token, primary name, owner record and deposit to a recipient without a name, exactly as `PnsSteps.Transfer` specifies (TransferMovesDeposit, UserRecordsDoNotSurvive), or fails with its error |
| PnsPallet.Pallet.ReleaseName | runtime/tests/pns_core_regression.rs:269-299 | tears the caller's name down exactly as `PnsSteps.ReleaseName` specifies (ReleaseLeavesNothing, ReleaseRefundsRecord), or fails with its error |
| PnsPallet.Pallet.Cleanup | runtime/tests/pns_lifecycle_regression.rs:193-260 | its loop ends as specified, stale entries skipped, and before the deadline it is refused |
| PnsPallet.Pallet.AcceptOffer | runtime/tests/pns_advanced_regression.rs:172-203 | the recipient of a pending gift without a name of its own becomes owner, exactly as `PnsSteps.AcceptOffer` specifies; anybody else is refused |
| PnsPallet.Pallet.CreateListing | runtime/tests/pns_edge_regression.rs:301-333 | ends as specified: an expiry that is not in the future is refused |
| PnsPallet.Pallet.CancelListing | runtime/tests/pns_core_regression.rs:306-330 | removes the listing and its hold exactly as `PnsSteps.CancelListing` specifies (ListThenCancel), or fails with its error |
| PnsPallet.Pallet.Buy | runtime/tests/pns_edge_regression.rs:336-391 | storage ends exactly as `PnsSteps.Buy` specifies, or with its error: what that is, see PnsSales.BuySucceeds, BuyRefusals and PnsEffects.BuyMovesMoney |
| PnsPallet.Pallet.CleanupListing | runtime/tests/pns_lifecycle_regression.rs:125-186 | removes a stale listing and pays its finder exactly as `PnsSteps.CleanupListing` specifies (CleanupListingPaysFinder), or fails with its error |
| PnsPallet.Pallet.OfferSubname | runtime/tests/pns_advanced_regression.rs:285-333 | ends as specified: only with a canonical name of one's own, and not to oneself |
| PnsPallet.Pallet.AcceptSubname | runtime/tests/pns_red_team_regression.rs:311-330 | mints the subname token, counts it at the parent and records its origin, exactly as `PnsSteps.AcceptSubname` specifies (ChildrenAreCounted), and only for the target of an open offer |
| PnsPallet.Pallet.RejectSubname | runtime/tests/pns_core_regression.rs:458-504 | marks the offer rejected and empties the inbox entry, exactly as `PnsSteps.RejectSubname` specifies (OfferRejectRevoke) |
| PnsPallet.Pallet.ReleaseSubname | runtime/tests/pns_advanced_regression.rs:336-367 | ends as specified: only by the active holder |
| PnsPallet.Pallet.RevokeSubname | runtime/tests/pns_advanced_regression.rs:370-413 | ends as specified: only by the parent's owner |
| PnsPallet.Pallet.SetRecord | runtime/tests/pns_lifecycle_regression.rs:263-301 | storage ends exactly as `PnsSteps.SetRecord` specifies, or with its error: only for the owner of a live node, and never a type that the chain writes (PnsWrites.SetRecordSucceeds) |
| PnsPallet.Pallet.SetText | runtime/tests/pns_edge_regression.rs:204-259 | storage ends as specified, in a map apart from the records (PnsWrites.SetTextSucceeds) |
| PnsPallet.Pallet.SetBasePrice | runtime/tests/pns_governance_regression.rs:108-133 | replaces the price table, and only for root |
| PnsPallet.Pallet.SetReserved | runtime/tests/pns_governance_regression.rs:174-236 | adds or removes one reserved name, and only for root |
| PnsPallet.Pallet.SetOfficial | runtime/tests/pns_governance_regression.rs:242-282 | moves the official account and the base node's token together, and only for root |
| PkiRuns.StepKeeps | runtime/tests/zkpki_dryrun.rs:202-222 | every extrinsic and every block keeps the invariant (rows paired, indexes exact, devices unique, templates counted, deposits held) and conserves free plus held money |
| PkiRuns.RunKeeps | runtime/tests/zkpki_lifecycle.rs:104-132 | every run from a state that satisfies the invariant, hooks skipped or not, ends in one, with the same amount of money |
| PkiHistory.IndexesAreProjections | runtime/tests/zkpki_dryrun.rs:202-222 | in every reachable state hot and cold hold the same certificates, the issuer, user and root indexes are exactly their projections, and the pair index points at the live row and at nothing else |
| PkiHistory.OneCertPerPair | runtime/tests/zkpki_lifecycle.rs:80-87 | a user has at most one certificate of an issuer |
| PkiHistory.OneCertPerDevice | runtime/tests/zkpki_dedup.rs:29-60 | no run certifies one device twice under one root |
| PkiHistory.DeviceGate | runtime/tests/zkpki_dedup.rs:29-60 | the gate is shut for a device exactly while a live certificate under that root names it |
| PkiHistory.RootsAreIndependent | runtime/tests/zkpki_dedup.rs:84-131 | no step under one root changes which devices another root's registry allows |
| PkiHistory.SoftMintSkipsTheGate | runtime/tests/zkpki_dedup.rs:65-79 | a mint whose attestation names no device is never refused for one, and leaves the device registry alone |
| PkiHistory.DiscardNeedsNoCert | runtime/tests/zkpki_template.rs:76-98 | a template can be discarded exactly when it exists and no certificate under it is left |
| PkiHistory.TemplateCountsItsCerts | runtime/tests/zkpki_template.rs:76-98 | a template's count is the number of certificates under it, and a template that does not exist has none |
| PkiHistory.DepositsAreHeld | runtime/tests/fee_system.rs:214-243 | each account's certificate hold is the sum of the deposits of the live certificates it funds, and only a certificate's user or issuer funds it |
| PkiHistory.TouchedOnlyBy | runtime/tests/zkpki_template.rs:104-136 | no step changes a certificate's rows but suspension or reissue by its issuer, discarding by its user, a clean-up when it is reapable, and the hooks of its own two blocks |
| PkiHistory.OnlyTheirsAct | runtime/tests/zkpki_lifecycle.rs:138-150 | whoever succeeds in suspending or replacing a certificate is its issuer, and whoever succeeds in discarding it is its user |
| PkiHistory.LifeIsAnInterval | runtime/tests/zkpki_lifecycle.rs:104-132 | while every block has its hook, a certificate on which neither its issuer nor its user successfully acts is active exactly until its expiry and present exactly until the end of its grace, whatever else anyone does or attempts |
| PkiHistory.CleanupNeedsASkippedHook | runtime/tests/zkpki_lifecycle.rs:138-177 | while every block has its hook there is never anything to clean up |
| PkiHistory.OverdueIsForgotten | runtime/tests/zkpki_lifecycle.rs:104-132 | once the clock has passed the expiry of an active certificate without its hook, no later hook, clean-up or failed attempt ends it |
| PkiSchedule.HookTurns | runtime/tests/zkpki_lifecycle.rs:104-132 | the hook suspends exactly the certificates that expire in its block and drops exactly those whose grace ends in it, stale entries notwithstanding |
| PkiSchedule.HookIsOnTime | runtime/tests/zkpki_lifecycle.rs:104-132 | after the hook every live certificate is filed for what comes next |
| PkiSchedule.BlocksAgree | runtime/tests/zkpki_lifecycle.rs:104-132 | taking two buckets and scanning all certificates, in any order, lead to the same rows, indexes, counts and balances |
| PkiSchedule.ScheduleRefinesScan | runtime/tests/zkpki_lifecycle.rs:104-132 | over every run in which each block has its hook, the schedule and the scan stay indistinguishable |
| PkiSchedule.ScheduleRefinesScanFromGenesis | runtime/tests/zkpki_lifecycle.rs:104-132 | from genesis, every such run ends with rows, indexes, counts and balances the same as under the scan |
| PkiTrust.ChainOfTrust | runtime/tests/zkpki_dryrun.rs:108-222 | from every live certificate the chain leads over an issued issuer, whose template it is under, to the registered root it names |
| PkiProxies.RoleNeedsProxy | runtime/src/proxy_validator.rs:4-7 | nobody becomes a root or an issuer in a step before which it has no delegate |
| PkiProxies.EnteredWithProxy | runtime/src/proxy_validator.rs:14-22 | whoever is a root or an issuer after a run became one in a step of it, and had a delegate just before |
| PkiProxies.CoveredWhileKept | runtime/src/lib.rs:177-178 | all along a run every root and issuer has a delegate exactly if none of them takes back its last |
| PkiProxies.CoveredFromGenesis | runtime/src/lib.rs:177-178 | and from genesis, whatever the initial balances |
| PkiProxies.RootWithoutProxy | runtime/src/lib.rs:177-178 | a root that takes back its delegation stays a root, without a delegate |
| PkiTrust.RetiredStaysRetired | runtime/tests/zkpki_template.rs:46-71 | a deactivated template gets no offer in any run for as long as it exists, and stays inactive |
| PkiTrust.InvalidationSparesCerts | runtime/tests/zkpki_template.rs:104-136 | exactly the root an issuer answers to, which is the root of all its certificates, can invalidate it; the record stays, marked, and no certificate, balance or schedule entry changes |
| PkiOffers.IndexedOffersAreOpen | runtime/tests/common/mod.rs:323-348 | what the offer index gives for an issuer and a user is always an open offer from the one to the other |
| PkiOffers.OffersAreFoundWhileSingle | runtime/tests/common/mod.rs:323-348 | all along a run every open offer is found by its pair exactly if no pair is made a second offer while one is indexed |
| PkiOffers.OlderMintHidesNewer | runtime/tests/zkpki_dryrun.rs:154-222 | minting an older offer of a pair drops the index entry of the newer one, which stays open |
| PkiOffers.OpenOfferGoesUnfound | runtime/tests/zkpki_dryrun.rs:108-222 | a run from genesis in which an issuer makes a user two offers and the older is minted: the newer is open, and its pair is not in the index |
| PkiEffects.MintSplitsFee | runtime/tests/fee_system.rs:77-205 | account by account, whoever coincides: the user pays the fee, 0.1 DOT of it is held on the user, the author gets the tip and the protocol the rest |
| PkiGuards.MintCosts | runtime/tests/fee_system.rs:77-205 | account by account, whoever coincides: a mint costs 1 unit under a template that requires proof of personhood, 1.5 for Packed under any other, and 2 otherwise |
| PkiGuards.MintTakesCost | runtime/tests/fee_system.rs:77-205 | so much less does a user who is neither protocol nor author have free |
| PkiGuards.MintSucceeds | runtime/tests/zkpki_dryrun.rs:154-222 | a mint succeeds if and only if the offer is the user's, issuer and template exist, personhood is proved where required, no live certificate is of the pair or, under the root, for the device, the tip is at most forty percent and needs an author, and the user can pay share, tip and deposit |
| PkiGuards.MintRefusals | runtime/tests/zkpki_dedup.rs:29-59 | which refusal means that there is no such offer, that it is another's, that the pair has a certificate, or that the device has one |
| PkiGuards.AddProxyAdds | runtime/src/lib.rs:177-178 | adding a proxy adds one definition of the caller and concerns nobody else |
| PkiGuards.RemoveProxyTakes | runtime/src/lib.rs:177-178 | removing one takes exactly one definition away, if there is one; removing all leaves none |
| PkiGuards.RegisterRootSucceeds | runtime/tests/zkpki_dryrun.rs:234-256 | a root is registered if and only if it has the delegate it names, and nothing else changes |
| PkiGuards.IssueIssuerSucceeds | runtime/tests/zkpki_template.rs:17-41 | an issuer is entered if and only if by a root, with a delegate, and once; it answers to that root |
| PkiGuards.CreateTemplateSucceeds | runtime/tests/common/mod.rs:297-321 | a template is made if and only if by an issuer and once; it is active, with the requirement given and a count of zero |
| PkiGuards.DeactivateTemplateSucceeds | runtime/tests/zkpki_template.rs:46-71 | an existing template is switched off, and nothing else of it or of others changes |
| PkiGuards.OfferSucceeds | runtime/tests/zkpki_template.rs:46-71 | an offer is made if and only if by an issuer, under an active template of its own, for some time and with a fresh nonce; it is filed as made and found by its pair |
| PkiGuards.SelfDiscardSucceeds | runtime/tests/zkpki_pop_flow.rs:64-124 | a certificate is discarded if and only if by its user and not with an assertion that fails; its rows go and no other |
| PkiGuards.SelfDiscardRefunds | runtime/tests/fee_system.rs:249-274 | account by account: the deposit goes back to whoever funded it |
| PkiGuards.CleanupSucceeds | runtime/tests/zkpki_lifecycle.rs:138-177 | clean-up succeeds if and only if the certificate is there, inactive and past its grace; its rows go and no other |
| PkiGuards.ReissueSucceeds | runtime/tests/zkpki_lifecycle.rs:60-99 | a reissue succeeds if and only if by the issuer, for some time, with no other live certificate under the root for the device, and with one unit at hand once the old deposit is back |
| PkiSuspension.SuspendSucceeds | runtime/tests/zkpki_lifecycle.rs:138-150 | a certificate is suspended if and only if it is there and the caller is its issuer; its row is then inactive and nothing else has changed |
| PkiSuspension.StepDown | runtime/tests/zkpki_lifecycle.rs:138-177 | a suspended certificate that outlasts a step is active again exactly if its issuer issued it anew for the same time and with the same body |
| PkiSuspension.DownWhileNotRevived | runtime/tests/zkpki_lifecycle.rs:138-177 | the same over every run through which it is there, hooks run or skipped |
| PkiSuspension.SuspendedIsReaped | runtime/tests/zkpki_lifecycle.rs:138-177 | from a suspension on, over any such run, clean-up succeeds exactly from expiry plus purge period on |
| PkiSuspension.SuspendedServesItsTerm | runtime/tests/zkpki_lifecycle.rs:104-132 | while every block has its hook, a suspended certificate that is neither replaced nor discarded stays, inactive, exactly until its grace is over |
| PkiSuspension.SuspensionIsUndone | runtime/tests/zkpki_lifecycle.rs:60-99 | a run from genesis in which a suspended certificate is issued anew as it was and is active again |
| PkiPromises.OfferWaits | runtime/tests/common/mod.rs:323-348 | all along a run an offer is on file as it was made exactly if it is not minted |
| PkiPromises.OfferIsHonoured | runtime/tests/common/mod.rs:323-379 | from the offer to its mint, over any run: the user gets an active certificate of the issuer under the template, for the time offered counted from the mint |
| PkiPromises.StepTemplate | runtime/tests/zkpki_template.rs:46-98 | a template goes exactly by a successful discarding; until then its requirement stays, and it is switched off by its issuer alone |
| PkiPromises.DemandStays | runtime/tests/zkpki_template.rs:46-98 | over any run in which it is not discarded, a template requires what it was made to require |
| PkiPromises.PersonhoodIsEnforced | runtime/tests/zkpki_pop_flow.rs:18-58 | after any run since a template was made with the requirement, every mint under it without a named and proved device is refused |
| PkiEffects.MintHonoursOffer | runtime/tests/common/mod.rs:323-379 | a mint yields exactly the certificate that the offer describes, and uses the offer up for good; under a template that requires proof of personhood it names a device whose proof held and which is then taken |
| PkiEffects.DiscardUndoesMint | runtime/tests/fee_system.rs:249-274 | discarding a fresh certificate always succeeds, restores every certificate map and gives the deposit back, so that only the fee less the deposit is spent |
| PkiEffects.RemoveUndoesInsert | runtime/tests/zkpki_lifecycle.rs:60-99 | removing a certificate takes its insertion back in all eight maps |
| PkiEffects.CleanupRoutesDeposit | runtime/tests/fee_system.rs:279-379 | account by account: clean-up moves the whole deposit from the funder's hold to the funder, or to the recipient named, and the caller gains nothing by it |
| PkiEffects.ReissueMovesDeposit | runtime/tests/zkpki_lifecycle.rs:60-99 | account by account: the old deposit goes back to its funder and the issuer holds one DOT more |
| PkiEffects.ReissueReplaces | runtime/tests/zkpki_lifecycle.rs:60-99 | the new certificate is active, of the same root, issuer, user and template, is what the pair index finds, and is the only one of the pair |
| Chain.NameCallsSpareCerts | runtime/src/lib.rs:168-169 | no call of the name system moves a certificate deposit on the balances both systems share |
| Chain.CertCallsSpareNames | runtime/src/lib.rs:168-169 | no extrinsic and no block of the certificate system moves a cleanup or listing deposit |
| Chain.RunKeeps | runtime/src/lib.rs:168-212 | any interleaving of calls of both systems and plain transfers on one set of balances keeps both invariants and the amount of money |
| Chain.HoldsAreOwed | runtime/src/lib.rs:168-212 | after any such run from genesis each account's holds are, reason by reason, what the rows of the two systems say |
| PkiPallet.AnyDelegate | runtime/src/proxy_validator.rs:18-21 | the loop finds a delegate exactly when one of the definitions names it |
| PkiPallet.Pallet.HasProxy | runtime/src/proxy_validator.rs:14-22 | an account without definitions has no proxy; otherwise as the loop finds |
| PkiPallet.Pallet.RemoveProxy | runtime/src/lib.rs:177-178 | its loop removes the first definition that names the delegate, exactly as `PkiSteps.RemoveProxy` specifies, and fails if there is none |
| PkiPallet.Pallet.Dispatch | runtime/tests/fee_system.rs:384-443 | an extrinsic does exactly one step of the specification or, failing with its error, changes nothing; the invariant and the amount of money stay |
| PkiPallet.Pallet.RegisterRoot | runtime/tests/zkpki_dryrun.rs:234-256 | ends as specified: refused without a proxy |
| PkiPallet.Pallet.IssueIssuer | runtime/tests/zkpki_template.rs:17-41 | ends as specified: refused when the candidate lacks the proxy |
| PkiPallet.Pallet.InvalidateIssuer | runtime/tests/zkpki_template.rs:104-136 | marks the record and nothing else, exactly as `PkiSteps.InvalidateIssuer` specifies (InvalidationSparesCerts) |
| PkiPallet.Pallet.CreateTemplate | runtime/tests/common/mod.rs:297-321 | a new template starts with a count of zero, exactly as `PkiSteps.CreateTemplate` specifies; only for an issuer, and not twice |
| PkiPallet.Pallet.DeactivateTemplate | runtime/tests/zkpki_template.rs:46-71 | switches the template off exactly as `PkiSteps.DeactivateTemplate` specifies (RetiredStaysRetired) |
| PkiPallet.Pallet.DiscardTemplate | runtime/tests/zkpki_template.rs:76-98 | removes template and count exactly as `PkiSteps.DiscardTemplate` specifies, and is refused while certificates under it are left (DiscardNeedsNoCert) |
| PkiPallet.Pallet.OfferContract | runtime/tests/zkpki_template.rs:46-71 | ends as specified: refused under an inactive template |
| PkiPallet.Pallet.MintCert | runtime/tests/zkpki_dryrun.rs:154-222 | every check before any write, then the payments, the rows and the schedule, exactly as `PkiSteps.MintCert` specifies (PkiGuards.MintSucceeds, MintCosts) |
| PkiPallet.Pallet.SuspendCert | runtime/tests/zkpki_lifecycle.rs:138-150 | storage ends exactly as `PkiSteps.SuspendCert` specifies: only by the issuer, and the row is then inactive (PkiSuspension.SuspendSucceeds) |
| PkiPallet.Pallet.SelfDiscard | runtime/tests/zkpki_pop_flow.rs:64-124 | ends as specified: only by the user, and an assertion that is given must hold |
| PkiPallet.Pallet.Reissue | runtime/tests/zkpki_lifecycle.rs:60-99 | ends as specified: the old certificate goes before the new one is checked |
| PkiPallet.Pallet.Cleanup | runtime/tests/zkpki_lifecycle.rs:138-177 | drops a reapable certificate exactly as `PkiSteps.Cleanup` specifies (CleanupRoutesDeposit), and is refused otherwise |
| PkiPallet.Pallet.OnInitialize | runtime/tests/zkpki_lifecycle.rs:104-132 | its two loops over the taken buckets end as specified |

## Left out

- PnsHistory.ChildrenAreCounted: holds for the runs in which no teardown of the parent itself leaves live subnames behind; what a teardown does with them is an open point of the sources, and where one leaves them the claim is false (PnsHistory.OrphansGoUncounted), with the exact conditions in PnsTree.StepCounts and PnsTree.CountedWhileTidy.
- PnsGifts.GiftIsSafe: rests on the choice above that an offer whose window is over does not free a name that has not itself expired; the test for it (runtime/tests/pns_advanced_regression.rs:246-278) lets both run out.
- PnsGovernance.GovernedOnlyByRoot: the cited test gates the calls for rent prices and exchange rates in the same way; the model has no fields for what they write, so they are not among its calls.
- PkiSuspension.SuspendedIsReaped: leaves out runs in which the issuer issues the suspended certificate anew for the same time and with the same body; with the thumbprint fixed by root, issuer, user, expiry and body that is the same certificate, active again (PkiSuspension.SuspensionIsUndone), and the exact condition is PkiSuspension.StepDown.
- PkiHistory.DeviceGate: the comment at runtime/src/configs/mod.rs:491-496 has the registrations of roots and issuers pass the device gate as well; what they enter in the registry is not in the sources, so the registry here has the entries of user certificates only.
- PkiTrust.ChainOfTrust: roots and issuers are registered in the tests for 1_000_000 and 500_000 blocks; what ends with that time is not in the sources, so here their records do not end.
- Pallets: pallet_proxy (reduced to one membership test and to adding and removing definitions; proxy types, delays, deposits, duplicates and limits are left out), pallet_balances (reduced to free balances and named holds, without an existential deposit), scheduler, sudo, grandpa and weights.
- Other deposits and limits: offer, template and root deposits, bounds on time to live, numbers of issuers and templates, content length, name capacity; the life of an unaccepted certificate offer.
- Fees: exact registration, marketplace and bounty amounts beyond the bounds that tests state; exchange rate and rent prices, which the tests only write and read back.
- Parsing: what makes a string a label or a nested name, case folding included; the parsers are parameters of the read view, and a label stands for its normalised form.
- Subname records: the SS58 record of a subname; only canonical names are given one here.
- Base node: children directly under it other than canonical names, and its handover beyond the change of owner of its token.
- Cryptography: signatures, HIP proofs, quotes and PCR comparison are an abstract verdict `Tpm(ek)`, `Packed` or none, and a flag that says whether the proof holds; certificate metadata and key material are one opaque body.
- Nonces: how the nonce of an offer is drawn; it is a parameter, and one that is in use is refused.
- PkiPallet.Pallet.Reissue: whether a reissue under a template that requires proof of personhood must prove it again is not fixed by any test, so no such guard is modelled.
- Block author: the tip paid to it is any amount up to the cap; which amount the pallet picks is not in the sources. Without an author it is nothing.
- Read view: the block number and hash in an answer are the constants the code writes; `query_cert_status` is not modelled.
- Secret Squirrel, the insecure randomness, node start-up, RPC plumbing, genesis JSON, benchmarks and chain specifications.
