# governance-rewards crank, modelled in Dafny

The crank is an off-chain process. It drives the governance-rewards program through three workflows, each run against one
distribution:

- **register**: registers every voter of the distribution's voter-stake registrar. Each voter's voter-weight record is
  refreshed first.
- **claim**: pays every claimant its chosen distribution option, to the address its preferences resolve.
- **reclaim**: sweeps what is left in every populated option's custodial wallet back to the admin.

Every workflow follows the same straight-line pipeline:

1. Read the distribution once.
2. Enumerate the work items. Claim and register scan the chain with a server-side byte-range filter. Reclaim
   instead walks the populated option slots of the distribution it has just read (`iter().flatten()`).
3. For each item, in order, build one request, submit it, and decide from the outcome whether the run goes on or ends.

The decision uses a three-way failure taxonomy:

- `Fatal` ends the run.
- `PossibleDegradation` is a transport failure: the transaction may or may not have landed.
- `Skip` is an account that no longer exists.

The model has these modules:

- `Prelude` (`prelude.dfy`): Rust's `Option` and `Result`, `u32`, and 32-byte public keys. Also `iter().flatten()`.
- `Failures` (`failure.dfy`): the `ClientError` variants, the `Failure` taxonomy, the classification `From` impl, and the
  two entry points `must_succeed` and `assess`.
- `Accounts` (`accounts.dfy`): the account records the crank reads and the memcmp filter.
- `Chain` (`chain.dfy`): the instructions, the requests and their signers, and the external derivations. Also the remote
  client, seen as an oracle.
- `Scan` (`scan.dfy`): `filter_account_result`, `filter_map`, `map`, and `collect::<Result<Vec<_>, _>>()`. Also the
  declarative statement of what an enumeration yields.
- `Batches` (`batch.dfy`): the per-item loop shared by the three workflows. It comes with a declarative account of a batch
  (`IsBatchFrom`) and a proof that this account determines the loop's result.
- `Claim`, `Register`, `Reclaim` (`claim.dfy`, `register.dfy`, `reclaim.dfy`): the three workflows.

The remote side is a `Remote` value of functions:

- what each distribution or preference read returns;
- what each filtered scan yields (the scan may fail, and so may each entry);
- what the n-th submission of a run returns.

The address derivations and encoders whose code lies outside the repository are fields of a `Derivations` value, and
every property holds for every choice of them. These are the program-derived and associated-token addresses,
`chosen_option`, `payout_address`, the preference address, and the default preferences.

A run returns a `Batch`. It holds the outcome and the requests the run submitted, in order. So "later items are never
attempted" is a statement about that trace.

`RequestBuilder::signer` appends a signer, so the model keeps signers as a sequence. The claim and register loops add
the payer once more on top of the builder's own `signer(payer)`. Their requests therefore list the payer twice, and
the only signer the builders add is the payer. The only signer the reclaim builder adds is the admin. Who else signs at
`send` (the client's own payer, who pays the fee) is left to the oracle.

## Model

| member | source | states |
|---|---|---|
| Failures.Classify | src/failure.rs:10-21 | The classification is total. A missing account is exactly the Skip case. Anchor, program and log-parse errors are exactly the Fatal case. RPC and pubsub errors are exactly the PossibleDegradation case. Fatal and PossibleDegradation carry the error unchanged. |
| Failures.ClassifyKeepsError | src/failure.rs:12-19 | Every error except a missing account can be recovered from its classification. |
| Failures.MustSucceed | src/failure.rs:23-27 | Success passes through unchanged. Every error becomes Fatal with the same error, and never Skip or a degradation. |
| Failures.MustSucceedRoundTrip | src/failure.rs:24-26 | A summary of `MustSucceed`'s contract in terms of `Payload`: taking the payload back out of the strict result gives back the original result. |
| Failures.Assess | src/failure.rs:29-41 | The tolerant result is 0 or 1. Success gives 0. The result is 1 exactly when the error is a possible degradation. It is an error exactly when the error classifies as Fatal, and then it is Fatal with that error. |
| Failures.AssessTable | src/failure.rs:30-40 | A summary, per error variant, of the contracts of `Classify` and `Assess`: a missing account gives 0, a transport error gives 1, and a fatal error gives Fatal. |
| Failures.AssessAgreesWithMustSucceedOnFatal | src/failure.rs:23-40 | Whenever the tolerant entry point fails, the strict one fails with the same failure. The two agree exactly on fatal errors. |
| Scan.FilterAccountResult | src/instructions/mod.rs:7-12 | An entry is dropped exactly when it is a missing-account error. Anything else is kept unchanged. |
| Scan.FilterAccountResultIdempotent | src/instructions/mod.rs:8-11 | The filter never passes a missing-account error, and it keeps its own output unchanged when applied again. |
| Scan.Collect | src/instructions/claim.rs:27 | Collecting succeeds iff every entry is Ok, and then yields all the values in order. Otherwise it yields the error of an entry that follows only Ok entries, which is the first error. |
| Scan.CollectAccountsEnumerates | src/instructions/claim.rs:24-27 | Filter then collect yields the loaded values in scan order when only missing accounts failed. Otherwise it yields the first error that is not a missing account. |
| Scan.CollectMapOk | src/instructions/register.rs:25-29 | Projecting each entry's success value and then collecting is the same as collecting and then projecting the list. The success and failure cases are kept as they were. |
| Accounts.MatchesKeyField | src/instructions/claim.rs:17-22 | A memcmp filter selects an account exactly when the key field at the filter's offset equals the filter's bytes. |
| Claim.ClaimScanSelectsDistribution | src/instructions/claim.rs:17-21 | The claim filter matches exactly the records whose bytes 16..48 hold the distribution's address. |
| Claim.AccountsToClaim | src/instructions/claim.rs:11-28 | A scan failure is returned as is. Otherwise the result is what the scan entries enumerate: the loaded records in order, or the first error that is not a missing account. |
| Claim.BuildClaim | src/instructions/claim.rs:30-55 | One claim instruction; the builder adds the payer as its signer. It carries the user, the distribution and its realm, and the chosen option's wallet. Its payout address is the one the (default-filled) preference resolves for that user, mint and realm. |
| Claim.FailedPreferenceReadUsesDefault | src/instructions/claim.rs:82-90 | Any failed preference read, not only a missing record, builds the same claim as the default preferences do. |
| Claim.ClaimRequest | src/instructions/claim.rs:81-93 | Each claimant's request holds one claim instruction for that claimant. It lists the payer twice as signer, and the payer is the only signer added. |
| Claim.GetPreferences | src/instructions/claim.rs:57-63 | The preference record is present exactly when the read of the claimant's preference address succeeds, and it is then the record read. Every read failure, not only a missing account, gives nothing. |
| Claim.ClaimRequestPayout | src/instructions/claim.rs:82-92 | In the request the claim loop sends, the payout address is resolved from the stored preference when its read succeeds, and from the default preference when the read fails for any reason. |
| Claim.ClaimVerdict | src/instructions/claim.rs:95 | A submission ends the claim loop exactly when it failed with a fatal error, and then with Fatal carrying that error. |
| Claim.ClaimDiscovery | src/instructions/claim.rs:70-79 | A failed distribution read or a failed scan is Fatal with that error. Otherwise discovery returns the distribution, or the enumeration's own result, as the scan entries determine. |
| Claim.ClaimBatch | src/instructions/claim.rs:81-96 | The claim loop meets the declarative batch account, with one claim request per claimant and the `assess` verdict. |
| Claim.ClaimBatchSends | src/instructions/claim.rs:81-93 | Request i of the loop is the request built for claimant i, and no more requests than claimants are sent. |
| Claim.ClaimBatchSucceeds | src/instructions/claim.rs:81-98 | The loop succeeds iff every claimant was attempted and no submission assessed as Fatal. Skips and degradations never stop it. |
| Claim.ClaimBatchFails | src/instructions/claim.rs:95 | A failing loop ends at its last submission, which assessed as Fatal with that failure. Every earlier submission was tolerated, and later claimants are never attempted. |
| Claim.ClaimRun | src/instructions/claim.rs:65-99 | Every failure of a claim run is Fatal. A failed discovery ends the run before any claimant is attempted. Otherwise the run is the claim loop over the discovered claimants. |
| Register.VoterScanSelectsRegistrar | src/instructions/register.rs:18-23 | The voter filter matches exactly the voters whose bytes 40..72 hold the registrar's address. |
| Register.AccountsToRegister | src/instructions/register.rs:11-30 | The `unwrap` panics exactly when the distribution has no registrar. Otherwise the result is the scan's own failure, or the voters' addresses in scan order with missing accounts dropped, or the first other error. |
| Register.BuildRegister | src/instructions/register.rs:32-84 | Exactly two instructions in order: the voter-weight-record refresh, then the registration. The record address derived from `[registrar, "voter-weight-record", user]` is the one both instructions use. The voter is derived from `[registrar, "voter", user]`, and the system program is the all-zero key. The builder adds the payer as its signer. |
| Register.RegisterRequest | src/instructions/register.rs:98-106 | Each user's request ends with the registration of that user. It lists the payer twice as signer, and the payer is the only signer added. |
| Register.RegisterVerdict | src/instructions/register.rs:107 | Every submission error ends the register loop, carried unchanged and unclassified. |
| Register.RegisterDiscovery | src/instructions/register.rs:87-96 | A failed distribution read ends the run with that error. A missing registrar panics. Otherwise discovery returns exactly what `accounts_to_register` returns. |
| Register.RegisterBatch | src/instructions/register.rs:98-108 | The register loop meets the declarative batch account, with one request per user and no tolerance for errors. |
| Register.RegisterBatchSends | src/instructions/register.rs:98-106 | Request i of the loop is the request built for user i, and no more requests than users are sent. |
| Register.RegisterBatchSucceeds | src/instructions/register.rs:98-110 | The loop succeeds iff every user was sent a request and every submission succeeded. |
| Register.RegisterBatchFails | src/instructions/register.rs:107 | A failing loop ends at its last submission, whose error it carries. Every earlier submission succeeded, and later users are never attempted. |
| Register.RegisterRun | src/instructions/register.rs:86-111 | A failed read, a missing registrar or a failed enumeration ends the run before any user is attempted. Otherwise the run is the register loop. A successful run submitted successfully for every enumerated user. |
| Reclaim.BuildReclaim | src/instructions/reclaim.rs:12-28 | One reclaim instruction, and the only signer the builder adds is the admin. It moves the option's wallet to the admin's associated token account for the option's mint. |
| Reclaim.IsAlreadyClaimedErr | src/instructions/reclaim.rs:30-40 | `is_already_claimed_err` holds exactly for an Anchor error whose code is the offset plus the compared value. The guarded subtraction never leaves `u32`, and any other error gives false. |
| Reclaim.ReclaimVerdict | src/instructions/reclaim.rs:59-68 | A submission ends the reclaim loop exactly when it failed with something other than "already reclaimed". That includes transport errors. It then ends with Fatal carrying the error. |
| Reclaim.ReclaimBatch | src/instructions/reclaim.rs:56-70 | The reclaim loop meets the declarative batch account, with one reclaim per option and the "already reclaimed" tolerance. |
| Reclaim.ReclaimBatchSends | src/instructions/reclaim.rs:56-57 | Request i of the loop is the reclaim built for option i, and no more requests than options are sent. |
| Reclaim.ReclaimBatchSucceeds | src/instructions/reclaim.rs:56-72 | The loop succeeds iff every option was attempted and each attempt succeeded or was already reclaimed. |
| Reclaim.ReclaimBatchFails | src/instructions/reclaim.rs:59-67 | A failing loop ends at its last submission. That submission failed with something other than "already reclaimed", and the run ends with Fatal carrying its error. Every earlier attempt was let through, and later options are never attempted. |
| Reclaim.ReclaimRun | src/instructions/reclaim.rs:42-73 | Every failure of a reclaim run is Fatal. A failed distribution read ends it before any option is attempted. Otherwise the run is the reclaim loop over the populated options. |
| Reclaim.ReclaimVisitsPopulatedOptions | src/instructions/reclaim.rs:56 | The run attempts only populated option slots, in slot order, and never more than there are. A successful run attempted each of them once. |
| Reclaim.AsWrittenReclaimAbortsOnAlreadyReclaimed | src/instructions/reclaim.rs:30-67 | With the comparison as written, suppose the options before position k succeed and option k was already swept. Then the run ends at option k with Fatal carrying the "already reclaimed" error: exactly k + 1 options are attempted and the rest never are. |
| Reclaim.AsWrittenCheckMissesAlreadyReclaimed | src/instructions/reclaim.rs:30-40 | With `u32::from(AlreadyReclaimed)`, which already includes the offset, as the compared value, `is_already_claimed_err` rejects the code the program raises for that variant and accepts only the code offset twice. |
| Reclaim.CorrectedCheckRecognisesAlreadyReclaimed | src/instructions/reclaim.rs:30-40 | Compared with the variant number, `is_already_claimed_err` recognises exactly the error code the program raises for that variant. |
| Reclaim.CorrectedReclaimPassesAlreadyReclaimed | src/instructions/reclaim.rs:56-72 | With the corrected comparison, a reclaim in which every option succeeds or was already swept attempts every populated option and succeeds. |
| Prelude.FlattenKeepsPopulated | src/instructions/reclaim.rs:56 | `flatten` keeps one element per populated slot: exactly the payloads of the `Some` slots. |
| Prelude.FlattenAppend | src/instructions/reclaim.rs:56 | `flatten` distributes over concatenation, so each slot contributes its payload at its own position. |
| Batches.RunBatch | src/instructions/claim.rs:81-96 | The shared loop meets the declarative batch account. Requests are built for a prefix of the items, in order. The run succeeds iff every item was attempted and let through. A failure is the verdict of the last attempt, and every earlier attempt was let through. |
| Batches.BatchIsDetermined | src/instructions/register.rs:98-108 | The declarative batch account pins the loop down: any batch satisfying it is the loop's result. |

## Left out

- `src/main.rs` is not part of this model. It covers command-line and environment parsing, keypair files, the URL
  rewrite and the async runtime; these are I/O plumbing.
- `src/client.rs` is not part of this model. It constructs the foreign `anchor_client::Client`. The model keeps only the
  distribution address and the payer and admin public keys (`Chain.CrankClient`).
- `src/crank.rs` is not part of this model beyond `DistributionInfo`. Its dispatcher does not agree with `main.rs`:
  - `runner` matches `Command::Register` and `Command::Claim` and takes two arguments;
  - `main.rs` defines only `Command::Crank {}` and calls `runner` with one argument.

  So no dispatcher contract is modelled.
- The RPC transport is replaced by the `Remote` oracle. That covers account reads, lazy scans, submission and server-side
  memcmp evaluation. Only the filter parameters (offset and key) are modelled; `Accounts.Matches` states what a filter
  means.
- Address derivations are free parameters (`Derivations`) whose code is not in the repository. So are the Anchor
  instruction encoders (`Instruction` constructors), `ClaimData::chosen_option`, `payout_address`,
  `UserPreferences::get_address` and `UserPreferences::default`.
- `ClaimData`, `Voter` and `ResolutionPreference` are opaque bytes or tags. Their layouts belong to other programs; the
  crank relies only on the key fields at the filter offsets.
- The degradation counter: the documented design accumulates a degradation count over a batch and reports it. The code
  computes a 0/1 per claimant (`claim.rs:95`) but never accumulates or reports it. The model follows the code: the 0/1
  is stated per submission in the contract of `Failures.Assess`, and no sum exists. There is no retry either.
- Logging (`info!` in `reclaim.rs:62-65`) and the log text are left out. So is async/await: the loops are sequential.
- Transaction fees, blockhashes and signatures: a submission's outcome is whatever the oracle returns.
- Register.BuildRegister: it requires the registrar to be present instead of modelling the `unwrap` panic at
  `register.rs:39`. The runner reaches it only after `accounts_to_register` has already panicked on a missing registrar,
  modelled as `RegistrarUnwrapPanic`.

## Findings

| source | as written | input that shows it | evidently intended | confidence | as-written member | corrected member |
|---|---|---|---|---|---|---|
| src/instructions/reclaim.rs:35-36 | `is_already_claimed_err` compares `code - ERROR_CODE_OFFSET` with `u32::from(GovernanceRewardsError::AlreadyReclaimed)`. The conversion Anchor's `#[error_code]` derives already adds `ERROR_CODE_OFFSET` (6000). | The program rejects a reclaim with the code it raises for `AlreadyReclaimed`, 6000 + d for variant number d. It compares 6000 + d - 6000 = d with 6000 + d and returns false, so the loop returns Fatal at the first option that was already swept, and the options after it are never reclaimed. | Compare the offset-relative code with the variant number itself (or the raw code with `u32::from(...)`), so that an already-swept option is passed over. | medium: depends on the `From` impl of Anchor's error macro; not executed | Reclaim.AsWrittenReclaimAbortsOnAlreadyReclaimed | Reclaim.CorrectedReclaimPassesAlreadyReclaimed |

`Reclaim.ReclaimRun` takes the value `is_already_claimed_err` compares with as a parameter:

- `Reclaim.AnchorErrorCode(variant)` is the value as written. `Reclaim.AsWrittenCheckMissesAlreadyReclaimed` shows that
  the test then accepts only a code offset twice.
- `variant` is the corrected value. `Reclaim.CorrectedCheckRecognisesAlreadyReclaimed` shows that the test then accepts
  exactly the raised code.
