# ERC-3643 (T-REX) operator scripts, modelled in Dafny

The repository is a set of Hardhat scripts that drive an ERC-3643 (T-REX)
security token from the operator's side:

- deploying the suite through a TREXGateway;
- provisioning and registering investor identities;
- minting, burning and forcing transfers as an agent;
- pausing, unpausing and unfreezing;
- linking the T-REX factory to the ONCHAINID factory.

The contracts live elsewhere. What the scripts own is their client-side
decision logic:

- which function a contract exposes, and which of several candidate
  signatures to call;
- which precondition reads stop the run and which are tolerated;
- the rule that a transaction is first simulated (`callStatic`, `estimateGas`)
  and, once sent, awaited to a fixed confirmation depth;
- the identity provisioning workflow;
- the scan of a deployment receipt for `TREXSuiteDeployed`.

This project models that logic against an abstract remote and proves what the
scripts promise about it.

**The remote.** `Network.Remote` is a class whose answers come from an arbitrary,
unconstrained tape of replies. Each exchange consumes one reply and records it in
a trace:

- `Probe` — a read;
- `Simulate` — a dry run;
- `Submit` — a transaction or a deployment;
- `Wait(depth)` — a confirmation wait;
- `Abort` — an explicit `process.exit(1)`;
- `Fatal` — an error that reaches `main().catch`.

A reply of the wrong shape for a read (for example a non-boolean answer to
`paused()`) counts as a failed call, which is what an ABI decoding error raises.
`Network.Session` is the same state as a value. Its members (`Read`, `Simulate`,
`Submit`, `Wait`, `Halt`) specify the methods of `Remote`.

**The scripts.** Each script is a module with two members:

- a function `Behaviour(…, s)`, built from stage functions, which gives the
  session the script leaves behind;
- a method `Execute(r, …)` that runs the script on a `Remote`, proved to leave
  `r.State() == Behaviour(…, old(r.State()))`.

**Shared pieces.**

- `Submission.Transaction` is simulate, then submit, then wait.
- `Submission.Dispatch` is submit then wait, without a simulation.
- `Gates` holds the shared reads:
  - a read whose failure is handled by an `Exit`, `Throw` or `Tolerate` handler;
  - the optional `isAgent` gate;
  - the informational verification report.
- `Identities` is the identity workflow that two scripts share.
- `Receipts` is the receipt scan.
- `Capability` holds:
  - the `has` predicates (`Exposes` is `fns.some(s => s.startsWith(p))`, and
    this definition is the property that `has(p)` holds exactly when some
    exposed name starts with `p`);
  - priority resolution over candidate signatures.

**The trace discipline.** `Network` also defines the properties every run is
proved to keep:

- `PreflightedExcept(t, u)`: every submission of a call not named in `u` comes
  right after a passing simulation of the same call, with the same arguments.
- `AwaitedTo(t, depths)`: every accepted submission is of a call named in
  `depths`, and is followed at once by a wait of the depth `depths` gives it.
- `Going()` / `Ended()`: either the run is still going with no failed
  simulation, submission or wait and no stop, or it stopped:
  - the stop (an `Abort` or a `Fatal` entry) is its last step;
  - any failed simulation, submission or wait is the step just before the stop.

  A failed or malformed read is not one of these failures: a run that tolerates
  one is still `Going()`.

Step functions carry these properties as `Keeps(s, r)`, and `Network.Extend`
proves what appending one step does to them. A script that catches nothing
also satisfies `StoppedFatally()`: if it stopped, its last entry is a `Fatal`
one. The `…ThrowsFatally` and `…StopsFatally` lemmas give this step by step.
Every script has three lemmas over all tapes:

- `EndsProperly`;
- `…Preflighted` or `…Unsimulated`;
- `…Awaited`.

More lemmas pin down the trace for particular answers: which gate aborts, which
failure is tolerated, and which call is submitted.

**Where the scripts differ from their one-line description.** The model follows
the code.

- Not every submission is simulated first. None of these has a simulation:
  - the mint in `deployToken.js`;
  - `unpause()`;
  - `addTokenFactory`;
  - the identity deployment in `04_authorizeAndTransfer.js` and
    `authorizeRecipientOnly.js`.

  Their lemmas name these calls as exempt: `PreflightedExcept(…, {"mint"})`
  and similar.
- A receipt with several `TREXSuiteDeployed` events is not rejected as
  ambiguous. The scan takes the first, as the loop's `break` does
  (`Receipts.FirstMatchWins`).
- A matching event whose token address is missing or zero ends the scan all the
  same. The run then aborts even if a later log would have matched.
- `02_registerIdentity.js` registers whatever the wallet's current status.
  Only the simulation stands between an already verified wallet and a second
  registration.

## Model

| member | source | states |
|---|---|---|
| Capability.ExactOrPrefixIsPrefix | scripts/forceTransfer.js:27 | the two-part `has` (exact name or prefix) holds exactly when some exposed name starts with the signature |
| Capability.ExposesDependsOnlyOnNames | scripts/forceBurn.js:25-26 | whether a prefix is exposed depends only on which names are exposed, not on their order or repetition |
| Capability.Resolve | scripts/forceBurn.js:72-97 | the chosen index names an exposed candidate, and no earlier candidate is exposed; there is no choice exactly when no candidate is exposed |
| Capability.ResolvePrefersEarlier | scripts/forceBurn.js:72-91 | an exposed candidate is never passed over: the winner's index is at most that of any exposed candidate |
| Capability.ResolveDependsOnlyOnNames | scripts/forceBurn.js:72-91 | selection is deterministic: exposed lists with the same names pick the same candidate |
| Capability.ResolveMonotone | scripts/forceBurn.js:72-91 | exposing more functions never loses a choice, and can only move it to an earlier candidate |
| Network.Extend | scripts/sendToken.js:13-16 | appending a step keeps the preflight rule unless it is an unsimulated submission, and keeps the depth rule if it is the awaited wait; a halt after a failure-free trace leaves the failure as its next-to-last step and the halt as the last |
| Network.Session.Read | scripts/unpauseToken.js:10 | a read records its reply and keeps the trace discipline |
| Network.Session.Halt | scripts/forceBurn.js:105-109 | an Exit or Throw stop on a failure-free run ends it properly; Tolerate records nothing and goes on |
| Network.Remote.Read | scripts/forceBurn.js:30 | the reply is the next one on the tape, recorded as a Probe of that query |
| Network.Remote.Simulate | scripts/forceBurn.js:103 | the reply is the next one on the tape, recorded as a Simulate of that call |
| Network.Remote.Submit | scripts/forceBurn.js:113 | the reply is the next one on the tape, recorded as a Submit of that call |
| Network.Remote.Wait | scripts/forceBurn.js:115 | the reply is the next one on the tape, recorded as a Wait of that depth |
| Network.Remote.Halt | scripts/forceBurn.js:117-121 | records the Abort (`process.exit`) or Fatal (error to `main().catch`) entry and stops, or nothing for a tolerated failure |
| Submission.Transaction | scripts/mintToSelf.js:80-98 | simulate, then send, then wait: a failed simulation stops before any submission; the submission follows its passing simulation and is awaited to the given depth; a run that tolerates neither failure ends properly |
| Submission.DispatchThrowsFatally | scripts/sendToken.js:14-20 | with no handler catching, a failed submission or wait stops the run with a Fatal entry |
| Submission.TransactionThrowsFatally | scripts/sendToken.js:13-20 | with no handler catching, a failed simulation, submission or wait stops the run with a Fatal entry |
| Submission.Dispatch | scripts/unpauseToken.js:14-16 | send, then wait, with no simulation: the submission is awaited to the given depth and a failure is handled by the handler |
| Submission.Confirm | scripts/mintToSelf.js:93 | the wait after an accepted submission completes the depth rule; a failed wait is handled by the handler |
| Submission.Transact | scripts/forceBurn.js:101-121 | leaves the state `Transaction` gives; landed exactly when the simulation passes, the submission is accepted and the wait confirms, and then the receipt is the wait's reply |
| Submission.Send | scripts/linkTrexToIdFactory.js:29-31 | leaves the state `Dispatch` gives; landed exactly when the submission is accepted and the wait confirms |
| Gates.Expect | scripts/03_mintTestTokens.js:19-24 | a read whose failed or malformed reply is handled by the handler; keeps the trace discipline |
| Gates.ExpectThrowsFatally | scripts/03_mintTestTokens.js:19-24 | an uncaught read failure stops the run with a Fatal entry |
| Gates.ExpectRead | scripts/03_mintTestTokens.js:19-24 | leaves the state `Expect` gives; the reply is the next one on the tape and ok says whether it has the query's type |
| Gates.AgentGate | scripts/forceBurn.js:48-59 | the optional agent gate keeps the trace discipline |
| Gates.CheckAgent | scripts/forceBurn.js:48-59 | the run goes on exactly when `isAgent(` is not exposed, or the call answers true, or it fails and the failure is tolerated |
| Gates.ReportVerification | scripts/forceBurn.js:34-45 | the informational verification reads keep the trace discipline and never stop the run |
| Gates.ShowVerification | scripts/forceBurn.js:34-45 | leaves the state `ReportVerification` gives |
| Receipts.FirstMatch | scripts/deployToken.js:222-235 | the index found is of a log that decodes to `TREXSuiteDeployed` with no such log before it; there is none exactly when no log matches |
| Receipts.FindDeployedToken | scripts/deployToken.js:217-235 | the scan loop, which breaks at the first match, yields the token address of the first matching log, its named `_token` before argument 0 |
| Receipts.Sources | scripts/deployToken.js:238-242 | the listed addresses are the logs' sources, one per log, in order |
| Receipts.NonMatchingSkipped | scripts/deployToken.js:223-234 | a log that does not decode, or decodes to another event, is skipped |
| Receipts.FirstMatchWins | scripts/deployToken.js:226-231 | once a log matches, later logs never change the result |
| Receipts.NamedArgumentPreferred | scripts/deployToken.js:228 | a match with a named `_token` gives that address whatever its argument 0 |
| DeployToken.Behaviour | scripts/deployToken.js:35-274 | a run that starts going ends going, stopped properly, or going on past a tolerated mint failure; every submission but the mint is preflighted; the suite is awaited to depth 3 and the mint to depth 2 |
| DeployToken.Probing | scripts/deployToken.js:55-64 | the `isDeployer` probe keeps the discipline of the whole run |
| DeployToken.Fees | scripts/deployToken.js:66-87 | the fee and factory reads and the eligibility rule keep the discipline |
| DeployToken.Wiring | scripts/deployToken.js:100-148 | the implementation-authority checks keep the discipline |
| DeployToken.Implementations | scripts/deployToken.js:118-148 | the six implementation reads keep the discipline |
| DeployToken.Deploying | scripts/deployToken.js:187-250 | the static call, the deployment awaited to depth 3 and the receipt scan keep the discipline |
| DeployToken.Minting | scripts/deployToken.js:255-274 | the mint never stops the run; it leaves it going or going on past its failure |
| DeployToken.MintTolerated | scripts/deployToken.js:267-273 | the tolerated mint leaves a run with no failure going, or going on with the mint's failed submission or wait as its last step |
| DeployToken.MintSubmitFailureTolerated | scripts/deployToken.js:267-274 | a failed mint submission is the run's last step and the run does not stop |
| DeployToken.MintWaitFailureTolerated | scripts/deployToken.js:269-274 | a failed wait for the mint is the run's last step and the run does not stop |
| DeployToken.ReadImplementations | scripts/deployToken.js:118-148 | leaves the state `Implementations` gives, and reports whether any implementation is zero |
| DeployToken.Execute | scripts/deployToken.js:3-285 | leaves the state `Behaviour` gives |
| DeployToken.CheckFees | scripts/deployToken.js:66-87 | leaves the state `Fees` gives |
| DeployToken.CheckWiring | scripts/deployToken.js:100-148 | leaves the state `Wiring` gives |
| DeployToken.Deploy | scripts/deployToken.js:187-274 | leaves the state `Deploying` gives |
| DeployToken.EndsProperly | scripts/deployToken.js:3-290 | every run ends going, stopped properly, or going on past a tolerated mint failure |
| DeployToken.OnlyMintUnsimulated | scripts/deployToken.js:192-202 | every submission but the mint comes right after a passing static call with identical arguments |
| DeployToken.TransactionsAwaited | scripts/deployToken.js:204 | the suite deployment is awaited to depth 3, the mint to depth 2, before anything else happens |
| DeployToken.NotExposedAborts | scripts/deployToken.js:35-40 | without `batchDeployTREXSuite(` the run aborts at once, listing every exposed name |
| DeployToken.ProbeOnlyWhenExposed | scripts/deployToken.js:57-61 | `isDeployer` is not called when it is not exposed, and the caller is then not a deployer |
| DeployToken.ProbeErrorIsFalse | scripts/deployToken.js:56-64 | any answer other than true, failures included, counts as not a deployer and does not stop the run |
| DeployToken.ProbeTrueIsDeployer | scripts/deployToken.js:57-58 | a true answer makes the caller a deployer |
| DeployToken.IneligibleRefused | scripts/deployToken.js:81-87 | with public deployment off and the caller not a deployer, the run aborts right after the fee and factory reads |
| DeployToken.EligibleProceeds | scripts/deployToken.js:81-87 | with either one, the run goes on to the factory checks |
| DeployToken.ZeroAuthorityAborts | scripts/deployToken.js:112-115 | a zero implementation authority aborts before any implementation is read |
| DeployToken.ImplementationsFindZero | scripts/deployToken.js:134-144 | when all six reads answer, the run goes on and reports a zero exactly when one of the six addresses is zero |
| DeployToken.ZeroImplementationAborts | scripts/deployToken.js:118-144 | with a non-zero authority and all six implementations read, a zero among them aborts the run with that as its last step |
| DeployToken.WiredProceeds | scripts/deployToken.js:100-148 | with none of them zero, the run goes on to the deployment after exactly those reads |
| DeployToken.EventMissingAborts | scripts/deployToken.js:237-250 | a receipt without a usable token address aborts, listing every log source, and nothing is minted |
| DeployToken.FoundTokenMinted | scripts/deployToken.js:246-258 | a usable token address is the target of the mint step |
| DeployToken.StaticFailureAborts | scripts/deployToken.js:192-212 | a reverted static call aborts with nothing submitted |
| DeployToken.NoMintFunctionSkips | scripts/deployToken.js:257-260 | without `mint(` the mint step does nothing and the run ends normally |
| ForceBurn.BurnMethodIsResolution | scripts/forceBurn.js:72-97 | the if-chain picks by priority among `forcedBurn`, `forceBurn`, `burn(address,uint256)` |
| ForceBurn.BurnMethodDeterministic | scripts/forceBurn.js:72-91 | the choice depends only on which names are exposed |
| ForceBurn.Execute | scripts/forceBurn.js:4-129 | leaves the state `Behaviour` gives |
| ForceBurn.EndsProperly | scripts/forceBurn.js:4-131 | every run ends going or stopped properly |
| ForceBurn.BurnPreflighted | scripts/forceBurn.js:101-113 | the burn is submitted only right after a passing simulation of the same method with `(TARGET, amount)` |
| ForceBurn.BurnAwaited | scripts/forceBurn.js:112-121 | the burn is awaited to depth 2 |
| ForceBurn.NoMethodAborts | scripts/forceBurn.js:92-97 | with no burn method the run aborts naming the three candidates and the exposed list, with nothing simulated or sent |
| ForceBurn.NonAgentAborts | scripts/forceBurn.js:48-55 | an exposed `isAgent` answering false aborts |
| ForceBurn.AgentErrorIgnored | scripts/forceBurn.js:49-56 | a failed `isAgent` call is swallowed and leaves only its probe |
| ForceBurn.InformationalReadsNeverStop | scripts/forceBurn.js:29-45 | whatever the paused and registry reads answer, the run is still going |
| ForceBurn.LowBalanceOnlyWarns | scripts/forceBurn.js:67-69 | a balance below the amount changes nothing: the run goes on to the burn |
| ForceBurn.RevertedBurnAborts | scripts/forceBurn.js:101-109 | a failed simulation aborts with nothing sent |
| ForceTransfer.TransferMethodIsResolution | scripts/forceTransfer.js:72-90 | the if-chain picks by priority between `forcedTransfer` and `forceTransfer` |
| ForceTransfer.FallbackOnlyWhenPreferredAbsent | scripts/forceTransfer.js:72-84 | `forceTransfer` is chosen exactly when `forcedTransfer` is absent and it is exposed |
| ForceTransfer.Execute | scripts/forceTransfer.js:4-122 | leaves the state `Behaviour` gives |
| ForceTransfer.EndsProperly | scripts/forceTransfer.js:4-124 | every run ends going or stopped properly |
| ForceTransfer.TransferPreflighted | scripts/forceTransfer.js:95-106 | the transfer is submitted only right after a passing simulation with identical `(FROM, TO, amount)` |
| ForceTransfer.TransferAwaited | scripts/forceTransfer.js:105-114 | the transfer is awaited to depth 2 |
| ForceTransfer.NoMethodAborts | scripts/forceTransfer.js:85-90 | with neither method the run aborts listing both and the exposed list |
| ForceTransfer.NonAgentAborts | scripts/forceTransfer.js:48-55 | an exposed `isAgent` answering false aborts |
| ForceTransfer.AgentErrorIgnored | scripts/forceTransfer.js:49-56 | a failed `isAgent` call is ignored and leaves only its probe |
| ForceTransfer.LowBalanceOnlyWarns | scripts/forceTransfer.js:67-69 | an insufficient FROM balance changes nothing: the run goes on to the transfer |
| ForceTransfer.RevertedTransferAborts | scripts/forceTransfer.js:95-102 | a failed simulation aborts with nothing sent |
| MintToSelf.Checked | scripts/mintToSelf.js:47-102 | the gates and the mint keep the trace discipline, with the mint awaited to depth 2 |
| MintToSelf.Minting | scripts/mintToSelf.js:74-102 | the minting step keeps the trace discipline, with the mint awaited to depth 2 |
| MintToSelf.RecipientGate | scripts/mintToSelf.js:59-72 | the recipient check keeps the trace discipline |
| MintToSelf.Execute | scripts/mintToSelf.js:4-106 | leaves the state `Behaviour` gives |
| MintToSelf.EndsProperly | scripts/mintToSelf.js:4-108 | every run ends going or stopped properly |
| MintToSelf.MintPreflighted | scripts/mintToSelf.js:80-91 | the mint is submitted only right after a passing `callStatic.mint(RECIPIENT, amount)` |
| MintToSelf.MintAwaited | scripts/mintToSelf.js:89-98 | the mint is awaited to depth 2 |
| MintToSelf.NoMintAborts | scripts/mintToSelf.js:28-33 | without `mint(` the run aborts at once, listing the exposed names |
| MintToSelf.PausedAborts | scripts/mintToSelf.js:36-42 | a paused token aborts right after the paused read |
| MintToSelf.UnpausedContinues | scripts/mintToSelf.js:35-45 | any other answer to `paused()`, a failure included, goes on to the agent gate |
| MintToSelf.NonAgentAborts | scripts/mintToSelf.js:47-55 | an exposed `isAgent` answering false aborts |
| MintToSelf.AgentErrorIgnored | scripts/mintToSelf.js:49-56 | a failed `isAgent` call is ignored: the run goes on to the recipient gate |
| MintToSelf.UnverifiedAborts | scripts/mintToSelf.js:60-69 | an unverified recipient aborts |
| MintToSelf.RegistryErrorSkipped | scripts/mintToSelf.js:60-72 | a failed registry query skips the recipient check |
| MintToSelf.RevertedMintAborts | scripts/mintToSelf.js:80-87 | a failed simulation aborts with nothing submitted |
| MintToSelf.GatesPass | scripts/mintToSelf.js:47-76 | with the agent and the recipient confirmed, the gates come out in order and the run reaches the balances and the mint |
| MintToSelf.MintLands | scripts/mintToSelf.js:74-102 | with a passing simulation and a confirmed mint, the step is the balance reads, the simulation, the same mint, the depth-2 wait and the balance reads again, and the run goes on |
| MintTestTokens.Execute | scripts/03_mintTestTokens.js:4-54 | leaves the state `Behaviour` gives |
| MintTestTokens.EndsProperly | scripts/03_mintTestTokens.js:4-59 | every run ends going or stopped properly |
| MintTestTokens.MintPreflighted | scripts/03_mintTestTokens.js:38-47 | the mint follows a passing simulation with the same arguments |
| MintTestTokens.MintAwaited | scripts/03_mintTestTokens.js:47-49 | the mint is awaited to depth 2 |
| MintTestTokens.UnverifiedAborts | scripts/03_mintTestTokens.js:24-29 | an unverified destination aborts before any simulation or mint |
| MintTestTokens.RegistryErrorIsFatal | scripts/03_mintTestTokens.js:19 | a failed registry query is not caught: the run ends as fatal |
| MintTestTokens.VerificationErrorIsFatal | scripts/03_mintTestTokens.js:24 | a failed verification query ends the run as fatal |
| MintTestTokens.RevertedMintAborts | scripts/03_mintTestTokens.js:38-44 | a failed simulation aborts with nothing minted |
| RegisterIdentity.Status | scripts/02_registerIdentity.js:43-51 | the status reads keep the trace discipline |
| RegisterIdentity.ReadStatus | scripts/02_registerIdentity.js:43-51 | leaves the state `Status` gives; ok says whether the run goes on |
| RegisterIdentity.Execute | scripts/02_registerIdentity.js:4-90 | leaves the state `Behaviour` gives |
| RegisterIdentity.EndsProperly | scripts/02_registerIdentity.js:4-95 | every run ends going or stopped properly |
| RegisterIdentity.RegisterPreflighted | scripts/02_registerIdentity.js:53-67 | the registration follows a passing simulation with identical `(wallet, identity, country)` |
| RegisterIdentity.RegisterAwaited | scripts/02_registerIdentity.js:65-74 | the registration is awaited to depth 2 |
| RegisterIdentity.RegistersEvenIfVerified | scripts/02_registerIdentity.js:43-51 | an already verified wallet does not stop the run: it goes on to the registration |
| RegisterIdentity.UnverifiedAfterOnlyWarns | scripts/02_registerIdentity.js:76-85 | a wallet still unverified after the registration does not stop the run |
| RegisterIdentity.StatusErrorAborts | scripts/02_registerIdentity.js:43-51 | a failed status read aborts before any simulation |
| RegisterIdentity.RevertedRegistrationAborts | scripts/02_registerIdentity.js:53-63 | a failed simulation aborts and no registration is sent |
| RegisterIdentity.IdentityReadErrorExits | scripts/02_registerIdentity.js:44-89 | in either status check, a failed `identity(wallet)` read exits right after it |
| RegisterIdentity.VerificationReadErrorExits | scripts/02_registerIdentity.js:44-89 | in either status check, a failed `isVerified(wallet)` read exits right after it |
| Identities.Authorize | scripts/04_authorizeAndTransfer.js:19-63 | the workflow keeps the trace discipline, with only the identity deployment unsimulated and each transaction awaited to depth 2; when the final read is enforced, a run that goes on has just read the wallet as verified |
| Identities.Provision | scripts/04_authorizeAndTransfer.js:25-42 | the lookup and the deployment keep the same discipline |
| Identities.Register | scripts/04_authorizeAndTransfer.js:45-56 | the registration step keeps the discipline |
| Identities.Confirmation | scripts/04_authorizeAndTransfer.js:59-63 | with enforcement, a run that goes on has just read the wallet as verified |
| Identities.AuthorizeExemptsIdentity | scripts/04_authorizeAndTransfer.js:35-56 | the workflow keeps the preflight rule for any exemption set that names the identity deployment |
| Identities.RunAuthorize | scripts/authorizeRecipientOnly.js:12-39 | leaves the state `Authorize` gives; ok says whether the run goes on |
| Identities.MappedIdentityKept | scripts/04_authorizeAndTransfer.js:40-42 | a wallet already mapped to an identity gets no deployment, and the mapped identity is the one registered |
| Identities.UnmappedIdentityDeployed | scripts/04_authorizeAndTransfer.js:26-39 | a wallet mapped to the zero address gets an Identity deployed with the wallet as key, awaited to depth 2, and the new address is the one registered |
| Identities.VerifiedNotRegistered | scripts/04_authorizeAndTransfer.js:54-56 | a verified wallet is not registered again |
| Identities.UnverifiedRegistered | scripts/04_authorizeAndTransfer.js:46-53 | an unverified wallet is registered with its identity and country 756, right after a passing simulation of the same call, and awaited to depth 2 |
| Identities.StillUnverifiedIsFatal | scripts/04_authorizeAndTransfer.js:59-63 | with enforcement, a wallet still unverified ends the run as fatal |
| Identities.AuthorizeStopsFatally | scripts/04_authorizeAndTransfer.js:19-63 | nothing in the workflow is caught: if it stops, its last entry is a Fatal one |
| Identities.ProvisionStopsFatally | scripts/04_authorizeAndTransfer.js:25-42 | the lookup and the deployment stop, if at all, with a Fatal entry |
| Identities.RegisterStopsFatally | scripts/04_authorizeAndTransfer.js:45-63 | the status read, the registration and the final read stop, if at all, with a Fatal entry |
| Identities.ConfirmationStopsFatally | scripts/04_authorizeAndTransfer.js:59-63 | the final read stops, if at all, with a Fatal entry |
| Identities.RegistryReadIsFatal | scripts/04_authorizeAndTransfer.js:20-22 | a failed `identityRegistry()` read ends the workflow as fatal, right after that read |
| Identities.LookupReadIsFatal | scripts/04_authorizeAndTransfer.js:25-26 | a failed `identity(wallet)` read ends the workflow as fatal, with nothing deployed |
| Identities.StatusReadIsFatal | scripts/04_authorizeAndTransfer.js:45-46 | a failed first `isVerified(wallet)` read ends the workflow as fatal, with nothing registered |
| Identities.FinalReadNotEnforced | scripts/authorizeRecipientOnly.js:39 | without enforcement, the final read is reported and nothing else happens |
| Identities.AuthorizeIdempotent | scripts/04_authorizeAndTransfer.js:25-59 | for a wallet already mapped and verified, the workflow only reads: no deployment, no registration |
| AuthorizeAndTransfer.Execute | scripts/04_authorizeAndTransfer.js:4-76 | leaves the state `Behaviour` gives |
| AuthorizeAndTransfer.EndsProperly | scripts/04_authorizeAndTransfer.js:4-81 | every run ends going or stopped properly, and since nothing is caught, a run that stops ends with a Fatal entry |
| AuthorizeAndTransfer.OnlyIdentityUnsimulated | scripts/04_authorizeAndTransfer.js:35-74 | for any exemption set that names the identity deployment, every other submission follows a passing simulation of the same call |
| AuthorizeAndTransfer.TransactionsAwaited | scripts/04_authorizeAndTransfer.js:37-74 | the identity deployment, the registration and the transfer are each awaited to depth 2 |
| AuthorizeAndTransfer.TransferOnlyToVerified | scripts/04_authorizeAndTransfer.js:59-72 | the transfer is attempted only right after a verification read of the recipient that answered true |
| AuthorizeRecipientOnly.Execute | scripts/authorizeRecipientOnly.js:5-40 | leaves the state `Behaviour` gives |
| AuthorizeRecipientOnly.EndsProperly | scripts/authorizeRecipientOnly.js:5-42 | every run ends going or stopped properly |
| AuthorizeRecipientOnly.OnlyIdentityUnsimulated | scripts/authorizeRecipientOnly.js:23-35 | for any exemption set that names the identity deployment, every other submission follows a passing simulation |
| AuthorizeRecipientOnly.TransactionsAwaited | scripts/authorizeRecipientOnly.js:24-36 | the identity deployment and the registration are awaited to depth 2 |
| UnfreezePartial.FrozenGetterIsResolution | scripts/unfreezePartial.js:21-26 | the frozen getter is `tokensFrozen(` if exposed, else `frozenTokens(`, else none |
| UnfreezePartial.Balances | scripts/unfreezePartial.js:52-53 | the balance reads keep the trace discipline |
| UnfreezePartial.ReadBalances | scripts/unfreezePartial.js:52-53 | leaves the state `Balances` gives; ok says whether the run goes on |
| UnfreezePartial.Execute | scripts/unfreezePartial.js:4-79 | leaves the state `Behaviour` gives |
| UnfreezePartial.EndsProperly | scripts/unfreezePartial.js:4-81 | every run ends going or stopped properly |
| UnfreezePartial.UnfreezePreflighted | scripts/unfreezePartial.js:58-68 | the unfreeze follows a passing simulation with identical `(TARGET, amount)` |
| UnfreezePartial.UnfreezeAwaited | scripts/unfreezePartial.js:68-70 | the unfreeze is awaited to depth 2 |
| UnfreezePartial.NoGetterNoFrozenRead | scripts/unfreezePartial.js:53 | without a getter no frozen balance is read |
| UnfreezePartial.NotExposedAborts | scripts/unfreezePartial.js:36-40 | without `unfreezePartialTokens(` the run aborts after the paused read, whatever it answered |
| UnfreezePartial.NonAgentAborts | scripts/unfreezePartial.js:43-49 | an exposed `isAgent` answering false aborts |
| UnfreezePartial.AgentErrorIsFatal | scripts/unfreezePartial.js:43-44 | a failed `isAgent` call is not caught and ends the run as fatal |
| UnfreezePartial.RevertedUnfreezeAborts | scripts/unfreezePartial.js:58-65 | a failed simulation aborts with nothing submitted |
| UnfreezePartial.FailedSendIsFatal | scripts/unfreezePartial.js:68 | a failed submission is not caught and ends the run as fatal |
| PauseToken.Execute | scripts/pauseToken.js:4-81 | leaves the state `Behaviour` gives |
| PauseToken.EndsProperly | scripts/pauseToken.js:4-83 | every run ends going or stopped properly |
| PauseToken.PausePreflighted | scripts/pauseToken.js:52-63 | the pause follows a passing simulation |
| PauseToken.PauseAwaited | scripts/pauseToken.js:61-70 | the pause is awaited to depth 2 |
| PauseToken.NotExposedAborts | scripts/pauseToken.js:16-24 | without `pause()`, exactly or as a prefix, the run aborts listing the exposed names |
| PauseToken.NonAgentAborts | scripts/pauseToken.js:27-34 | an exposed `isAgent` answering false aborts |
| PauseToken.AgentErrorIgnored | scripts/pauseToken.js:28-37 | a failed `isAgent` call is ignored |
| PauseToken.AlreadyPausedIsNoOp | scripts/pauseToken.js:41-47 | pausing a paused token only reads the flag and ends normally, with no simulation and no transaction |
| PauseToken.PausedErrorContinues | scripts/pauseToken.js:48-54 | a failed `paused()` read goes on to the simulation |
| PauseToken.RevertedPauseAborts | scripts/pauseToken.js:52-59 | a failed simulation aborts with nothing submitted |
| PauseToken.FinalReadErrorIgnored | scripts/pauseToken.js:72-78 | after a confirmed pause, a failed final `paused()` read is the last step and the run does not stop |
| UnpauseToken.Execute | scripts/unpauseToken.js:4-20 | leaves the state `Behaviour` gives |
| UnpauseToken.EndsProperly | scripts/unpauseToken.js:4-22 | every run ends going or stopped properly |
| UnpauseToken.PausedReadFailureIsFatal | scripts/unpauseToken.js:10-22 | a failed first `paused()` read is the run's only exchange and ends it as fatal |
| UnpauseToken.UnpauseAwaited | scripts/unpauseToken.js:16 | `unpause()` is the only submission and is awaited to depth 2 |
| UnpauseToken.OnlyUnpauseUnsimulated | scripts/unpauseToken.js:13-14 | every submission other than `unpause()` would need a passing simulation before it |
| UnpauseToken.OnlyUnpauseSubmitted | scripts/unpauseToken.js:10-19 | no step of any run is a simulation, and every submission is `unpause()` on the token |
| UnpauseToken.UnpauseOnlyWhenPaused | scripts/unpauseToken.js:10-17 | the run opens with the `paused()` read, with no capability check before it; `unpause()` is submitted right after it exactly when it answers true, and otherwise nothing is submitted |
| SendToken.Execute | scripts/sendToken.js:4-18 | leaves the state `Behaviour` gives |
| SendToken.EndsProperly | scripts/sendToken.js:4-20 | every run ends going or stopped properly |
| SendToken.TransferPreflighted | scripts/sendToken.js:13-14 | the transfer follows a passing simulation with identical `(TO, AMOUNT)` |
| SendToken.TransferAwaited | scripts/sendToken.js:16 | the transfer is awaited to depth 2 |
| SendToken.RejectedIsFatal | scripts/sendToken.js:13 | a rejected simulation reaches the fatal handler and nothing is sent |
| SendToken.TransferLands | scripts/sendToken.js:13-16 | the transfer that the simulation approved is the one submitted, then awaited |
| LinkTrexToIdFactory.Execute | scripts/linkTrexToIdFactory.js:3-33 | leaves the state `Behaviour` gives |
| LinkTrexToIdFactory.EndsProperly | scripts/linkTrexToIdFactory.js:3-38 | every run ends going or stopped properly; once `addTokenFactory(` is exposed, a run that stops ends with a Fatal entry |
| LinkTrexToIdFactory.LinkAwaited | scripts/linkTrexToIdFactory.js:31 | `addTokenFactory` is the only submission and is awaited to depth 1 |
| LinkTrexToIdFactory.NotExposedAborts | scripts/linkTrexToIdFactory.js:21-26 | without `addTokenFactory(` the run aborts listing all names |
| LinkTrexToIdFactory.OnlyLinkUnsimulated | scripts/linkTrexToIdFactory.js:28-31 | every submission other than `addTokenFactory` would need a passing simulation before it |
| LinkTrexToIdFactory.SingleSubmission | scripts/linkTrexToIdFactory.js:28-31 | the first step is the one submission, `addTokenFactory(TREX_FACTORY_ADDRESS)`, with no simulation before or after it |
| DeployIdentity.Execute | scripts/01_deployIdentity.js:5-48 | leaves the state `Behaviour` gives |
| DeployIdentity.EndsProperly | scripts/01_deployIdentity.js:5-53 | every run ends going or stopped properly |
| DeployIdentity.DeployPreflighted | scripts/01_deployIdentity.js:26-38 | the deployment follows a passing gas estimate of the same constructor arguments `(INVESTOR_WALLET, true)` |
| DeployIdentity.DeployAwaited | scripts/01_deployIdentity.js:40 | the deployment is awaited to depth 2 |
| DeployIdentity.PrecheckFailureAborts | scripts/01_deployIdentity.js:31-34 | a failed pre-check aborts before any deployment |
| DeployIdentity.DeployFailureAborts | scripts/01_deployIdentity.js:37-47 | a deployment that yields no contract address aborts without a wait |
| DeployIdentity.WaitFailureAborts | scripts/01_deployIdentity.js:40-47 | a failed `wait(2)` after an accepted deployment is caught and aborts right after the wait |

## Left out

- Attaching to contracts (`ethers.getContractAt`, `new ContractFactory`) needs no network exchange. It and its failure handlers (scripts/deployToken.js:23-30, scripts/deployToken.js:92-98, scripts/02_registerIdentity.js:24-30) are not modelled.
- The exposed-function lists (`Object.keys(contract.functions)`) come from the local ABI, so they are parameters.
- ABI decoding of logs (`trexIface.parseLog`) is a parameter `Log -> Option<Event>`. A log that does not decode is `None`.
- What the contracts decide is not modelled. This covers compliance, registry storage, claim topics, fees, and what a simulation or transaction returns: every answer comes from an arbitrary tape.
- The deployment-fee struct and the IdFactory address are read and only printed, so their values are not interpreted.
- Console output is left out, as are warnings such as a low balance, which leave no trace entry.
- `process.exit(1)` and `process.exitCode = 1` are both one `Abort` or `Fatal` entry. Whether the process code is set now or at exit is not distinguished.
- Confirmation waiting records only the requested depth. Timeouts, reorgs and `async` scheduling are left out; each script is a straight sequence of exchanges.
- Amounts are whole numbers of tokens times 10^18 (`Network.Units`). For example, SendToken's `AMOUNT` is `Units(500)`. `parseUnits` string parsing is library code.
- Addresses are natural numbers, and `=== ethers.constants.AddressZero` is equality with `ZERO`. Checksum casing is not modelled.
- scripts/deployFactory.js, scripts/checkstatus.js, scripts/debugTransfer.js and scripts/hardhat.config.ts are not part of this model. They are deployment plumbing, configuration and read-only reports.
- DeployToken.EndsProperly: weaker than the other scripts' `Going() || Ended()`. A tolerated mint failure leaves a run that is neither, so the statement also admits a run going on past a failed mint as its last step.
- DeployToken.Minting: states only that the mint never stops a run that had not stopped. The trace a failed mint leaves is given by `MintSubmitFailureTolerated` and `MintWaitFailureTolerated`, not by Minting itself.
- DeployToken.IneligibleRefused: together with `EligibleProceeds`, gives both directions of the eligibility rule at the step where it is applied. It does not separately prove that no later step could raise `NotEligible`.
- MintToSelf.MintLands: stated at the minting step for one concrete sequence of answers, not over the whole run.
- Identities.Authorize: the deployed identity's address is taken from the deployment's reply. The later confirmation wait can succeed or fail, but it does not change that address.
