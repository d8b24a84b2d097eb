# hima wallet, sponsorship and onboarding core, in Dafny

This project models the server core of the hima boda-boda insurance backend. Riders register with a Kenyan phone number, confirm it with a one-time code, and get a custodial wallet activated on several blockchains. The backend pays their gas and files and pays insurance claims.

It covers these parts:

- **The chain registry** (`ChainRegistry`). It has the four network names, the testnet and mainnet configuration tables built from the environment, and `getChainConfig`, which picks a table by `DEPLOY_MAINNET`. Lookups follow plain-object semantics, so a name like `constructor` finds an inherited value.
- **The gas-sponsorship engine** (`GasSponsorship`). It models `sendTransactionWithGasSponsorship` and its top-up helper in the chain-aware paymaster utility (TypeScript and compiled copies) and in the older pimlico utility. The chain is a `Ledger` class with balances, code and the funder's submitted transactions.
- **The multi-chain activation loop** (`BlockchainDeploy`). `deployWalletOnNetworks` exists in its compiled and TypeScript copies. Chains are tried one at a time. Each SDK answer is an input, and every SDK call is recorded as a trace. A failure becomes an `"Error: …"` entry without stopping the loop.
- **The EVM helpers the compiled controller binds** (`EvmOperations`): `buildUserOp` and the closure from `createBoundSendSponsoredOp`. The compiled loop calls `buildUserOp`, but never the closure. It calls `sendTransactionWithGasSponsorship` directly with its own chain, so the closure is passed to the loop and never run.
- **Phone numbers** (`PhoneNumbers`): `normalizeKenyanPhone` and the number formatting of the TypeScript `registerUser`.
- **The user record and onboarding** (`Onboarding`):
  - a `User` class with the seven onboarding steps;
  - `onboard`, `updateUserProfile`, `getUserProfile` and `deleteUser`;
  - the record `registerUser` creates.
- **One-time passwords** (`OtpVerification`). This covers `sendOTPToPhone` over an `OtpStore` class, the TypeScript `verifyOTP`, and the compiled `verifyOTP`. The compiled one normalizes the phone, activates the wallet on the requested chains and reports a deployment summary.
- **Claims** (`Claims`):
  - the escrow payout's 120% gas limit;
  - `createClaim` with its claim number and audit trail;
  - the `paid` transition of `approveClaimAndPayout`;
  - the `getClaim` guard.
- **The bearer-header middleware** (`AuthMiddleware`): `authenticateJWT`.

`Js` holds the JavaScript semantics the rest relies on: truthiness, `||`, `String(n)`, `slice(-k)`, and property writes that a `__proto__` key turns into a prototype setter call.

External services are inputs of the call that uses them: the database, the SMS gateway, Privy, the EVM provider, the Hedera and Polkadot SDKs, the escrow contract and the JWT verifier. Each one is an `Ok`/`Err` value or a function from the request to such a value. Clocks are an integer `now` in milliseconds.

Two points of the code shape the activation results:

- A successful chain's entry is not always a string. For Base and Celo the compiled loop stores the object the sponsored send returns (`{hash, userOpHash}`). Only Hedera and Polkadot store strings. `BlockchainDeploy.CompiledEvmSuccess` states this. The first finding below is the consequence.
- A relay failure propagates out of the sponsorship engine (`GasSponsorship.Sponsor`). Inside the activation loop it is caught like any other error and becomes the chain's `"Error: …"` entry (`BlockchainDeploy.CompiledEvmWithEngine`).

## Model

| member | source | states |
|---|---|---|
| Js.Or | src/utils/paymasterutil.ts:108-110 | `a \|\| b` on optional strings: a when a is truthy, otherwise b |
| Js.OrValue | src/controllers/claimsController.ts:36 | `a \|\| b` on values: a when truthy, otherwise b |
| Js.IndexOf | src/middleware/authMiddleware.ts:9 | the first occurrence is found, and there is none before it |
| Js.LastIndexOf | src/controllers/claimsController.ts:52 | the last occurrence is found, and there is none after it |
| Js.DecimalString | src/controllers/claimsController.ts:51 | `String(n)` is a non-empty digit string without a leading zero |
| Js.DigitsValueOfDecimalString | dist/controllers/authController.js:181-182 | reading back a decimal string gives the number it was written from |
| Js.LastChars | src/controllers/claimsController.ts:51 | `slice(-k)` has length min(k, \|s\|) and is a suffix of s |
| Js.SetProperty | dist/utils/blockchainDeploy.js:90 | an object write adds or replaces the key and keeps every other key; a write to `__proto__` leaves the own keys unchanged |
| ChainRegistry.EnvVar | dist/configs/blockchain.js:9-12 | a variable reads as present exactly when the environment defines it |
| ChainRegistry.TestnetConfigs | dist/configs/blockchain.js:8-13 | the testnet table has exactly the four network names as keys |
| ChainRegistry.MainnetConfigs | dist/configs/blockchain.js:14-19 | the mainnet table has exactly the four network names as keys |
| ChainRegistry.GetChainConfig | dist/configs/blockchain.js:20-25 | the lookup reads the mainnet table when `DEPLOY_MAINNET` is the string "true" and the testnet table otherwise |
| ChainRegistry.ConfiguredRpc | dist/utils/paymasterutil.js:60-66 | the RPC check succeeds only with a non-empty URL |
| ChainRegistry.ConfiguredRpcCases | src/utils/paymasterutil.ts:95-103 | on the real tables the RPC check passes exactly for Base, Celo and Hedera with a non-empty variable; Polkadot and unknown names fail with "No RPC URL for chain …", and the other three with the variable unset fail with "RPC URL not configured for chain …" |
| ChainRegistry.MainnetIffFlagIsTrue | dist/configs/blockchain.js:20-25 | for Base, Celo and Hedera the entry is a mainnet entry exactly when the flag is "true" |
| ChainRegistry.EvmEntriesCarryCaip2 | dist/configs/blockchain.js:9-10 | every EVM entry's `caip2` is "eip155:" followed by its chain id |
| ChainRegistry.BaseCaip2 | dist/configs/blockchain.js:9-15 | the Base entries' CAIP-2 strings (testnet and mainnet) are `eip155:` followed by their chain ids |
| ChainRegistry.CeloTestnetCaip2 | dist/configs/blockchain.js:10 | the Alfajores entry's CAIP-2 string is `eip155:` followed by its chain id |
| ChainRegistry.CeloMainnetCaip2 | dist/configs/blockchain.js:16 | the Celo mainnet entry's CAIP-2 string is `eip155:` followed by its chain id |
| ChainRegistry.EvmChainIds | dist/configs/blockchain.js:9-16 | exactly Base and Celo resolve to EVM entries, with ids 84532/44787 on testnet and 8453/42220 on mainnet |
| ChainRegistry.HederaAndPolkadotShapes | dist/configs/blockchain.js:11-12 | Hedera entries carry the network name and an `rpc` key; Polkadot entries carry only `nodeUrl` |
| ChainRegistry.UnsupportedDiffersFromUnconfigured | dist/configs/blockchain.js:20-25 | an unknown name is undefined, while a known network is always found even when its variable is unset |
| ChainRegistry.PrototypeNamesAreInherited | dist/configs/blockchain.js:8-13 | an Object.prototype member name reads as a truthy inherited value without an `rpc` key |
| GasSponsorship.GasPrice | src/utils/paymasterutil.ts:132-133 | the price is the reported one when it is non-zero, otherwise 1 gwei, and never zero |
| GasSponsorship.TopUp | src/utils/paymasterutil.ts:139-144 | a top-up happens exactly when the balance is below the gas needed, and it is exactly the shortfall |
| GasSponsorship.FundingGasLimit | src/utils/paymasterutil.ts:209-224 | a top-up gets 21000 gas when the target has no code and 100000 when it has code |
| GasSponsorship.Fund | src/utils/paymasterutil.ts:193-251 | the top-up returns "0x" without a key or when the send fails; it submits exactly the funding transaction; it credits the target exactly when a receipt with status 1 arrives; on a revert or missing receipt it returns the submitted hash |
| GasSponsorship.FundReturnsAHash | src/utils/paymasterutil.ts:244-250 | the top-up never fails: it returns "0x", the submitted hash or the receipt's hash |
| GasSponsorship.ConfirmedHashByVariant | dist/utils/paymasterutil.js:173 | after a confirmation the TypeScript paymaster returns the receipt's `transactionHash` and the compiled copy its `hash` |
| GasSponsorship.ProviderUrl | src/utils/pimlicoPaymaster.ts:84 | the pimlico variant connects to `RPC_URL` when it is set and non-empty, and otherwise to its fixed default |
| GasSponsorship.Prepare | src/utils/paymasterutil.ts:108-114 | after the `to \|\| target`, `data \|\| callData` and `value \|\| "0"` fallbacks the fields are non-empty, and a missing destination or calldata fails with "Missing 'to' or 'data' in userOp" |
| GasSponsorship.ParseBigInt | src/utils/paymasterutil.ts:163 | `BigInt(s)` succeeds exactly on non-empty digit strings |
| GasSponsorship.RelayValueOfDecimal | src/utils/paymasterutil.ts:163 | a decimal value string is relayed as the number it writes |
| GasSponsorship.Sponsor | src/utils/paymasterutil.ts:86-181 | a success returns the relayed hash in both fields and has relayed a transaction; nothing is relayed on failure |
| GasSponsorship.ErrorsAreWrapped | src/utils/paymasterutil.ts:173-180 | every error leaves wrapped as "Failed to send transaction with gas sponsorship on <chain>: …" |
| GasSponsorship.PaymasterConfigErrors | src/utils/paymasterutil.ts:95-103 | the paymaster fails with the wrapped "No RPC URL for chain …" or "RPC URL not configured …" before anything else |
| GasSponsorship.PaymasterRejectsNonRpcChains | src/utils/paymasterutil.ts:96-97 | on the real tables Polkadot, unknown names and inherited Object.prototype members all fail with the wrapped "No RPC URL for chain …" |
| GasSponsorship.PimlicoIgnoresChain | src/utils/pimlicoPaymaster.ts:84 | the pimlico variant's provider does not depend on the chain and always resolves |
| GasSponsorship.MissingFieldsFailFirst | src/utils/paymasterutil.ts:112-114 | a missing destination or calldata fails before the ledger is read: the outcome ignores balance, code and provider answers, and nothing is submitted |
| GasSponsorship.TopUpIffShort | src/utils/paymasterutil.ts:139-148 | a top-up is attempted exactly when the preflight passed and the balance is below estimate × price, and it asks for the shortfall |
| GasSponsorship.ConfirmedTopUpCoversGas | src/utils/paymasterutil.ts:139-148 | a confirmed top-up brings the balance to exactly the gas needed |
| GasSponsorship.MissingKeySubmitsNothing | src/utils/paymasterutil.ts:153-156 | without the funder key no transaction is submitted and the send fails naming the key variable |
| GasSponsorship.RelayedFromFunder | src/utils/paymasterutil.ts:158-172 | a successful send relays from the funder to the prepared destination with the parsed value, and returns that transaction's hash |
| GasSponsorship.Ledger.constructor | src/utils/paymasterutil.ts:121 | a ledger starts with the given balances and code and nothing sent |
| GasSponsorship.Ledger.FundWallet | src/utils/paymasterutil.ts:193-251 | the top-up's submission is appended to the sent list, and a confirmed top-up credits the target by the amount |
| GasSponsorship.Ledger.TopUpIfShort | src/utils/paymasterutil.ts:139-148 | the funding step appends the top-up it submitted, if any, and a confirmed top-up sets the user's balance to the gas needed |
| GasSponsorship.Ledger.RelayOperation | src/utils/paymasterutil.ts:153-172 | after the top-up, the funder's transaction is appended exactly when the send succeeds, and balances are untouched |
| GasSponsorship.Ledger.SendWithGasSponsorship | src/utils/paymasterutil.ts:86-181 | the result is the sponsorship outcome; the sent list gains the top-up and then the relayed transaction; a confirmed top-up sets the user's balance to the gas needed; nothing else changes |
| BlockchainDeploy.AttemptChain | dist/utils/blockchainDeploy.js:19-86 | an unknown chain fails with "Unsupported blockchain network" and calls nothing; a found name that is not a network falls to "Blockchain not yet supported" |
| BlockchainDeploy.EntryOf | dist/utils/blockchainDeploy.js:87-91 | a failed attempt writes "Error: " followed by its message; a successful one writes its value |
| BlockchainDeploy.DeployWalletOnNetworks | dist/utils/blockchainDeploy.js:16-93 | the loop's results and SDK calls are those of the attempts in input order; the keys are the requested chains except "__proto__" |
| BlockchainDeploy.DeployedKeys | dist/utils/blockchainDeploy.js:18-92 | the results' keys are the requested chains except "__proto__" |
| BlockchainDeploy.LastAttemptWins | dist/utils/blockchainDeploy.js:18-92 | a chain's entry is written by its last occurrence in the input |
| BlockchainDeploy.EntriesAreIsolated | dist/utils/blockchainDeploy.js:87-91 | a chain's entry depends only on the answers of the iterations that tried that chain |
| BlockchainDeploy.ErrorEntryShape | src/utils/blockchainDeploy.ts:63-67 | every failed attempt's entry is a string starting with "Error: " |
| BlockchainDeploy.UnsupportedChainEntry | dist/utils/blockchainDeploy.js:20-22 | an unknown name's entry is "Error: Unsupported blockchain network" with no SDK call |
| BlockchainDeploy.InheritedChainEntry | dist/utils/blockchainDeploy.js:83-84 | an inherited name's entry is "Error: Blockchain not yet supported" with no SDK call |
| BlockchainDeploy.EvmReadyIffRpc | dist/utils/blockchainDeploy.js:26-28 | on the real tables an EVM chain passes the compiled check exactly when its RPC variable is set and non-empty |
| BlockchainDeploy.EvmRpcRequirement | src/utils/blockchainDeploy.ts:22-27 | with the RPC unset the compiled build writes "Error: Missing EVM config" and calls nothing, while the TypeScript build goes on to `deployWalletOnEVM` |
| BlockchainDeploy.CompiledEvmSuccess | dist/utils/blockchainDeploy.js:24-42 | a ready EVM attempt builds once, sends sponsored, and stores the returned object; a falsy return is an error |
| BlockchainDeploy.EngineAnswer | dist/utils/paymasterutil.js:116-124 | the engine's answer to the loop is never a falsy return, and is an error exactly when the engine failed |
| BlockchainDeploy.CompiledEvmWithEngine | dist/utils/blockchainDeploy.js:29-38 | with the engine's own answer, a ready EVM attempt stores the relayed hash in both fields, or the engine's wrapped error as an "Error: …" entry |
| BlockchainDeploy.ReadyChainTakesEvmCase | dist/utils/blockchainDeploy.js:24-42 | a chain that passes the compiled check takes the EVM case |
| BlockchainDeploy.HederaTransferNetsZero | dist/utils/blockchainDeploy.js:43-59 | Hedera makes one transfer that debits the operator by 1 and credits the wallet by 1, and stores the receipt status |
| BlockchainDeploy.PolkadotDisconnectOnlyAfterSend | dist/utils/blockchainDeploy.js:60-82 | Polkadot transfers 1 to the wallet and disconnects exactly when the send returned, as its last call |
| BlockchainDeploy.PolkadotNeedsNodeUrl | dist/utils/blockchainDeploy.js:60-65 | without a node URL Polkadot fails with "Missing Polkadot nodeUrl" and connects to nothing |
| BlockchainDeploy.AttemptBuilds | dist/utils/blockchainDeploy.js:30 | a compiled attempt calls `buildUserOp` once when its chain is ready and never otherwise |
| BlockchainDeploy.BuildUserOpOncePerReadyChain | dist/utils/blockchainDeploy.js:18-42 | over a whole run `buildUserOp` is called once per ready EVM chain in the input |
| BlockchainDeploy.ProtoChainIsDropped | dist/utils/blockchainDeploy.js:90 | requesting "__proto__" yields no entry at all |
| BlockchainDeploy.DeployedIntendedKeys | dist/utils/blockchainDeploy.js:18-92 | the corrected results hold an entry for every requested chain |
| BlockchainDeploy.DeployedAgreesWithIntended | dist/utils/blockchainDeploy.js:18-92 | the corrected results agree with the code's whenever "__proto__" is not requested |
| EvmOperations.BuildUserOp | dist/controllers/authController.js:159-184 | the RPC check's error comes first; a built operation needs both provider answers |
| EvmOperations.BuiltOpIsSelfTransfer | dist/controllers/authController.js:177-183 | a built operation is a zero-value self-transfer with calldata "0x" whose price and limit read back as the price used and the estimate |
| EvmOperations.BuiltOpRelaysToWallet | dist/controllers/authController.js:177-183 | the sponsorship engine accepts a built operation and relays it to the wallet with value 0 |
| EvmOperations.BoundResult | dist/controllers/authController.js:205-209 | the closure passes the engine's error on, fails when neither hash is truthy, and otherwise returns one of the two hashes |
| EvmOperations.BoundSend | dist/controllers/authController.js:189-198 | the closure's own RPC check fails first with its message |
| EvmOperations.BoundSendSponsorsOnBase | dist/controllers/authController.js:204 | after its own check the closure's errors are the engine's errors for Base whatever the chain, and a success is the relayed hash |
| EvmOperations.BoundSendSponsoredOp | dist/controllers/authController.js:188-216 | the closure against a ledger returns the modelled outcome and submits nothing when the RPC check fails |
| PhoneNumbers.Digits | dist/controllers/authController.js:61 | `replace(/\D/g, '')` keeps only digits and never lengthens |
| PhoneNumbers.DigitsOfDigits | dist/controllers/authController.js:61 | stripping a digit string leaves it unchanged |
| PhoneNumbers.DigitsAppend | dist/controllers/authController.js:61 | stripping distributes over concatenation |
| PhoneNumbers.NormalizeDigits | dist/controllers/authController.js:64-78 | every accepted digit string becomes "+254" followed by digits |
| PhoneNumbers.NormalizeKenyanPhone | dist/controllers/authController.js:57-80 | a missing, empty or non-string phone fails with "Phone must be a non-empty string"; an accepted one is "+254" and digits |
| PhoneNumbers.OnlyDigitsMatter | dist/controllers/authController.js:61 | two inputs with the same digits normalize alike |
| PhoneNumbers.NormalizeIsIdempotent | dist/controllers/authController.js:70-78 | normalizing a normalized number returns it unchanged |
| PhoneNumbers.PresentationsAgree | dist/controllers/authController.js:64-78 | a 7-subscriber written as "07…", "7…", "254…" or "+254…" normalizes to the same number |
| PhoneNumbers.SpacedPresentation | dist/controllers/authController.js:61-72 | "+254" followed by space-separated groups normalizes to the joined number |
| PhoneNumbers.NormalizeByCountryDigits | dist/controllers/authController.js:70-72 | any input whose digits are "254" and a subscriber number normalizes to "+254" and that number |
| PhoneNumbers.LocalOnePrefixRejected | dist/controllers/authController.js:64-75 | a 1-subscriber is accepted bare but rejected with its local "0" |
| PhoneNumbers.NormalizeDigitsIntended | dist/controllers/authController.js:64-78 | the corrected branches also produce "+254" and digits |
| PhoneNumbers.NormalizeKenyanPhoneIntended | dist/controllers/authController.js:57-80 | the corrected normalization keeps the error for a missing phone and the "+254" shape |
| PhoneNumbers.IntendedPresentationsAgree | dist/controllers/authController.js:64-78 | with the correction, all four presentations of a 7- or 1-subscriber agree |
| PhoneNumbers.IntendedExtendsWritten | dist/controllers/authController.js:57-80 | the correction changes nothing the code already accepts |
| PhoneNumbers.RegisterFormat | src/controllers/authController.ts:25-41 | a falsy phone gets 400 "Phone number is required"; a non-empty string failing the pattern gets 400 "Invalid phone number format"; a truthy non-string gets 500 "Server error"; a formatted number matched the pattern and keeps the raw phone |
| PhoneNumbers.BareSevenBranchUnreachable | src/controllers/authController.ts:28-32 | no number the pattern admits starts with 7, so the bare "7…" branch never runs |
| PhoneNumbers.RegisterFormatCases | src/controllers/authController.ts:28-41 | a pattern match is formatted exactly when it is a 10-character "07…", a 13-character "+254…" or a 12-character "254…" number; "07…" becomes "+254…" and "+254…" stays |
| PhoneNumbers.RegisterFormatRejectsOthers | src/controllers/authController.ts:28-41 | every other pattern match, such as "0112345678" or "07123456789", gets 400 "Phone number must be in +254, 254, 07, or 7 format followed by 9 digits" |
| PhoneNumbers.CountryCodeBranchAsWritten | src/controllers/authController.ts:37-38 | "254712345678" is formatted as "+25454712345678" |
| PhoneNumbers.RegisterFormatIntended | src/controllers/authController.ts:25-41 | the corrected formatting keeps the guards and the raw phone |
| PhoneNumbers.IntendedRegisterFormatIsE164 | src/controllers/authController.ts:31-41 | with the correction every formatted number is "+254" and nine digits and equals the normalized number |
| Onboarding.InitialSteps | src/models/user/User.ts:44-48 | a new user has the seven step names, all false |
| Onboarding.CountDone | dist/controllers/authController.js:359 | the count of done steps is at most the number of names |
| Onboarding.Stage | dist/controllers/authController.js:360 | the stage is between 1 and 7, one more than the count of done steps unless capped at 7 |
| Onboarding.CountDoneMonotone | dist/controllers/authController.js:359 | marking more steps never lowers the count |
| Onboarding.CountDoneIncludes | dist/controllers/authController.js:359 | a listed step that is done is counted |
| Onboarding.CountDoneNone | dist/controllers/authController.js:359 | with no step done the count is zero |
| Onboarding.NewRecordIsAtStageOne | src/models/user/User.ts:43-49 | a new user is unverified and not completed, and its stored stage 1 is what the formula gives for no steps |
| Onboarding.User.constructor | src/controllers/authController.ts:60-70 | the new user's record is the registration record |
| Onboarding.User.SetOnboardingStep | src/controllers/userManagementController.ts:48-57 | setting a step changes that one step and nothing else |
| Onboarding.User.ApplyIncomingSteps | src/controllers/userManagementController.ts:88-94 | the loop sets each listed incoming key to `Boolean(value)` in order and changes nothing else |
| Onboarding.User.Assign | dist/controllers/authController.js:331 | assigning a profile field changes that field only |
| Onboarding.User.OverwriteScalars | src/controllers/userManagementController.ts:81-86 | each scalar field the body defines is overwritten, and only those |
| Onboarding.User.OverwriteProgress | src/controllers/userManagementController.ts:95-98 | the stage and completed flag are copied when defined, and `updatedAt` is set |
| Onboarding.User.Provide | dist/controllers/authController.js:330-358 | a truthy field is stored and its step marked done |
| Onboarding.User.ProvidePhone | dist/controllers/authController.js:325-329 | the phone is stored and the `phoneVerified` step marked done |
| Onboarding.User.ConcludeOnboarding | dist/controllers/authController.js:359-363 | the stage is recomputed from the steps and completion is set when a field was given |
| Onboarding.User.MarkPhoneVerified | src/controllers/authController.ts:141-143 | verification sets `phoneVerified` and the phone and mobile-money steps |
| Onboarding.User.SetSmartWallet | dist/controllers/authController.js:258-267 | the smart wallet address is stored and nothing else changes |
| Onboarding.PhoneVerifiedCountsTwoSteps | src/controllers/authController.ts:141-143 | after verification at least two steps are done, so the formula gives stage 3 or more |
| Onboarding.LastValue | src/controllers/userManagementController.ts:89-93 | the last incoming value for a key is absent exactly when no entry has that key |
| Onboarding.ApplyStepsEffect | src/controllers/userManagementController.ts:88-94 | after the loop a listed key holds `Boolean` of its last incoming value, and every other key is unchanged |
| Onboarding.ProfileUpdateKeepsIdentity | src/controllers/userManagementController.ts:81-98 | a profile update never changes the phone, its verification, the wallets or the Polkadot keys; it overwrites exactly the fields the body defines and stamps `updatedAt`; an empty body changes only `updatedAt` |
| Onboarding.StageIsNotRecomputed | src/controllers/userManagementController.ts:88-95 | the stored stage and completed flag do not depend on the steps sent with them, and a given stage is stored as given |
| Onboarding.LookupGuard | src/controllers/userManagementController.ts:7-14 | the handlers proceed exactly when a phone is given and a user is found, with 400 and 404 otherwise |
| Onboarding.DeleteUserResponse | src/controllers/userManagementController.ts:134-153 | deletion answers 200 "User with phone … deleted." exactly when a phone is given and a user was removed |
| Onboarding.UpdateUserProfile | src/controllers/userManagementController.ts:59-132 | the response follows the guard, and a found user's record becomes the updated profile |
| Onboarding.StepFor | dist/controllers/authController.js:330-358 | each field marks a listed step other than `phoneVerified`; `coverageLevel` marks none |
| Onboarding.WithField | dist/controllers/authController.js:330-358 | replacing one field leaves the other fields, the steps, the identity, the stage and the timestamps unchanged |
| Onboarding.MarkTwice | dist/controllers/authController.js:325-358 | marking two sets of steps in turn is marking their union |
| Onboarding.FieldMark | dist/controllers/authController.js:330-358 | no field marks `communityEndorsements` |
| Onboarding.ProvideIfMarks | dist/controllers/authController.js:330-358 | a field block marks exactly its field's step when the value is truthy |
| Onboarding.OnboardedSteps | dist/controllers/authController.js:325-358 | after `onboard` the steps are the old ones with exactly the given fields' steps set |
| Onboarding.OnboardNeverClearsSteps | dist/controllers/authController.js:325-358 | `onboard` never clears a step |
| Onboarding.OnboardStageAndCompletion | dist/controllers/authController.js:359-363 | after `onboard` the user is completed, `phoneVerified` is done, and the stage is 1 + the number of done steps capped at 7, so between 2 and 7 |
| Onboarding.CoverageLevelMarksNoStep | dist/controllers/authController.js:355-358 | `coverageLevel` changes no step and `communityEndorsements` is never touched |
| Onboarding.OnboardGuard | dist/controllers/authController.js:318-323 | `onboard` proceeds exactly when the phone is truthy and a user has it |
| Onboarding.Onboard | dist/controllers/authController.js:315-387 | the response follows the guard, and a found user's record becomes the onboarded record |
| Onboarding.RegisterResponse | src/controllers/authController.ts:20-93 | 201 exactly for a formatted, unregistered phone with a Privy wallet whose id is a non-empty string and a Polkadot wallet; the format step's 400s (and 500 for a non-string) are passed through; 409 for a registered phone; 500 "Server error" when a wallet call throws; 500 "Failed to create Privy wallet. Try again." for a missing or bad wallet id |
| Onboarding.RegisterAcceptsLocalMobile | src/controllers/authController.ts:25-93 | an "07" number with eight more digits and both wallets is answered 201 naming the number as given, or 409 when already registered |
| Onboarding.RegisterUser | src/controllers/authController.ts:20-93 | a user is created exactly when the answer is 201, with the registration record |
| Onboarding.RegisterStoresRawPhone | src/controllers/authController.ts:43-61 | the user is stored under the raw phone, not the formatted one |
| OtpVerification.RemoveUnverifiedKeeps | src/controllers/authController.ts:103 | exactly the documents that are verified or belong to another phone survive the deletion |
| OtpVerification.SendLeavesOnePending | src/controllers/authController.ts:101-105 | after a send the new code is the phone's only pending one, expiring five minutes later, and other documents are kept |
| OtpVerification.FindNewest | src/controllers/authController.ts:130 | the lookup finds the newest unverified match and nothing exactly when none matches |
| OtpVerification.CheckCode | src/controllers/authController.ts:130-132 | "Invalid code" exactly when nothing matches, "OTP expired" past `expiresAt`, otherwise an unexpired match |
| OtpVerification.SentCodeIsAccepted | src/controllers/authController.ts:101-132 | a code just sent is accepted for the same phone string within five minutes |
| OtpVerification.SentCodeExpires | src/controllers/authController.ts:101-132 | a code is refused as expired after five minutes |
| OtpVerification.OtpStore.constructor | src/models/user/OTP.ts:1-17 | the store starts with the given documents |
| OtpVerification.OtpStore.SendOtp | src/controllers/authController.ts:95-119 | no phone gives 400 "Phone required" and no change; otherwise the documents are the sent state and the answer is 200, or 500 when the SMS fails |
| OtpVerification.OtpStore.MarkUsed | src/controllers/authController.ts:133-134 | using a code sets that document's `verified` and changes nothing else |
| OtpVerification.UsedCodeIsRefused | src/controllers/authController.ts:130-134 | a code that was used is refused afterwards when it was the phone's only match |
| OtpVerification.SentThenUsedIsRefused | src/controllers/authController.ts:101-134 | a code sent and used within five minutes is refused afterwards, whatever the phone had pending before the send |
| OtpVerification.VerifyOtpSource | src/controllers/authController.ts:121-172 | the guards answer 400, 400 with the code error, or 404; otherwise the code is used, the user's phone is verified, and the answer is 200 whether or not activation failed |
| OtpVerification.SummaryAsWritten | dist/controllers/authController.js:273-281 | the summary's total is the number requested, successful and failed add up to it, and successful counts at most the entries |
| OtpVerification.SummaryFailuresNonNegative | dist/controllers/authController.js:273-274 | on a run over the same chains the failure count is never negative |
| OtpVerification.EvmSuccessCountedAsFailure | dist/controllers/authController.js:273 | a successful sponsored EVM activation is counted as a failure |
| OtpVerification.RepeatedChainCountedAsFailure | dist/controllers/authController.js:274 | a chain requested twice counts at least one failure even when both attempts succeed |
| OtpVerification.SucceededAttempts | dist/controllers/authController.js:273 | the number of successful attempts is at most the number of chains requested |
| OtpVerification.IntendedSummaryCountsAttempts | dist/controllers/authController.js:273-281 | in the corrected summary the successful and failed counts are the successful and failed attempts |
| OtpVerification.IntendedSummaryCountsEvmAndRepeats | dist/controllers/authController.js:273-281 | the corrected summary counts a successful EVM chain, and both successful attempts of a repeated chain |
| OtpVerification.ConfirmUser | dist/controllers/authController.js:255-267 | the user's phone is verified with its two steps, a new smart wallet is stored only when the user has none and its creation succeeded, and nothing else changes |
| OtpVerification.VerifyOtpCompiled | dist/controllers/authController.js:225-295 | the guards answer 400 with the store and user unchanged, 400 for a bad phone, the code errors for the normalized phone, or 404 with the found code used and the user unchanged; otherwise the code is used, the user record is the verified record with the smart wallet stored when it had none, and the answer is 200 with the loop's results over the user's wallet and the summary as written |
| OtpVerification.LocalFormCodeIsNotFound | dist/controllers/authController.js:142-143 | a code sent to "07…" is not found when the verification normalizes the phone to "+254…" |
| OtpVerification.IntendedCodeIsFound | dist/controllers/authController.js:245-251 | with the code stored under the normalized phone, a code sent in any accepted presentation is accepted |
| Claims.AuthUserId | src/controllers/claimsController.ts:36 | the user id is the first truthy of `_id`, `id`, `userId`, and is falsy exactly when all are |
| Claims.PayoutGasLimit | src/controllers/claimsController.ts:25 | the limit is 120% of the estimate rounded down |
| Claims.PayoutGasLimitAddsAFifth | src/controllers/claimsController.ts:25 | the limit is the estimate plus a fifth of it and never below the estimate |
| Claims.PayoutGasLimitMonotone | src/controllers/claimsController.ts:25 | a larger estimate never yields a smaller limit |
| Claims.PayoutFromEscrow | src/controllers/claimsController.ts:22-29 | an estimate failure is the payout's failure, and a payout succeeds only after a successful estimate |
| Claims.CountAction | src/controllers/claimsController.ts:65-72 | the count of entries with an action is at most the trail's length |
| Claims.CountActionAppend | src/controllers/claimsController.ts:109-114 | appending an entry adds one to its own action's count only |
| Claims.ClaimNumberSuffix | src/controllers/claimsController.ts:51 | the time suffix is one to six digits worth the time modulo 10^6 |
| Claims.ClaimNumberRoundTrip | src/controllers/claimsController.ts:51-52 | a claim number reads back as its policy number and time suffix, whatever dashes the policy number holds |
| Claims.Policy.constructor | src/models/insurance/Policy.ts:19-24 | a policy holds the given fields and claims |
| Claims.Policy.PushClaim | src/controllers/claimsController.ts:76 | the claim id is appended to the policy's claims |
| Claims.CreateGuard | src/controllers/claimsController.ts:36-49 | 401 exactly without a user id, 400 for a missing field, 404 without the policy, 400 "Policy … is inactive." for an inactive policy, and nothing exactly when all pass |
| Claims.NewClaim | src/controllers/claimsController.ts:51-73 | a new claim is submitted, unapproved, its number parses back, and its trail holds exactly one creation entry naming the user and policy |
| Claims.CreateClaim | src/controllers/claimsController.ts:34-82 | the guard's answer, 500 when the save fails, or 201 with the new claim appended to the policy |
| Claims.EscrowClaimId | src/controllers/claimsController.ts:104 | the escrow id is the policy's `claimId` when truthy, otherwise 0 |
| Claims.PaidClaim | src/controllers/claimsController.ts:107-114 | a paid claim is `paid` with the approved amount, and its trail gains one entry |
| Claims.PaidClaimAppendsOnePayout | src/controllers/claimsController.ts:107-114 | a payout adds exactly one `payout_completed` entry, keeps the earlier trail, and does not depend on the prior status |
| Claims.CreatedThenPaid | src/controllers/claimsController.ts:54-114 | a claim created then paid has one creation entry followed by one payout entry |
| Claims.Claim.constructor | src/models/insurance/Claim.ts:17 | a claim holds the given record |
| Claims.Claim.MarkPaid | src/controllers/claimsController.ts:107-115 | the record becomes the paid record |
| Claims.ApproveGuard | src/controllers/claimsController.ts:89-102 | 401 without a user id, 404 without the claim, 400 without a valid rider address, and nothing exactly when all pass |
| Claims.ApproveClaimAndPayout | src/controllers/claimsController.ts:87-125 | the guard's answer with no payout; 500 with the claim unchanged when the payout fails, and also when the payout succeeded but the save fails; otherwise 200 with the claim paid |
| Claims.GetClaim | src/controllers/claimsController.ts:149-168 | "Not authenticated", "Invalid claim ID." and "Claim not found or unauthorized." in that order, otherwise the found claim |
| Claims.GetClaimStatus | src/controllers/claimsController.ts:152-164 | 200 exactly when the claim is returned |
| Claims.InvalidIdNeverLooksUp | src/controllers/claimsController.ts:155-156 | an invalid id is refused with 400 whatever the lookup would find |
| AuthMiddleware.Split | src/middleware/authMiddleware.ts:9 | `split(" ")` gives at least one piece, none containing a space |
| AuthMiddleware.JoinSplit | src/middleware/authMiddleware.ts:9 | joining the pieces gives the header back |
| AuthMiddleware.SplitJoin | src/middleware/authMiddleware.ts:9 | splitting space-free pieces joined by spaces gives the pieces back |
| AuthMiddleware.Token | src/middleware/authMiddleware.ts:9 | the token is the space-free second piece |
| AuthMiddleware.BearerToken | src/middleware/authMiddleware.ts:9 | the token is what follows "Bearer " up to the next space |
| AuthMiddleware.Authenticate | src/middleware/authMiddleware.ts:4-17 | 401 "Authorization header missing" exactly without a "Bearer " header; the payload exactly when the token verifies; otherwise 401 |
| AuthMiddleware.SameTokenSameVerdict | src/middleware/authMiddleware.ts:9-13 | headers with the same token get the same verdict |
| AuthMiddleware.Exchange.constructor | src/middleware/authMiddleware.ts:4 | a request starts with no user, no response and no `next` call |
| AuthMiddleware.Exchange.AuthenticateJwt | src/middleware/authMiddleware.ts:4-17 | a denial sets the response without calling `next`; an admission sets `req.user` and calls `next` once |

## Left out

- The database, SMS gateway, Privy, the EVM provider, the Hedera and Polkadot SDKs, the escrow contract and the JWT verifier are inputs. The model states what the code does with their answers, not how they compute them.
- Request bodies are modelled with the types the handlers expect: a string phone and a sequence of chain names. Mongoose casting and non-array elements of `blockchainNetworks` are not modelled.
- Onboarding.User.MarkPhoneVerified: treats `user.onboardingSteps[key] = true` in `verifyOTP` as a step update, as on a plain object. The schema declares `onboardingSteps` as a Mongoose `Map` (src/models/user/User.ts:44-48), where that bracket write would not reach the stored map. Mongoose `Map` semantics are not modelled.
- Onboarding.PhoneVerifiedCountsTwoSteps: rests on the same plain-object reading of the two bracket writes; on the stored `Map` the steps may stay false.
- The compiled `registerUser` is not modelled. The TypeScript copy is.
- A failed `save()` is the boolean `saved` in `Claims.CreateClaim` and `Claims.ApproveClaimAndPayout`. The other handlers' saves are assumed to succeed. Unique-index violations and other database errors are not distinguished.
- The generic 500 `catch` answers of the handlers are out, apart from those listed in the table ("Failed to send OTP", "Failed to create claim", "Failed to execute payout"). They are reached only when an input service throws.
- `mongoose.Types.ObjectId.isValid` and `ethers.isAddress` are boolean inputs (`idIsValid`, `riderIsAddress`).
- Hex and BigInt string formats beyond decimal digits are not modelled. `GasSponsorship.ParseBigInt` accepts decimal strings only.
- Gas fees other than `gasPrice`, the funder's own balance, the two-second wait after a top-up, and receipt timeouts are not modelled.
- The six-digit OTP is an input `code`, because it comes from `Math.random`.
- `Date.now()` and `new Date()` within one request are one `now`.
- The decoded JWT payload is a `JsValue`. Claims handlers take the `_id`, `id` and `userId` fields as an `AuthUser`.
- `TemplateText` writes a user id as a string, or as "[object Object]" for an opaque object. The model does not carry Mongoose's `ObjectId.toString()`.
- The policy schema has no `claimId` field. `Claims.EscrowClaimId` models `policy.claimId || 0` for any value, and it is 0 with the schema as written.
- `listClaims`, the policy, plan and upload controllers, the routers, `app` and the payment on-ramp are outside this core.
- The TypeScript `verifyOTP` imports `deployWalletOnNetwork`, which `src/utils/blockchainDeploy.ts` does not export. Its activation result is an input `activation`, and a failure is swallowed as the code does.
- `getUserProfile` has no separate member: its guard is `Onboarding.LookupGuard`, and its 200 answer returns the record unchanged.
- Concurrency between requests, such as two sends for one phone interleaving, is not modelled. Each handler runs atomically.

## Findings

| source | as written | input that shows it | evidently intended | confidence | as-written member | corrected member |
|---|---|---|---|---|---|---|
| dist/controllers/authController.js:273 | `successful` counts only string entries not starting with "Error" | a Base activation whose sponsored send returns `{hash, userOpHash}` | a successful EVM activation counts as successful | high, not executed | OtpVerification.EvmSuccessCountedAsFailure | OtpVerification.IntendedSummaryCountsEvmAndRepeats |
| dist/controllers/authController.js:274 | `failed` is the request length minus successes counted over distinct result keys | `blockchainNetworks: ["hedera", "hedera"]` with both transfers succeeding gives failed = 1 | each attempt counted once by its outcome | medium, not executed | OtpVerification.RepeatedChainCountedAsFailure | OtpVerification.IntendedSummaryCountsAttempts |
| dist/utils/blockchainDeploy.js:90 | `results[chain] = …` on a plain object | chain "__proto__": the write goes to the prototype setter and no entry appears | every requested chain gets an entry | medium, not executed | BlockchainDeploy.ProtoChainIsDropped | BlockchainDeploy.DeployedIntendedKeys |
| src/controllers/authController.ts:37-38 | `'+254' + phone.slice(1)` for a "254…" number; the value is then never read, since lines 43, 48, 61 and 77 use the raw phone (`Onboarding.RegisterStoresRawPhone`) | "254712345678" becomes "+25454712345678" | `'+' + phone`, giving "+254712345678" | high, not executed | PhoneNumbers.CountryCodeBranchAsWritten | PhoneNumbers.IntendedRegisterFormatIsE164 |
| dist/controllers/authController.js:142-143 | the code is stored under the phone as sent, while `verifyOTP` looks it up under the normalized phone (line 245) | send to "0712345678", verify with "0712345678": the lookup for "+254712345678" finds nothing and answers "Invalid code" | store under the normalized phone | high, not executed | OtpVerification.LocalFormCodeIsNotFound | OtpVerification.IntendedCodeIsFound |
| dist/controllers/authController.js:64-75 | a bare "1…" nine-digit number is accepted, but the "0" local form is accepted only for "07…" | "0110123456" is rejected while "110123456" normalizes | accept "01…" like "07…", as the error message lists | medium, not executed | PhoneNumbers.LocalOnePrefixRejected | PhoneNumbers.IntendedPresentationsAgree |
