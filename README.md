# Multi-chain sweeper bookkeeping, in Dafny

This project models the in-memory bookkeeping of a multi-chain balance
sweeper. The bot polls a list of wallet records. For every chain a wallet
lists, it sends the native balance above a reserve and the gas budget to
the wallet's base-token recipient. It also sends the whole balance of each
watched token (EIP-20 `transfer`, EIP-721 `transferFrom`, EIP-1155
`safeTransferFrom`) to that token's recipient.

The rest of the bookkeeping modelled here:
- a duplicate-transfer lock on tokens;
- success/failure/gas counters, and what each attempt writes back to the
  stored wallet record;
- metrics rebuilt at start-up from the stored counters;
- RPC endpoint selection in list order.

Around the bot, the project models:
- the wallet registry (`WalletManager`);
- the per-connection transaction helper, with its nonce, gas-price and
  contract caches;
- the block-driven native-token monitor;
- the record edits done by the HTTP server's routes and its metrics store;
- the database layer's row conversions and its `UPDATE` builder;
- the dashboard's reducer.

Everything the outside world answers is a parameter of the model. That
covers balances, gas prices, pending counts, receipts, whether an endpoint
answers, database reads, and the clock.

Modules, one per source file, plus shared ones:

| file | module | models |
|---|---|---|
| common.dfy | Common | JS values, truthiness, `filter`/`reduce` helpers |
| records.dfy | Records | wallet, token and per-chain stat records; counters that may be missing |
| sweep_math.dfy | SweepMath | BigInt arithmetic of the sweeps, token dispatch, the lock key |
| metrics.dfy | Metrics | the bot's `metrics` object: counting, reset, initialisation, rebuild, write-back |
| connections.dfy | Connections | the endpoint loop and `getUserWeb3` |
| engine.dfy | Engine | the two sweeps and the polling selection, as functions of the sweeper state |
| bot.dfy | Bot | class `SweepBot`: the lock `Map`, `metrics` and connections updated in place, proved against `Engine` |
| wallet_manager.dfy | Registry | class `WalletManager` and its pure views and edits |
| transaction_manager.dfy | TxManager | class `TransactionManager` |
| base_token_monitor.dfy | BlockMonitor | class `BaseTokenMonitor` and its specification functions |
| api_server.dfy | Api | route record logic, class `MetricsStore` for `globalMetrics` |
| database.dfy | Store | row normalisation, configuration flags, the folds, `updateChain`'s statement |
| bot_context.dfy | Dashboard | `initialState` and `botReducer` |

The imperative parts stay imperative:
- the bot's lock map and metrics;
- the registry's wallet list;
- the transaction helper's caches;
- the monitor's counters and gas cache;
- the server's `globalMetrics`;
- the folds of the database layer.

Each of these is a class, or a method with a loop, whose `ensures` ties the
new state to a specification function. The lemmas are proved about those
functions.

## Model

| member | source | states |
|---|---|---|
| Common.MilliOf | index.js:669 | `Math.floor(v * 1000)` after JavaScript's conversion to a number: every falsy value gives 0, and a non-zero result comes only from a truthy value; `undefined`, a non-empty string and a longer array give NaN |
| Common.BigIntOf | index.js:673 | `BigInt(v)`: an integer converts to itself, and whatever converts is a whole number of the thousandths `MilliOf` gives; a fraction, null, `undefined` or a non-empty string throws |
| SweepMath.TruncDiv | index.js:670 | BigInt division rounds toward zero: a non-negative dividend rounds down and a negative one rounds up, in both cases within one divisor of the exact quotient |
| SweepMath.IncreasedGasPrice | index.js:668-670 | the raised price is `gasPrice * floor(mult*1000) / 1000`, rounded toward zero; it is never negative for a non-negative multiplier |
| SweepMath.IncreasedGasPriceMonotone | index.js:668-670 | a larger multiplier never gives a lower raised price; a whole multiplier k gives exactly `gasPrice × k`, so a multiplier of at least 1 never lowers the price read |
| SweepMath.NativeTransferValue | index.js:659-684 | a value is sent iff `balance > minBalance` and `balance - minBalance > gasCost`, and it is exactly `balance - minBalance - gasCost` |
| SweepMath.NativeTransferValueShift | index.js:663-677 | a larger balance sends more by exactly the difference |
| SweepMath.TokenDispatch | index.js:848-875 | erc20/bep20 → `transfer` at gas 100000, erc721/bep721 → `transferFrom` at 150000, erc1155 → `safeTransferFrom` at 200000, any other type → no transaction |
| SweepMath.LockKey | index.js:1053-1055 | the key `wallet-token-chain`: its length, the wallet address as prefix followed by a dash, the chain as suffix |
| SweepMath.SplitAtDash | index.js:1053-1055 | a dash-free prefix is recovered from `prefix + "-" + rest` |
| SweepMath.LockKeyInjective | index.js:1053-1055 | when the wallet and token addresses contain no dash, distinct triples have distinct lock keys (the chain key may contain dashes) |
| Metrics.Tally | index.js:698-704 | one attempt adds one transaction and exactly one of success (with its gas) or failure |
| Metrics.RecordNative | index.js:698-785 | a native attempt counts once on the global, chain and native tallies, adds the value sent on success, and adds one RPC error exactly when it threw; token-type tallies untouched |
| Metrics.RecordToken | index.js:889-972 | a token attempt counts once on the global, chain and token-type tallies and adds an RPC error exactly when it threw; native counters untouched |
| Metrics.RecordNativeKeepsWellCounted | index.js:698-785 | counting a native attempt keeps every tally balanced (transactions = successes + failures) |
| Metrics.RecordTokenKeepsWellCounted | index.js:889-972 | counting a token attempt keeps every tally balanced |
| Metrics.RecordNativeAllCounts | index.js:698-785 | after a run of attempts, the totals grew by the attempts, successes by those that succeeded, failures by the rest, RPC errors by those that threw |
| Metrics.ResetBotMetrics | index.js:553-574 | the start time is `now`, the wallet, token and global counters are 0, and there is no chain entry |
| Metrics.ResetIsWellCounted | index.js:553-574 | the reset metrics are balanced |
| Metrics.InitializeChainMetrics | index.js:577-619 | without a configuration with chains nothing changes; otherwise the metrics are reset and each configured chain gets a fresh entry with one zero tally per token type it has a standard for |
| Metrics.InitializeChainMetricsWellCounted | index.js:577-619 | initialisation leaves the metrics balanced |
| Metrics.RebuildChainsKeys | index.js:497-517 | after the rebuild a chain has an entry iff some stored wallet has `chainStats` for it; native stats alone never create an entry |
| Metrics.RebuildChainsCounters | index.js:519-522 | the rebuilt chain counters are the sums of the stored entries, missing ones counting 0 |
| Metrics.RebuildChains | index.js:497-536 | the chain entries folded from the stored wallets in order; its keys and counters are stated by RebuildChainsKeys and RebuildChainsCounters |
| Metrics.StartupMetricsAsWritten | index.js:1147-1152 | as written: without a configuration with chains, start-up ends with the rebuilt metrics; with one, every global counter and every chain counter is 0 (also line 584) |
| Metrics.RebuiltMetrics | index.js:485-494 | the rebuilt global totals are the sums of the stored wallet counters, missing ones counting 0; the start time is `now` and the wallet and token totals stay 0 (also lines 540-544) |
| Metrics.StartupDiscardsStoredTotals | index.js:1147-1152 | as written, once a configuration with chains is loaded, start-up ends with zero totals whatever was stored |
| Metrics.InitializeMissingChainMetrics | index.js:577-619 | corrected initialisation: totals and existing chain entries stay, each configured chain without an entry gets a fresh one |
| Metrics.StartupMetrics | index.js:1147-1152 | corrected start-up: the global counters are the rebuilt ones, every rebuilt chain entry is kept as rebuilt, and every configured chain has an entry |
| Metrics.StartupKeepsStoredTotals | index.js:1147-1152 | corrected start-up keeps the rebuilt totals and chain counters and gives every configured chain an entry |
| Metrics.PersistTokenOutcomeLosesCounts | index.js:903-917 | as written, a revert makes the stored chain entry forget earlier successes and gas, a success forgets earlier failures, and a balanced entry becomes unbalanced (also lines 936-948) |
| Metrics.PersistTokenOutcome | index.js:903-917 | as written: the wallet's transactions and the chain entry's transactions each grow by one; other chain entries, native stats and tokens are unchanged (also lines 936-948) |
| Metrics.TallyStat | index.js:909-916 | a stored chain entry with one attempt counted and its other fields kept (also lines 941-947) |
| Metrics.PersistTokenOutcomeKeeping | index.js:903-917 | corrected write-back: the chain entry is tallied, other chains and native stats kept, wallet totals grow by one attempt (also lines 936-948) |
| Metrics.PersistTokenOutcomeKeepsBalance | index.js:903-917 | with the corrected write-back a balanced stored entry stays balanced (also lines 936-948) |
| Metrics.PersistNativeOutcomeLosesCounts | index.js:712-728 | as written, the stored native entry forgets earlier successes, gas and value after a revert, and earlier failures after a success (also lines 748-760) |
| Metrics.PersistNativeOutcome | index.js:712-728 | as written: the wallet's transactions and the native entry's transactions each grow by one; other native entries, `chainStats` and tokens are unchanged (also lines 748-760) |
| Metrics.PersistNativeOutcomeKeeping | index.js:712-728 | corrected write-back: the native entry is tallied, the value sent added, other chains and `chainStats` kept (also lines 748-760) |
| Connections.EmptyRpcHidesRpcUrls | index.js:359 | a present but empty `rpc` list wins over `rpcUrls`, giving no endpoints |
| Connections.EndpointList | index.js:359 | a present `rpc` list is the endpoint list; otherwise every endpoint comes from `rpcUrls` |
| Connections.FirstReachable | index.js:368-401 | the chosen endpoint is listed and answers; there is none iff no listed endpoint answers |
| Connections.FirstReachableIsFirst | index.js:368-401 | every endpoint listed before the chosen one failed |
| Connections.ChainConnections | index.js:365-401 | a chain keeps at most one connection, a listed one that answers |
| Connections.ConnectChain | index.js:368-401 | the loop tries endpoints in order, stops at the first that answers, and returns exactly `ChainConnections` |
| Connections.GetUserWeb3 | index.js:419-421 | the first connection of the user's chain, or none when the user, the chain or every connection is missing |
| Engine.MergedConfig | index.js:1043-1048 | merged keys are the union; a user field overrides the global one, and a user without a row changes nothing |
| Engine.StandardFor | index.js:819 | the user's standard when it has one, otherwise the global one |
| Engine.AttemptOf | index.js:887-889 | a receipt with status is a success with its gas and the value sent, one without is a failure, a throw is an error (also line 964) |
| Engine.GasPriceFor | index.js:989-1003 | the node's price through user 1's connection, otherwise 20 gwei |
| Engine.NativeAttempt | index.js:645-696 | no attempt with native support off or without a connection; a failed balance read or a throwing `toWei` is an error; a success always sends a positive value |
| Engine.NativeEval | index.js:644-799 | the native sweep keeps the locks and the number of stored records, and changes nothing when there is no attempt |
| Engine.TokenStep | index.js:805-841 | a locked key gives no lock and no attempt; an attempt without the lock is an error |
| Engine.TokenTransfer | index.js:843-887 | a multiplier read as NaN is an error; only a dispatched type gets past an error; a success sends the whole balance |
| Engine.TokenTxFor | index.js:848-875 | the token transaction is signed by the wallet, addressed to the token contract, calls the type's transfer method for the token's recipient with the whole balance, and carries the type's gas |
| Engine.TokenEval | index.js:802-986 | the stored records keep their number; the lock keys grow by at most the token's own key, and existing locks keep their expiry |
| Engine.RunJob | index.js:1104-1113 | one job keeps the number of stored records and every existing lock |
| Engine.RunJobs | index.js:1104-1115 | a run of jobs keeps the number of stored records and every existing lock |
| Engine.ChainJobs | index.js:1092-1116 | every job selected for a chain is on that chain |
| Engine.ChainsJobs | index.js:1091-1116 | every job is on a chain of the list that is also active for the user and configured |
| Engine.WalletJobs | index.js:1079-1116 | a paused wallet yields no job; every job is on one of the wallet's chains |
| Engine.CheckWallet | index.js:1077-1124 | a failed configuration read changes nothing; the pass keeps the number of stored records and every existing lock |
| Engine.CheckWallets | index.js:1167-1172 | a polling pass keeps the number of stored records and every existing lock |
| Engine.FindStored | index.js:709-710 | the index of the first stored record of the user with the address, or none when no record matches (also lines 900-901) |
| Engine.Persist | index.js:708-734 | the write-back keeps the number of stored records (also lines 899-923) |
| Engine.PersistTouchesOnlyFound | index.js:708-734 | a thrown attempt or a missing record writes nothing; otherwise every record but the first of the user with the wallet's address is kept (also lines 899-923) |
| Engine.TokenJobsOn | index.js:1109-1115 | a token is looked at iff it is one of the wallet's tokens and is on the chain |
| Engine.ChainsJobsMembers | index.js:1091-1116 | native work only for listed, configured and known chains with native support on; token work only for tokens on such chains |
| Engine.WalletJobsMembers | index.js:1079-1116 | a paused wallet yields no work; otherwise exactly the selected jobs |
| Engine.StatusNotConsulted | index.js:1079-1116 | the selection reads `isPaused` but never `status` |
| Engine.ChainsJobsStatus | index.js:1091-1116 | per-chain selection does not depend on `status` |
| Engine.PausedWalletUntouched | index.js:1079-1082 | a pass over a paused wallet changes no lock, metric or stored record |
| Engine.LockedTokenSkipped | index.js:805-808 | a token whose key is present in the lock map is skipped, whatever expiry is stored (also lines 1057-1060) |
| Engine.TokenStepLock | index.js:811-841 | a lock is taken only when the key is unlocked, a connection exists and the balance read succeeds with a positive balance; a lock taken for a type that is not dispatched, under a configured multiplier, leads to no attempt |
| Engine.TokenStepSends | index.js:841-887 | a transaction is sent only under the lock, for a dispatched type, with the whole balance as its amount; the transaction sent goes from the wallet to the token contract, calls the type's method for the token's recipient, with the type's gas and the raised gas price |
| Engine.TokenEvalLocks | index.js:841 | a token check adds exactly its own key expiring 5000 ms from now when it takes the lock, and leaves the locks alone otherwise (also lines 1062-1064) |
| Engine.TokenEvalIdle | index.js:805-838 | a check that neither locks nor counts leaves the state as it was |
| Engine.TokenEvalLocked | index.js:841-972 | a check that locks adds the key and counts and writes back the transfer's outcome, if any |
| Engine.TokenEvalFailed | index.js:964-972 | a check that throws before the lock counts one error on the token tallies and leaves the locks and, as `Persist` writes nothing for a throw, the stored records alone |
| Engine.NativeEvalKeepsLocks | index.js:644-799 | the native sweep never touches the locks |
| Engine.SecondEvaluationSkipped | index.js:805-808 | once a token's key is locked, checking it again in the same pass changes nothing (also line 841) |
| Engine.RunJobsLockKeys | index.js:1062-1064 | during a pass, locks are only ever added (also lines 1077-1124) |
| Engine.NativeAttemptSends | index.js:645-696 | a native transaction is sent only with native support on, a connection, and a balance covering reserve and gas; the transaction sent goes from the wallet to its base-token recipient with exactly `NativeTransferValue`, the configured gas limit and the raised gas price |
| Engine.NativeSupportOff | index.js:645-647 | with native support off the native sweep does nothing |
| Engine.TokenEvalKeepsWellCounted | index.js:889-972 | a token check keeps the metrics balanced |
| Engine.NativeEvalKeepsWellCounted | index.js:698-785 | a native check keeps the metrics balanced |
| Engine.RunJobsKeepsWellCounted | index.js:1091-1116 | a run of jobs keeps the metrics balanced |
| Engine.CheckWalletKeepsWellCounted | index.js:1077-1124 | a wallet's pass keeps the metrics balanced |
| Engine.CheckWalletsKeepsWellCounted | index.js:1167-1172 | a polling pass over any wallets keeps the metrics balanced |
| Bot.UserWeb3AfterSetup | index.js:352-421 | after a user's setup, `getUserWeb3` gives each chain's first answering endpoint, and nothing for other chains |
| Bot.SweepBot.constructor | index.js:457-473 | no locks and no connections, the reset metrics stamped with `now`, and the given stored records (also line 1051) |
| Bot.SweepBot.IsTransactionLocked | index.js:1057-1060 | true iff the key is in the map |
| Bot.SweepBot.SetTransactionLock | index.js:1062-1064 | the key maps to `now + duration`; nothing else changes |
| Bot.SweepBot.ExpireTransactionLock | index.js:1067-1069 | the timed delete removes exactly the key |
| Bot.SweepBot.ClearTransactionLocks | index.js:1072-1074 | the map is empty; metrics and connections unchanged |
| Bot.SweepBot.CheckAndTransferNativeBalance | index.js:644-799 | the new state is `NativeEval` of the old |
| Bot.SweepBot.CheckAndTransferBalance | index.js:802-986 | the new state is `TokenEval` of the old |
| Bot.SweepBot.TransferTokenBalance | index.js:841-972 | the lock is set with expiry `now + 5000`; metrics and stored records change by the transfer's outcome, or not at all |
| Bot.SweepBot.Run | index.js:1104-1113 | one job changes the state as `RunJob` |
| Bot.SweepBot.CheckWalletBalances | index.js:1077-1124 | the new state is `CheckWallet` of the old |
| Bot.SweepBot.CheckChain | index.js:1091-1116 | one iteration of the chain loop appends exactly that chain's jobs |
| Bot.SweepBot.CheckNativeOnChain | index.js:1104-1106 | the native job runs iff native support is on |
| Bot.SweepBot.CheckTokensOnChain | index.js:1109-1115 | the token loop runs exactly the chain's token jobs in list order |
| Bot.SweepBot.CheckTokenOnChain | index.js:1110-1114 | a token is checked iff it is on the chain |
| Bot.SweepBot.Tick | index.js:1167-1178 | every wallet in order, then an empty lock map; metrics as `CheckWallets` gives them |
| Bot.SweepBot.ConnectUser | index.js:352-408 | each of the user's chains gets `ChainConnections` of its endpoints |
| Bot.SweepBot.InitializeUserWeb3Instances | index.js:341-416 | each user is set up in turn; a failing read stops the setup where it is |
| Bot.SweepBot.LoadMetricsFromDatabase | index.js:476-550 | when the stored wallets can be read, the metrics become `RebuiltMetrics`; otherwise nothing changes |
| Bot.SweepBot.InitializeChainMetrics | index.js:577-619 | the metrics become `Metrics.InitializeChainMetrics` of the old |
| Bot.SweepBot.StartMetrics | index.js:1147-1152 | corrected start-up: stored totals survive and every configured chain has an entry |
| Bot.AddChainStatsLoop | index.js:498-523 | the loop adds each stored chain entry to the rebuilt chains |
| Bot.AddNativeStatsLoop | index.js:528-536 | the loop adds native stats only for chains that already have an entry |
| Bot.ZeroTokenTypes | index.js:606-615 | one zero tally per token type with a standard |
| Registry.FindByKey | walletManager.js:329-331 | the index of the first wallet with the key, none iff no wallet has it |
| Registry.ActiveWallets | walletManager.js:317-319 | a wallet is in the view iff it is in the list with status 'active' and not paused |
| Registry.WalletsOn | walletManager.js:321-323 | a wallet is in the view iff it is in the list and lists the chain |
| Registry.ActiveWalletsOn | walletManager.js:325-327 | a wallet is in the view iff it is in the list, active, unpaused and lists the chain |
| Registry.ActiveWalletsOnIsComposition | walletManager.js:317-327 | active-on-chain is the active filter applied to the chain filter |
| Registry.NewWalletFields | walletManager.js:177-206 | a new wallet is active, unpaused, has zero counters, no tokens, and one zeroed `chainStats` entry per chain |
| Registry.NewWallet | walletManager.js:177-206 | the record `addWallet` appends: the given key, name, address, chains and recipient, active and unpaused, with no tokens and no native stats |
| Registry.WithoutToken | walletManager.js:268 | keeps exactly the tokens not matching both address and chain |
| Registry.DropChain | walletManager.js:448-469 | the chain, its tokens and its stats are removed; the rest stays |
| Registry.DropChainUndoesAddChain | walletManager.js:416-469 | removing a chain just added gives the wallet back when it had no trace of that chain |
| Registry.AddChain | walletManager.js:433-440 | the chain is appended and gets a zeroed stats entry; the tokens and every other stats entry stay, and so does every other field |
| Registry.ApplyStats | walletManager.js:305-315 | the given counters replace the token's, other fields kept |
| Registry.FindToken | walletManager.js:310 | the index of the first token watched for (address, chain) |
| Registry.ApplyUpdates | walletManager.js:544-560 | only name, chains and recipient change, and only those given |
| Registry.AddTokenKeepsUnique | walletManager.js:234-254 | appending a token not yet watched keeps at most one token per (address, chain) |
| Registry.RemoveKeepsUnique | walletManager.js:261-278 | removing tokens keeps the tokens unique |
| Registry.UpdateKeepsUnique | walletManager.js:305-315 | updating token stats keeps the tokens unique |
| Registry.StrictSum | walletManager.js:489-491 | the `reduce` sum, undefined (NaN) once a counter is missing |
| Registry.AddTokenTypesCount | walletManager.js:512-526 | adding one wallet's tokens raises each type's count by its tokens of that type |
| Registry.TypeTableCounts | walletManager.js:512-526 | the type table counts exactly the tokens of each type and has a row exactly for types present |
| Registry.ActiveAndPausedDisjoint | walletManager.js:486-487 | no wallet is counted both active and paused, so the two counts add up to at most the number of wallets |
| Registry.StatsOf | walletManager.js:483-530 | `getStats`: total wallets is the list's length and at least active plus paused, the chain table has exactly the known chains, and no wallets give zero tokens, a transaction total of 0 and no types |
| Registry.StatsHeadline | walletManager.js:483-506 | total wallets is the list's length, active wallets the active view's length, and each known chain, and only those, has a summary counting its wallets and its active wallets |
| Registry.WalletManager.constructor | walletManager.js:18-30 | the registry holds the loaded wallets, chains and standards |
| Registry.WalletManager.AddWallet | walletManager.js:162-215 | an unknown chain throws; an existing key returns null; otherwise exactly one new wallet is appended and returned |
| Registry.WalletManager.AddTokenToWallet | walletManager.js:217-259 | false with nothing changed for a missing wallet, an unlisted chain, an unknown standard or a duplicate; a listed chain without a standards table throws; otherwise exactly one zero-counter token is appended, and the call returns true, or throws after the append when the chain has no `chainsConfig` entry; tokens stay unique |
| Registry.WalletManager.RemoveTokenFromWallet | walletManager.js:261-279 | every matching token goes; false iff the wallet is missing or nothing matched; a removal on a chain without a `chainsConfig` entry throws after the edit |
| Registry.WalletManager.RemoveWallet | walletManager.js:281-291 | every wallet with the key goes; false iff there was none |
| Registry.WalletManager.UpdateWalletStatus | walletManager.js:293-303 | the first wallet with the key gets the status; false iff there is none |
| Registry.WalletManager.UpdateTokenStats | walletManager.js:305-315 | the first matching token takes the counters; false iff wallet or token is missing |
| Registry.WalletManager.GetActiveWallets | walletManager.js:317-319 | returns `ActiveWallets` of the list |
| Registry.WalletManager.GetWalletsByChain | walletManager.js:321-323 | returns `WalletsOn` of the list |
| Registry.WalletManager.GetActiveWalletsByChain | walletManager.js:325-327 | returns `ActiveWalletsOn` of the list |
| Registry.WalletManager.GetWalletByPrivateKey | walletManager.js:329-331 | the first wallet with the key, or none |
| Registry.WalletManager.GetAllWallets | walletManager.js:333-335 | the whole list |
| Registry.WalletManager.SetPaused | walletManager.js:382-404 | sets `isPaused` of the first wallet with the key; false for an unknown key |
| Registry.WalletManager.PauseWallet | walletManager.js:382-392 | `isPaused` becomes true; false for an unknown key |
| Registry.WalletManager.UnpauseWallet | walletManager.js:394-404 | `isPaused` becomes false; false for an unknown key |
| Registry.WalletManager.IsWalletPaused | walletManager.js:406-414 | the wallet's flag; false for an unknown key |
| Registry.WalletManager.ToggleWallet | walletManager.js:532-542 | flips `isPaused`, leaves `status` alone; null for an unknown key |
| Registry.WalletManager.AddChainToWallet | walletManager.js:416-446 | false for a missing wallet, an unknown chain or a duplicate; otherwise the chain is appended with zeroed stats |
| Registry.WalletManager.RemoveChainFromWallet | walletManager.js:448-469 | false for a missing wallet or unlisted chain; otherwise `DropChain`, and true, or a throw after the edit when the chain has no `chainsConfig` entry |
| Registry.WalletManager.UpdateBaseTokenRecipient | walletManager.js:471-481 | the recipient is set; false for an unknown key |
| Registry.WalletManager.UpdateWallet | walletManager.js:544-562 | `ApplyUpdates` on the first wallet with the key; null for an unknown key |
| Registry.WalletManager.GetStats | walletManager.js:483-530 | the headline counts, one summary per known chain, and the type table built token by token |
| Registry.WithoutWallet | walletManager.js:284 | a wallet is kept iff it does not have the key |
| Registry.RemoveUnknownKey | walletManager.js:281-291 | removing an absent key changes nothing |
| Registry.RemoveUndoesAdd | walletManager.js:162-215 | removing a just-added wallet under a new key gives the list back (also lines 281-291) |
| Registry.RemovedKeyIsGone | walletManager.js:284 | after removal no wallet has the key |
| Registry.RemoveUndoesAddToken | walletManager.js:217-279 | adding then removing a token not watched before restores the token list |
| Registry.PauseThenUnpause | walletManager.js:382-404 | pausing then unpausing gives back a wallet that was not paused |
| Registry.ToggleTwice | walletManager.js:532-542 | toggling twice gives the wallet back |
| TxManager.AbiFileFor | transactionManager.js:73-82 | erc20/bep20 → erc20.json, erc721/bep721 → erc721.json, erc1155 → erc1155.json, both directions; other types → none |
| TxManager.AbiAgreesWithDispatch | transactionManager.js:73-82 | the helper accepts exactly the types the sweep dispatches, with the matching ABI |
| TxManager.ContractKey | transactionManager.js:70 | the key `chain-tokenType-tokenAddress`: the chain as prefix, the token address as suffix, two separators |
| TxManager.TransactionManager.constructor | transactionManager.js:21-32 | empty caches, no cached price |
| TxManager.TransactionManager.InitializeNonce | transactionManager.js:35-52 | no address gives 0 and caches nothing; otherwise the pending count, or 0 on a failed read, is cached and returned |
| TxManager.TransactionManager.GetNonce | transactionManager.js:55-60 | the cached nonce when present, otherwise `initializeNonce` |
| TxManager.TransactionManager.UpdateNonce | transactionManager.js:63-66 | the cached nonce becomes one more than before, a missing one counting 0 |
| TxManager.TransactionManager.GetContract | transactionManager.js:69-92 | a cached handle is returned as is; otherwise one is built from the type's ABI and cached; an unknown type throws with nothing cached |
| TxManager.TransactionManager.GetGasPrice | transactionManager.js:133-143 | the cached price iff present, non-zero and younger than 1000 ms; otherwise the network price, cached with `now` |
| TxManager.TransactionManager.CreateTransaction | transactionManager.js:95-143 | succeeds iff there is a key, a cached or known contract type, and a fresh cached price or a network price; then the gas price is `getGasPrice`'s with its cache effect, the contract is cached, the sender, recipient and amount are those given, the nonce comes from `getNonce` (0 for an empty address or a failed pending-count read) and the cache is advanced past it, and the gas is the estimate or 100000; a missing key or unknown type changes nothing, and a failed price read leaves the contract cached and the nonce initialised |
| TxManager.TransactionManager.SendTransaction | transactionManager.js:146-167 | the nonce is replaced by a fresh pending count, one past it is cached, the signed transaction is broadcast; a failed read changes nothing |
| TxManager.CreateTwice | transactionManager.js:95-130 | two builds back to back for one address carry consecutive nonces |
| TxManager.GetContractTwice | transactionManager.js:69-92 | a second `getContract` for the same key returns the same handle |
| TxManager.GetGasPriceTwice | transactionManager.js:133-143 | a network price is served from the cache within the next 1000 ms |
| BlockMonitor.CacheDuration | baseTokenMonitor.js:108 | a missing or falsy duration gives 1000 ms; a truthy one is kept as `\|\|` keeps it, whatever its type: an integer k as k ms, a fraction as it is, `true` as 1 ms, a non-empty string as NaN (durations in thousandths of a millisecond) |
| BlockMonitor.MultiplierMilli | baseTokenMonitor.js:167 | a missing or falsy multiplier gives 1.5; a truthy one is read as floor(v × 1000), an integer k as k × 1000, a value that is not a number as none; it is the multiplier the monitor's state holds and every check uses |
| BlockMonitor.OrDefaultMilli | baseTokenMonitor.js:108 | `v \|\| d`: the default exactly when the value is missing or falsy, otherwise the value as a number (also line 167) |
| BlockMonitor.DefaultRaiseNeedsEvenPrice | baseTokenMonitor.js:167-170 | under the default 1.5 the raised price is whole exactly when the gas price is even, and is then `price / 2 × 3`; an odd price makes `BigInt` throw |
| BlockMonitor.InitialStateValid | baseTokenMonitor.js:55-64 | the tally and gas tables are keyed by exactly the connected chains, every chain tally is zero, and the state is balanced (also lines 103-110) |
| BlockMonitor.InitialState | baseTokenMonitor.js:55-64 | the start-up state: connected chains, the configured multiplier, zero tallies and an empty gas cache with the configured duration per connected chain; its invariants are stated by InitialStateValid (also lines 103-110) |
| BlockMonitor.Fresh | baseTokenMonitor.js:115 | a cache entry serves its price only when the price is non-zero and younger than a duration that is a number |
| BlockMonitor.ReadGasPrice | baseTokenMonitor.js:113-123 | the cached price while present and fresh; otherwise a network read, cached with its time; a failed read leaves the entry |
| BlockMonitor.ReadGasPriceCaches | baseTokenMonitor.js:113-123 | a price read from the network is served again until the duration has passed |
| BlockMonitor.Decide | baseTokenMonitor.js:155-209 | no recipient → no transfer; a transfer only when `balance > 21000 × raised price`, of exactly `balance - gasCost`; a failed read or a NaN multiplier throws |
| BlockMonitor.NaNMultiplierCountsFailure | baseTokenMonitor.js:167-170 | with a multiplier that is not a number, each check of a wallet with a recipient counts one failed transaction globally and on the chain, and moves nothing else (also lines 203-208) |
| BlockMonitor.RaisedPrice | baseTokenMonitor.js:167-170 | the raised price times 1000 is the price times the multiplier in thousandths; a product that is not whole wei gives none, since `BigInt` of a fraction throws; a whole multiplier k gives `price × k` |
| BlockMonitor.DecideAsWritten | baseTokenMonitor.js:172-173 | as written: a check never sends; it does nothing exactly when the corrected check does nothing, and otherwise throws |
| BlockMonitor.DecideSendsWhenFunded | baseTokenMonitor.js:172-184 | corrected: a wallet with a recipient whose balance exceeds the gas cost sends exactly `balance - gasCost` at gas 21000 and the raised price, and a throwing send is an error |
| BlockMonitor.AsWrittenNeverSweeps | baseTokenMonitor.js:173 | as written, every check the corrected code would send from throws instead |
| BlockMonitor.Bump | baseTokenMonitor.js:186-201 | one more transaction; a balanced tally stays balanced |
| BlockMonitor.Record | baseTokenMonitor.js:186-209 | an outcome other than no transfer adds one transaction to the totals and to its chain; other chains, the gas cache and the connected set are unchanged |
| BlockMonitor.RecordKeepsValid | baseTokenMonitor.js:186-209 | counting an outcome keeps the per-chain tables and the balance |
| BlockMonitor.CheckKeepsBalanced | baseTokenMonitor.js:155-209 | the corrected check keeps every tally balanced |
| BlockMonitor.AsWrittenUnbalances | baseTokenMonitor.js:162 | as written, a check on an unconnected chain counts a global failure with no transaction (also lines 203-209) |
| BlockMonitor.CheckConnected | baseTokenMonitor.js:155-210 | a wallet without a recipient changes nothing; the tables keep their keys, and other chains and their gas entries are unchanged |
| BlockMonitor.CheckAsWritten | baseTokenMonitor.js:162 | as written: on an unconnected chain a wallet with a recipient adds one global failure and no transaction, and the tables stay; on a connected chain it is the corrected check (also lines 203-209) |
| BlockMonitor.Check | baseTokenMonitor.js:155-210 | corrected: an unconnected chain or a wallet without a recipient changes nothing; the connected set and the table keys stay |
| BlockMonitor.CheckCounts | baseTokenMonitor.js:186-209 | each check adds at most one attempt, global and chain counters move together |
| BlockMonitor.SuccessAddsAmount | baseTokenMonitor.js:191-192 | a success adds exactly the amount sent to the chain's `totalTransferred` |
| BlockMonitor.NoRecipientNoChange | baseTokenMonitor.js:157-160 | a wallet without a recipient changes nothing |
| BlockMonitor.CheckChains | baseTokenMonitor.js:212-216 | checking a wallet's chains keeps the tables and the balance |
| BlockMonitor.CheckWallets | baseTokenMonitor.js:232-234 | checking wallets keeps the tables and the balance |
| BlockMonitor.CheckWalletsConcat | baseTokenMonitor.js:232-234 | checking `a + b` is checking `a`, then `b` |
| BlockMonitor.OnBlockIgnores | baseTokenMonitor.js:232-234 | a block ignores wallets that are paused, inactive or not on the chain |
| BlockMonitor.OnBlockNoneActive | baseTokenMonitor.js:232-234 | a block with no active wallet on its chain changes nothing |
| BlockMonitor.OnBlock | baseTokenMonitor.js:232-234 | a block keeps the state valid and balanced, and changes nothing when no active wallet is on its chain |
| BlockMonitor.BaseTokenMonitor.constructor | baseTokenMonitor.js:55-64 | the state is `InitialState` of the connected chains and the configuration: the configured multiplier, 1.5 when none is configured, and the configured cache duration (also lines 103-110, 167) |
| BlockMonitor.BaseTokenMonitor.GetGasPrice | baseTokenMonitor.js:113-123 | the price and the new cache entry are those of `ReadGasPrice` |
| BlockMonitor.BaseTokenMonitor.Count | baseTokenMonitor.js:186-201 | global and chain tallies bumped once |
| BlockMonitor.BaseTokenMonitor.CheckAndTransferBalance | baseTokenMonitor.js:155-210 | the new state is `Check` of the old |
| BlockMonitor.BaseTokenMonitor.CheckWalletBalances | baseTokenMonitor.js:212-216 | the new state is `CheckChains` over the wallet's chains |
| BlockMonitor.BaseTokenMonitor.OnNewBlock | baseTokenMonitor.js:224-234 | the new state is `OnBlock` of the old |
| Api.Visible | api/server.js:275-281 | an admin sees every row, anyone else only their own |
| Api.ActiveRoute | api/server.js:299-306 | a wallet is listed iff it is a visible row that is active and not paused; never more wallets than visible rows |
| Api.Target | api/server.js:392-399 | the first wallet with the key among those visible; none iff none of them has it |
| Api.Toggled | api/server.js:402-403 | the pause flag is flipped and the status is 'paused' iff now paused |
| Api.ToggleFlipsActivity | api/server.js:402-403 | after a toggle the wallet is active iff it was paused |
| Api.ToggleTwiceRestores | api/server.js:402-403 | toggling twice restores the record iff its status already agreed with its flag |
| Api.ToggleRoute | api/server.js:392-403 | 404 iff there is no target; otherwise the toggled target |
| Api.EditRoute | api/server.js:441-453 | only the given name, chains and recipient change; 404 iff there is no target |
| Api.TokenLabel | api/server.js:553 | `name`, else `tokenName`, else 'Unnamed Token' |
| Api.RequestedToken | api/server.js:550-563 | zero counters, the label, and type 'erc20' when none is given |
| Api.AddTokenRoute | api/server.js:540-565 | exactly one token appended; 404 iff no target |
| Api.AddTokenRouteAllowsDuplicates | api/server.js:550-565 | unlike the registry, the route can watch one token twice |
| Api.RemoveTokenRoute | api/server.js:615-627 | only the token list changes; it keeps exactly the tokens not matching both the address and the queried chain, a missing query matching tokens stored without a chain; when no token lacks a chain, a missing query removes nothing; 404 iff there is no target |
| Api.RemoveTokenUndoesAddToken | api/server.js:550-627 | adding then removing a token not watched before gives the wallet back |
| Api.WriteBack | api/server.js:406 | the row with the record's id takes the record's columns; no id touches no row (also lines 456, 568, 630) |
| Api.AdminToggleIsStored | api/server.js:380-406 | an admin's toggle is what the next listing shows |
| Api.StrictSumIsSum | api/server.js:779-781 | where the registry's strict sum is a number it equals the route's `|| 0` sum |
| Api.StatsAgreeWithRegistry | api/server.js:775-782 | the route's counts agree with the registry's `getStats` on the same wallets |
| Api.StatsAgreeWithBot | api/server.js:779-781 | the route's totals are the totals the bot rebuilds at start-up |
| Api.StatsOf | api/server.js:775-782 | `/api/stats`: total wallets is the list's length and bounds the active count, and no wallets give all zeros |
| Api.DisplayErrors | api/server.js:252-258 | an object `rpcErrors` becomes `{count||0, lastError||'No errors', lastErrorTime||null}`; other values stay |
| Api.DisplayErrorsIdempotent | api/server.js:252-258 | formatting an already formatted value changes nothing |
| Api.DisplayEntries | api/server.js:249-261 | every chain entry has its `rpcErrors` formatted, the keys kept |
| Api.StatusMetrics | api/server.js:246-261 | only the chain table's `rpcErrors` change; every other key and value stays |
| Api.StatusMetricsIdempotent | api/server.js:246-261 | formatting twice is formatting once |
| Api.Merge | api/server.js:195-198 | pushed keys win, absent keys survive, `lastUpdate` is refreshed |
| Api.MergeTwice | api/server.js:195-198 | pushing the same fields twice is pushing them once, up to the stamp |
| Api.ResetObject | api/server.js:127-137 | zero counters, the configured native flag, the chain keys (also lines 201-216) |
| Api.MetricsStore.constructor | api/server.js:127-137 | the store holds the initial object |
| Api.MetricsStore.UpdateMetrics | api/server.js:195-198 | the store becomes `Merge` of the old |
| Api.MetricsStore.ResetMetrics | api/server.js:201-216 | the store becomes `ResetObject` |
| Api.MetricsStore.UpdateFromRegistry | api/server.js:219-236 | the registry's counts laid over the current object |
| Api.MetricsStore.Status | api/server.js:244-269 | returns `StatusMetrics` of the store, and the store becomes it (the copy is shallow) |
| Api.StatusTwice | api/server.js:244-269 | asking twice shows the same metrics |
| Store.CreateWalletRow | api/database.js:568-613 | status 'active' unless given, counters 0 and '0', `isPaused` 1 iff truthy, empty lists and objects |
| Store.NormalizeRow | api/database.js:623-630 | `isPaused` becomes a Boolean, missing lists become empty, missing stats empty objects (also lines 708-715) |
| Store.UpdateThenReadBack | api/database.js:638-685 | a record written back reads back unchanged apart from id and owner (also lines 623-630) |
| Store.CreateThenReadBack | api/database.js:568-630 | a created wallet reads back active, unpaused unless told otherwise, with every counter present |
| Store.NormalizeIsStable | api/database.js:623-630 | normalising, writing back and normalising again gives the same record (also lines 638-685) |
| Store.NormalizeAll | api/database.js:708-715 | every row normalised, in order |
| Store.WalletsOfUser | api/database.js:615-636 | every wallet returned is the normalised form of one of the owner's rows, and every row of the owner is returned normalised |
| Store.UserConfigOf | api/database.js:452-493 | no row gives null; otherwise each column, five flags as Booleans |
| Store.ChainsOfLookup | api/database.js:801-810 | a key is in the result iff some row has it, and its value describes the last such row |
| Store.OwnedRows | api/database.js:792-800 | exactly the rows of one user, in order, for either table (also lines 926-934) |
| Store.AllChainsPerUser | api/database.js:826-838 | per user, what `getChains` gives for that user's rows, and a user only when some row is theirs |
| Store.GetChains | api/database.js:792-816 | the loop builds exactly `ChainsOf` of the user's rows |
| Store.ChainsOf | api/database.js:801-810 | the object `getChains` builds; which keys it holds and which row each describes is stated by ChainsOfLookup |
| Store.GetAllChains | api/database.js:818-844 | the loop builds exactly `AllChainsOf` of the rows |
| Store.StandardsOfLookup | api/database.js:935-941 | a (chain, type) pair is present iff some row has it, with the last such row's ABI file |
| Store.AllStandardsPerUser | api/database.js:957-966 | per user, what `getTokenStandards` gives for that user's rows |
| Store.GetTokenStandards | api/database.js:926-947 | the loop builds exactly `StandardsOf` of the user's rows |
| Store.StandardsOf | api/database.js:935-941 | the object `getTokenStandards` builds; which pairs it holds and which ABI file each gives is stated by StandardsOfLookup |
| Store.GetAllTokenStandards | api/database.js:949-972 | the loop builds exactly `AllStandardsOf` of the rows |
| Store.UpdateChainStatement | api/database.js:846-873 | one `col = ?` per truthy field in fixed order, then `updated_at`; values are those fields, then user and chain key |
| Store.UpdateSql | api/database.js:870-877 | the statement `updateChain` prepares: the SET clauses joined by commas, the timestamp clause, and the user and chain-key condition; its placeholder count is stated by StatementPlaceholders |
| Store.PlaceholdersMatchValues | api/database.js:848-873 | the statement has exactly one placeholder per bound value |
| Store.StatementPlaceholders | api/database.js:848-873 | the built statement's placeholder count equals its value count |
| Dashboard.ReplaceByKey | frontend/src/contexts/BotContext.js:96-102 | same length; each wallet with the key becomes the payload, the others stay |
| Dashboard.SettersChangeOneField | frontend/src/contexts/BotContext.js:76-93 | each SET action sets its field to the payload and leaves every other field |
| Dashboard.SettersAreIdempotent | frontend/src/contexts/BotContext.js:76-93 | a SET action twice is the action once |
| Dashboard.UpdateMetricsMerges | frontend/src/contexts/BotContext.js:82-83 | the payload's keys win, the others survive, nothing else changes |
| Dashboard.AddWalletAppends | frontend/src/contexts/BotContext.js:94-95 | the payload is appended; the list before it is kept |
| Dashboard.UpdateWalletReplaces | frontend/src/contexts/BotContext.js:96-102 | matching wallets replaced, others kept, length and order kept; no match changes nothing |
| Dashboard.UpdateWalletIdempotent | frontend/src/contexts/BotContext.js:96-102 | updating twice with one payload is updating once |
| Dashboard.RemoveWalletFilters | frontend/src/contexts/BotContext.js:103-107 | every wallet with the key goes, the others keep their order |
| Dashboard.RemoveAfterUpdate | frontend/src/contexts/BotContext.js:96-107 | removing a key after updating it is removing it |
| Dashboard.RemoveAfterAdd | frontend/src/contexts/BotContext.js:94-107 | adding and then removing a key is removing it |
| Dashboard.OtherIsIdentity | frontend/src/contexts/BotContext.js:108-109 | an unknown action returns the state unchanged |
| Dashboard.BotReducer | frontend/src/contexts/BotContext.js:74-112 | an unknown action keeps the state; only the wallet actions change the wallets and only UPDATE_METRICS the metrics |
| Dashboard.InitialStateEmpty | frontend/src/contexts/BotContext.js:53-72 | `initialState` shows status connecting, nothing loaded, no error or socket, zero counters and native support off |

## Left out

- Calls into Web3: provider creation, balance, gas price, pending-count and block-number reads, `balanceOf`, ABI encoding, signing, broadcast, gas estimation, and key-to-address derivation. Their results are parameters.
- Unit conversion: `toWei` is a parameter of the chain oracle, handed the configured reserve as it is stored; `fromWei` only feeds log lines.
- Floating point. The gas-price multiplier is given as floor(mult × 1000). The transaction helper's `gasPrice * 1.5` is left as the price read. The monitor's balance division, the `parseFloat` gas sums of `getStats` and the dashboard's success rate are not modelled.
- Timers, `async` and concurrency. Time is a parameter. The lock's timed delete is its own operation. `Promise.all` fan-out is modelled as sequential order. Block subscriptions and socket events are not modelled. Neither is `getNextUserRpc`'s `Math.random`.
- Persistence and transport. File reads and writes, SQL execution, JSON parse/stringify, Express routing, HTTP status plumbing, authentication and broadcasts are not modelled. Stored JSON columns are modelled as parsed values. The string '0' counters are modelled as the number 0.
- `deleteWallet`, the add-wallet and delete-wallet routes, configuration reload, and `createWallet`'s resolve value are not modelled.
- Timestamps (`addedAt`, `lastChecked`, `lastActive`, `startTime`, `lastUpdate` apart from its refresh) are not modelled.
- `updateMetricsData` (index.js:622-641): the push of `totalWallets`, `totalTokens` and `activeRpcConnections` to the server is not modelled.
- `getUserTransactionManager` is taken to exist wherever `getUserWeb3` gives a connection, since they are created together (index.js:388-394). The silent return when it is missing (index.js:688-691, 878-882) is not modelled.
- Metrics.RecordNative: `rpcErrors` is a count. The source replaces the number by an object on the first error, after which `++` yields NaN (index.js:785-797).
- Metrics.RecordNative: a chain with no `metrics.chains` entry (a user's chain missing from the global configuration) is counted into a zeroed entry. The source throws at index.js:700 after the global success counter moved, and its catch throws again at index.js:780 after the global failure counter moved, so the global counters end unbalanced and nothing is written back.
- Metrics.RecordToken: a missing `metrics.chains[chain]` or `tokenTypes[type]` entry, on which the source throws a TypeError after the global counters moved, is modelled as a zeroed entry.
- Metrics.RecordToken: `rpcErrors` is a count. The source replaces the number by an object on the first error, after which `++` yields NaN (index.js:972-984).
- Engine.NativeEvalKeepsWellCounted: holds of the model's zeroed entry; in the source a chain without a `metrics.chains` entry leaves the global counters unbalanced (see Metrics.RecordNative).
- Engine.TokenEvalKeepsWellCounted: holds of the model's zeroed entry; in the source a missing chain or token-type entry leaves the global counters unbalanced (see Metrics.RecordToken).
- Engine.RunJobsKeepsWellCounted: holds of the model's zeroed entries; in the source a missing metrics entry leaves the global counters unbalanced and ends the pass (see Metrics.RecordNative, Engine.CheckWallet).
- Engine.CheckWalletKeepsWellCounted: holds of the model's zeroed entries, as Engine.RunJobsKeepsWellCounted.
- Engine.CheckWalletsKeepsWellCounted: holds of the model's zeroed entries, as Engine.RunJobsKeepsWellCounted.
- TxManager.TransactionManager.SendTransaction: the cached nonce is a number. The source stores the decimal string of `fresh + 1` (transactionManager.js:156), which a later `updateNonce` would concatenate (`'6' + 1`). Every send re-reads the pending count, so no sent nonce is affected.
- TxManager.TransactionManager.UpdateNonce: the cached nonce is a number. After a send the source caches a string, and `updateNonce` then concatenates (`'7' + 1` is `'71'`, transactionManager.js:63-66).
- TxManager.CreateTwice: consecutive nonces are promised for the number cache. After a send the source builds `'7'` and then `'71'`.
- Registry.WalletManager.AddWallet: the defaults `name = ''`, `chains = ['ethereum']` and `baseTokenRecipient = ''` (walletManager.js:162) are not modelled; every argument is given.
- Registry.WalletManager.AddTokenToWallet: the defaults `tokenName = ''`, `chain = 'ethereum'`, `tokenType = 'erc20'` (walletManager.js:217) are not modelled; every argument is given.
- TxManager.TransactionManager.CreateTransaction: the defaults `privateKey = null`, `chain = 'ethereum'`, `tokenType = 'erc20'` (transactionManager.js:95) are not modelled; every argument is given, and a missing key is the empty string.
- Api.RemoveTokenRoute: a missing `chain` is the empty string, so a token stored with `chain: ''` is matched like one stored without a chain. JavaScript tells `''` and `undefined` apart.
- Engine.NativeAttempt: a numeric string (such as a multiplier or gas limit stored as text) and a non-empty array are read as NaN or as a throw, where JavaScript would convert them. `toWei` is a parameter, so which reserves it accepts is not modelled. Under a web3 that returns strings, `balance > minBalance` (index.js:659) compares two strings as text; the model compares the numbers. `Math.floor(v * 1000)` of a fractional value is exact, without floating-point rounding.
- Engine.NativeAttemptSends: the same readings of the configuration as under Engine.NativeAttempt.
- Engine.TokenTransfer: the multiplier is read as under Engine.NativeAttempt. The erc1155 `token.tokenId` argument of `safeTransferFrom` (index.js:868-872) is not part of the modelled transaction.
- Store.UpdateChainStatement: the currency is modelled as the JSON text the statement binds; `JSON.stringify` itself is not modelled.
- Engine.Persist: writes back the corrected tallies (`PersistNativeOutcomeKeeping`, `PersistTokenOutcomeKeeping`). The source stores only the fields of the latest outcome (index.js:719-727, 909-916); that is `Metrics.PersistNativeOutcome` and `Metrics.PersistTokenOutcome`, compared in the Findings rows.
- Engine.TokenEvalLocked: its outcome is written back by the corrected Engine.Persist.
- Engine.NativeEval: its outcome is written back by the corrected Engine.Persist.
- Engine.TokenEval: its outcome is written back by the corrected Engine.Persist.
- Engine.RunJob: built on NativeEval and TokenEval, so on the corrected write-back.
- Engine.RunJobs: built on the corrected write-back, as Engine.RunJob.
- Engine.RunJobs: runs every job, where the source stops the pass at the first sweep that throws on a missing metrics entry (see Engine.CheckWallet).
- Engine.CheckWallet: built on the corrected write-back, as Engine.RunJob.
- Engine.CheckWallets: built on the corrected write-back, as Engine.RunJob.
- Engine.CheckWallets: each wallet's pass runs to its end; in the source a missing metrics entry ends that wallet's pass early (see Engine.CheckWallet).
- Bot.SweepBot.CheckAndTransferNativeBalance: runs NativeEval, so the corrected write-back.
- Bot.SweepBot.CheckAndTransferBalance: runs TokenEval, so the corrected write-back.
- Bot.SweepBot.TransferTokenBalance: stores the corrected tally, not the source's partial entry.
- Bot.SweepBot.Run: runs RunJob, so the corrected write-back.
- Bot.SweepBot.CheckWalletBalances: runs CheckWallet, so the corrected write-back.
- Bot.SweepBot.CheckWalletBalances: the pass is not cut short by a missing metrics entry (see Engine.CheckWallet).
- Bot.SweepBot.Tick: runs CheckWallets, so the corrected write-back.
- Bot.SweepBot.Tick: a wallet's pass is not cut short by a missing metrics entry (see Engine.CheckWallet).
- Bot.SweepBot.StartMetrics: runs the corrected start-up `Metrics.StartupMetrics`. As written, start-up is `Metrics.StartupMetricsAsWritten`, which zeroes the loaded totals (index.js:584, 1147-1152).
- BlockMonitor.Decide: sends `balance - gasCost`, as the code evidently intends. As written, under a web3 that returns strings, `balance - gasCost` mixes a string with a BigInt and throws (baseTokenMonitor.js:173), which is `DecideAsWritten`; under one that returns BigInts, `gasPrice * 1.5` throws earlier (baseTokenMonitor.js:167). No version of web3 is pinned.
- BlockMonitor.Decide: the web3 value types differ by member. `Fresh`, `ReadGasPrice` and `TxManager.TransactionManager.PriceFresh` take the gas price as a number, so a cached price of 0 is stale, as a BigInt `0n` is falsy. Under a web3 that returns strings, a cached `"0"` is truthy and would be served. `DecideAsWritten` takes the balance as a string.
- BlockMonitor.CacheDuration: kept in thousandths of a millisecond, with a fraction floored there and without floating-point rounding. A numeric string is read as NaN, where `<` would convert it, so such a duration never serves the cache.
- BlockMonitor.MultiplierMilli: floor(mult × 1000), as under SweepMath.IncreasedGasPrice. A numeric string is read as NaN, where `*` would convert it. `gasPrice * mult` is exact, without floating-point rounding.
- BlockMonitor.Check: the corrected check skips a chain without a connection. As written it counts a failure and throws, which is `CheckAsWritten`.
- BlockMonitor.CheckCounts: stated for the corrected Check; as written, an unconnected chain moves the global failures alone (`AsWrittenUnbalances`).
- BlockMonitor.CheckChains: built on the corrected Check and Decide.
- BlockMonitor.CheckWallets: built on the corrected Check and Decide.
- BlockMonitor.OnBlock: built on the corrected Check and Decide.
- BlockMonitor.BaseTokenMonitor.CheckAndTransferBalance: runs the corrected Check and Decide.
- BlockMonitor.BaseTokenMonitor.CheckWalletBalances: runs the corrected Check and Decide.
- BlockMonitor.BaseTokenMonitor.OnNewBlock: runs the corrected Check and Decide.
- TxManager.TransactionManager.CreateTransaction: the call data is not modelled. The source always encodes and estimates `contract.methods.transfer(recipient, amount)` (transactionManager.js:116, 120), whatever the token type, so an erc721 or erc1155 ABI without `transfer` would throw there; the ABI files are not part of this model.
- TxManager.TransactionManager.CreateTransaction: the `ABI not found` branch (transactionManager.js:85-87) cannot be reached, because every ABI file the type map names is in the table, so it is not modelled.
- Engine.CheckWallet: the `try`/`catch` around the whole wallet pass (index.js:1121-1123) is modelled only for the configuration read. A sweep's own catch throws again when a metrics entry is missing: a chain without `metrics.chains[chain]` (index.js:777-780), or a token whose chain or `tokenTypes[type]` entry is missing (index.js:964-966). That second throw ends the wallet's pass, so its later chains and tokens and its `lastChecked` are skipped. Such an entry can be missing because the global configuration is the first user's (index.js:40). The model counts into a zeroed entry and runs the remaining jobs.
- React components, `isTokenExpired` (it depends on `atob` and the wall clock), the command-line wallet manager, and `api/auth.js`/`api/authRoutes.js` are not part of this model.
- The initial `chains` and `stats` values of the dashboard hold no data, so they are modelled as empty.
- Documentation versus code: the documentation says a failing endpoint increments a chain error counter. The endpoint loop does not, and the model follows the code.
- Documentation versus code: the documentation lists six Boolean flag columns for `getUserConfig`. The code converts five (`nativeTokenSupport`, `enableMempoolMonitoring`, `enableWebSocket`, `enableLogging`, `enableMetrics`), and the model follows the code.

## Findings

| source | as written | input that shows it | evidently intended | confidence | as-written member | corrected member |
|---|---|---|---|---|---|---|
| index.js:1147-1152 | `startBot` calls `loadMetricsFromDatabase` and then `initializeChainMetrics`, which calls `resetBotMetrics` again | any configuration with chains and a stored wallet with `transactions: 1`: the bot starts with every total at 0 | start-up keeps the totals rebuilt from the stored wallets and only adds missing chain entries | not executed | Metrics.StartupDiscardsStoredTotals | Metrics.StartupKeepsStoredTotals |
| index.js:909-916, 941-947 | the token sweep's write-back replaces the stored `chainStats[chain]` entry by only the fields of this outcome | a stored entry `{transactions: 2, successfulTransactions: 1, failedTransactions: 1}` and a revert: it becomes `{transactions: 3, failedTransactions: 2}`, so the earlier success and its gas are lost | each counter of the entry is kept and the outcome's counters are added | not executed | Metrics.PersistTokenOutcomeLosesCounts | Metrics.PersistTokenOutcomeKeeping |
| index.js:719-727, 753-759 | the native sweep's write-back replaces `nativeTokenStats[chain]` likewise; after a revert it keeps no success count, gas or value | a stored native entry with one success and a later revert: the success, its gas and the value sent are lost | each field of the entry is kept and the outcome's counters are added | not executed | Metrics.PersistNativeOutcomeLosesCounts | Metrics.PersistNativeOutcomeKeeping |
| baseTokenMonitor.js:162, 203-209 | a chain in `wallet.chains` that the monitor has no connection for makes `web3Instances[chain][0]` throw; the catch counts a global failure, then throws on `chainMetrics[chain]` before counting the transaction | an active wallet with a recipient listing a chain absent from the monitor's configuration | such a chain is not checked, and every counted failure is one counted transaction | not executed | BlockMonitor.AsWrittenUnbalances | BlockMonitor.CheckKeepsBalanced |
| baseTokenMonitor.js:172-173 | `balance` from `getBalance` is a string, and `balance - gasCost` subtracts a BigInt from it, which throws; with a web3 that returns BigInts, `gasPrice * 1.5` at line 167 throws first | a wallet with a recipient and a balance of 1 ether, gas price 20 gwei: `checkAndTransferBalance` throws and counts a failed transaction, and nothing is sent | a funded wallet's balance minus the gas cost is sent to the recipient | not executed | BlockMonitor.AsWrittenNeverSweeps | BlockMonitor.DecideSendsWhenFunded |
