/** The sweeper's module-level state as an object: the lock map, the metrics
    object, the per-user connections and the stored wallet records the sweeps
    write back to. Each operation is proved to leave the state the matching
    function of `Engine` or `Metrics` describes. */
module Bot {
  import opened Common
  import opened Records
  import opened SweepMath
  import opened Metrics
  import opened Connections
  import opened Engine

  /** A user's connections once their chains are set up: a chain with no
      endpoint gets no entry, any other the connection its loop keeps (none
      when no endpoint answers). */
  function UserConnections(chains: map<string, ChainDescriptor>, reachable: string -> bool): map<string, seq<string>> {
    map c | c in chains && EndpointList(chains[c]) != [] :: ChainConnections(EndpointList(chains[c]), reachable)
  }

  /** The user loop of `initializeUserWeb3Instances`: each user's connections
      are rebuilt in turn; a failing read of a user's chains ends the loop. */
  function ConnectUsers(instances: map<nat, map<string, seq<string>>>, users: seq<nat>,
                        chainsOf: nat -> Result<map<string, ChainDescriptor>>,
                        reachable: string -> bool): map<nat, map<string, seq<string>>>
    decreases |users|
  {
    if users == [] then instances
    else match chainsOf(users[0])
      case Err => instances
      case Ok(chains) => ConnectUsers(instances[users[0] := UserConnections(chains, reachable)], users[1..], chainsOf, reachable)
  }

  /** After a user's chains are set up, `getUserWeb3` gives the first
      answering endpoint of each of them, and nothing for other chains. */
  lemma UserWeb3AfterSetup(instances: map<nat, map<string, seq<string>>>, user: nat,
                           chains: map<string, ChainDescriptor>, reachable: string -> bool, chain: string)
    ensures var got := GetUserWeb3(instances[user := UserConnections(chains, reachable)], Some(user), chain);
      got == (if chain in chains then FirstReachable(EndpointList(chains[chain]), reachable) else None)
  {
    var conns := UserConnections(chains, reachable);
    if chain in chains && EndpointList(chains[chain]) != [] {
      assert conns[chain] == ChainConnections(EndpointList(chains[chain]), reachable);
    } else if chain in chains {
      assert FirstReachable(EndpointList(chains[chain]), reachable).None?;
    }
  }

  lemma RunJobsSnoc(s: SweepState, env: Env, w: Wallet, merged: Config, jobs: seq<Job>, job: Job)
    ensures RunJobs(s, env, w, merged, jobs + [job]) == RunJob(RunJobs(s, env, w, merged, jobs), env, w, merged, job)
  {
    assert (jobs + [job])[..|jobs|] == jobs;
  }

  lemma CheckWalletUnfold(s: SweepState, env: Env, w: Wallet, user: Option<Config>)
    requires env.oracle.userConfig(w.userId) == Ok(user)
    requires !w.isPaused
    ensures CheckWallet(s, env, w)
            == RunJobs(s, env, w, MergedConfig(env.config, user), ChainsJobs(w, w.chains, MergedConfig(env.config, user), env.chainsConfig))
  {
  }

  lemma FreshChainsStep(chains: seq<string>, i: nat, standards: map<string, map<string, string>>)
    requires i < |chains|
    ensures (map c | c in chains[..i + 1] :: FreshChain(StandardTypes(standards, c)))
            == (map c | c in chains[..i] :: FreshChain(StandardTypes(standards, c)))[chains[i] := FreshChain(StandardTypes(standards, chains[i]))]
  {
    assert chains[..i + 1] == chains[..i] + [chains[i]];
  }

  class SweepBot {
    var locks: map<string, int>
    var metrics: BotMetrics
    var stored: seq<Wallet>
    var instances: map<nat, map<string, seq<string>>>

    /** The state before start-up: no locks, no connections, empty metrics. */
    constructor (now: int, stored: seq<Wallet>)
      ensures locks == map[] && metrics == ResetBotMetrics(now)
      ensures this.stored == stored && instances == map[]
    {
      locks := map[];
      metrics := ResetBotMetrics(now);
      this.stored := stored;
      instances := map[];
    }

    function State(): SweepState
      reads this
    {
      SweepState(locks, metrics, stored)
    }

    // ---- The lock ----

    /** `isTransactionLocked`: whether the key is present; the expiry stored
        with it is not looked at. */
    method IsTransactionLocked(walletAddress: string, tokenAddress: string, chain: string) returns (locked: bool)
      ensures locked <==> LockKey(walletAddress, tokenAddress, chain) in locks
    {
      locked := LockKey(walletAddress, tokenAddress, chain) in locks;
    }

    /** `setTransactionLock`: the key now expires `duration` ms from now. */
    method SetTransactionLock(walletAddress: string, tokenAddress: string, chain: string, now: int, duration: nat)
      modifies this
      ensures locks == old(locks)[LockKey(walletAddress, tokenAddress, chain) := now + duration]
      ensures metrics == old(metrics) && stored == old(stored) && instances == old(instances)
    {
      locks := locks[LockKey(walletAddress, tokenAddress, chain) := now + duration];
    }

    /** The timed delete `setTransactionLock` schedules. */
    method ExpireTransactionLock(key: string)
      modifies this
      ensures locks == old(locks) - {key}
      ensures key !in locks
      ensures metrics == old(metrics) && stored == old(stored) && instances == old(instances)
    {
      locks := locks - {key};
    }

    /** `clearTransactionLocks`. */
    method ClearTransactionLocks()
      modifies this
      ensures locks == map[]
      ensures metrics == old(metrics) && stored == old(stored) && instances == old(instances)
    {
      locks := map[];
    }

    // ---- The two sweeps ----

    /** `checkAndTransferNativeBalance` through this bot's connections. */
    method CheckAndTransferNativeBalance(w: Wallet, chain: string, merged: Config, env: Env)
      requires env.instances == instances
      modifies this
      ensures State() == NativeEval(old(State()), env, w, chain, merged)
      ensures instances == old(instances)
    {
      if !ConfigFlag(merged, "nativeTokenSupport") {
        return;
      }
      var web3 := GetUserWeb3(instances, w.userId, chain);
      if web3.None? {
        return;
      }
      var balance := env.oracle.nativeBalance(w.address, chain);
      var minBalance := env.oracle.toWei(Field(merged, "nativeTokenMinBalance"));
      if balance.Err? || minBalance.Err? {
        assert NativeAttempt(env, w, chain, merged) == Some(Errored);
        metrics := RecordNative(metrics, chain, Errored);
        return;
      }
      if balance.value <= minBalance.value {
        assert NativeAttempt(env, w, chain, merged) == None;
        return;
      }
      var transferAmount := balance.value - minBalance.value;
      var gasPrice := GasPriceFor(env, chain);
      var multiplier := ConfigMilli(merged, "gasPriceMultiplier");
      var gasLimit := ConfigBigInt(merged, "nativeTokenGasLimit");
      if multiplier.None? || gasLimit.None? {
        assert NativeAttempt(env, w, chain, merged) == Some(Errored);
        metrics := RecordNative(metrics, chain, Errored);
        return;
      }
      var gasCost := IncreasedGasPrice(gasPrice, multiplier.value) * gasLimit.value;
      ghost var value := NativeTransferValue(balance.value, minBalance.value, gasPrice, multiplier.value, gasLimit.value);
      if transferAmount > gasCost {
        assert value == Some(transferAmount - gasCost);
        var tx := NativeSend(w.address, w.baseTokenRecipient, transferAmount - gasCost, gasLimit.value,
                             IncreasedGasPrice(gasPrice, multiplier.value));
        var a := AttemptOf(env.oracle.send(chain, tx), transferAmount - gasCost);
        assert NativeAttempt(env, w, chain, merged) == Some(a);
        metrics := RecordNative(metrics, chain, a);
        stored := Persist(stored, w, NativeJob(chain), a);
      } else {
        assert value == None;
        assert NativeAttempt(env, w, chain, merged) == None;
      }
    }

    /** `checkAndTransferBalance` through this bot's connections. */
    method CheckAndTransferBalance(w: Wallet, t: Token, merged: Config, env: Env)
      requires env.instances == instances
      modifies this
      ensures State() == TokenEval(old(State()), env, w, t, merged)
      ensures instances == old(instances)
    {
      ghost var s0 := State();
      var locked := IsTransactionLocked(w.address, t.tokenAddress, t.chain);
      ghost var step := TokenStep(locks, env, w, t, merged);
      if locked {
        assert step == TokenOutcome(false, None);
        TokenEvalIdle(s0, env, w, t, merged);
        return;
      }
      var web3 := GetUserWeb3(instances, w.userId, t.chain);
      if web3.None? {
        assert step == TokenOutcome(false, None);
        TokenEvalIdle(s0, env, w, t, merged);
        return;
      }
      var userStandards := env.oracle.userStandards(w.userId);
      if userStandards.Err? {
        assert step == TokenOutcome(false, Some(Errored));
        TokenEvalFailed(s0, env, w, t, merged);
        metrics := RecordToken(metrics, t.chain, t.tokenType, Errored);
        return;
      }
      var standard := StandardFor(userStandards.value, env.tokenStandards, t.chain, t.tokenType);
      if standard.None? || standard.value !in AbiFiles {
        assert step == TokenOutcome(false, None);
        TokenEvalIdle(s0, env, w, t, merged);
        return;
      }
      var balance := env.oracle.tokenBalance(w.address, t);
      if balance.Err? {
        assert step == TokenOutcome(false, Some(Errored));
        TokenEvalFailed(s0, env, w, t, merged);
        metrics := RecordToken(metrics, t.chain, t.tokenType, Errored);
        return;
      }
      if balance.value == 0 {
        assert step == TokenOutcome(false, None);
        TokenEvalIdle(s0, env, w, t, merged);
        return;
      }
      assert step == TokenOutcome(true, TokenTransfer(env, w, t, merged, balance.value));
      TokenEvalLocked(s0, env, w, t, merged, balance.value);
      TransferTokenBalance(w, t, merged, env, balance.value);
    }

    /** The rest of `checkAndTransferBalance` after a positive balance: take
        the lock, then build and send the transfer of the whole balance. */
    method TransferTokenBalance(w: Wallet, t: Token, merged: Config, env: Env, balance: nat)
      modifies this
      ensures locks == old(locks)[LockKey(w.address, t.tokenAddress, t.chain) := env.now + DefaultLockDuration]
      ensures TokenTransfer(env, w, t, merged, balance).Some? ==>
        && metrics == RecordToken(old(metrics), t.chain, t.tokenType, TokenTransfer(env, w, t, merged, balance).value)
        && stored == Persist(old(stored), w, TokenJob(t), TokenTransfer(env, w, t, merged, balance).value)
      ensures TokenTransfer(env, w, t, merged, balance).None? ==> metrics == old(metrics) && stored == old(stored)
      ensures instances == old(instances)
    {
      SetTransactionLock(w.address, t.tokenAddress, t.chain, env.now, DefaultLockDuration);
      var multiplier := ConfigMilli(merged, "gasPriceMultiplier");
      if multiplier.None? {
        assert TokenTransfer(env, w, t, merged, balance) == Some(Errored);
        assert stored == Persist(old(stored), w, TokenJob(t), Errored);
        metrics := RecordToken(metrics, t.chain, t.tokenType, Errored);
        return;
      }
      var call := TokenDispatch(t.tokenType);
      if call.None? {
        assert TokenTransfer(env, w, t, merged, balance) == None;
        return;
      }
      var a := AttemptOf(env.oracle.send(t.chain, TokenTxFor(env, w, t, call.value, multiplier.value, balance)), balance);
      assert TokenTransfer(env, w, t, merged, balance) == Some(a);
      metrics := RecordToken(metrics, t.chain, t.tokenType, a);
      stored := Persist(stored, w, TokenJob(t), a);
    }

    /** One job of a wallet. */
    method Run(w: Wallet, merged: Config, env: Env, job: Job)
      requires env.instances == instances
      modifies this
      ensures State() == RunJob(old(State()), env, w, merged, job)
      ensures instances == old(instances)
    {
      match job {
        case NativeJob(chain) => CheckAndTransferNativeBalance(w, chain, merged, env);
        case TokenJob(t) => CheckAndTransferBalance(w, t, merged, env);
      }
    }

    // ---- A polling pass ----

    /** `checkWalletBalances`: skip a paused wallet; otherwise, per listed
        chain that the merged configuration lists and that is known, the
        native sweep and then each of the wallet's tokens on that chain. */
    method CheckWalletBalances(w: Wallet, env: Env)
      requires env.instances == instances
      modifies this
      ensures State() == CheckWallet(old(State()), env, w)
      ensures instances == old(instances)
    {
      if w.isPaused {
        return;
      }
      var userConfig := env.oracle.userConfig(w.userId);
      if userConfig.Err? {
        return;
      }
      var merged := MergedConfig(env.config, userConfig.value);
      ghost var s0 := State();
      var i := 0;
      while i < |w.chains|
        invariant 0 <= i <= |w.chains|
        invariant instances == old(instances)
        invariant State() == RunJobs(s0, env, w, merged, ChainsJobs(w, w.chains[..i], merged, env.chainsConfig))
        decreases |w.chains| - i
      {
        ChainsJobsStep(w, w.chains, i, merged, env.chainsConfig);
        CheckChain(w, w.chains[i], merged, env, s0, ChainsJobs(w, w.chains[..i], merged, env.chainsConfig));
        i := i + 1;
      }
      assert w.chains[..i] == w.chains;
      CheckWalletUnfold(s0, env, w, userConfig.value);
    }

    /** The body of `checkWalletBalances`' chain loop: skip a chain the
        merged configuration does not list or that is not known; otherwise
        the native sweep, then the chain's tokens. */
    method CheckChain(w: Wallet, chain: string, merged: Config, env: Env,
                      ghost s0: SweepState, ghost prefix: seq<Job>)
      requires env.instances == instances
      requires State() == RunJobs(s0, env, w, merged, prefix)
      modifies this
      ensures State() == RunJobs(s0, env, w, merged, prefix + ChainJobs(w, chain, merged, env.chainsConfig))
      ensures instances == old(instances)
    {
      if !(chain in ConfigChains(merged) && chain in env.chainsConfig) {
        assert prefix + ChainJobs(w, chain, merged, env.chainsConfig) == prefix;
        return;
      }
      var listNative := ConfigFlag(merged, "nativeTokenSupport");
      ghost var native: seq<Job> := if listNative then [NativeJob(chain)] else [];
      ghost var tokens := TokenJobsOn(w.tokens, chain);
      assert ChainJobs(w, chain, merged, env.chainsConfig) == native + tokens;
      assert prefix + native + tokens == prefix + (native + tokens);
      CheckNativeOnChain(w, chain, merged, env, s0, prefix, listNative);
      CheckTokensOnChain(w, chain, merged, env, s0, prefix + native);
    }

    /** The native sweep of a listed chain, when native support is on. */
    method CheckNativeOnChain(w: Wallet, chain: string, merged: Config, env: Env,
                              ghost s0: SweepState, ghost prefix: seq<Job>, listNative: bool)
      requires env.instances == instances
      requires State() == RunJobs(s0, env, w, merged, prefix)
      modifies this
      ensures State() == RunJobs(s0, env, w, merged, prefix + if listNative then [NativeJob(chain)] else [])
      ensures instances == old(instances)
    {
      if listNative {
        CheckAndTransferNativeBalance(w, chain, merged, env);
        RunJobsSnoc(s0, env, w, merged, prefix, NativeJob(chain));
      } else {
        assert prefix + [] == prefix;
      }
    }

    /** The token loop of `checkWalletBalances` for one chain: each of the
        wallet's tokens on `chain`, in list order, after the jobs `prefix`. */
    method CheckTokensOnChain(w: Wallet, chain: string, merged: Config, env: Env,
                              ghost s0: SweepState, ghost prefix: seq<Job>)
      requires env.instances == instances
      requires State() == RunJobs(s0, env, w, merged, prefix)
      modifies this
      ensures State() == RunJobs(s0, env, w, merged, prefix + TokenJobsOn(w.tokens, chain))
      ensures instances == old(instances)
    {
      var j := 0;
      assert w.tokens[..0] == [];
      assert prefix + TokenJobsOn(w.tokens[..0], chain) == prefix;
      while j < |w.tokens|
        invariant 0 <= j <= |w.tokens|
        invariant instances == old(instances)
        invariant State() == RunJobs(s0, env, w, merged, prefix + TokenJobsOn(w.tokens[..j], chain))
        decreases |w.tokens| - j
      {
        TokenJobsOnStep(w.tokens, chain, j);
        CheckTokenOnChain(w, w.tokens[j], chain, merged, env, s0, prefix, TokenJobsOn(w.tokens[..j], chain));
        j := j + 1;
      }
      assert w.tokens[..j] == w.tokens;
    }

    /** The body of the token loop: one token, swept only when it is on the
        chain. */
    method CheckTokenOnChain(w: Wallet, t: Token, chain: string, merged: Config, env: Env,
                             ghost s0: SweepState, ghost prefix: seq<Job>, ghost done: seq<Job>)
      requires env.instances == instances
      requires State() == RunJobs(s0, env, w, merged, prefix + done)
      modifies this
      ensures State() == RunJobs(s0, env, w, merged, prefix + (done + if t.chain == chain then [TokenJob(t)] else []))
      ensures instances == old(instances)
    {
      ghost var before := prefix + done;
      if t.chain == chain {
        assert prefix + (done + [TokenJob(t)]) == before + [TokenJob(t)];
        CheckAndTransferBalance(w, t, merged, env);
        RunJobsSnoc(s0, env, w, merged, before, TokenJob(t));
      } else {
        assert prefix + (done + []) == before;
      }
    }

    /** One tick of the monitoring loop: every wallet in order, then all
        locks cleared. */
    method Tick(ws: seq<Wallet>, env: Env)
      requires env.instances == instances
      modifies this
      ensures State() == CheckWallets(old(State()), env, ws).(locks := map[])
      ensures locks == map[]
      ensures instances == old(instances)
    {
      ghost var s0 := State();
      var i := 0;
      while i < |ws|
        invariant 0 <= i <= |ws|
        invariant instances == old(instances)
        invariant State() == CheckWallets(s0, env, ws[..i])
        decreases |ws| - i
      {
        assert ws[..i + 1][..i] == ws[..i];
        CheckWalletBalances(ws[i], env);
        i := i + 1;
      }
      assert ws[..i] == ws;
      ClearTransactionLocks();
    }

    // ---- Start-up ----

    /** The endpoint loop of `initializeUserWeb3Instances` for one user. */
    method ConnectUser(user: nat, chains: map<string, ChainDescriptor>, reachable: string -> bool)
      modifies this
      ensures instances == old(instances)[user := UserConnections(chains, reachable)]
      ensures locks == old(locks) && metrics == old(metrics) && stored == old(stored)
    {
      var conns: map<string, seq<string>> := map[];
      var todo := chains.Keys;
      while todo != {}
        invariant todo <= chains.Keys
        invariant instances == old(instances) && locks == old(locks) && metrics == old(metrics) && stored == old(stored)
        invariant forall c :: c in conns <==> c in chains && c !in todo && EndpointList(chains[c]) != []
        invariant forall c :: c in conns ==> conns[c] == ChainConnections(EndpointList(chains[c]), reachable)
        decreases todo
      {
        var c :| c in todo;
        var urls := EndpointList(chains[c]);
        if urls != [] {
          var got := ConnectChain(urls, reachable);
          conns := conns[c := got];
        }
        todo := todo - {c};
      }
      assert conns == UserConnections(chains, reachable);
      instances := instances[user := conns];
    }

    /** `initializeUserWeb3Instances`: the user list, then each user's chains
        in turn; a failing read stops the setup where it is. */
    method InitializeUserWeb3Instances(users: Result<seq<nat>>,
                                       chainsOf: nat -> Result<map<string, ChainDescriptor>>,
                                       reachable: string -> bool)
      modifies this
      ensures users.Err? ==> instances == old(instances)
      ensures users.Ok? ==> instances == ConnectUsers(old(instances), users.value, chainsOf, reachable)
      ensures locks == old(locks) && metrics == old(metrics) && stored == old(stored)
    {
      if users.Err? {
        return;
      }
      var us := users.value;
      var i := 0;
      while i < |us|
        invariant 0 <= i <= |us|
        invariant ConnectUsers(old(instances), us, chainsOf, reachable) == ConnectUsers(instances, us[i..], chainsOf, reachable)
        invariant locks == old(locks) && metrics == old(metrics) && stored == old(stored)
        decreases |us| - i
      {
        assert us[i..][1..] == us[i + 1..];
        var chains := chainsOf(us[i]);
        if chains.Err? {
          return;
        }
        ConnectUser(us[i], chains.value, reachable);
        i := i + 1;
      }
    }

    /** `loadMetricsFromDatabase`: when the stored wallets can be read, the
        metrics are reset and rebuilt from their counters; otherwise nothing
        changes. */
    method LoadMetricsFromDatabase(wallets: Result<seq<Wallet>>, now: int)
      modifies this
      ensures wallets.Err? ==> metrics == old(metrics)
      ensures wallets.Ok? ==> metrics == RebuiltMetrics(wallets.value, now)
      ensures locks == old(locks) && stored == old(stored) && instances == old(instances)
    {
      if wallets.Err? {
        return;
      }
      var ws := wallets.value;
      metrics := ResetBotMetrics(now);
      var totalTransactions, totalSuccessful, totalFailed, totalGasUsed := 0, 0, 0, 0;
      var i := 0;
      while i < |ws|
        invariant 0 <= i <= |ws|
        invariant totalTransactions == SumOf(WalletTransactions, ws[..i])
        invariant totalSuccessful == SumOf(WalletSuccessful, ws[..i])
        invariant totalFailed == SumOf(WalletFailed, ws[..i])
        invariant totalGasUsed == SumOf(WalletGas, ws[..i])
        invariant metrics == ResetBotMetrics(now).(chains := RebuildChains(ws[..i]))
        invariant locks == old(locks) && stored == old(stored) && instances == old(instances)
        decreases |ws| - i
      {
        var w := ws[i];
        assert ws[..i + 1][..i] == ws[..i];
        totalTransactions := totalTransactions + Count(w.transactions);
        totalSuccessful := totalSuccessful + Count(w.successfulTransactions);
        totalFailed := totalFailed + Count(w.failedTransactions);
        totalGasUsed := totalGasUsed + Count(w.gasUsed);
        var chains := AddChainStatsLoop(metrics.chains, w.chainStats);
        chains := AddNativeStatsLoop(chains, w.nativeTokenStats);
        metrics := metrics.(chains := chains);
        i := i + 1;
      }
      assert ws[..i] == ws;
      metrics := metrics.(totalTransactions := totalTransactions, successfulTransactions := totalSuccessful,
                          failedTransactions := totalFailed, totalGasUsed := totalGasUsed);
    }

    /** `initializeChainMetrics` as the source writes it. */
    method InitializeChainMetrics(config: Option<Config>, standards: map<string, map<string, string>>, now: int)
      modifies this
      ensures metrics == Metrics.InitializeChainMetrics(old(metrics), config, standards, now)
      ensures locks == old(locks) && stored == old(stored) && instances == old(instances)
    {
      if !HasChains(config) {
        return;
      }
      metrics := ResetBotMetrics(now);
      var chains := ConfigChains(config.value);
      var i := 0;
      while i < |chains|
        invariant 0 <= i <= |chains|
        invariant metrics == ResetBotMetrics(now).(chains := map c | c in chains[..i] :: FreshChain(StandardTypes(standards, c)))
        invariant locks == old(locks) && stored == old(stored) && instances == old(instances)
        decreases |chains| - i
      {
        var types := ZeroTokenTypes(StandardTypes(standards, chains[i]));
        FreshChainsStep(chains, i, standards);
        metrics := metrics.(chains := metrics.chains[chains[i] := ChainMetrics(ZeroCounters, 0, 0, 0, ZeroCounters, 0, types)]);
        i := i + 1;
      }
      assert chains[..i] == chains;
    }

    /** The start-up sequence with the corrected chain initialisation: the
        rebuilt totals survive and every configured chain gets an entry. */
    method StartMetrics(wallets: Result<seq<Wallet>>, config: Option<Config>,
                        standards: map<string, map<string, string>>, now: int)
      modifies this
      ensures wallets.Ok? ==> metrics == StartupMetrics(wallets.value, config, standards, now)
      ensures wallets.Err? ==> metrics == InitializeMissingChainMetrics(old(metrics), config, standards)
      ensures locks == old(locks) && stored == old(stored) && instances == old(instances)
    {
      LoadMetricsFromDatabase(wallets, now);
      metrics := InitializeMissingChainMetrics(metrics, config, standards);
    }
  }

  /** The inner loop over one wallet's `chainStats` entries. */
  method AddChainStatsLoop(start: map<string, ChainMetrics>, stats: map<string, ChainStat>)
    returns (chains: map<string, ChainMetrics>)
    ensures chains == AddChainStats(start, stats)
  {
    chains := start;
    var todo := stats.Keys;
    while todo != {}
      invariant todo <= stats.Keys
      invariant forall c :: c in chains <==> c in start || (c in stats && c !in todo)
      invariant forall c :: c in chains && c in stats && c !in todo ==>
                  chains[c] == ChainOf(start, c).(counters := Plus(ChainOf(start, c).counters, StatCounters(stats[c])))
      invariant forall c :: c in chains && (c !in stats || c in todo) ==> chains[c] == start[c]
      decreases todo
    {
      var c :| c in todo;
      var entry := ChainOf(chains, c);
      assert entry == ChainOf(start, c);
      chains := chains[c := entry.(counters := Plus(entry.counters, StatCounters(stats[c])))];
      todo := todo - {c};
    }
  }

  /** The inner loop over one wallet's `nativeTokenStats` entries: a chain
      without an entry is skipped. */
  method AddNativeStatsLoop(start: map<string, ChainMetrics>, stats: map<string, NativeStat>)
    returns (chains: map<string, ChainMetrics>)
    ensures chains == AddNativeStats(start, stats)
  {
    chains := start;
    var todo := stats.Keys;
    while todo != {}
      invariant todo <= stats.Keys
      invariant chains.Keys == start.Keys
      invariant forall c :: c in chains && c in stats && c !in todo ==>
                  chains[c] == start[c].(nativeToken := Plus(start[c].nativeToken, NativeCounters(stats[c])),
                                         nativeTransferred := start[c].nativeTransferred + Count(stats[c].totalTransferred))
      invariant forall c :: c in chains && (c !in stats || c in todo) ==> chains[c] == start[c]
      decreases todo
    {
      var c :| c in todo;
      if c in chains {
        var entry := chains[c];
        chains := chains[c := entry.(nativeToken := Plus(entry.nativeToken, NativeCounters(stats[c])),
                                     nativeTransferred := entry.nativeTransferred + Count(stats[c].totalTransferred))];
      }
      todo := todo - {c};
    }
  }

  /** The inner loop of `initializeChainMetrics`: one zero tally per type. */
  method ZeroTokenTypes(types: set<string>) returns (tokenTypes: map<string, Counters>)
    ensures tokenTypes == map t | t in types :: ZeroCounters
  {
    tokenTypes := map[];
    var todo := types;
    while todo != {}
      invariant todo <= types
      invariant forall t :: t in tokenTypes <==> t in types && t !in todo
      invariant forall t :: t in tokenTypes ==> tokenTypes[t] == ZeroCounters
      decreases todo
    {
      var t :| t in todo;
      tokenTypes := tokenTypes[t := ZeroCounters];
      todo := todo - {t};
    }
  }
}
