/** The bot's polling engine: per wallet, the chains and tokens it looks at,
    the native sweep and the token sweep of one asset, the duplicate-transfer
    lock, the metrics these update, and what they write back to the stored
    wallet records. Everything the chain answers (balances, gas price, the
    receipt of a sent transaction) and every database read is an input. */
module Engine {
  import opened Common
  import opened Records
  import opened SweepMath
  import opened Metrics
  import opened Connections

  // ---- Configuration ----

  /** `{...global, ...user}`; a user without a configuration row reads as null
      and spreads nothing. */
  function MergedConfig(global: Config, user: Option<Config>): (r: Config)
    ensures forall k :: k in r <==> k in global || (user.Some? && k in user.value)
    ensures forall k :: user.Some? && k in user.value ==> r[k] == user.value[k]
    ensures forall k :: k in global && (user.None? || k !in user.value) ==> r[k] == global[k]
  {
    if user.Some? then global + user.value else global
  }

  /** A truthy configuration field. */
  predicate ConfigFlag(cfg: Config, key: string) {
    key in cfg && Truthy(cfg[key])
  }

  /** `BigInt(cfg[key])`; `None` when the conversion throws. */
  function ConfigBigInt(cfg: Config, key: string): Option<int> {
    BigIntOf(Field(cfg, key))
  }

  /** `BigInt(Math.floor(cfg[key] * 1000))`; `None` when the product is NaN,
      on which the conversion throws. */
  function ConfigMilli(cfg: Config, key: string): Option<int> {
    MilliOf(Field(cfg, key))
  }

  /** Keys of the ABI table a token standard must name. */
  const AbiFiles: set<string> := {"erc20.json", "bep20.json", "erc721.json", "bep721.json", "erc1155.json"}

  type Standards = map<string, map<string, string>>

  /** `standards[chain]?.[tokenType]`, treating "" as absent. */
  function LookupStandard(standards: Standards, chain: string, tokenType: string): Option<string> {
    if chain in standards && tokenType in standards[chain] && standards[chain][tokenType] != ""
    then Some(standards[chain][tokenType])
    else None
  }

  /** The user's standard for the token, falling back to the global one. */
  function StandardFor(user: Standards, global: Standards, chain: string, tokenType: string): (r: Option<string>)
    ensures LookupStandard(user, chain, tokenType).Some? ==> r == LookupStandard(user, chain, tokenType)
    ensures LookupStandard(user, chain, tokenType).None? ==> r == LookupStandard(global, chain, tokenType)
  {
    var mine := LookupStandard(user, chain, tokenType);
    if mine.Some? then mine else LookupStandard(global, chain, tokenType)
  }

  // ---- What the outside world answers ----

  /** One unit of work of a wallet: its native balance on a chain, or one token. */
  datatype Job = NativeJob(chain: string) | TokenJob(token: Token)

  /** The chain a job is on. */
  function JobChain(job: Job): string {
    match job
    case NativeJob(c) => c
    case TokenJob(t) => t.chain
  }

  /** The transaction a sweep signs: a native value transfer, or a call on
      the token contract moving `amount` to the token's recipient. */
  datatype SweepTx =
    | NativeSend(from: string, to: string, value: nat, gas: int, gasPrice: int)
    | TokenSend(from: string, to: string, call: TransferCall, recipient: string, amount: nat, gas: int, gasPrice: int)

  /** What `sendTransaction` gives back: a receipt, or an exception. */
  datatype SendResult = Receipt(status: bool, gasUsed: nat) | SendThrew

  /** The answers of the chain and of the database, per question.
      `networkGasPrice` is the node's gas price, `Err` when the read throws;
      `toWei` is web3's `utils.toWei(v, 'ether')`, `Err` when it throws;
      `send` broadcasts a transaction on a chain. */
  datatype Oracle = Oracle(
    toWei: Option<Value> -> Result<int>,
    nativeBalance: (string, string) -> Result<nat>,
    tokenBalance: (string, Token) -> Result<nat>,
    networkGasPrice: string -> Result<nat>,
    userStandards: Option<nat> -> Result<Standards>,
    userConfig: Option<nat> -> Result<Option<Config>>,
    send: (string, SweepTx) -> SendResult)

  /** The fixed inputs of a polling pass: the global configuration, the known
      chains, the global token standards, the open connections and the time. */
  datatype Env = Env(
    config: Config,
    chainsConfig: set<string>,
    tokenStandards: Standards,
    instances: map<nat, map<string, seq<string>>>,
    oracle: Oracle,
    now: int)

  function AttemptOf(r: SendResult, value: nat): (a: Attempt)
    ensures a.Succeeded? <==> r.Receipt? && r.status
    ensures a.Errored? <==> r.SendThrew?
    ensures a.Succeeded? ==> a.gasUsed == r.gasUsed && a.transferred == value
  {
    match r
    case Receipt(status, gas) => if status then Succeeded(gas, value) else Reverted
    case SendThrew => Errored
  }

  /** `getGasPrice(chain)`: the node's price through the first user's
      connection, or 20 gwei when there is none or the read throws. */
  function GasPriceFor(env: Env, chain: string): (p: nat)
    ensures GetUserWeb3(env.instances, Some(1), chain).None? ==> p == DefaultGasPrice
    ensures env.oracle.networkGasPrice(chain).Err? ==> p == DefaultGasPrice
    ensures GetUserWeb3(env.instances, Some(1), chain).Some? && env.oracle.networkGasPrice(chain).Ok? ==>
              p == env.oracle.networkGasPrice(chain).value
  {
    if GetUserWeb3(env.instances, Some(1), chain).None? then DefaultGasPrice
    else match env.oracle.networkGasPrice(chain)
      case Ok(p) => p
      case Err => DefaultGasPrice
  }

  // ---- State of the sweeper ----

  /** The lock map (key to expiry time), the metrics and the stored wallets. */
  datatype SweepState = SweepState(locks: map<string, int>, metrics: BotMetrics, stored: seq<Wallet>)

  /** `getWalletsByUserId(userId).find(w => w.address === address)`. */
  function FindStored(stored: seq<Wallet>, userId: Option<nat>, address: string): (r: Option<nat>)
    ensures r.Some? ==> r.value < |stored| && stored[r.value].userId == userId && stored[r.value].address == address
    ensures r.Some? ==> forall j :: 0 <= j < r.value ==> !(stored[j].userId == userId && stored[j].address == address)
    ensures r.None? ==> forall j :: 0 <= j < |stored| ==> !(stored[j].userId == userId && stored[j].address == address)
    decreases |stored|
  {
    if stored == [] then None
    else if stored[0].userId == userId && stored[0].address == address then Some(0)
    else match FindStored(stored[1..], userId, address)
      case Some(i) => Some(i + 1)
      case None => None
  }

  /** The stored record of the wallet after a receipt, with every counter of
      the chain entry kept. A thrown attempt writes nothing. */
  function Persist(stored: seq<Wallet>, w: Wallet, job: Job, a: Attempt): (r: seq<Wallet>)
    ensures |r| == |stored|
  {
    if a.Errored? then stored
    else match FindStored(stored, w.userId, w.address)
      case None => stored
      case Some(i) => stored[i := Written(stored[i], job, a)]
  }

  /** The stored record after the corrected write-back of one outcome. */
  function Written(record: Wallet, job: Job, a: Attempt): Wallet
    requires !a.Errored?
  {
    match job
    case NativeJob(chain) => PersistNativeOutcomeKeeping(record, chain, a)
    case TokenJob(t) => PersistTokenOutcomeKeeping(record, t.chain, a)
  }

  /** The write-back touches at most the first stored record of the user
      with the wallet's address, and none at all for a throw or when no
      record matches. */
  lemma PersistTouchesOnlyFound(stored: seq<Wallet>, w: Wallet, job: Job, a: Attempt)
    ensures a.Errored? || FindStored(stored, w.userId, w.address).None? ==> Persist(stored, w, job, a) == stored
    ensures forall j :: 0 <= j < |stored| && Some(j) != FindStored(stored, w.userId, w.address) ==>
              Persist(stored, w, job, a)[j] == stored[j]
  {
    var f := FindStored(stored, w.userId, w.address);
    if !a.Errored? && f.Some? {
      var r, i := Persist(stored, w, job, a), f.value;
      assert r == stored[i := Written(stored[i], job, a)];
      forall j | 0 <= j < |stored| && Some(j) != f
        ensures r[j] == stored[j]
      {
        assert j != i;
      }
    }
  }


  // ---- The two sweeps ----

  /** What `checkAndTransferNativeBalance` counts: nothing when it returns
      early or the balance does not cover the reserve and the gas budget,
      `Errored` when a read or a conversion throws, otherwise the outcome of
      sending exactly `NativeTransferValue`. */
  function NativeAttempt(env: Env, w: Wallet, chain: string, merged: Config): (r: Option<Attempt>)
    ensures !ConfigFlag(merged, "nativeTokenSupport") || GetUserWeb3(env.instances, w.userId, chain).None? ==> r.None?
    ensures ConfigFlag(merged, "nativeTokenSupport") && GetUserWeb3(env.instances, w.userId, chain).Some?
            && (env.oracle.nativeBalance(w.address, chain).Err?
                || env.oracle.toWei(Field(merged, "nativeTokenMinBalance")).Err?)
            ==> r == Some(Errored)
    ensures r.Some? && r.value.Succeeded? ==> r.value.transferred > 0
  {
    if !ConfigFlag(merged, "nativeTokenSupport") then None
    else if GetUserWeb3(env.instances, w.userId, chain).None? then None
    else
      match env.oracle.nativeBalance(w.address, chain)
      case Err => Some(Errored)
      case Ok(balance) =>
        match env.oracle.toWei(Field(merged, "nativeTokenMinBalance"))
        case Err => Some(Errored)
        case Ok(minBalance) =>
          if balance <= minBalance then None
          else
            var mult := ConfigMilli(merged, "gasPriceMultiplier");
            var limit := ConfigBigInt(merged, "nativeTokenGasLimit");
            if mult.None? || limit.None? then Some(Errored)
            else
              match NativeTransferValue(balance, minBalance, GasPriceFor(env, chain), mult.value, limit.value)
              case None => None
              case Some(value) =>
                var tx := NativeSend(w.address, w.baseTokenRecipient, value, limit.value,
                                     IncreasedGasPrice(GasPriceFor(env, chain), mult.value));
                Some(AttemptOf(env.oracle.send(chain, tx), value))
  }

  /** The native sweep of one chain: the attempt, if any, is counted and the
      stored record updated; the locks are not involved. */
  function NativeEval(s: SweepState, env: Env, w: Wallet, chain: string, merged: Config): (r: SweepState)
    ensures r.locks == s.locks && |r.stored| == |s.stored|
    ensures NativeAttempt(env, w, chain, merged).None? ==> r == s
  {
    match NativeAttempt(env, w, chain, merged)
    case None => s
    case Some(a) =>
      s.(metrics := RecordNative(s.metrics, chain, a), stored := Persist(s.stored, w, NativeJob(chain), a))
  }

  /** What `checkAndTransferBalance` does to the lock and what it counts. */
  datatype TokenOutcome = TokenOutcome(lock: bool, attempt: Option<Attempt>)

  function TokenStep(locks: map<string, int>, env: Env, w: Wallet, t: Token, merged: Config): (o: TokenOutcome)
    ensures LockKey(w.address, t.tokenAddress, t.chain) in locks ==> o == TokenOutcome(false, None)
    ensures o.attempt.Some? && !o.lock ==> o.attempt.value == Errored
  {
    if LockKey(w.address, t.tokenAddress, t.chain) in locks then TokenOutcome(false, None)
    else if GetUserWeb3(env.instances, w.userId, t.chain).None? then TokenOutcome(false, None)
    else
      match env.oracle.userStandards(w.userId)
      case Err => TokenOutcome(false, Some(Errored))
      case Ok(userStandards) =>
        match StandardFor(userStandards, env.tokenStandards, t.chain, t.tokenType)
        case None => TokenOutcome(false, None)
        case Some(standard) =>
          if standard !in AbiFiles then TokenOutcome(false, None)
          else
            match env.oracle.tokenBalance(w.address, t)
            case Err => TokenOutcome(false, Some(Errored))
            case Ok(balance) =>
              if balance == 0 then TokenOutcome(false, None)
              else TokenOutcome(true, TokenTransfer(env, w, t, merged, balance))
  }

  /** What happens once a positive balance is found and the lock is taken:
      the gas price multiplier is converted (a missing one throws), the call
      is chosen by the token type (none for an unsupported type) and sent
      with the whole balance. */
  function TokenTransfer(env: Env, w: Wallet, t: Token, merged: Config, balance: nat): (r: Option<Attempt>)
    ensures ConfigMilli(merged, "gasPriceMultiplier").None? ==> r == Some(Errored)
    ensures r.Some? && !r.value.Errored? ==> TokenDispatch(t.tokenType).Some?
    ensures r.Some? && r.value.Succeeded? ==> r.value.transferred == balance
  {
    var mult := ConfigMilli(merged, "gasPriceMultiplier");
    if mult.None? then Some(Errored)
    else match TokenDispatch(t.tokenType)
      case None => None
      case Some(c) => Some(AttemptOf(env.oracle.send(t.chain, TokenTxFor(env, w, t, c, mult.value, balance)), balance))
  }

  /** The token transfer of index.js:848-870: the contract call chosen by
      the type, moving the whole balance to the token's recipient. */
  function TokenTxFor(env: Env, w: Wallet, t: Token, c: TokenCall, multMilli: int, balance: nat): (tx: SweepTx)
    ensures tx.TokenSend? && tx.from == w.address && tx.to == t.tokenAddress
    ensures tx.recipient == t.recipientAddress && tx.amount == balance && tx.call == c.call && tx.gas == c.gas
  {
    TokenSend(w.address, t.tokenAddress, c.call, t.recipientAddress, balance, c.gas,
              IncreasedGasPrice(GasPriceFor(env, t.chain), multMilli))
  }

  /** `checkAndTransferBalance` for one token of the wallet: the lock, when
      taken, expires 5000 ms from now. */
  function TokenEval(s: SweepState, env: Env, w: Wallet, t: Token, merged: Config): (r: SweepState)
    ensures |r.stored| == |s.stored|
    ensures s.locks.Keys <= r.locks.Keys <= s.locks.Keys + {LockKey(w.address, t.tokenAddress, t.chain)}
    ensures forall k :: k in s.locks ==> r.locks[k] == s.locks[k]
  {
    var o := TokenStep(s.locks, env, w, t, merged);
    var key := LockKey(w.address, t.tokenAddress, t.chain);
    SweepState(
      if o.lock then s.locks[key := env.now + DefaultLockDuration] else s.locks,
      if o.attempt.Some? then RecordToken(s.metrics, t.chain, t.tokenType, o.attempt.value) else s.metrics,
      if o.attempt.Some? then Persist(s.stored, w, TokenJob(t), o.attempt.value) else s.stored)
  }

  function RunJob(s: SweepState, env: Env, w: Wallet, merged: Config, job: Job): (r: SweepState)
    ensures |r.stored| == |s.stored|
    ensures forall k :: k in s.locks ==> k in r.locks && r.locks[k] == s.locks[k]
  {
    match job
    case NativeJob(chain) => NativeEval(s, env, w, chain, merged)
    case TokenJob(t) => TokenEval(s, env, w, t, merged)
  }

  /** The jobs evaluated in order. */
  function RunJobs(s: SweepState, env: Env, w: Wallet, merged: Config, jobs: seq<Job>): (r: SweepState)
    ensures |r.stored| == |s.stored|
    ensures forall k :: k in s.locks ==> k in r.locks && r.locks[k] == s.locks[k]
    decreases |jobs|
  {
    if jobs == [] then s
    else RunJob(RunJobs(s, env, w, merged, jobs[..|jobs| - 1]), env, w, merged, jobs[|jobs| - 1])
  }

  // ---- What a polling pass looks at ----

  /** The token jobs of the wallet's tokens on `chain`, in list order. */
  function TokenJobsOn(tokens: seq<Token>, chain: string): (r: seq<Job>)
    ensures forall job :: job in r <==> job.TokenJob? && job.token in tokens && job.token.chain == chain
    decreases |tokens|
  {
    if tokens == [] then []
    else
      var t := tokens[|tokens| - 1];
      TokenJobsOn(tokens[..|tokens| - 1], chain) + (if t.chain == chain then [TokenJob(t)] else [])
  }

  /** One more token extends the token jobs by that token's job when it is
      on the chain. */
  lemma TokenJobsOnStep(tokens: seq<Token>, chain: string, j: nat)
    requires j < |tokens|
    ensures TokenJobsOn(tokens[..j + 1], chain)
            == TokenJobsOn(tokens[..j], chain) + (if tokens[j].chain == chain then [TokenJob(tokens[j])] else [])
  {
    assert tokens[..j + 1][..j] == tokens[..j];
  }

  /** The work of one listed chain: the native balance when native sweeping is
      on, then the wallet's tokens on that chain in list order; nothing for a
      chain not in the configured chains or not known. */
  function ChainJobs(w: Wallet, chain: string, merged: Config, chainsConfig: set<string>): (r: seq<Job>)
    ensures forall job :: job in r ==> JobChain(job) == chain
  {
    if chain in ConfigChains(merged) && chain in chainsConfig then
      (if ConfigFlag(merged, "nativeTokenSupport") then [NativeJob(chain)] else [])
      + TokenJobsOn(w.tokens, chain)
    else []
  }

  function ChainsJobs(w: Wallet, chains: seq<string>, merged: Config, chainsConfig: set<string>): (r: seq<Job>)
    ensures forall job :: job in r ==>
              JobChain(job) in chains && JobChain(job) in ConfigChains(merged) && JobChain(job) in chainsConfig
    decreases |chains|
  {
    if chains == [] then []
    else ChainsJobs(w, chains[..|chains| - 1], merged, chainsConfig) + ChainJobs(w, chains[|chains| - 1], merged, chainsConfig)
  }

  /** One more chain extends the jobs by that chain's jobs. */
  lemma ChainsJobsStep(w: Wallet, chains: seq<string>, i: nat, merged: Config, chainsConfig: set<string>)
    requires i < |chains|
    ensures ChainsJobs(w, chains[..i + 1], merged, chainsConfig)
            == ChainsJobs(w, chains[..i], merged, chainsConfig) + ChainJobs(w, chains[i], merged, chainsConfig)
  {
    assert chains[..i + 1][..i] == chains[..i];
  }

  /** `checkWalletBalances`' selection: nothing for a paused wallet, otherwise
      the work of each listed chain in order. */
  function WalletJobs(w: Wallet, merged: Config, chainsConfig: set<string>): (r: seq<Job>)
    ensures w.isPaused ==> r == []
    ensures forall job :: job in r ==> JobChain(job) in w.chains
  {
    if w.isPaused then [] else ChainsJobs(w, w.chains, merged, chainsConfig)
  }

  /** A polling pass over one wallet. A failing configuration read skips it. */
  function CheckWallet(s: SweepState, env: Env, w: Wallet): (r: SweepState)
    ensures env.oracle.userConfig(w.userId).Err? ==> r == s
    ensures |r.stored| == |s.stored|
    ensures forall k :: k in s.locks ==> k in r.locks && r.locks[k] == s.locks[k]
  {
    match env.oracle.userConfig(w.userId)
    case Err => s
    case Ok(user) =>
      var merged := MergedConfig(env.config, user);
      RunJobs(s, env, w, merged, WalletJobs(w, merged, env.chainsConfig))
  }

  /** A polling pass over the wallets in order. */
  function CheckWallets(s: SweepState, env: Env, ws: seq<Wallet>): (r: SweepState)
    ensures |r.stored| == |s.stored|
    ensures forall k :: k in s.locks ==> k in r.locks && r.locks[k] == s.locks[k]
    decreases |ws|
  {
    if ws == [] then s else CheckWallet(CheckWallets(s, env, ws[..|ws| - 1]), env, ws[|ws| - 1])
  }

  // ---- Properties of the selection ----

  predicate Selected(w: Wallet, chains: seq<string>, merged: Config, chainsConfig: set<string>, job: Job) {
    match job
    case NativeJob(c) =>
      c in chains && c in ConfigChains(merged) && c in chainsConfig && ConfigFlag(merged, "nativeTokenSupport")
    case TokenJob(t) =>
      t.chain in chains && t.chain in ConfigChains(merged) && t.chain in chainsConfig && t in w.tokens
  }

  lemma {:induction false} ChainsJobsMembers(w: Wallet, chains: seq<string>, merged: Config,
                                             chainsConfig: set<string>, job: Job)
    ensures job in ChainsJobs(w, chains, merged, chainsConfig) <==> Selected(w, chains, merged, chainsConfig, job)
    decreases |chains|
  {
    if chains != [] {
      var init := chains[..|chains| - 1];
      ChainsJobsMembers(w, init, merged, chainsConfig, job);
      assert chains == init + [chains[|chains| - 1]];
    }
  }

  /** A paused wallet produces no work; otherwise the native work and the
      token work of the wallet are exactly those of its listed chains that are
      configured and known, and a token is looked at only on its own chain. */
  lemma WalletJobsMembers(w: Wallet, merged: Config, chainsConfig: set<string>, job: Job)
    ensures w.isPaused ==> WalletJobs(w, merged, chainsConfig) == []
    ensures !w.isPaused ==>
      (job in WalletJobs(w, merged, chainsConfig) <==> Selected(w, w.chains, merged, chainsConfig, job))
  {
    ChainsJobsMembers(w, w.chains, merged, chainsConfig, job);
  }

  /** The selection reads `isPaused` but never `status`. */
  lemma {:induction false} StatusNotConsulted(w: Wallet, status: string, merged: Config, chainsConfig: set<string>)
    ensures WalletJobs(w.(status := status), merged, chainsConfig) == WalletJobs(w, merged, chainsConfig)
  {
    ChainsJobsStatus(w, status, w.chains, merged, chainsConfig);
  }

  lemma {:induction false} ChainsJobsStatus(w: Wallet, status: string, chains: seq<string>, merged: Config,
                                            chainsConfig: set<string>)
    ensures ChainsJobs(w.(status := status), chains, merged, chainsConfig) == ChainsJobs(w, chains, merged, chainsConfig)
    decreases |chains|
  {
    if chains != [] {
      ChainsJobsStatus(w, status, chains[..|chains| - 1], merged, chainsConfig);
    }
  }

  /** A paused wallet changes nothing. */
  lemma PausedWalletUntouched(s: SweepState, env: Env, w: Wallet)
    requires w.isPaused
    ensures CheckWallet(s, env, w) == s
  {
  }

  // ---- Properties of the lock ----

  /** A locked token is skipped whatever the lock's stored expiry: the lock test
      asks only whether the key is present. */
  lemma LockedTokenSkipped(s: SweepState, env: Env, w: Wallet, t: Token, merged: Config)
    requires LockKey(w.address, t.tokenAddress, t.chain) in s.locks
    ensures TokenStep(s.locks, env, w, t, merged) == TokenOutcome(false, None)
    ensures TokenEval(s, env, w, t, merged) == s
  {
  }

  /** The lock is taken only for an unlocked key after a positive balance was
      read through a connection; once taken it stays even when the token type
      cannot be sent. */
  lemma TokenStepLock(locks: map<string, int>, env: Env, w: Wallet, t: Token, merged: Config)
    ensures var o := TokenStep(locks, env, w, t, merged);
      o.lock ==>
        && LockKey(w.address, t.tokenAddress, t.chain) !in locks
        && GetUserWeb3(env.instances, w.userId, t.chain).Some?
        && env.oracle.tokenBalance(w.address, t).Ok?
        && env.oracle.tokenBalance(w.address, t).value > 0
    ensures var o := TokenStep(locks, env, w, t, merged);
      o.lock && TokenDispatch(t.tokenType).None? && ConfigMilli(merged, "gasPriceMultiplier").Some? ==>
        o.attempt.None?
  {
  }

  /** A transaction is sent only under the lock, for a supported type and a
      known standard, with the whole balance as its amount. */
  lemma TokenStepSends(locks: map<string, int>, env: Env, w: Wallet, t: Token, merged: Config)
    requires TokenStep(locks, env, w, t, merged).attempt.Some?
    requires !TokenStep(locks, env, w, t, merged).attempt.value.Errored?
    ensures TokenStep(locks, env, w, t, merged).lock
    ensures TokenDispatch(t.tokenType).Some?
    ensures env.oracle.tokenBalance(w.address, t).Ok?
    ensures TokenStep(locks, env, w, t, merged).attempt.value
            == AttemptOf(env.oracle.send(t.chain, TokenTxFor(env, w, t, TokenDispatch(t.tokenType).value,
                                                            ConfigMilli(merged, "gasPriceMultiplier").value,
                                                            env.oracle.tokenBalance(w.address, t).value)),
                         env.oracle.tokenBalance(w.address, t).value)
  {
  }

  /** The token sweep adds exactly its own key, expiring 5000 ms from now,
      when it takes the lock, and otherwise leaves the locks alone. */
  lemma TokenEvalLocks(s: SweepState, env: Env, w: Wallet, t: Token, merged: Config)
    ensures TokenStep(s.locks, env, w, t, merged).lock
            ==> TokenEval(s, env, w, t, merged).locks
                == s.locks[LockKey(w.address, t.tokenAddress, t.chain) := env.now + DefaultLockDuration]
    ensures !TokenStep(s.locks, env, w, t, merged).lock ==> TokenEval(s, env, w, t, merged).locks == s.locks
  {
    if TokenStep(s.locks, env, w, t, merged).lock {
      TokenStepLock(s.locks, env, w, t, merged);
      var balance := env.oracle.tokenBalance(w.address, t).value;
      assert TokenStep(s.locks, env, w, t, merged) == TokenOutcome(true, TokenTransfer(env, w, t, merged, balance));
      TokenEvalLocked(s, env, w, t, merged, balance);
    }
  }

  /** The state after a token check that finds nothing to send and takes no lock. */
  lemma TokenEvalIdle(s: SweepState, env: Env, w: Wallet, t: Token, merged: Config)
    requires TokenStep(s.locks, env, w, t, merged) == TokenOutcome(false, None)
    ensures TokenEval(s, env, w, t, merged) == s
  {
  }

  /** The state after a token check that takes the lock and builds a transfer
      of `balance`. */
  lemma TokenEvalLocked(s: SweepState, env: Env, w: Wallet, t: Token, merged: Config, balance: nat)
    requires TokenStep(s.locks, env, w, t, merged) == TokenOutcome(true, TokenTransfer(env, w, t, merged, balance))
    ensures var a := TokenTransfer(env, w, t, merged, balance);
      TokenEval(s, env, w, t, merged)
      == SweepState(s.locks[LockKey(w.address, t.tokenAddress, t.chain) := env.now + DefaultLockDuration],
                    if a.Some? then RecordToken(s.metrics, t.chain, t.tokenType, a.value) else s.metrics,
                    if a.Some? then Persist(s.stored, w, TokenJob(t), a.value) else s.stored)
  {
  }

  /** The state after a token check that fails before taking the lock. */
  lemma TokenEvalFailed(s: SweepState, env: Env, w: Wallet, t: Token, merged: Config)
    requires TokenStep(s.locks, env, w, t, merged) == TokenOutcome(false, Some(Errored))
    ensures TokenEval(s, env, w, t, merged)
            == s.(metrics := RecordToken(s.metrics, t.chain, t.tokenType, Errored),
                  stored := Persist(s.stored, w, TokenJob(t), Errored))
  {
  }

  /** The native sweep never reads or writes the locks. */
  lemma NativeEvalKeepsLocks(s: SweepState, env: Env, w: Wallet, chain: string, merged: Config)
    ensures NativeEval(s, env, w, chain, merged).locks == s.locks
  {
  }

  /** Within a pass a token is sent at most once: once its key is locked,
      evaluating it again changes nothing. */
  lemma SecondEvaluationSkipped(s: SweepState, env: Env, w: Wallet, t: Token, merged: Config)
    requires TokenStep(s.locks, env, w, t, merged).lock
    ensures TokenEval(TokenEval(s, env, w, t, merged), env, w, t, merged) == TokenEval(s, env, w, t, merged)
  {
    LockedTokenSkipped(TokenEval(s, env, w, t, merged), env, w, t, merged);
  }

  /** Locks are only ever added during a pass. */
  lemma {:induction false} RunJobsLockKeys(s: SweepState, env: Env, w: Wallet, merged: Config, jobs: seq<Job>)
    ensures s.locks.Keys <= RunJobs(s, env, w, merged, jobs).locks.Keys
    decreases |jobs|
  {
    if jobs != [] {
      var s1 := RunJobs(s, env, w, merged, jobs[..|jobs| - 1]);
      RunJobsLockKeys(s, env, w, merged, jobs[..|jobs| - 1]);
      match jobs[|jobs| - 1] {
        case NativeJob(c) => NativeEvalKeepsLocks(s1, env, w, c, merged);
        case TokenJob(t) => TokenEvalLocks(s1, env, w, t, merged);
      }
    }
  }

  // ---- Properties of the native sweep ----

  /** A native transaction is sent only when the balance covers the reserve
      and the gas budget, and it sends exactly what is left over. */
  lemma NativeAttemptSends(env: Env, w: Wallet, chain: string, merged: Config)
    requires NativeAttempt(env, w, chain, merged).Some?
    requires !NativeAttempt(env, w, chain, merged).value.Errored?
    ensures ConfigFlag(merged, "nativeTokenSupport")
    ensures env.oracle.nativeBalance(w.address, chain).Ok?
    ensures env.oracle.toWei(Field(merged, "nativeTokenMinBalance")).Ok?
    ensures ConfigMilli(merged, "gasPriceMultiplier").Some? && ConfigBigInt(merged, "nativeTokenGasLimit").Some?
    ensures var v := NativeTransferValue(env.oracle.nativeBalance(w.address, chain).value,
                                         env.oracle.toWei(Field(merged, "nativeTokenMinBalance")).value,
                                         GasPriceFor(env, chain),
                                         ConfigMilli(merged, "gasPriceMultiplier").value,
                                         ConfigBigInt(merged, "nativeTokenGasLimit").value);
      var tx := NativeSend(w.address, w.baseTokenRecipient, v.value,
                           ConfigBigInt(merged, "nativeTokenGasLimit").value,
                           IncreasedGasPrice(GasPriceFor(env, chain), ConfigMilli(merged, "gasPriceMultiplier").value));
      v.Some? && NativeAttempt(env, w, chain, merged).value == AttemptOf(env.oracle.send(chain, tx), v.value)
  {
  }

  /** With native sweeping off nothing happens, whatever the balances. */
  lemma NativeSupportOff(s: SweepState, env: Env, w: Wallet, chain: string, merged: Config)
    requires !ConfigFlag(merged, "nativeTokenSupport")
    ensures NativeEval(s, env, w, chain, merged) == s
  {
  }

  // ---- Properties of the counting ----

  lemma TokenEvalKeepsWellCounted(s: SweepState, env: Env, w: Wallet, t: Token, merged: Config)
    requires WellCounted(s.metrics)
    ensures WellCounted(TokenEval(s, env, w, t, merged).metrics)
  {
    var o := TokenStep(s.locks, env, w, t, merged);
    if o.attempt.Some? {
      RecordTokenKeepsWellCounted(s.metrics, t.chain, t.tokenType, o.attempt.value);
    }
  }

  lemma NativeEvalKeepsWellCounted(s: SweepState, env: Env, w: Wallet, chain: string, merged: Config)
    requires WellCounted(s.metrics)
    ensures WellCounted(NativeEval(s, env, w, chain, merged).metrics)
  {
    var a := NativeAttempt(env, w, chain, merged);
    if a.Some? {
      RecordNativeKeepsWellCounted(s.metrics, chain, a.value);
    }
  }

  lemma {:induction false} RunJobsKeepsWellCounted(s: SweepState, env: Env, w: Wallet, merged: Config, jobs: seq<Job>)
    requires WellCounted(s.metrics)
    ensures WellCounted(RunJobs(s, env, w, merged, jobs).metrics)
    decreases |jobs|
  {
    if jobs != [] {
      var s1 := RunJobs(s, env, w, merged, jobs[..|jobs| - 1]);
      RunJobsKeepsWellCounted(s, env, w, merged, jobs[..|jobs| - 1]);
      match jobs[|jobs| - 1] {
        case NativeJob(c) => NativeEvalKeepsWellCounted(s1, env, w, c, merged);
        case TokenJob(t) => TokenEvalKeepsWellCounted(s1, env, w, t, merged);
      }
    }
  }

  lemma CheckWalletKeepsWellCounted(s: SweepState, env: Env, w: Wallet)
    requires WellCounted(s.metrics)
    ensures WellCounted(CheckWallet(s, env, w).metrics)
  {
    match env.oracle.userConfig(w.userId) {
      case Err =>
      case Ok(user) =>
        var merged := MergedConfig(env.config, user);
        RunJobsKeepsWellCounted(s, env, w, merged, WalletJobs(w, merged, env.chainsConfig));
    }
  }

  /** A polling pass over any wallets keeps every success/failure tally
      balanced against its transaction count. */
  lemma {:induction false} CheckWalletsKeepsWellCounted(s: SweepState, env: Env, ws: seq<Wallet>)
    requires WellCounted(s.metrics)
    ensures WellCounted(CheckWallets(s, env, ws).metrics)
    decreases |ws|
  {
    if ws != [] {
      CheckWalletsKeepsWellCounted(s, env, ws[..|ws| - 1]);
      CheckWalletKeepsWellCounted(CheckWallets(s, env, ws[..|ws| - 1]), env, ws[|ws| - 1]);
    }
  }
}
