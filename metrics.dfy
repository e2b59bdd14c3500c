/** The sweeper's in-memory metrics: global and per-chain success, failure and
    gas counters, the counters of native and per-token-type transfers, and
    the rebuild of those counters from the counters stored on each wallet.
    Also the update a finished transfer writes back to the stored wallet. */
module Metrics {
  import opened Common
  import opened Records

  /** One success/failure/gas tally (gas in units of gas, BigInt in the source). */
  datatype Counters = Counters(
    transactions: nat,
    successfulTransactions: nat,
    failedTransactions: nat,
    gasUsed: nat)

  const ZeroCounters := Counters(0, 0, 0, 0)

  /** Every attempt is either a success or a failure. */
  predicate Balanced(c: Counters) {
    c.successfulTransactions + c.failedTransactions == c.transactions
  }

  function Plus(a: Counters, b: Counters): Counters {
    Counters(a.transactions + b.transactions,
             a.successfulTransactions + b.successfulTransactions,
             a.failedTransactions + b.failedTransactions,
             a.gasUsed + b.gasUsed)
  }

  /** `metrics.chains[chain]`. `rpcErrors` is a count. */
  datatype ChainMetrics = ChainMetrics(
    counters: Counters,
    rpcErrors: nat,
    totalRpcRequests: nat,
    activeRpcConnections: nat,
    nativeToken: Counters,
    nativeTransferred: nat,
    tokenTypes: map<string, Counters>)

  /** A chain entry with every counter at zero and one zero tally per token type. */
  function FreshChain(tokenTypes: set<string>): ChainMetrics {
    ChainMetrics(ZeroCounters, 0, 0, 0, ZeroCounters, 0,
                 map t | t in tokenTypes :: ZeroCounters)
  }

  lemma FreshChainBalanced(tokenTypes: set<string>)
    ensures ChainBalanced(FreshChain(tokenTypes))
  {
  }

  /** The bot's `metrics` object; the timing fields are not modelled. */
  datatype BotMetrics = BotMetrics(
    startTime: int,
    totalWallets: nat,
    totalTokens: nat,
    totalTransactions: nat,
    successfulTransactions: nat,
    failedTransactions: nat,
    totalGasUsed: nat,
    nativeTokenSupport: bool,
    chains: map<string, ChainMetrics>)

  function Global(m: BotMetrics): Counters {
    Counters(m.totalTransactions, m.successfulTransactions, m.failedTransactions, m.totalGasUsed)
  }

  /** A chain entry with every counter at zero and no token types. */
  const EmptyChain := ChainMetrics(ZeroCounters, 0, 0, 0, ZeroCounters, 0, map[])

  /** The entry of `chain`, or an empty one where the object has none. */
  function ChainOf(chains: map<string, ChainMetrics>, chain: string): ChainMetrics {
    if chain in chains then chains[chain] else EmptyChain
  }

  /** Every tally of a chain entry is balanced. */
  predicate ChainBalanced(cm: ChainMetrics) {
    && Balanced(cm.counters)
    && Balanced(cm.nativeToken)
    && (forall t :: t in cm.tokenTypes ==> Balanced(cm.tokenTypes[t]))
  }

  /** Every tally of the metrics is balanced. */
  predicate WellCounted(m: BotMetrics) {
    Balanced(Global(m)) && forall c :: c in m.chains ==> ChainBalanced(m.chains[c])
  }

  /** How one transfer attempt ended: a receipt with status true (gas used and,
      for native transfers, the value sent), a receipt with status false, or
      an exception anywhere between reading the balance and the receipt. */
  datatype Attempt = Succeeded(gasUsed: nat, transferred: nat) | Reverted | Errored

  predicate IsSuccess(a: Attempt) { a.Succeeded? }
  predicate IsError(a: Attempt) { a.Errored? }

  function GasOf(a: Attempt): nat {
    if a.Succeeded? then a.gasUsed else 0
  }

  /** One attempt counted on a tally: one more transaction, and exactly one of
      success (with its gas) or failure. */
  function Tally(c: Counters, a: Attempt): (r: Counters)
    ensures r.transactions == c.transactions + 1
    ensures r.successfulTransactions + r.failedTransactions
            == c.successfulTransactions + c.failedTransactions + 1
    ensures r.successfulTransactions == c.successfulTransactions + 1 <==> a.Succeeded?
    ensures r.failedTransactions == c.failedTransactions + 1 <==> !a.Succeeded?
    ensures r.gasUsed == c.gasUsed + GasOf(a)
    ensures Balanced(c) ==> Balanced(r)
  {
    match a
    case Succeeded(g, _) =>
      c.(transactions := c.transactions + 1,
         successfulTransactions := c.successfulTransactions + 1,
         gasUsed := c.gasUsed + g)
    case _ =>
      c.(transactions := c.transactions + 1,
         failedTransactions := c.failedTransactions + 1)
  }

  /** The counting done by the native sweep for one attempt on `chain`: the
      global, chain and native tallies, the value sent on success, and one
      more RPC error when the attempt threw. */
  function RecordNative(m: BotMetrics, chain: string, a: Attempt): (r: BotMetrics)
    ensures Global(r) == Tally(Global(m), a)
    ensures r.chains.Keys == m.chains.Keys + {chain}
    ensures forall c :: c in m.chains && c != chain ==> r.chains[c] == m.chains[c]
    ensures r.chains[chain].counters == Tally(ChainOf(m.chains, chain).counters, a)
    ensures r.chains[chain].nativeToken == Tally(ChainOf(m.chains, chain).nativeToken, a)
    ensures r.chains[chain].nativeTransferred
            == ChainOf(m.chains, chain).nativeTransferred + (if a.Succeeded? then a.transferred else 0)
    ensures r.chains[chain].rpcErrors == ChainOf(m.chains, chain).rpcErrors + (if a.Errored? then 1 else 0)
    ensures r.chains[chain].tokenTypes == ChainOf(m.chains, chain).tokenTypes
    ensures r.startTime == m.startTime && r.totalWallets == m.totalWallets && r.totalTokens == m.totalTokens
  {
    var cm := ChainOf(m.chains, chain);
    var cm' := cm.(counters := Tally(cm.counters, a),
                   nativeToken := Tally(cm.nativeToken, a),
                   nativeTransferred := cm.nativeTransferred + (if a.Succeeded? then a.transferred else 0),
                   rpcErrors := cm.rpcErrors + (if a.Errored? then 1 else 0));
    var g := Tally(Global(m), a);
    m.(totalTransactions := g.transactions,
       successfulTransactions := g.successfulTransactions,
       failedTransactions := g.failedTransactions,
       totalGasUsed := g.gasUsed,
       chains := m.chains[chain := cm'])
  }

  /** The counting done by the token sweep for one attempt on `chain` with a
      token of type `tokenType`: the global, chain and token-type tallies, and
      one more RPC error when the attempt threw. Native counters are untouched. */
  function RecordToken(m: BotMetrics, chain: string, tokenType: string, a: Attempt): (r: BotMetrics)
    ensures Global(r) == Tally(Global(m), a)
    ensures r.chains.Keys == m.chains.Keys + {chain}
    ensures forall c :: c in m.chains && c != chain ==> r.chains[c] == m.chains[c]
    ensures r.chains[chain].counters == Tally(ChainOf(m.chains, chain).counters, a)
    ensures r.chains[chain].nativeToken == ChainOf(m.chains, chain).nativeToken
    ensures r.chains[chain].nativeTransferred == ChainOf(m.chains, chain).nativeTransferred
    ensures r.chains[chain].rpcErrors == ChainOf(m.chains, chain).rpcErrors + (if a.Errored? then 1 else 0)
    ensures r.chains[chain].tokenTypes.Keys == ChainOf(m.chains, chain).tokenTypes.Keys + {tokenType}
    ensures r.chains[chain].tokenTypes[tokenType]
            == Tally(TypeOf(ChainOf(m.chains, chain).tokenTypes, tokenType), a)
    ensures forall t :: t in ChainOf(m.chains, chain).tokenTypes && t != tokenType ==>
              r.chains[chain].tokenTypes[t] == ChainOf(m.chains, chain).tokenTypes[t]
    ensures r.startTime == m.startTime && r.totalWallets == m.totalWallets && r.totalTokens == m.totalTokens
  {
    var cm := ChainOf(m.chains, chain);
    var cm' := cm.(counters := Tally(cm.counters, a),
                   rpcErrors := cm.rpcErrors + (if a.Errored? then 1 else 0),
                   tokenTypes := cm.tokenTypes[tokenType := Tally(TypeOf(cm.tokenTypes, tokenType), a)]);
    var g := Tally(Global(m), a);
    m.(totalTransactions := g.transactions,
       successfulTransactions := g.successfulTransactions,
       failedTransactions := g.failedTransactions,
       totalGasUsed := g.gasUsed,
       chains := m.chains[chain := cm'])
  }

  lemma ZeroBalanced()
    ensures Balanced(ZeroCounters)
  {
  }

  /** The entry an attempt is counted on is balanced when the metrics are. */
  lemma ChainOfBalanced(m: BotMetrics, chain: string)
    requires WellCounted(m)
    ensures ChainBalanced(ChainOf(m.chains, chain))
  {
    if chain in m.chains {
      assert ChainOf(m.chains, chain) == m.chains[chain];
    } else {
      EmptyChainBalanced();
      assert ChainOf(m.chains, chain) == EmptyChain;
    }
  }

  lemma EmptyChainBalanced()
    ensures ChainBalanced(EmptyChain)
  {
  }

  lemma RecordNativeChainBalanced(m: BotMetrics, chain: string, a: Attempt, c: string)
    requires WellCounted(m)
    requires c in RecordNative(m, chain, a).chains
    ensures ChainBalanced(RecordNative(m, chain, a).chains[c])
  {
    if c == chain {
      ChainOfBalanced(m, c);
    } else {
      assert RecordNative(m, chain, a).chains[c] == m.chains[c];
    }
  }

  /** Counting an attempt keeps every tally balanced. */
  lemma RecordNativeKeepsWellCounted(m: BotMetrics, chain: string, a: Attempt)
    requires WellCounted(m)
    ensures WellCounted(RecordNative(m, chain, a))
  {
    var r := RecordNative(m, chain, a);
    forall c | c in r.chains
      ensures ChainBalanced(r.chains[c])
    {
      RecordNativeChainBalanced(m, chain, a, c);
    }
  }

  lemma RecordTokenTypeBalanced(m: BotMetrics, chain: string, tokenType: string, a: Attempt, t: string)
    requires WellCounted(m)
    requires t in RecordToken(m, chain, tokenType, a).chains[chain].tokenTypes
    ensures Balanced(RecordToken(m, chain, tokenType, a).chains[chain].tokenTypes[t])
  {
    var cm := ChainOf(m.chains, chain);
    ChainOfBalanced(m, chain);
    if t == tokenType {
      if tokenType !in cm.tokenTypes {
        ZeroBalanced();
      }
    } else {
      assert RecordToken(m, chain, tokenType, a).chains[chain].tokenTypes[t] == cm.tokenTypes[t];
    }
  }

  lemma RecordTokenChainBalanced(m: BotMetrics, chain: string, tokenType: string, a: Attempt, c: string)
    requires WellCounted(m)
    requires c in RecordToken(m, chain, tokenType, a).chains
    ensures ChainBalanced(RecordToken(m, chain, tokenType, a).chains[c])
  {
    var r := RecordToken(m, chain, tokenType, a);
    if c == chain {
      ChainOfBalanced(m, c);
      forall t | t in r.chains[chain].tokenTypes
        ensures Balanced(r.chains[chain].tokenTypes[t])
      {
        RecordTokenTypeBalanced(m, chain, tokenType, a, t);
      }
    } else {
      assert r.chains[c] == m.chains[c];
    }
  }

  lemma RecordTokenKeepsWellCounted(m: BotMetrics, chain: string, tokenType: string, a: Attempt)
    requires WellCounted(m)
    ensures WellCounted(RecordToken(m, chain, tokenType, a))
  {
    var r := RecordToken(m, chain, tokenType, a);
    forall c | c in r.chains
      ensures ChainBalanced(r.chains[c])
    {
      RecordTokenChainBalanced(m, chain, tokenType, a, c);
    }
  }

  /** The tally of a token type, or a zero one where the chain has none. */
  function TypeOf(tokenTypes: map<string, Counters>, tokenType: string): Counters {
    if tokenType in tokenTypes then tokenTypes[tokenType] else ZeroCounters
  }

  /** A run of native attempts on one chain, counted in order. */
  function RecordNativeAll(m: BotMetrics, chain: string, attempts: seq<Attempt>): BotMetrics
    decreases |attempts|
  {
    if attempts == [] then m
    else RecordNative(RecordNativeAll(m, chain, attempts[..|attempts| - 1]), chain, attempts[|attempts| - 1])
  }

  /** After a run of attempts the totals grew by the number of attempts, the
      successes by the number that succeeded, the failures by the rest, and the
      chain's RPC errors by the number that threw. */
  lemma {:induction false} RecordNativeAllCounts(m: BotMetrics, chain: string, attempts: seq<Attempt>)
    ensures var r := RecordNativeAll(m, chain, attempts);
      && r.totalTransactions == m.totalTransactions + |attempts|
      && r.successfulTransactions == m.successfulTransactions + CountIf(IsSuccess, attempts)
      && r.failedTransactions == m.failedTransactions + (|attempts| - CountIf(IsSuccess, attempts))
      && ChainOf(r.chains, chain).rpcErrors
         == ChainOf(m.chains, chain).rpcErrors + CountIf(IsError, attempts)
    decreases |attempts|
  {
    if attempts != [] {
      var init := attempts[..|attempts| - 1];
      var last := attempts[|attempts| - 1];
      assert attempts == init + [last];
      RecordNativeAllCounts(m, chain, init);
      FilterConcat(IsSuccess, init, [last]);
      FilterConcat(IsError, init, [last]);
      assert |Filter(IsSuccess, init)| <= |init|;
    }
  }

  /** `resetBotMetrics`: a new start time, every counter at zero, no chains. */
  function ResetBotMetrics(now: int): (r: BotMetrics)
    ensures r.startTime == now && r.totalWallets == 0 && r.totalTokens == 0
    ensures Global(r) == ZeroCounters && r.chains == map[]
  {
    BotMetrics(now, 0, 0, 0, 0, 0, 0, true, map[])
  }

  /** The reset metrics are balanced. */
  lemma ResetIsWellCounted(now: int)
    ensures WellCounted(ResetBotMetrics(now))
  {
    assert ResetBotMetrics(now).chains == map[];
  }

  /** The token types a chain has standards for. */
  function StandardTypes(standards: map<string, map<string, string>>, chain: string): set<string> {
    if chain in standards then standards[chain].Keys else {}
  }

  /** `config` is loaded and its `chains` is truthy. */
  predicate HasChains(config: Option<Config>) {
    config.Some? && "chains" in config.value && Truthy(config.value["chains"])
  }

  /** `initializeChainMetrics`: nothing happens until a configuration with
      chains is loaded; then the metrics are reset and every configured chain
      gets a fresh entry with one zero tally per token type it has a
      standard for. */
  function InitializeChainMetrics(m: BotMetrics, config: Option<Config>,
                                  standards: map<string, map<string, string>>, now: int): (r: BotMetrics)
    ensures !HasChains(config) ==> r == m
    ensures HasChains(config) ==>
              && Global(r) == ZeroCounters
              && r.startTime == now
              && (forall c :: c in r.chains <==> c in ConfigChains(config.value))
              && (forall c :: c in r.chains ==>
                    && r.chains[c].counters == ZeroCounters
                    && r.chains[c].rpcErrors == 0
                    && r.chains[c].tokenTypes.Keys == StandardTypes(standards, c))
  {
    if !HasChains(config) then m
    else
      var chains := ConfigChains(config.value);
      ResetBotMetrics(now).(chains := map c | c in chains :: FreshChain(StandardTypes(standards, c)))
  }

  lemma InitializeChainMetricsWellCounted(m: BotMetrics, config: Option<Config>,
                                          standards: map<string, map<string, string>>, now: int)
    requires HasChains(config)
    ensures WellCounted(InitializeChainMetrics(m, config, standards, now))
  {
    var r := InitializeChainMetrics(m, config, standards, now);
    assert Global(r) == ZeroCounters;
    forall c | c in r.chains
      ensures ChainBalanced(r.chains[c])
    {
      FreshChainBalanced(StandardTypes(standards, c));
    }
  }

  // ---- Rebuilding the metrics from the stored wallets ----

  /** The counters of a stored chain entry, missing ones read as 0. */
  function StatCounters(s: ChainStat): Counters {
    Counters(Count(s.transactions), Count(s.successfulTransactions),
             Count(s.failedTransactions), Count(s.gasUsed))
  }

  function NativeCounters(s: NativeStat): Counters {
    Counters(Count(s.transactions), Count(s.successfulTransactions),
             Count(s.failedTransactions), Count(s.gasUsed))
  }

  const EmptyStat := ChainStat(None, None, None, None)
  const EmptyNativeStat := NativeStat(None, None, None, None, None)

  /** A wallet's stored entry for `chain`, or an empty one. */
  function StatFor(w: Wallet, chain: string): ChainStat {
    if chain in w.chainStats then w.chainStats[chain] else EmptyStat
  }

  function NativeStatFor(w: Wallet, chain: string): NativeStat {
    if chain in w.nativeTokenStats then w.nativeTokenStats[chain] else EmptyNativeStat
  }

  /** One wallet's `chainStats` added in: a missing chain entry is created first. */
  function AddChainStats(chains: map<string, ChainMetrics>, stats: map<string, ChainStat>): map<string, ChainMetrics> {
    map c | c in chains.Keys + stats.Keys ::
      if c in stats then
        var cm := ChainOf(chains, c);
        cm.(counters := Plus(cm.counters, StatCounters(stats[c])))
      else chains[c]
  }

  /** One wallet's `nativeTokenStats` added in, only for chains that already
      have an entry. */
  function AddNativeStats(chains: map<string, ChainMetrics>, stats: map<string, NativeStat>): map<string, ChainMetrics> {
    map c | c in chains ::
      if c in stats then
        chains[c].(nativeToken := Plus(chains[c].nativeToken, NativeCounters(stats[c])),
                   nativeTransferred := chains[c].nativeTransferred + Count(stats[c].totalTransferred))
      else chains[c]
  }

  /** The chain entries after folding in the wallets in order. */
  function RebuildChains(ws: seq<Wallet>): map<string, ChainMetrics>
    decreases |ws|
  {
    if ws == [] then map[]
    else
      var w := ws[|ws| - 1];
      AddNativeStats(AddChainStats(RebuildChains(ws[..|ws| - 1]), w.chainStats), w.nativeTokenStats)
  }

  function WalletTransactions(w: Wallet): nat { Count(w.transactions) }
  function WalletSuccessful(w: Wallet): nat { Count(w.successfulTransactions) }
  function WalletFailed(w: Wallet): nat { Count(w.failedTransactions) }
  function WalletGas(w: Wallet): nat { Count(w.gasUsed) }

  /** `loadMetricsFromDatabase` once the wallets are read: a reset, then the
      totals of the stored wallet counters and the rebuilt chain entries. */
  function RebuiltMetrics(ws: seq<Wallet>, now: int): (r: BotMetrics)
    ensures Global(r) == Counters(SumOf(WalletTransactions, ws), SumOf(WalletSuccessful, ws),
                                  SumOf(WalletFailed, ws), SumOf(WalletGas, ws))
    ensures r.startTime == now && r.totalWallets == 0 && r.totalTokens == 0
  {
    ResetBotMetrics(now).(
      totalTransactions := SumOf(WalletTransactions, ws),
      successfulTransactions := SumOf(WalletSuccessful, ws),
      failedTransactions := SumOf(WalletFailed, ws),
      totalGasUsed := SumOf(WalletGas, ws),
      chains := RebuildChains(ws))
  }

  /** The sum, over the wallets, of their stored counters for `chain`. */
  function SumChainStats(ws: seq<Wallet>, chain: string): Counters
    decreases |ws|
  {
    if ws == [] then ZeroCounters
    else Plus(SumChainStats(ws[..|ws| - 1], chain), StatCounters(StatFor(ws[|ws| - 1], chain)))
  }

  /** A chain has an entry after the rebuild iff some wallet stores stats for it. */
  lemma {:induction false} RebuildChainsKeys(ws: seq<Wallet>, chain: string)
    ensures chain in RebuildChains(ws) <==> exists i :: 0 <= i < |ws| && chain in ws[i].chainStats
    decreases |ws|
  {
    if ws != [] {
      var init := ws[..|ws| - 1];
      RebuildChainsKeys(init, chain);
      if chain in RebuildChains(ws) && chain !in ws[|ws| - 1].chainStats {
        var i :| 0 <= i < |init| && chain in init[i].chainStats;
        assert ws[i] == init[i];
      }
      if exists i :: 0 <= i < |ws| && chain in ws[i].chainStats {
        var i :| 0 <= i < |ws| && chain in ws[i].chainStats;
        if i < |init| {
          assert init[i] == ws[i];
        }
      }
    }
  }

  lemma AddChainStatsCounters(chains: map<string, ChainMetrics>, stats: map<string, ChainStat>, chain: string)
    ensures ChainOf(AddChainStats(chains, stats), chain).counters
            == Plus(ChainOf(chains, chain).counters,
                    StatCounters(if chain in stats then stats[chain] else EmptyStat))
  {
    var r := AddChainStats(chains, stats);
    if chain in stats {
      assert r[chain].counters == Plus(ChainOf(chains, chain).counters, StatCounters(stats[chain]));
    } else if chain in chains {
      assert r[chain] == chains[chain];
      PlusZero(chains[chain].counters);
    } else {
      assert chain !in r;
      PlusZero(EmptyChain.counters);
    }
  }

  lemma PlusZero(c: Counters)
    ensures Plus(c, StatCounters(EmptyStat)) == c
  {
  }

  lemma AddNativeStatsCounters(chains: map<string, ChainMetrics>, stats: map<string, NativeStat>, chain: string)
    ensures ChainOf(AddNativeStats(chains, stats), chain).counters == ChainOf(chains, chain).counters
  {
    var r := AddNativeStats(chains, stats);
    if chain in chains {
      assert r[chain].counters == chains[chain].counters;
    } else {
      assert chain !in r;
    }
  }

  /** The rebuilt chain counters are the sums of the stored per-wallet entries,
      missing entries and fields counting 0. */
  lemma {:induction false} RebuildChainsCounters(ws: seq<Wallet>, chain: string)
    ensures ChainOf(RebuildChains(ws), chain).counters == SumChainStats(ws, chain)
    decreases |ws|
  {
    if ws != [] {
      var init := ws[..|ws| - 1];
      var w := ws[|ws| - 1];
      RebuildChainsCounters(init, chain);
      AddChainStatsCounters(RebuildChains(init), w.chainStats, chain);
      AddNativeStatsCounters(AddChainStats(RebuildChains(init), w.chainStats), w.nativeTokenStats, chain);
    }
  }

  // ---- Start-up: rebuilt totals, then the chain entries ----

  /** `startBot` as written: the metrics rebuilt from the stored wallets,
      then `initializeChainMetrics`, which resets them again. */
  function StartupMetricsAsWritten(ws: seq<Wallet>, config: Option<Config>,
                                   standards: map<string, map<string, string>>, now: int): (r: BotMetrics)
    ensures !HasChains(config) ==> r == RebuiltMetrics(ws, now)
    ensures HasChains(config) ==>
              && Global(r) == ZeroCounters
              && forall c :: c in r.chains ==> r.chains[c].counters == ZeroCounters
  {
    InitializeChainMetrics(RebuiltMetrics(ws, now), config, standards, now)
  }

  /** Once a configuration with chains is loaded, whatever the stored wallets
      hold, the bot starts with every total at zero; a stored transaction
      count of one is already lost. */
  lemma StartupDiscardsStoredTotals(ws: seq<Wallet>, config: Option<Config>,
                                    standards: map<string, map<string, string>>, now: int)
    requires HasChains(config)
    ensures Global(StartupMetricsAsWritten(ws, config, standards, now)) == ZeroCounters
    ensures SumOf(WalletTransactions, ws) > 0 ==>
              Global(StartupMetricsAsWritten(ws, config, standards, now)) != Global(RebuiltMetrics(ws, now))
  {
  }

  /** The chain initialisation the start-up needs: each configured chain
      without an entry gets a fresh one; totals and existing entries stay. */
  function InitializeMissingChainMetrics(m: BotMetrics, config: Option<Config>,
                                         standards: map<string, map<string, string>>): (r: BotMetrics)
    ensures !HasChains(config) ==> r == m
    ensures Global(r) == Global(m) && r.startTime == m.startTime
    ensures forall c :: c in r.chains <==> c in m.chains || (HasChains(config) && c in ConfigChains(config.value))
    ensures forall c :: c in m.chains ==> r.chains[c] == m.chains[c]
    ensures forall c :: c in r.chains && c !in m.chains ==> r.chains[c] == FreshChain(StandardTypes(standards, c))
  {
    if !HasChains(config) then m
    else
      var chains := ConfigChains(config.value);
      m.(chains := (map c | c in chains && c !in m.chains :: FreshChain(StandardTypes(standards, c))) + m.chains)
  }

  /** `startBot` with the corrected initialisation. */
  function StartupMetrics(ws: seq<Wallet>, config: Option<Config>,
                          standards: map<string, map<string, string>>, now: int): (r: BotMetrics)
    ensures Global(r) == Global(RebuiltMetrics(ws, now))
    ensures forall c :: c in RebuildChains(ws) ==> c in r.chains && r.chains[c] == RebuildChains(ws)[c]
    ensures forall c :: HasChains(config) && c in ConfigChains(config.value) ==> c in r.chains
  {
    InitializeMissingChainMetrics(RebuiltMetrics(ws, now), config, standards)
  }

  /** The corrected start-up keeps the totals and chain counters rebuilt from
      the stored wallets, and every configured chain has an entry. */
  lemma StartupKeepsStoredTotals(ws: seq<Wallet>, config: Option<Config>,
                                 standards: map<string, map<string, string>>, now: int, chain: string)
    ensures Global(StartupMetrics(ws, config, standards, now))
            == Counters(SumOf(WalletTransactions, ws), SumOf(WalletSuccessful, ws),
                        SumOf(WalletFailed, ws), SumOf(WalletGas, ws))
    ensures chain in RebuildChains(ws) ==>
              StartupMetrics(ws, config, standards, now).chains[chain].counters == SumChainStats(ws, chain)
    ensures HasChains(config) && chain in ConfigChains(config.value) ==>
              chain in StartupMetrics(ws, config, standards, now).chains
  {
    RebuildChainsCounters(ws, chain);
  }

  // ---- What a finished transfer writes back to the stored wallet ----

  /** The stored record as the token sweep writes it after a receipt, as the
      source does: the chain entry is replaced by the fields of the outcome
      alone (no failure count after a success; no success count or gas after
      a failure). */
  function PersistTokenOutcome(w: Wallet, chain: string, a: Attempt): (r: Wallet)
    requires !a.Errored?
    ensures Count(r.transactions) == Count(w.transactions) + 1
    ensures Count(StatFor(r, chain).transactions) == Count(StatFor(w, chain).transactions) + 1
    ensures forall c :: c != chain ==> StatFor(r, c) == StatFor(w, c)
    ensures r.nativeTokenStats == w.nativeTokenStats && r.tokens == w.tokens
  {
    var s := StatFor(w, chain);
    if a.Succeeded? then
      w.(transactions := Some(Count(w.transactions) + 1),
         successfulTransactions := Some(Count(w.successfulTransactions) + 1),
         gasUsed := Some(Count(w.gasUsed) + a.gasUsed),
         chainStats := w.chainStats[chain := ChainStat(Some(Count(s.transactions) + 1),
                                                       Some(Count(s.successfulTransactions) + 1),
                                                       None,
                                                       Some(Count(s.gasUsed) + a.gasUsed))])
    else
      w.(transactions := Some(Count(w.transactions) + 1),
         failedTransactions := Some(Count(w.failedTransactions) + 1),
         chainStats := w.chainStats[chain := ChainStat(Some(Count(s.transactions) + 1),
                                                       None,
                                                       Some(Count(s.failedTransactions) + 1),
                                                       None)])
  }

  /** After a revert the stored entry forgets its earlier successes and gas;
      after a success it forgets its earlier failures. Either way a balanced
      entry with such history is left unbalanced. */
  lemma {:induction false} PersistTokenOutcomeLosesCounts(w: Wallet, chain: string, a: Attempt)
    requires !a.Errored?
    requires Balanced(StatCounters(StatFor(w, chain)))
    requires a.Reverted? ==> Count(StatFor(w, chain).successfulTransactions) > 0
    requires a.Succeeded? ==> Count(StatFor(w, chain).failedTransactions) > 0
    ensures var s := StatCounters(StatFor(PersistTokenOutcome(w, chain, a), chain));
      && (a.Reverted? ==> s.successfulTransactions == 0 && s.gasUsed == 0)
      && (a.Succeeded? ==> s.failedTransactions == 0)
      && !Balanced(s)
  {
    var r := PersistTokenOutcome(w, chain, a);
    assert chain in r.chainStats;
    assert StatFor(r, chain) == r.chainStats[chain];
  }

  /** A stored chain entry with one more attempt counted and every other field kept. */
  function TallyStat(s: ChainStat, a: Attempt): (r: ChainStat)
    ensures StatCounters(r) == Tally(StatCounters(s), a)
  {
    var c := Tally(StatCounters(s), a);
    ChainStat(Some(c.transactions), Some(c.successfulTransactions),
              Some(c.failedTransactions), Some(c.gasUsed))
  }

  /** The stored record after a receipt with the chain entry's other counters kept. */
  function PersistTokenOutcomeKeeping(w: Wallet, chain: string, a: Attempt): (r: Wallet)
    requires !a.Errored?
    ensures StatCounters(StatFor(r, chain)) == Tally(StatCounters(StatFor(w, chain)), a)
    ensures forall c :: c != chain ==> StatFor(r, c) == StatFor(w, c)
    ensures r.chainStats.Keys == w.chainStats.Keys + {chain}
    ensures WalletTransactions(r) == WalletTransactions(w) + 1
    ensures WalletSuccessful(r) == WalletSuccessful(w) + (if a.Succeeded? then 1 else 0)
    ensures WalletFailed(r) == WalletFailed(w) + (if a.Succeeded? then 0 else 1)
    ensures WalletGas(r) == WalletGas(w) + GasOf(a)
    ensures r.nativeTokenStats == w.nativeTokenStats && r.tokens == w.tokens
  {
    var s := StatFor(w, chain);
    w.(transactions := Some(Count(w.transactions) + 1),
       successfulTransactions := Some(Count(w.successfulTransactions) + if a.Succeeded? then 1 else 0),
       failedTransactions := Some(Count(w.failedTransactions) + if a.Succeeded? then 0 else 1),
       gasUsed := Some(Count(w.gasUsed) + GasOf(a)),
       chainStats := w.chainStats[chain := TallyStat(s, a)])
  }

  /** With the entry kept, balanced stored stats stay balanced. */
  lemma PersistTokenOutcomeKeepsBalance(w: Wallet, chain: string, a: Attempt)
    requires !a.Errored?
    requires Balanced(StatCounters(StatFor(w, chain)))
    ensures Balanced(StatCounters(StatFor(PersistTokenOutcomeKeeping(w, chain, a), chain)))
  {
  }

  /** The stored record as the native sweep writes it after a receipt, as the
      source does: the native entry keeps no failure count after a success and
      no success count, gas or value after a failure. */
  function PersistNativeOutcome(w: Wallet, chain: string, a: Attempt): (r: Wallet)
    requires !a.Errored?
    ensures Count(r.transactions) == Count(w.transactions) + 1
    ensures Count(NativeStatFor(r, chain).transactions) == Count(NativeStatFor(w, chain).transactions) + 1
    ensures forall c :: c != chain ==> NativeStatFor(r, c) == NativeStatFor(w, c)
    ensures r.chainStats == w.chainStats && r.tokens == w.tokens
  {
    var s := NativeStatFor(w, chain);
    if a.Succeeded? then
      w.(transactions := Some(Count(w.transactions) + 1),
         successfulTransactions := Some(Count(w.successfulTransactions) + 1),
         gasUsed := Some(Count(w.gasUsed) + a.gasUsed),
         totalTransferred := Some(Count(w.totalTransferred) + a.transferred),
         nativeTokenStats := w.nativeTokenStats[chain := NativeStat(Some(Count(s.transactions) + 1),
                                                                    Some(Count(s.successfulTransactions) + 1),
                                                                    None,
                                                                    Some(Count(s.gasUsed) + a.gasUsed),
                                                                    Some(Count(s.totalTransferred) + a.transferred))])
    else
      w.(transactions := Some(Count(w.transactions) + 1),
         failedTransactions := Some(Count(w.failedTransactions) + 1),
         nativeTokenStats := w.nativeTokenStats[chain := NativeStat(Some(Count(s.transactions) + 1),
                                                                    None,
                                                                    Some(Count(s.failedTransactions) + 1),
                                                                    None,
                                                                    None)])
  }

  /** After a revert the stored native entry forgets its earlier successes,
      gas and value sent; after a success it forgets its earlier failures. */
  lemma {:induction false} PersistNativeOutcomeLosesCounts(w: Wallet, chain: string, a: Attempt)
    requires !a.Errored?
    requires Balanced(NativeCounters(NativeStatFor(w, chain)))
    requires a.Reverted? ==> Count(NativeStatFor(w, chain).successfulTransactions) > 0
    requires a.Succeeded? ==> Count(NativeStatFor(w, chain).failedTransactions) > 0
    ensures var n := NativeStatFor(PersistNativeOutcome(w, chain, a), chain);
      && (a.Reverted? ==> Count(n.successfulTransactions) == 0 && Count(n.gasUsed) == 0
                          && Count(n.totalTransferred) == 0)
      && (a.Succeeded? ==> Count(n.failedTransactions) == 0)
      && !Balanced(NativeCounters(n))
  {
    var r := PersistNativeOutcome(w, chain, a);
    assert chain in r.nativeTokenStats;
    assert NativeStatFor(r, chain) == r.nativeTokenStats[chain];
  }

  /** The stored record after a native receipt with the other native fields kept. */
  function PersistNativeOutcomeKeeping(w: Wallet, chain: string, a: Attempt): (r: Wallet)
    requires !a.Errored?
    ensures NativeCounters(NativeStatFor(r, chain)) == Tally(NativeCounters(NativeStatFor(w, chain)), a)
    ensures Count(NativeStatFor(r, chain).totalTransferred)
            == Count(NativeStatFor(w, chain).totalTransferred) + (if a.Succeeded? then a.transferred else 0)
    ensures forall c :: c != chain ==> NativeStatFor(r, c) == NativeStatFor(w, c)
    ensures WalletTransactions(r) == WalletTransactions(w) + 1
    ensures WalletSuccessful(r) == WalletSuccessful(w) + (if a.Succeeded? then 1 else 0)
    ensures WalletFailed(r) == WalletFailed(w) + (if a.Succeeded? then 0 else 1)
    ensures WalletGas(r) == WalletGas(w) + GasOf(a)
    ensures r.chainStats == w.chainStats && r.tokens == w.tokens
  {
    var s := NativeStatFor(w, chain);
    var c := Tally(NativeCounters(s), a);
    var sent := if a.Succeeded? then a.transferred else 0;
    w.(transactions := Some(Count(w.transactions) + 1),
       successfulTransactions := Some(Count(w.successfulTransactions) + if a.Succeeded? then 1 else 0),
       failedTransactions := Some(Count(w.failedTransactions) + if a.Succeeded? then 0 else 1),
       gasUsed := Some(Count(w.gasUsed) + GasOf(a)),
       totalTransferred := Some(Count(w.totalTransferred) + sent),
       nativeTokenStats := w.nativeTokenStats[chain := NativeStat(Some(c.transactions), Some(c.successfulTransactions),
                                                                  Some(c.failedTransactions), Some(c.gasUsed),
                                                                  Some(Count(s.totalTransferred) + sent))])
  }
}
