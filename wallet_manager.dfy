/** The wallet registry: the in-memory list of wallet records with the edits
    the command line and the bot make to it. Saving the list to disk after an
    edit is not modelled. Every edit reaches a wallet through
    `getWalletByPrivateKey`, which returns the first record with the key. */
module Registry {
  import opened Common
  import opened Records

  // ---- Lookup and views ----

  /** Index of the first wallet with the key. */
  function FindByKey(ws: seq<Wallet>, privateKey: string): (r: Option<nat>)
    ensures r.Some? ==> r.value < |ws| && ws[r.value].privateKey == privateKey
    ensures r.Some? ==> forall j :: 0 <= j < r.value ==> ws[j].privateKey != privateKey
    ensures r.None? <==> forall j :: 0 <= j < |ws| ==> ws[j].privateKey != privateKey
    decreases |ws|
  {
    if ws == [] then None
    else if ws[0].privateKey == privateKey then Some(0)
    else match FindByKey(ws[1..], privateKey)
      case Some(i) => Some(i + 1)
      case None => None
  }

  /** `getActiveWallets`: status 'active' and not paused, in list order. */
  function ActiveWallets(ws: seq<Wallet>): (r: seq<Wallet>)
    ensures forall w :: w in r <==> w in ws && IsActive(w)
  {
    Filter(IsActive, ws)
  }

  predicate ListsChain(chain: string, w: Wallet) { chain in w.chains }

  /** `getWalletsByChain`. */
  function WalletsOn(ws: seq<Wallet>, chain: string): (r: seq<Wallet>)
    ensures forall w :: w in r <==> w in ws && chain in w.chains
  {
    Filter(w => ListsChain(chain, w), ws)
  }

  predicate ActiveOn(chain: string, w: Wallet) { chain in w.chains && IsActive(w) }

  /** `getActiveWalletsByChain`. */
  function ActiveWalletsOn(ws: seq<Wallet>, chain: string): (r: seq<Wallet>)
    ensures forall w :: w in r <==> w in ws && chain in w.chains && IsActive(w)
  {
    Filter(w => ActiveOn(chain, w), ws)
  }

  /** The active wallets on a chain are the active ones among the chain's
      wallets, in the same order. */
  lemma ActiveWalletsOnIsComposition(ws: seq<Wallet>, chain: string)
    ensures ActiveWalletsOn(ws, chain) == ActiveWallets(WalletsOn(ws, chain))
    ensures ActiveWalletsOn(ws, chain) == WalletsOn(ActiveWallets(ws), chain)
  {
    var on := w => ListsChain(chain, w);
    var both := w => ActiveOn(chain, w);
    FilterCompose(on, IsActive, both, ws);
    FilterCompose(IsActive, on, both, ws);
  }

  // ---- Record edits ----

  /** A fresh wallet as `addWallet` builds it: active, unpaused, no tokens,
      every counter at zero and one zeroed `chainStats` entry per chain. */
  function NewWallet(privateKey: string, name: string, address: string, chains: seq<string>,
                     baseTokenRecipient: string): (w: Wallet)
    ensures w.privateKey == privateKey && w.name == name && w.address == address
    ensures w.chains == chains && w.baseTokenRecipient == baseTokenRecipient
    ensures IsActive(w) && w.tokens == [] && w.nativeTokenStats == map[]
  {
    Wallet(None, None, privateKey, name, address, chains, baseTokenRecipient, "active", [],
           Some(0), Some(0), Some(0), Some(0), Some(0), false,
           map c | c in chains :: ZeroChainStat, map[])
  }

  lemma NewWalletFields(privateKey: string, name: string, address: string, chains: seq<string>,
                        baseTokenRecipient: string)
    ensures var w := NewWallet(privateKey, name, address, chains, baseTokenRecipient);
      && w.privateKey == privateKey && w.address == address && w.chains == chains
      && IsActive(w) && w.tokens == []
      && Count(w.transactions) == 0 && Count(w.successfulTransactions) == 0
      && Count(w.failedTransactions) == 0 && Count(w.gasUsed) == 0 && Count(w.totalTransferred) == 0
      && w.chainStats.Keys == set c | c in chains
      && (forall c :: c in w.chainStats ==> w.chainStats[c] == ZeroChainStat)
  {
  }

  predicate AllKnown(chains: seq<string>, known: set<string>) {
    forall i :: 0 <= i < |chains| ==> chains[i] in known
  }

  predicate HasToken(tokens: seq<Token>, tokenAddress: string, chain: string) {
    exists i :: 0 <= i < |tokens| && Watches(tokens[i], tokenAddress, chain)
  }

  predicate Unwatched(tokenAddress: string, chain: string, t: Token) { !Watches(t, tokenAddress, chain) }

  /** The tokens left after removing every one watched for (tokenAddress, chain). */
  function WithoutToken(tokens: seq<Token>, tokenAddress: string, chain: string): (r: seq<Token>)
    ensures forall t :: t in r <==> t in tokens && !Watches(t, tokenAddress, chain)
    ensures |r| == |tokens| <==> !HasToken(tokens, tokenAddress, chain)
    ensures !HasToken(tokens, tokenAddress, chain) ==> r == tokens
  {
    var p := t => Unwatched(tokenAddress, chain, t);
    FilterSameLength(p, tokens);
    if !HasToken(tokens, tokenAddress, chain) then FilterAll(p, tokens); Filter(p, tokens)
    else Filter(p, tokens)
  }

  predicate NotChain(chain: string, c: string) { c != chain }
  predicate OffChain(chain: string, t: Token) { t.chain != chain }

  /** `removeChainFromWallet`'s edit: the chain, its tokens and its stats go. */
  function DropChain(w: Wallet, chain: string): (r: Wallet)
    ensures forall c :: c in r.chains <==> c in w.chains && c != chain
    ensures forall t :: t in r.tokens <==> t in w.tokens && t.chain != chain
    ensures r.chainStats == w.chainStats - {chain}
    ensures r == w.(chains := r.chains, tokens := r.tokens, chainStats := r.chainStats)
  {
    w.(chains := Filter(c => NotChain(chain, c), w.chains),
       tokens := Filter(t => OffChain(chain, t), w.tokens),
       chainStats := w.chainStats - {chain})
  }

  /** `addChainToWallet`'s edit: the chain appended with zeroed stats. */
  function AddChain(w: Wallet, chain: string): (r: Wallet)
    ensures r.chains == w.chains + [chain] && r.tokens == w.tokens
    ensures r.chainStats.Keys == w.chainStats.Keys + {chain} && r.chainStats[chain] == ZeroChainStat
    ensures forall c :: c in w.chainStats && c != chain ==> r.chainStats[c] == w.chainStats[c]
    ensures r == w.(chains := r.chains, chainStats := r.chainStats)
  {
    w.(chains := w.chains + [chain], chainStats := w.chainStats[chain := ZeroChainStat])
  }

  /** Removing a chain just added gives the wallet back, when the wallet had
      no trace of that chain before. */
  lemma DropChainUndoesAddChain(w: Wallet, chain: string)
    requires chain !in w.chains && chain !in w.chainStats
    requires forall i :: 0 <= i < |w.tokens| ==> w.tokens[i].chain != chain
    ensures DropChain(AddChain(w, chain), chain) == w
  {
    var p := c => NotChain(chain, c);
    FilterConcat(p, w.chains, [chain]);
    FilterAll(p, w.chains);
    FilterAll(t => OffChain(chain, t), w.tokens);
    assert w.chainStats[chain := ZeroChainStat] - {chain} == w.chainStats;
  }

  /** The counters `updateTokenStats` may assign; absent ones are kept. */
  datatype TokenStats = TokenStats(
    totalTransferred: Option<nat>,
    transactions: Option<nat>,
    successfulTransactions: Option<nat>,
    failedTransactions: Option<nat>)

  function ApplyStats(t: Token, stats: TokenStats): (r: Token)
    ensures r.(totalTransferred := t.totalTransferred, transactions := t.transactions,
               successfulTransactions := t.successfulTransactions, failedTransactions := t.failedTransactions) == t
    ensures stats.transactions.Some? ==> r.transactions == stats.transactions.value
    ensures stats.transactions.None? ==> r.transactions == t.transactions
    ensures stats.totalTransferred.Some? ==> r.totalTransferred == stats.totalTransferred.value
  {
    t.(totalTransferred := stats.totalTransferred.GetOr(t.totalTransferred),
       transactions := stats.transactions.GetOr(t.transactions),
       successfulTransactions := stats.successfulTransactions.GetOr(t.successfulTransactions),
       failedTransactions := stats.failedTransactions.GetOr(t.failedTransactions))
  }

  /** Index of the first token watched for (tokenAddress, chain). */
  function FindToken(tokens: seq<Token>, tokenAddress: string, chain: string): (r: Option<nat>)
    ensures r.Some? ==> r.value < |tokens| && Watches(tokens[r.value], tokenAddress, chain)
    ensures r.None? <==> !HasToken(tokens, tokenAddress, chain)
    decreases |tokens|
  {
    if tokens == [] then None
    else if Watches(tokens[0], tokenAddress, chain) then Some(0)
    else match FindToken(tokens[1..], tokenAddress, chain)
      case Some(i) => Some(i + 1)
      case None =>
        assert forall i :: 1 <= i < |tokens| ==> tokens[i] == tokens[1..][i - 1];
        None
  }

  /** The fields `updateWallet` accepts; an absent one is left alone. */
  datatype WalletUpdates = WalletUpdates(name: Option<string>, chains: Option<seq<string>>,
                                         baseTokenRecipient: Option<string>)

  function ApplyUpdates(w: Wallet, u: WalletUpdates): (r: Wallet)
    ensures r == w.(name := r.name, chains := r.chains, baseTokenRecipient := r.baseTokenRecipient)
    ensures r.name == u.name.GetOr(w.name) && r.chains == u.chains.GetOr(w.chains)
    ensures r.baseTokenRecipient == u.baseTokenRecipient.GetOr(w.baseTokenRecipient)
  {
    w.(name := u.name.GetOr(w.name), chains := u.chains.GetOr(w.chains),
       baseTokenRecipient := u.baseTokenRecipient.GetOr(w.baseTokenRecipient))
  }

  /** Every wallet holds at most one token per (tokenAddress, chain). */
  ghost predicate RegistryUnique(ws: seq<Wallet>) {
    forall i :: 0 <= i < |ws| ==> UniqueTokens(ws[i].tokens)
  }

  /** Appending a token not yet watched keeps the tokens unique. */
  lemma AddTokenKeepsUnique(tokens: seq<Token>, t: Token)
    requires UniqueTokens(tokens)
    requires !HasToken(tokens, t.tokenAddress, t.chain)
    ensures UniqueTokens(tokens + [t])
  {
    var r := tokens + [t];
    forall i, j | 0 <= i < j < |r|
      ensures !Watches(r[j], r[i].tokenAddress, r[i].chain)
    {
      if j == |tokens| {
        assert r[i] == tokens[i];
      }
    }
  }

  /** A token kept from the tail is never watched as the head is. */
  lemma TailUnwatchedByHead(tokens: seq<Token>, x: Token)
    requires UniqueTokens(tokens) && tokens != [] && x in tokens[1..]
    ensures !Watches(x, tokens[0].tokenAddress, tokens[0].chain)
  {
    var k :| 0 <= k < |tokens[1..]| && tokens[1..][k] == x;
    assert tokens[k + 1] == x;
  }

  lemma {:induction false} RemoveKeepsUnique(tokens: seq<Token>, p: Token -> bool)
    requires UniqueTokens(tokens)
    ensures UniqueTokens(Filter(p, tokens))
  {
    if tokens != [] {
      RemoveKeepsUnique(tokens[1..], p);
      var rest := Filter(p, tokens[1..]);
      if p(tokens[0]) {
        var r := [tokens[0]] + rest;
        forall i, j | 0 <= i < j < |r|
          ensures !Watches(r[j], r[i].tokenAddress, r[i].chain)
        {
          if i == 0 {
            assert r[j] == rest[j - 1];
            TailUnwatchedByHead(tokens, r[j]);
          } else {
            assert r[i] == rest[i - 1] && r[j] == rest[j - 1];
          }
        }
      }
    }
  }

  lemma UpdateKeepsUnique(tokens: seq<Token>, k: nat, t: Token)
    requires UniqueTokens(tokens) && k < |tokens|
    requires Watches(t, tokens[k].tokenAddress, tokens[k].chain)
    ensures UniqueTokens(tokens[k := t])
  {
  }

  // ---- Statistics ----

  /** Per chain of the known chains: its wallets, active wallets, tokens on
      it and the sums of their stored chain counters. */
  datatype ChainSummary = ChainSummary(wallets: nat, activeWallets: nat, tokens: nat,
                                       transactions: nat, successfulTransactions: nat, failedTransactions: nat)

  /** Per token type: how many tokens, and the sums of their counters. */
  datatype TypeSummary = TypeSummary(count: nat, transactions: nat, successfulTransactions: nat, failedTransactions: nat)

  /** `getStats` without the floating-point gas sums. A wallet counter that
      is missing makes its plain `reduce` sum NaN, written `None`. */
  datatype Stats = Stats(
    totalWallets: nat, activeWallets: nat, pausedWallets: nat, totalTokens: nat,
    totalTransactions: Option<nat>, successfulTransactions: Option<nat>, failedTransactions: Option<nat>,
    chains: map<string, ChainSummary>, tokenTypes: map<string, TypeSummary>)

  /** `ws.reduce((sum, w) => sum + w.field, 0)`: NaN once one is missing. */
  function StrictSum(f: Wallet -> Counter, ws: seq<Wallet>): (r: Option<nat>)
    ensures r.Some? <==> forall i :: 0 <= i < |ws| ==> f(ws[i]).Some?
    decreases |ws|
  {
    if ws == [] then Some(0)
    else
      var init := StrictSum(f, ws[..|ws| - 1]);
      var last := f(ws[|ws| - 1]);
      assert forall i :: 0 <= i < |ws| - 1 ==> ws[i] == ws[..|ws| - 1][i];
      if init.Some? && last.Some? then Some(init.value + last.value) else None
  }

  function TokenCount(w: Wallet): nat { |w.tokens| }
  predicate IsPaused(w: Wallet) { w.isPaused }
  function StoredTransactions(w: Wallet): Counter { w.transactions }
  function StoredSuccessful(w: Wallet): Counter { w.successfulTransactions }
  function StoredFailed(w: Wallet): Counter { w.failedTransactions }

  function ChainSummaryOf(ws: seq<Wallet>, chain: string): ChainSummary {
    var on := WalletsOn(ws, chain);
    ChainSummary(|on|, |Filter(IsActive, on)|,
                 SumOf((w: Wallet) => |Filter(t => OnChain(chain, t), w.tokens)|, on),
                 SumOf((w: Wallet) => Count(StatOf(w, chain).transactions), on),
                 SumOf((w: Wallet) => Count(StatOf(w, chain).successfulTransactions), on),
                 SumOf((w: Wallet) => Count(StatOf(w, chain).failedTransactions), on))
  }

  predicate OnChain(chain: string, t: Token) { t.chain == chain }

  function StatOf(w: Wallet, chain: string): ChainStat {
    if chain in w.chainStats then w.chainStats[chain] else ChainStat(None, None, None, None)
  }

  /** One token folded into the per-type table. */
  function AddTokenType(types: map<string, TypeSummary>, t: Token): map<string, TypeSummary> {
    var e := if t.tokenType in types then types[t.tokenType] else TypeSummary(0, 0, 0, 0);
    types[t.tokenType := TypeSummary(e.count + 1, e.transactions + t.transactions,
                                     e.successfulTransactions + t.successfulTransactions,
                                     e.failedTransactions + t.failedTransactions)]
  }

  function AddTokenTypes(types: map<string, TypeSummary>, tokens: seq<Token>): map<string, TypeSummary>
    decreases |tokens|
  {
    if tokens == [] then types
    else AddTokenType(AddTokenTypes(types, tokens[..|tokens| - 1]), tokens[|tokens| - 1])
  }

  /** The per-type table of all wallets' tokens, wallet by wallet. */
  function TypeTable(ws: seq<Wallet>): map<string, TypeSummary>
    decreases |ws|
  {
    if ws == [] then map[] else AddTokenTypes(TypeTable(ws[..|ws| - 1]), ws[|ws| - 1].tokens)
  }

  /** Number of tokens of a type in one list: an independent count. */
  function CountOfType(tokens: seq<Token>, tokenType: string): nat
    decreases |tokens|
  {
    if tokens == [] then 0
    else CountOfType(tokens[..|tokens| - 1], tokenType) + (if tokens[|tokens| - 1].tokenType == tokenType then 1 else 0)
  }

  /** Number of tokens of a type over all wallets. */
  function TypeCount(ws: seq<Wallet>, tokenType: string): nat
    decreases |ws|
  {
    if ws == [] then 0 else TypeCount(ws[..|ws| - 1], tokenType) + CountOfType(ws[|ws| - 1].tokens, tokenType)
  }

  /** No wallet is both active and paused, so the two counts of `getStats`
      never add up to more than the wallets there are. */
  lemma {:induction false} ActiveAndPausedDisjoint(ws: seq<Wallet>)
    ensures |Filter(IsActive, ws)| + |Filter(IsPaused, ws)| <= |ws|
  {
    if ws != [] {
      ActiveAndPausedDisjoint(ws[1..]);
    }
  }

  /** `getStats`: wallet counts, the token total, the strict counter sums,
      one summary per known chain and the per-type table. */
  function StatsOf(ws: seq<Wallet>, known: set<string>): (r: Stats)
    ensures r.totalWallets == |ws| && r.activeWallets + r.pausedWallets <= r.totalWallets
    ensures r.chains.Keys == known
    ensures ws == [] ==> r.totalTokens == 0 && r.totalTransactions == Some(0) && r.tokenTypes == map[]
  {
    ActiveAndPausedDisjoint(ws);
    Stats(|ws|, |ActiveWallets(ws)|, |Filter(IsPaused, ws)|, SumOf(TokenCount, ws),
          StrictSum(StoredTransactions, ws),
          StrictSum(StoredSuccessful, ws),
          StrictSum(StoredFailed, ws),
          map c | c in known :: ChainSummaryOf(ws, c),
          TypeTable(ws))
  }

  lemma {:induction false} AddTokenTypesCount(types: map<string, TypeSummary>, tokens: seq<Token>, tokenType: string)
    ensures var r := AddTokenTypes(types, tokens);
      (tokenType in r <==> tokenType in types || CountOfType(tokens, tokenType) > 0)
      && (tokenType in r ==>
            r[tokenType].count == (if tokenType in types then types[tokenType].count else 0) + CountOfType(tokens, tokenType))
    decreases |tokens|
  {
    if tokens != [] {
      AddTokenTypesCount(types, tokens[..|tokens| - 1], tokenType);
    }
  }

  /** The per-type table counts exactly the tokens of each type, and holds a
      row for exactly the types some wallet has a token of. */
  lemma {:induction false} TypeTableCounts(ws: seq<Wallet>, tokenType: string)
    ensures tokenType in TypeTable(ws) <==> TypeCount(ws, tokenType) > 0
    ensures tokenType in TypeTable(ws) ==> TypeTable(ws)[tokenType].count == TypeCount(ws, tokenType)
    decreases |ws|
  {
    if ws != [] {
      var init := ws[..|ws| - 1];
      TypeTableCounts(init, tokenType);
      AddTokenTypesCount(TypeTable(init), ws[|ws| - 1].tokens, tokenType);
    }
  }

  /** The headline counts of `getStats`. */
  lemma StatsHeadline(ws: seq<Wallet>, known: set<string>, chain: string)
    ensures StatsOf(ws, known).totalWallets == |ws|
    ensures StatsOf(ws, known).activeWallets == |ActiveWallets(ws)|
    ensures chain in known <==> chain in StatsOf(ws, known).chains
    ensures chain in known ==>
              StatsOf(ws, known).chains[chain].wallets == |WalletsOn(ws, chain)|
              && StatsOf(ws, known).chains[chain].activeWallets == |ActiveWalletsOn(ws, chain)|
  {
    if chain in known {
      ActiveWalletsOnIsComposition(ws, chain);
    }
  }

  // ---- The registry object ----

  class WalletManager {
    var wallets: seq<Wallet>
    var chainsConfig: set<string>
    var tokenStandards: map<string, map<string, string>>

    /** The registry once its wallets, chains and standards are loaded. */
    constructor (wallets: seq<Wallet>, chainsConfig: set<string>, tokenStandards: map<string, map<string, string>>)
      ensures this.wallets == wallets && this.chainsConfig == chainsConfig && this.tokenStandards == tokenStandards
    {
      this.wallets := wallets;
      this.chainsConfig := chainsConfig;
      this.tokenStandards := tokenStandards;
    }

    /** `addWallet`: an unknown chain throws; a key already present gives
        null; otherwise the new wallet is appended and returned. `address`
        is the address derived from the key. */
    method AddWallet(privateKey: string, name: string, chains: seq<string>, baseTokenRecipient: string, address: string)
      returns (r: Result<Option<Wallet>>)
      modifies this
      ensures r.Err? <==> !AllKnown(chains, chainsConfig)
      ensures r == Ok(None) <==> AllKnown(chains, chainsConfig) && FindByKey(old(wallets), privateKey).Some?
      ensures r.Ok? && r.value.Some? ==>
                r.value.value == NewWallet(privateKey, name, address, chains, baseTokenRecipient)
                && wallets == old(wallets) + [r.value.value]
      ensures !(r.Ok? && r.value.Some?) ==> wallets == old(wallets)
      ensures chainsConfig == old(chainsConfig) && tokenStandards == old(tokenStandards)
    {
      if exists i :: 0 <= i < |chains| && chains[i] !in chainsConfig {
        return Err;
      }
      if FindByKey(wallets, privateKey).Some? {
        return Ok(None);
      }
      var w := NewWallet(privateKey, name, address, chains, baseTokenRecipient);
      wallets := wallets + [w];
      return Ok(Some(w));
    }

    /** `addTokenToWallet`: false, with nothing changed, for a missing
        wallet, a chain the wallet does not list, a type without a standard
        on the chain, or a token already watched; a chain without any
        standards throws. Otherwise one zero-counter token is appended and
        saved, after which the success message names the chain through the
        chain table and throws when the chain is not in it. */
    method AddTokenToWallet(privateKey: string, tokenAddress: string, recipientAddress: string,
                            tokenName: string, chain: string, tokenType: string)
      returns (r: Result<bool>)
      modifies this
      ensures var i := FindByKey(old(wallets), privateKey);
        var appends :=
          && i.Some?
          && chain in old(wallets)[i.value].chains
          && chain in tokenStandards && tokenType in tokenStandards[chain] && tokenStandards[chain][tokenType] != ""
          && !HasToken(old(wallets)[i.value].tokens, tokenAddress, chain);
        && (r == Ok(true) <==> appends && chain in chainsConfig)
        && (r.Err? <==> (i.Some? && chain in old(wallets)[i.value].chains && chain !in tokenStandards)
                        || (appends && chain !in chainsConfig))
        && (appends ==>
              wallets == old(wallets)[i.value := old(wallets)[i.value].(tokens := old(wallets)[i.value].tokens
                                                  + [NewToken(tokenAddress, recipientAddress, tokenName, chain, tokenType)])])
        && (!appends ==> wallets == old(wallets))
      ensures RegistryUnique(old(wallets)) ==> RegistryUnique(wallets)
      ensures chainsConfig == old(chainsConfig) && tokenStandards == old(tokenStandards)
    {
      var i := FindByKey(wallets, privateKey);
      if i.None? {
        return Ok(false);
      }
      var w := wallets[i.value];
      if chain !in w.chains {
        return Ok(false);
      }
      if chain !in tokenStandards {
        return Err;
      }
      if tokenType !in tokenStandards[chain] || tokenStandards[chain][tokenType] == "" {
        return Ok(false);
      }
      if exists k :: 0 <= k < |w.tokens| && Watches(w.tokens[k], tokenAddress, chain) {
        return Ok(false);
      }
      var t := NewToken(tokenAddress, recipientAddress, tokenName, chain, tokenType);
      if RegistryUnique(wallets) {
        AddTokenKeepsUnique(w.tokens, t);
      }
      wallets := wallets[i.value := w.(tokens := w.tokens + [t])];
      if chain !in chainsConfig {
        return Err;
      }
      return Ok(true);
    }

    /** `removeTokenFromWallet`: every token watched for (tokenAddress,
        chain) is removed; false iff the wallet is missing or none matched.
        After a removal the save is followed by a message that names the
        chain through the chain table and throws for a chain not in it. */
    method RemoveTokenFromWallet(privateKey: string, tokenAddress: string, chain: string) returns (r: Result<bool>)
      modifies this
      ensures var i := FindByKey(old(wallets), privateKey);
        var found := i.Some? && HasToken(old(wallets)[i.value].tokens, tokenAddress, chain);
        && (r == Ok(true) <==> found && chain in chainsConfig)
        && (r.Err? <==> found && chain !in chainsConfig)
      ensures var i := FindByKey(old(wallets), privateKey);
        i.Some? ==> wallets == old(wallets)[i.value := old(wallets)[i.value].(tokens :=
                                 WithoutToken(old(wallets)[i.value].tokens, tokenAddress, chain))]
      ensures FindByKey(old(wallets), privateKey).None? ==> wallets == old(wallets)
      ensures RegistryUnique(old(wallets)) ==> RegistryUnique(wallets)
      ensures chainsConfig == old(chainsConfig) && tokenStandards == old(tokenStandards)
    {
      var i := FindByKey(wallets, privateKey);
      if i.None? {
        return Ok(false);
      }
      var w := wallets[i.value];
      var initialLength := |w.tokens|;
      var tokens := WithoutToken(w.tokens, tokenAddress, chain);
      if RegistryUnique(wallets) {
        RemoveKeepsUnique(w.tokens, t => Unwatched(tokenAddress, chain, t));
      }
      wallets := wallets[i.value := w.(tokens := tokens)];
      if |tokens| == initialLength {
        return Ok(false);
      }
      if chain !in chainsConfig {
        return Err;
      }
      return Ok(true);
    }

    /** `removeWallet`: every wallet with the key goes; false iff there was none. */
    method RemoveWallet(privateKey: string) returns (removed: bool)
      modifies this
      ensures removed <==> FindByKey(old(wallets), privateKey).Some?
      ensures wallets == WithoutWallet(old(wallets), privateKey)
      ensures chainsConfig == old(chainsConfig) && tokenStandards == old(tokenStandards)
    {
      if FindByKey(wallets, privateKey).None? {
        RemoveUnknownKey(wallets, privateKey);
        return false;
      }
      wallets := WithoutWallet(wallets, privateKey);
      return true;
    }

    /** `updateWalletStatus`. */
    method UpdateWalletStatus(privateKey: string, status: string) returns (found: bool)
      modifies this
      ensures var i := FindByKey(old(wallets), privateKey);
        && (found <==> i.Some?)
        && (i.Some? ==> wallets == old(wallets)[i.value := old(wallets)[i.value].(status := status)])
        && (i.None? ==> wallets == old(wallets))
      ensures chainsConfig == old(chainsConfig) && tokenStandards == old(tokenStandards)
    {
      var i := FindByKey(wallets, privateKey);
      if i.None? {
        return false;
      }
      wallets := wallets[i.value := wallets[i.value].(status := status)];
      return true;
    }

    /** `updateTokenStats`: the first matching token of the first matching
        wallet takes the given counters. */
    method UpdateTokenStats(privateKey: string, tokenAddress: string, chain: string, stats: TokenStats)
      returns (found: bool)
      modifies this
      ensures var i := FindByKey(old(wallets), privateKey);
        found <==> i.Some? && HasToken(old(wallets)[i.value].tokens, tokenAddress, chain)
      ensures var i := FindByKey(old(wallets), privateKey);
        found ==>
          var w := old(wallets)[i.value];
          var k := FindToken(w.tokens, tokenAddress, chain).value;
          wallets == old(wallets)[i.value := w.(tokens := w.tokens[k := ApplyStats(w.tokens[k], stats)])]
      ensures !found ==> wallets == old(wallets)
      ensures chainsConfig == old(chainsConfig) && tokenStandards == old(tokenStandards)
    {
      var i := FindByKey(wallets, privateKey);
      if i.None? {
        return false;
      }
      var w := wallets[i.value];
      var k := FindToken(w.tokens, tokenAddress, chain);
      if k.None? {
        return false;
      }
      wallets := wallets[i.value := w.(tokens := w.tokens[k.value := ApplyStats(w.tokens[k.value], stats)])];
      return true;
    }

    method GetActiveWallets() returns (r: seq<Wallet>)
      ensures r == ActiveWallets(wallets)
    {
      r := ActiveWallets(wallets);
    }

    method GetWalletsByChain(chain: string) returns (r: seq<Wallet>)
      ensures r == WalletsOn(wallets, chain)
    {
      r := WalletsOn(wallets, chain);
    }

    method GetActiveWalletsByChain(chain: string) returns (r: seq<Wallet>)
      ensures r == ActiveWalletsOn(wallets, chain)
    {
      r := ActiveWalletsOn(wallets, chain);
    }

    /** `getWalletByPrivateKey`: the first wallet with the key. */
    method GetWalletByPrivateKey(privateKey: string) returns (r: Option<Wallet>)
      ensures r.Some? <==> exists i :: 0 <= i < |wallets| && wallets[i].privateKey == privateKey
      ensures r.Some? ==> r.value == wallets[FindByKey(wallets, privateKey).value]
    {
      var i := FindByKey(wallets, privateKey);
      if i.None? {
        return None;
      }
      return Some(wallets[i.value]);
    }

    method GetAllWallets() returns (r: seq<Wallet>)
      ensures r == wallets
    {
      r := wallets;
    }

    /** `pauseWallet` (`paused` true) and `unpauseWallet` (`paused` false). */
    method SetPaused(privateKey: string, paused: bool) returns (found: bool)
      modifies this
      ensures var i := FindByKey(old(wallets), privateKey);
        && (found <==> i.Some?)
        && (i.Some? ==> wallets == old(wallets)[i.value := old(wallets)[i.value].(isPaused := paused)])
        && (i.None? ==> wallets == old(wallets))
      ensures chainsConfig == old(chainsConfig) && tokenStandards == old(tokenStandards)
    {
      var i := FindByKey(wallets, privateKey);
      if i.None? {
        return false;
      }
      wallets := wallets[i.value := wallets[i.value].(isPaused := paused)];
      return true;
    }

    method PauseWallet(privateKey: string) returns (found: bool)
      modifies this
      ensures var i := FindByKey(old(wallets), privateKey);
        && (found <==> i.Some?)
        && (i.Some? ==> wallets == old(wallets)[i.value := old(wallets)[i.value].(isPaused := true)])
        && (i.None? ==> wallets == old(wallets))
      ensures chainsConfig == old(chainsConfig) && tokenStandards == old(tokenStandards)
    {
      found := SetPaused(privateKey, true);
    }

    method UnpauseWallet(privateKey: string) returns (found: bool)
      modifies this
      ensures var i := FindByKey(old(wallets), privateKey);
        && (found <==> i.Some?)
        && (i.Some? ==> wallets == old(wallets)[i.value := old(wallets)[i.value].(isPaused := false)])
        && (i.None? ==> wallets == old(wallets))
      ensures chainsConfig == old(chainsConfig) && tokenStandards == old(tokenStandards)
    {
      found := SetPaused(privateKey, false);
    }

    /** `isWalletPaused`: false for an unknown key. */
    method IsWalletPaused(privateKey: string) returns (paused: bool)
      ensures var i := FindByKey(wallets, privateKey);
        paused <==> i.Some? && wallets[i.value].isPaused
    {
      var i := FindByKey(wallets, privateKey);
      if i.None? {
        return false;
      }
      return wallets[i.value].isPaused;
    }

    /** `toggleWallet`: flips `isPaused` and leaves `status` alone; null for
        an unknown key. */
    method ToggleWallet(privateKey: string) returns (r: Option<Wallet>)
      modifies this
      ensures var i := FindByKey(old(wallets), privateKey);
        && (r.Some? <==> i.Some?)
        && (i.Some? ==> r.value == old(wallets)[i.value].(isPaused := !old(wallets)[i.value].isPaused)
                        && wallets == old(wallets)[i.value := r.value])
        && (i.None? ==> wallets == old(wallets))
      ensures chainsConfig == old(chainsConfig) && tokenStandards == old(tokenStandards)
    {
      var i := FindByKey(wallets, privateKey);
      if i.None? {
        return None;
      }
      var w := wallets[i.value].(isPaused := !wallets[i.value].isPaused);
      wallets := wallets[i.value := w];
      return Some(w);
    }

    /** `addChainToWallet`: false for a missing wallet, an unknown chain or
        one the wallet already lists. */
    method AddChainToWallet(privateKey: string, chain: string) returns (added: bool)
      modifies this
      ensures var i := FindByKey(old(wallets), privateKey);
        && (added <==> i.Some? && chain in chainsConfig && chain !in old(wallets)[i.value].chains)
        && (added ==> wallets == old(wallets)[i.value := AddChain(old(wallets)[i.value], chain)])
        && (!added ==> wallets == old(wallets))
      ensures chainsConfig == old(chainsConfig) && tokenStandards == old(tokenStandards)
    {
      var i := FindByKey(wallets, privateKey);
      if i.None? || chain !in chainsConfig || chain in wallets[i.value].chains {
        return false;
      }
      wallets := wallets[i.value := AddChain(wallets[i.value], chain)];
      return true;
    }

    /** `removeChainFromWallet`: false for a missing wallet or a chain it
        does not list; otherwise the chain, its tokens and its stats go and
        are saved, after which the message naming the chain through the
        chain table throws for a chain not in it. */
    method RemoveChainFromWallet(privateKey: string, chain: string) returns (r: Result<bool>)
      modifies this
      ensures var i := FindByKey(old(wallets), privateKey);
        var listed := i.Some? && chain in old(wallets)[i.value].chains;
        && (r == Ok(true) <==> listed && chain in chainsConfig)
        && (r.Err? <==> listed && chain !in chainsConfig)
        && (listed ==> wallets == old(wallets)[i.value := DropChain(old(wallets)[i.value], chain)])
        && (!listed ==> wallets == old(wallets))
      ensures chainsConfig == old(chainsConfig) && tokenStandards == old(tokenStandards)
    {
      var i := FindByKey(wallets, privateKey);
      if i.None? || chain !in wallets[i.value].chains {
        return Ok(false);
      }
      wallets := wallets[i.value := DropChain(wallets[i.value], chain)];
      if chain !in chainsConfig {
        return Err;
      }
      return Ok(true);
    }

    /** `updateBaseTokenRecipient`. */
    method UpdateBaseTokenRecipient(privateKey: string, recipientAddress: string) returns (found: bool)
      modifies this
      ensures var i := FindByKey(old(wallets), privateKey);
        && (found <==> i.Some?)
        && (i.Some? ==> wallets == old(wallets)[i.value := old(wallets)[i.value].(baseTokenRecipient := recipientAddress)])
        && (i.None? ==> wallets == old(wallets))
      ensures chainsConfig == old(chainsConfig) && tokenStandards == old(tokenStandards)
    {
      var i := FindByKey(wallets, privateKey);
      if i.None? {
        return false;
      }
      wallets := wallets[i.value := wallets[i.value].(baseTokenRecipient := recipientAddress)];
      return true;
    }

    /** `updateWallet`: only name, chains and recipient, and only those given. */
    method UpdateWallet(privateKey: string, updates: WalletUpdates) returns (r: Option<Wallet>)
      modifies this
      ensures var i := FindByKey(old(wallets), privateKey);
        && (r.Some? <==> i.Some?)
        && (i.Some? ==> r.value == ApplyUpdates(old(wallets)[i.value], updates)
                        && wallets == old(wallets)[i.value := r.value])
        && (i.None? ==> wallets == old(wallets))
      ensures chainsConfig == old(chainsConfig) && tokenStandards == old(tokenStandards)
    {
      var i := FindByKey(wallets, privateKey);
      if i.None? {
        return None;
      }
      var w := ApplyUpdates(wallets[i.value], updates);
      wallets := wallets[i.value := w];
      return Some(w);
    }

    /** `getStats`: the list reductions, one summary per known chain, and
        the per-type table built token by token. */
    method GetStats() returns (stats: Stats)
      ensures stats == StatsOf(wallets, chainsConfig)
    {
      var types: map<string, TypeSummary> := map[];
      var i := 0;
      while i < |wallets|
        invariant 0 <= i <= |wallets|
        invariant types == TypeTable(wallets[..i])
        decreases |wallets| - i
      {
        assert wallets[..i + 1][..i] == wallets[..i];
        var tokens := wallets[i].tokens;
        ghost var start := types;
        var j := 0;
        while j < |tokens|
          invariant 0 <= j <= |tokens|
          invariant types == AddTokenTypes(start, tokens[..j])
          decreases |tokens| - j
        {
          assert tokens[..j + 1][..j] == tokens[..j];
          types := AddTokenType(types, tokens[j]);
          j := j + 1;
        }
        assert tokens[..j] == tokens;
        i := i + 1;
      }
      assert wallets[..i] == wallets;
      var s := StatsOf(wallets, chainsConfig);
      stats := s.(tokenTypes := types);
    }
  }

  predicate KeyIsNot(privateKey: string, w: Wallet) { w.privateKey != privateKey }

  /** `removeWallet`'s edit: every wallet with the key goes. */
  function WithoutWallet(ws: seq<Wallet>, privateKey: string): (r: seq<Wallet>)
    ensures forall w :: w in r <==> w in ws && w.privateKey != privateKey
  {
    Filter(w => KeyIsNot(privateKey, w), ws)
  }

  // ---- Properties across operations ----

  /** Removing a key no wallet has changes nothing. */
  lemma RemoveUnknownKey(ws: seq<Wallet>, privateKey: string)
    requires FindByKey(ws, privateKey).None?
    ensures WithoutWallet(ws, privateKey) == ws
  {
    FilterAll(w => KeyIsNot(privateKey, w), ws);
  }

  /** Removing a wallet just added, under a key that was new, gives the list back. */
  lemma RemoveUndoesAdd(ws: seq<Wallet>, w: Wallet)
    requires FindByKey(ws, w.privateKey).None?
    ensures WithoutWallet(ws + [w], w.privateKey) == ws
  {
    var p := x => KeyIsNot(w.privateKey, x);
    FilterConcat(p, ws, [w]);
    RemoveUnknownKey(ws, w.privateKey);
  }

  /** After a removal no wallet has the key. */
  lemma RemovedKeyIsGone(ws: seq<Wallet>, privateKey: string)
    ensures FindByKey(WithoutWallet(ws, privateKey), privateKey).None?
  {
    var r := WithoutWallet(ws, privateKey);
    forall j | 0 <= j < |r| ensures r[j].privateKey != privateKey {
      assert r[j] in r;
    }
  }

  /** Adding a token and removing it again restores the token list, when the
      token was not watched before. */
  lemma RemoveUndoesAddToken(tokens: seq<Token>, t: Token)
    requires !HasToken(tokens, t.tokenAddress, t.chain)
    ensures WithoutToken(tokens + [t], t.tokenAddress, t.chain) == tokens
  {
    var p := x => Unwatched(t.tokenAddress, t.chain, x);
    FilterConcat(p, tokens, [t]);
    FilterAll(p, tokens);
  }

  /** Pausing and then unpausing gives back a wallet that was not paused. */
  lemma PauseThenUnpause(w: Wallet)
    requires !w.isPaused
    ensures w.(isPaused := true).(isPaused := false) == w
    ensures !IsActive(w.(isPaused := true))
  {
  }

  /** Toggling twice gives the wallet back. */
  lemma ToggleTwice(w: Wallet)
    ensures w.(isPaused := !w.isPaused).(isPaused := !w.(isPaused := !w.isPaused).isPaused) == w
  {
  }
}
