/** The block-driven native-token monitor: on each new block of a chain it
    checks every active wallet listing that chain and sends the balance
    above the gas cost to the wallet's base-token recipient. It keeps its own
    counters and a per-chain gas-price cache. The network (balance, gas
    price, broadcast) is a parameter. */
module BlockMonitor {
  import opened Common
  import opened Records
  import opened SweepMath
  import Registry

  /** Gas of a plain value transfer (G_transaction, Ethereum Yellow Paper, Appendix G). */
  const NativeTransferGas: nat := 21000
  const DefaultCacheDuration: int := 1000
  /** `config.gasPriceMultiplier || 1.5`, in thousandths. */
  const DefaultMultiplierMilli: int := 1500

  /** `v || d` as a number, in thousandths as `MilliOf` reads it
      (floor(x * 1000), `None` for NaN): a missing or falsy value gives the
      default, a truthy one is kept whatever its type. */
  function OrDefaultMilli(v: Option<Value>, defaultMilli: int): (r: Option<int>)
    ensures v.None? || !Truthy(v.value) ==> r == Some(defaultMilli)
    ensures v.Some? && Truthy(v.value) ==> r == MilliOf(v)
  {
    if v.Some? && Truthy(v.value) then MilliOf(v) else Some(defaultMilli)
  }

  /** `config.gasPriceCacheDuration || 1000`, in thousandths of a millisecond. */
  function CacheDuration(cfg: Config): (d: Option<int>)
    ensures "gasPriceCacheDuration" !in cfg ==> d == Some(DefaultCacheDuration * 1000)
    ensures "gasPriceCacheDuration" in cfg && !Truthy(cfg["gasPriceCacheDuration"]) ==> d == Some(DefaultCacheDuration * 1000)
    ensures "gasPriceCacheDuration" in cfg && cfg["gasPriceCacheDuration"].Int? && cfg["gasPriceCacheDuration"].i != 0
            ==> d == Some(cfg["gasPriceCacheDuration"].i * 1000)
    ensures "gasPriceCacheDuration" in cfg && cfg["gasPriceCacheDuration"].Dec?
            ==> d == Some(cfg["gasPriceCacheDuration"].milli)
    ensures "gasPriceCacheDuration" in cfg && cfg["gasPriceCacheDuration"] == Bool(true) ==> d == Some(1000)
    ensures "gasPriceCacheDuration" in cfg && cfg["gasPriceCacheDuration"].Str? && cfg["gasPriceCacheDuration"].s != ""
            ==> d.None?
  {
    OrDefaultMilli(Field(cfg, "gasPriceCacheDuration"), DefaultCacheDuration * 1000)
  }

  /** `config.gasPriceMultiplier || 1.5`, as floor(mult * 1000) once the gas
      price is multiplied by it: a falsy or missing multiplier is 1.5, a
      truthy one is taken as it converts to a number (`None` for NaN). */
  function MultiplierMilli(cfg: Config): (m: Option<int>)
    ensures Field(cfg, "gasPriceMultiplier").None? ==> m == Some(DefaultMultiplierMilli)
    ensures "gasPriceMultiplier" in cfg && !Truthy(cfg["gasPriceMultiplier"]) ==> m == Some(DefaultMultiplierMilli)
    ensures "gasPriceMultiplier" in cfg && Truthy(cfg["gasPriceMultiplier"]) ==> m == MilliOf(Field(cfg, "gasPriceMultiplier"))
    ensures "gasPriceMultiplier" in cfg && cfg["gasPriceMultiplier"].Int? && cfg["gasPriceMultiplier"].i != 0
            ==> m == Some(cfg["gasPriceMultiplier"].i * 1000)
  {
    OrDefaultMilli(Field(cfg, "gasPriceMultiplier"), DefaultMultiplierMilli)
  }

  /** Success/failure tally. */
  datatype Tally = Tally(transactions: nat, successfulTransactions: nat, failedTransactions: nat)

  const ZeroTally := Tally(0, 0, 0)

  /** `metrics.chainMetrics[chain]`, without the gas sum. */
  datatype ChainTally = ChainTally(tally: Tally, totalTransferred: nat)

  /** A chain's gas-price cache entry; the duration is in thousandths of a
      millisecond, `None` when it reads as NaN. */
  datatype GasCache = GasCache(price: Option<nat>, timestamp: int, duration: Option<int>)

  /** The monitor's state: the connected chains (those in both the chain
      list and the configured chain names), the gas-price multiplier of the
      loaded configuration, the global and per-chain tallies, and the gas
      caches. */
  datatype MonitorState = MonitorState(
    connected: set<string>,
    multiplier: Option<int>,
    totals: Tally,
    chains: map<string, ChainTally>,
    gas: map<string, GasCache>)

  /** Per-chain tables exist for exactly the connected chains. */
  predicate ValidState(s: MonitorState) {
    s.chains.Keys == s.connected && s.gas.Keys == s.connected
  }

  predicate TallyBalanced(t: Tally) {
    t.successfulTransactions + t.failedTransactions == t.transactions
  }

  /** Every counted attempt is exactly one success or one failure, globally
      and per chain. */
  predicate Balanced(s: MonitorState) {
    TallyBalanced(s.totals) && forall c :: c in s.chains ==> TallyBalanced(s.chains[c].tally)
  }

  /** The state at start-up: zero tallies and an empty gas cache per connected chain. */
  function InitialState(connected: set<string>, cfg: Config): MonitorState
  {
    var duration := CacheDuration(cfg);
    MonitorState(connected, MultiplierMilli(cfg), ZeroTally,
                 map c | c in connected :: ChainTally(ZeroTally, 0),
                 map c | c in connected :: GasCache(None, 0, duration))
  }

  /** The start-up state has a zero tally and a gas cache entry per
      connected chain. */
  lemma InitialStateValid(connected: set<string>, cfg: Config)
    ensures var s := InitialState(connected, cfg);
            && ValidState(s) && Balanced(s)
            && (forall c :: c in s.chains ==> s.chains[c] == ChainTally(ZeroTally, 0))
  {
  }

  /** The network as the monitor sees it, at one instant `now`. */
  datatype Network = Network(
    balance: (string, string) -> Result<nat>,   // (chain, address)
    gasPrice: string -> Result<nat>,
    send: (string, NativeTx) -> Result<bool>,   // receipt status, or a throw
    now: int)

  /** The value transfer the monitor signs. */
  datatype NativeTx = NativeTx(from: string, to: string, value: nat, gas: nat, gasPrice: int)

  // ---- The gas cache ----

  /** `price && now - timestamp < duration`; nothing is below NaN. */
  predicate Fresh(c: GasCache, now: int) {
    c.price.Some? && c.price.value != 0 && c.duration.Some? && (now - c.timestamp) * 1000 < c.duration.value
  }

  datatype PriceRead = PriceRead(price: Result<nat>, cache: GasCache)

  /** `getGasPrice(chain)`: the cached price while fresh; otherwise a
      network read, cached with its time. A failed read throws and leaves
      the entry alone. */
  function ReadGasPrice(c: GasCache, now: int, network: Result<nat>): (r: PriceRead)
    ensures Fresh(c, now) ==> r == PriceRead(Ok(c.price.value), c)
    ensures !Fresh(c, now) ==> r.price == network
    ensures !Fresh(c, now) && network.Ok? ==> r.cache == c.(price := Some(network.value), timestamp := now)
    ensures network.Err? ==> r.cache == c
  {
    if Fresh(c, now) then PriceRead(Ok(c.price.value), c)
    else match network
      case Err => PriceRead(Err, c)
      case Ok(p) => PriceRead(Ok(p), c.(price := Some(p), timestamp := now))
  }

  /** A price read from the network is served again, unread, until the
      cache duration has passed. */
  lemma ReadGasPriceCaches(c: GasCache, now: int, later: int, p: nat, network: Result<nat>)
    requires !Fresh(c, now) && p != 0
    requires c.duration.Some? && now <= later && (later - now) * 1000 < c.duration.value
    ensures var first := ReadGasPrice(c, now, Ok(p));
            ReadGasPrice(first.cache, later, network) == PriceRead(Ok(p), first.cache)
  {
  }

  // ---- One (wallet, chain) check ----

  /** The raised price as a decimal string fed to `BigInt`: a fractional
      product throws. */
  function RaisedPrice(gasPrice: nat, multMilli: int): (r: Option<int>)
    ensures r.Some? ==> r.value * 1000 == gasPrice * multMilli
    ensures multMilli % 1000 == 0 ==> r == Some(gasPrice * (multMilli / 1000))
  {
    if (gasPrice * multMilli) % 1000 == 0 then Some((gasPrice * multMilli) / 1000) else None
  }

  /** What one check did once its reads were made. */
  datatype Outcome =
    | NoTransfer
    | Sent(amount: nat, succeeded: bool)
    | Threw

  /** The decision of `checkAndTransferBalance` for a connected chain. */
  function Decide(w: Wallet, chain: string, balance: Result<nat>, price: Result<nat>, mult: Option<int>, net: Network): (r: Outcome)
    ensures w.baseTokenRecipient == "" ==> r == NoTransfer
    ensures r.Sent? ==> && balance.Ok? && price.Ok? && mult.Some?
                        && RaisedPrice(price.value, mult.value).Some?
                        && var gasCost := NativeTransferGas * RaisedPrice(price.value, mult.value).value;
                           balance.value > gasCost && r.amount == balance.value - gasCost
    ensures w.baseTokenRecipient != "" && (balance.Err? || price.Err? || mult.None?) ==> r == Threw
  {
    if w.baseTokenRecipient == "" then NoTransfer
    else match balance
      case Err => Threw
      case Ok(b) =>
        match price
        case Err => Threw
        case Ok(p) =>
          match if mult.Some? then RaisedPrice(p, mult.value) else None
          case None => Threw
          case Some(raised) =>
            var gasCost := NativeTransferGas * raised;
            if b <= gasCost then NoTransfer
            else
              var amount := b - gasCost;
              match net.send(chain, NativeTx(w.address, w.baseTokenRecipient, amount, NativeTransferGas, raised))
              case Err => Threw
              case Ok(status) => Sent(amount, status)
  }

  /** The decision as written, under the web3 1.x API the monitor is built
      on (callback subscriptions, `WebsocketProvider` reconnect options):
      the balance arrives as a decimal string, which `>` still compares with
      the BigInt gas cost by value, but `balance - gasCost` mixes a string
      and a BigInt and throws before a transaction is built. */
  function DecideAsWritten(w: Wallet, chain: string, balance: Result<nat>, price: Result<nat>, mult: Option<int>, net: Network): (r: Outcome)
    ensures !r.Sent?
    ensures r == NoTransfer <==> Decide(w, chain, balance, price, mult, net) == NoTransfer
  {
    if w.baseTokenRecipient == "" then NoTransfer
    else match balance
      case Err => Threw
      case Ok(b) =>
        match price
        case Err => Threw
        case Ok(p) =>
          match if mult.Some? then RaisedPrice(p, mult.value) else None
          case None => Threw
          case Some(raised) =>
            var gasCost := NativeTransferGas * raised;
            if b <= gasCost then NoTransfer else Threw
  }

  /** The intended decision sends whenever the wallet has a recipient, both
      reads succeed, the raised price is whole and the balance exceeds the
      gas cost: it sends the balance less the gas cost and reports the
      receipt's status. */
  lemma DecideSendsWhenFunded(w: Wallet, chain: string, balance: Result<nat>, price: Result<nat>, mult: Option<int>, net: Network)
    requires w.baseTokenRecipient != "" && balance.Ok? && price.Ok?
    requires mult.Some? && RaisedPrice(price.value, mult.value).Some?
    requires balance.value > NativeTransferGas * RaisedPrice(price.value, mult.value).value
    ensures var raised := RaisedPrice(price.value, mult.value).value;
            var amount := balance.value - NativeTransferGas * raised;
            var tx := NativeTx(w.address, w.baseTokenRecipient, amount, NativeTransferGas, raised);
            && (net.send(chain, tx).Ok? ==> Decide(w, chain, balance, price, mult, net) == Sent(amount, net.send(chain, tx).value))
            && (net.send(chain, tx).Err? ==> Decide(w, chain, balance, price, mult, net) == Threw)
  {
  }

  /** Where the intended decision sends, the decision as written throws
      instead: a funded wallet is never swept and each check counts a
      failure. */
  lemma AsWrittenNeverSweeps(w: Wallet, chain: string, balance: Result<nat>, price: Result<nat>, mult: Option<int>, net: Network)
    requires Decide(w, chain, balance, price, mult, net).Sent?
    ensures DecideAsWritten(w, chain, balance, price, mult, net) == Threw
  {
  }

  /** Under the default multiplier 1.5 the raised price is whole exactly
      when the gas price is even; an odd gas price makes `BigInt` throw. */
  lemma DefaultRaiseNeedsEvenPrice(gasPrice: nat)
    ensures RaisedPrice(gasPrice, DefaultMultiplierMilli).Some? <==> gasPrice % 2 == 0
    ensures gasPrice % 2 == 0 ==> RaisedPrice(gasPrice, DefaultMultiplierMilli) == Some(gasPrice / 2 * 3)
  {
    var k := gasPrice / 2;
    if gasPrice % 2 == 0 {
      assert gasPrice * DefaultMultiplierMilli == 1000 * (3 * k);
    } else {
      assert gasPrice * DefaultMultiplierMilli == 1000 * (3 * k + 1) + 500;
    }
  }

  function Bump(t: Tally, succeeded: bool): (r: Tally)
    ensures r.transactions == t.transactions + 1
    ensures TallyBalanced(t) ==> TallyBalanced(r)
  {
    if succeeded then t.(transactions := t.transactions + 1, successfulTransactions := t.successfulTransactions + 1)
    else t.(transactions := t.transactions + 1, failedTransactions := t.failedTransactions + 1)
  }

  /** The counters an outcome writes: an attempt (sent or thrown) counts once
      globally and once on the chain, as a success only on a good receipt;
      a success adds its amount to the chain's total. */
  function Record(s: MonitorState, chain: string, o: Outcome): (r: MonitorState)
    requires chain in s.chains
    ensures r.connected == s.connected && r.gas == s.gas && r.chains.Keys == s.chains.Keys
    ensures r.totals.transactions == s.totals.transactions + (if o.NoTransfer? then 0 else 1)
    ensures r.chains[chain].tally.transactions == s.chains[chain].tally.transactions + (if o.NoTransfer? then 0 else 1)
    ensures forall c :: c in s.chains && c != chain ==> r.chains[c] == s.chains[c]
  {
    match o
    case NoTransfer => s
    case Threw =>
      s.(totals := Bump(s.totals, false),
         chains := s.chains[chain := s.chains[chain].(tally := Bump(s.chains[chain].tally, false))])
    case Sent(amount, ok) =>
      var e := s.chains[chain];
      s.(totals := Bump(s.totals, ok),
         chains := s.chains[chain := ChainTally(Bump(e.tally, ok),
                                                if ok then e.totalTransferred + amount else e.totalTransferred)])
  }

  /** `checkAndTransferBalance(wallet, chain)` on a connected chain: the
      balance is read first, the gas price only after a good balance read. */
  function CheckConnected(s: MonitorState, net: Network, w: Wallet, chain: string): (r: MonitorState)
    requires ValidState(s) && chain in s.connected
    ensures w.baseTokenRecipient == "" ==> r == s
    ensures r.connected == s.connected && r.chains.Keys == s.chains.Keys && r.gas.Keys == s.gas.Keys
    ensures forall c :: c in s.chains && c != chain ==> r.chains[c] == s.chains[c] && r.gas[c] == s.gas[c]
  {
    if w.baseTokenRecipient == "" then s
    else
      var balance := net.balance(chain, w.address);
      if balance.Err? then Record(s, chain, Threw)
      else
        var read := ReadGasPrice(s.gas[chain], net.now, net.gasPrice(chain));
        var s1 := s.(gas := s.gas[chain := read.cache]);
        Record(s1, chain, Decide(w, chain, balance, read.price, s.multiplier, net))
  }

  /** The source as written, for a chain in `wallet.chains` the monitor has
      no connection to: the missing connection throws inside the `try`,
      and the handler raises the global failure count before itself
      throwing on the missing per-chain entry. */
  function CheckAsWritten(s: MonitorState, net: Network, w: Wallet, chain: string): (r: MonitorState)
    requires ValidState(s)
    ensures chain !in s.connected && w.baseTokenRecipient != "" ==>
              && r.totals.failedTransactions == s.totals.failedTransactions + 1
              && r.totals.transactions == s.totals.transactions
              && r.chains == s.chains && r.gas == s.gas
    ensures chain in s.connected ==> r == Check(s, net, w, chain)
  {
    if chain in s.connected then CheckConnected(s, net, w, chain)
    else if w.baseTokenRecipient == "" then s
    else s.(totals := s.totals.(failedTransactions := s.totals.failedTransactions + 1))
  }

  /** The balance check as intended: a chain the monitor is not connected to is not
      checked. */
  function Check(s: MonitorState, net: Network, w: Wallet, chain: string): (r: MonitorState)
    requires ValidState(s)
    ensures chain !in s.connected || w.baseTokenRecipient == "" ==> r == s
    ensures r.connected == s.connected && r.chains.Keys == s.chains.Keys
  {
    if chain in s.connected then CheckConnected(s, net, w, chain) else s
  }

  lemma RecordKeepsValid(s: MonitorState, chain: string, o: Outcome)
    requires ValidState(s) && chain in s.chains
    ensures ValidState(Record(s, chain, o))
    ensures Balanced(s) ==> Balanced(Record(s, chain, o))
  {
  }

  /** A check keeps the per-chain tables and the balance of every tally. */
  lemma CheckKeepsBalanced(s: MonitorState, net: Network, w: Wallet, chain: string)
    requires ValidState(s)
    ensures ValidState(Check(s, net, w, chain)) && Check(s, net, w, chain).connected == s.connected
    ensures Balanced(s) ==> Balanced(Check(s, net, w, chain))
  {
    if chain in s.connected && w.baseTokenRecipient != "" {
      var balance := net.balance(chain, w.address);
      if balance.Err? {
        RecordKeepsValid(s, chain, Threw);
      } else {
        var read := ReadGasPrice(s.gas[chain], net.now, net.gasPrice(chain));
        var s1 := s.(gas := s.gas[chain := read.cache]);
        RecordKeepsValid(s1, chain, Decide(w, chain, balance, read.price, s.multiplier, net));
      }
    }
  }

  /** The source as written loses the balance: from a balanced state, one
      check of a recipient-bearing wallet on an unconnected chain counts a
      failure that no attempt accounts for. */
  lemma AsWrittenUnbalances(s: MonitorState, net: Network, w: Wallet, chain: string)
    requires ValidState(s) && Balanced(s)
    requires chain !in s.connected && w.baseTokenRecipient != ""
    ensures !Balanced(CheckAsWritten(s, net, w, chain))
  {
  }

  /** Each check adds at most one attempt: the global and chain counters
      move together, and the chain's total grows by exactly the amount sent
      on a success. */
  lemma CheckCounts(s: MonitorState, net: Network, w: Wallet, chain: string)
    requires ValidState(s) && chain in s.connected
    ensures var r := Check(s, net, w, chain);
      && r.totals.transactions - s.totals.transactions == r.chains[chain].tally.transactions - s.chains[chain].tally.transactions
      && s.totals.transactions <= r.totals.transactions <= s.totals.transactions + 1
      && (r.totals.successfulTransactions - s.totals.successfulTransactions
          == r.chains[chain].tally.successfulTransactions - s.chains[chain].tally.successfulTransactions)
      && (r.totals.failedTransactions - s.totals.failedTransactions
          == r.chains[chain].tally.failedTransactions - s.chains[chain].tally.failedTransactions)
      && (forall c :: c in s.chains && c != chain ==> r.chains[c] == s.chains[c])
  {
    if w.baseTokenRecipient != "" {
      var balance := net.balance(chain, w.address);
      if balance.Ok? {
        var read := ReadGasPrice(s.gas[chain], net.now, net.gasPrice(chain));
        var s1 := s.(gas := s.gas[chain := read.cache]);
        assert Check(s, net, w, chain) == Record(s1, chain, Decide(w, chain, balance, read.price, s.multiplier, net));
      }
    }
  }

  /** A multiplier that reads as NaN makes every check of a wallet with a
      recipient throw: one failure is counted globally and on the chain,
      and nothing is swept. */
  lemma NaNMultiplierCountsFailure(s: MonitorState, net: Network, w: Wallet, chain: string)
    requires ValidState(s) && chain in s.connected && w.baseTokenRecipient != ""
    requires s.multiplier.None?
    ensures var r := Check(s, net, w, chain);
      && r.totals == s.totals.(transactions := s.totals.transactions + 1,
                               failedTransactions := s.totals.failedTransactions + 1)
      && r.chains[chain] == s.chains[chain].(tally := s.chains[chain].tally.(
                               transactions := s.chains[chain].tally.transactions + 1,
                               failedTransactions := s.chains[chain].tally.failedTransactions + 1))
  {
    var balance := net.balance(chain, w.address);
    if balance.Ok? {
      var read := ReadGasPrice(s.gas[chain], net.now, net.gasPrice(chain));
      var s1 := s.(gas := s.gas[chain := read.cache]);
      assert Decide(w, chain, balance, read.price, s.multiplier, net) == Threw;
      assert Check(s, net, w, chain) == Record(s1, chain, Threw);
    }
  }

  /** A success on a connected chain adds exactly the amount sent to the
      chain's `totalTransferred`. */
  lemma SuccessAddsAmount(s: MonitorState, chain: string, amount: nat)
    requires ValidState(s) && chain in s.connected
    ensures var r := Record(s, chain, Sent(amount, true));
      r.chains[chain].totalTransferred == s.chains[chain].totalTransferred + amount
      && r.totals.successfulTransactions == s.totals.successfulTransactions + 1
  {
  }

  /** A wallet without a base-token recipient is never charged or counted. */
  lemma NoRecipientNoChange(s: MonitorState, net: Network, w: Wallet, chain: string)
    requires ValidState(s) && w.baseTokenRecipient == ""
    ensures Check(s, net, w, chain) == s
  {
  }

  // ---- A wallet, a block ----

  /** `checkWalletBalances`: every chain the wallet lists, in order. */
  function CheckChains(s: MonitorState, net: Network, w: Wallet, chains: seq<string>): (r: MonitorState)
    requires ValidState(s)
    ensures ValidState(r) && r.connected == s.connected
    ensures Balanced(s) ==> Balanced(r)
    decreases |chains|
  {
    if chains == [] then s
    else
      var s1 := CheckChains(s, net, w, chains[..|chains| - 1]);
      CheckKeepsBalanced(s1, net, w, chains[|chains| - 1]);
      Check(s1, net, w, chains[|chains| - 1])
  }

  function CheckWallets(s: MonitorState, net: Network, ws: seq<Wallet>): (r: MonitorState)
    requires ValidState(s)
    ensures ValidState(r) && r.connected == s.connected
    ensures Balanced(s) ==> Balanced(r)
    decreases |ws|
  {
    if ws == [] then s
    else
      var last := ws[|ws| - 1];
      CheckChains(CheckWallets(s, net, ws[..|ws| - 1]), net, last, last.chains)
  }

  /** The handler of a new block on `chain`: the active wallets listing it. */
  function OnBlock(s: MonitorState, net: Network, ws: seq<Wallet>, chain: string): (r: MonitorState)
    requires ValidState(s)
    ensures ValidState(r) && r.connected == s.connected
    ensures Balanced(s) ==> Balanced(r)
    ensures Registry.ActiveWalletsOn(ws, chain) == [] ==> r == s
  {
    CheckWallets(s, net, Registry.ActiveWalletsOn(ws, chain))
  }

  lemma {:induction false} CheckWalletsConcat(s: MonitorState, net: Network, a: seq<Wallet>, b: seq<Wallet>)
    requires ValidState(s)
    ensures CheckWallets(s, net, a + b) == CheckWallets(CheckWallets(s, net, a), net, b)
    decreases |b|
  {
    if b == [] {
      assert a + b == a;
    } else {
      assert (a + b)[..|a + b| - 1] == a + b[..|b| - 1];
      CheckWalletsConcat(s, net, a, b[..|b| - 1]);
    }
  }

  /** A block on a chain ignores every wallet that is paused, not active, or
      does not list the chain. */
  lemma OnBlockIgnores(s: MonitorState, net: Network, ws: seq<Wallet>, w: Wallet, chain: string)
    requires ValidState(s)
    requires !(chain in w.chains && IsActive(w))
    ensures OnBlock(s, net, ws + [w], chain) == OnBlock(s, net, ws, chain)
  {
    var p := (x: Wallet) => Registry.ActiveOn(chain, x);
    FilterConcat(p, ws, [w]);
    assert Filter(p, [w]) == [];
    assert Filter(p, ws + [w]) == Filter(p, ws);
  }

  /** A block with no active wallet on its chain changes nothing. */
  lemma OnBlockNoneActive(s: MonitorState, net: Network, ws: seq<Wallet>, chain: string)
    requires ValidState(s)
    requires forall i :: 0 <= i < |ws| ==> !(chain in ws[i].chains && IsActive(ws[i]))
    ensures OnBlock(s, net, ws, chain) == s
  {
  }

  // ---- The monitor object ----

  class BaseTokenMonitor {
    var connected: set<string>
    var multiplier: Option<int>
    var totals: Tally
    var chains: map<string, ChainTally>
    var gas: map<string, GasCache>

    function State(): MonitorState
      reads this
    {
      MonitorState(connected, multiplier, totals, chains, gas)
    }

    /** The tallies and caches set up at load time for the connected chains. */
    constructor (connected: set<string>, cfg: Config)
      ensures State() == InitialState(connected, cfg)
      ensures Field(cfg, "gasPriceMultiplier").None? ==> multiplier == Some(DefaultMultiplierMilli)
    {
      this.connected := connected;
      multiplier := MultiplierMilli(cfg);
      totals := ZeroTally;
      chains := map c | c in connected :: ChainTally(ZeroTally, 0);
      var duration := CacheDuration(cfg);
      gas := map c | c in connected :: GasCache(None, 0, duration);
    }

    /** `getGasPrice(chain)`. */
    method GetGasPrice(chain: string, now: int, network: Result<nat>) returns (price: Result<nat>)
      requires chain in gas
      modifies this
      ensures price == ReadGasPrice(old(gas[chain]), now, network).price
      ensures gas == old(gas)[chain := ReadGasPrice(old(gas[chain]), now, network).cache]
      ensures connected == old(connected) && multiplier == old(multiplier) && totals == old(totals) && chains == old(chains)
    {
      var c := gas[chain];
      if c.price.Some? && c.price.value != 0 && c.duration.Some? && (now - c.timestamp) * 1000 < c.duration.value {
        return Ok(c.price.value);
      }
      match network
      case Err =>
        return Err;
      case Ok(p) =>
        gas := gas[chain := c.(price := Some(p), timestamp := now)];
        return Ok(p);
    }

    method Count(chain: string, succeeded: bool)
      requires chain in chains
      modifies this
      ensures totals == Bump(old(totals), succeeded)
      ensures chains == old(chains)[chain := old(chains[chain]).(tally := Bump(old(chains[chain].tally), succeeded))]
      ensures connected == old(connected) && multiplier == old(multiplier) && gas == old(gas)
    {
      totals := Bump(totals, succeeded);
      chains := chains[chain := chains[chain].(tally := Bump(chains[chain].tally, succeeded))];
    }

    /** `checkAndTransferBalance(wallet, chain)`. */
    method CheckAndTransferBalance(w: Wallet, chain: string, net: Network)
      requires ValidState(State())
      modifies this
      ensures State() == Check(old(State()), net, w, chain)
    {
      if chain !in connected || w.baseTokenRecipient == "" {
        return;
      }
      var balance := net.balance(chain, w.address);
      if balance.Err? {
        Count(chain, false);
        return;
      }
      var price := GetGasPrice(chain, net.now, net.gasPrice(chain));
      ghost var decided := Decide(w, chain, balance, price, multiplier, net);
      if price.Err? {
        assert decided == Threw;
        Count(chain, false);
        return;
      }
      if multiplier.None? {
        assert decided == Threw;
        Count(chain, false);
        return;
      }
      var raised := RaisedPrice(price.value, multiplier.value);
      if raised.None? {
        assert decided == Threw;
        Count(chain, false);
        return;
      }
      var gasCost := NativeTransferGas * raised.value;
      if balance.value <= gasCost {
        assert decided == NoTransfer;
        return;
      }
      var amount := balance.value - gasCost;
      var receipt := net.send(chain, NativeTx(w.address, w.baseTokenRecipient, amount, NativeTransferGas, raised.value));
      if receipt.Err? {
        assert decided == Threw;
        Count(chain, false);
        return;
      }
      assert decided == Sent(amount, receipt.value);
      Count(chain, receipt.value);
      if receipt.value {
        chains := chains[chain := chains[chain].(totalTransferred := chains[chain].totalTransferred + amount)];
      }
    }

    /** `checkWalletBalances(wallet)`: the wallet's chains one after another. */
    method CheckWalletBalances(w: Wallet, net: Network)
      requires ValidState(State())
      modifies this
      ensures ValidState(State())
      ensures State() == CheckChains(old(State()), net, w, w.chains)
    {
      var i := 0;
      while i < |w.chains|
        invariant 0 <= i <= |w.chains|
        invariant ValidState(old(State()))
        invariant State() == CheckChains(old(State()), net, w, w.chains[..i])
        decreases |w.chains| - i
      {
        assert w.chains[..i + 1][..i] == w.chains[..i];
        CheckAndTransferBalance(w, w.chains[i], net);
        i := i + 1;
      }
      assert w.chains[..i] == w.chains;
    }

    /** The `newBlockHeaders` handler of `chain`. */
    method OnNewBlock(chain: string, ws: seq<Wallet>, net: Network)
      requires ValidState(State())
      modifies this
      ensures State() == OnBlock(old(State()), net, ws, chain)
    {
      var selected := Registry.ActiveWalletsOn(ws, chain);
      var i := 0;
      while i < |selected|
        invariant 0 <= i <= |selected|
        invariant ValidState(old(State()))
        invariant State() == CheckWallets(old(State()), net, selected[..i])
        decreases |selected| - i
      {
        assert selected[..i + 1][..i] == selected[..i];
        CheckWalletBalances(selected[i], net);
        i := i + 1;
      }
      assert selected[..i] == selected;
    }
  }
}
