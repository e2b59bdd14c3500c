/** The dashboard's state store: `initialState` and `botReducer`, which
    builds each new state from the old one and an action, without mutating
    either. The socket handlers and HTTP calls that dispatch the actions are
    not modelled; their payloads are the actions' arguments. */
module Dashboard {
  import opened Common
  import opened Records
  import Registry
  import Api

  datatype State = State(
    botStatus: string,
    metrics: Api.MetricsObject,
    wallets: seq<Wallet>,
    config: Config,
    stats: Option<Api.ApiStats>,
    chains: map<string, ChainDescriptor>,
    loading: bool,
    error: Option<string>,
    socket: Option<nat>)

  /** The metrics shown before the server has sent any. */
  const InitialMetrics: Api.MetricsObject := map[
    "totalWallets" := Api.Plain(Int(0)), "totalTokens" := Api.Plain(Int(0)),
    "totalTransactions" := Api.Plain(Int(0)), "successfulTransactions" := Api.Plain(Int(0)),
    "failedTransactions" := Api.Plain(Int(0)), "nativeTokenSupport" := Api.Plain(Bool(false)),
    "chains" := Api.ChainKeys([]), "lastUpdate" := Api.Plain(Null)]

  /** `initialState`: connecting, nothing loaded, no error and no socket. */
  const InitialState := State("connecting", InitialMetrics, [], map[], None, map[], false, None, None)

  /** Before the server answers, the dashboard shows no wallets, stats,
      chains, configuration or error, is not loading, holds no socket, and
      shows every counter at 0 with native support off. */
  lemma InitialStateEmpty()
    ensures InitialState.botStatus == "connecting" && !InitialState.loading
    ensures InitialState.wallets == [] && InitialState.config == map[] && InitialState.chains == map[]
    ensures InitialState.stats.None? && InitialState.error.None? && InitialState.socket.None?
    ensures forall k :: k in InitialState.metrics && InitialState.metrics[k].Plain? && InitialState.metrics[k].v.Int? ==>
              InitialState.metrics[k].v.i == 0
    ensures InitialState.metrics["nativeTokenSupport"] == Api.Plain(Bool(false))
  {
  }

  /** The actions the provider dispatches; any other `type` is `Other`. */
  datatype Action =
    | SetLoading(loading: bool)
    | SetError(error: Option<string>)
    | SetBotStatus(status: string)
    | UpdateMetrics(metrics: Api.MetricsObject)
    | SetWallets(wallets: seq<Wallet>)
    | SetConfig(config: Config)
    | SetChains(chains: map<string, ChainDescriptor>)
    | SetStats(stats: Option<Api.ApiStats>)
    | SetSocket(socket: Option<nat>)
    | AddWallet(wallet: Wallet)
    | UpdateWallet(wallet: Wallet)
    | RemoveWallet(privateKey: string)
    | Other(actionType: string)

  /** `state.wallets.map(w => w.privateKey === payload.privateKey ? payload : w)`. */
  function ReplaceByKey(ws: seq<Wallet>, w: Wallet): (r: seq<Wallet>)
    ensures |r| == |ws|
    ensures forall i :: 0 <= i < |ws| ==> r[i] == if ws[i].privateKey == w.privateKey then w else ws[i]
  {
    if ws == [] then [] else [if ws[0].privateKey == w.privateKey then w else ws[0]] + ReplaceByKey(ws[1..], w)
  }

  /** `botReducer`: each action replaces its own field and keeps the rest;
      an unknown action keeps the state. */
  function BotReducer(s: State, a: Action): (r: State)
    ensures a.Other? ==> r == s
    ensures !(a.SetWallets? || a.AddWallet? || a.UpdateWallet? || a.RemoveWallet?) ==> r.wallets == s.wallets
    ensures !a.UpdateMetrics? ==> r.metrics == s.metrics
    ensures a.AddWallet? || a.UpdateWallet? || a.RemoveWallet? ==>
              forall w :: w in r.wallets ==> w in s.wallets || (a.AddWallet? && w == a.wallet) || (a.UpdateWallet? && w == a.wallet)
  {
    match a
    case SetLoading(v) => s.(loading := v)
    case SetError(e) => s.(error := e)
    case SetBotStatus(v) => s.(botStatus := v)
    case UpdateMetrics(m) => s.(metrics := s.metrics + m)
    case SetWallets(ws) => s.(wallets := ws)
    case SetConfig(c) => s.(config := c)
    case SetChains(c) => s.(chains := c)
    case SetStats(v) => s.(stats := v)
    case SetSocket(v) => s.(socket := v)
    case AddWallet(w) => s.(wallets := s.wallets + [w])
    case UpdateWallet(w) => s.(wallets := ReplaceByKey(s.wallets, w))
    case RemoveWallet(k) => s.(wallets := Registry.WithoutWallet(s.wallets, k))
    case Other(_) => s
  }

  /** An action that only sets one field. */
  predicate IsSetter(a: Action) {
    a.SetLoading? || a.SetError? || a.SetBotStatus? || a.SetWallets? || a.SetConfig?
    || a.SetChains? || a.SetStats? || a.SetSocket?
  }

  /** Each SET action gives its field the payload and leaves every other
      field as it was. */
  lemma SettersChangeOneField(s: State, a: Action)
    requires IsSetter(a)
    ensures var r := BotReducer(s, a);
      && (a.SetLoading? ==> r.loading == a.loading && r.(loading := s.loading) == s)
      && (a.SetError? ==> r.error == a.error && r.(error := s.error) == s)
      && (a.SetBotStatus? ==> r.botStatus == a.status && r.(botStatus := s.botStatus) == s)
      && (a.SetWallets? ==> r.wallets == a.wallets && r.(wallets := s.wallets) == s)
      && (a.SetConfig? ==> r.config == a.config && r.(config := s.config) == s)
      && (a.SetChains? ==> r.chains == a.chains && r.(chains := s.chains) == s)
      && (a.SetStats? ==> r.stats == a.stats && r.(stats := s.stats) == s)
      && (a.SetSocket? ==> r.socket == a.socket && r.(socket := s.socket) == s)
  {
  }

  /** A SET action's result does not depend on the field's old value: the
      same action twice is the action once. */
  lemma SettersAreIdempotent(s: State, a: Action)
    requires IsSetter(a)
    ensures BotReducer(BotReducer(s, a), a) == BotReducer(s, a)
  {
  }

  /** UPDATE_METRICS lays the payload over the shown metrics: its keys win,
      the others survive. */
  lemma UpdateMetricsMerges(s: State, m: Api.MetricsObject)
    ensures var r := BotReducer(s, UpdateMetrics(m)).metrics;
      && r.Keys == s.metrics.Keys + m.Keys
      && (forall k :: k in m ==> r[k] == m[k])
      && (forall k :: k in s.metrics && k !in m ==> r[k] == s.metrics[k])
    ensures BotReducer(s, UpdateMetrics(m)).(metrics := s.metrics) == s
  {
  }

  /** ADD_WALLET appends the payload and keeps the list before it. */
  lemma AddWalletAppends(s: State, w: Wallet)
    ensures var r := BotReducer(s, AddWallet(w)).wallets;
      |r| == |s.wallets| + 1 && r[..|s.wallets|] == s.wallets && r[|s.wallets|] == w
  {
  }

  /** UPDATE_WALLET swaps in the payload wherever the key matches, keeping
      the length and the order, and does nothing when no wallet has the key. */
  lemma UpdateWalletReplaces(s: State, w: Wallet)
    ensures var r := BotReducer(s, UpdateWallet(w)).wallets;
      && |r| == |s.wallets|
      && (forall i :: 0 <= i < |r| && s.wallets[i].privateKey == w.privateKey ==> r[i] == w)
      && (forall i :: 0 <= i < |r| && s.wallets[i].privateKey != w.privateKey ==> r[i] == s.wallets[i])
    ensures Registry.FindByKey(s.wallets, w.privateKey).None? ==> BotReducer(s, UpdateWallet(w)) == s
  {
    var r := BotReducer(s, UpdateWallet(w)).wallets;
    if Registry.FindByKey(s.wallets, w.privateKey).None? {
      assert r == s.wallets;
    }
  }

  /** Updating with the same payload twice is updating once. */
  lemma UpdateWalletIdempotent(s: State, w: Wallet)
    ensures BotReducer(BotReducer(s, UpdateWallet(w)), UpdateWallet(w)) == BotReducer(s, UpdateWallet(w))
  {
    var once := ReplaceByKey(s.wallets, w);
    assert ReplaceByKey(once, w) == once;
  }

  /** REMOVE_WALLET drops every wallet with the key, keeps the others in
      order, and leaves no wallet with the key. */
  lemma RemoveWalletFilters(s: State, privateKey: string)
    ensures var r := BotReducer(s, RemoveWallet(privateKey)).wallets;
      && r == Filter(w => Registry.KeyIsNot(privateKey, w), s.wallets)
      && Registry.FindByKey(r, privateKey).None?
  {
    assert BotReducer(s, RemoveWallet(privateKey)).wallets == Registry.WithoutWallet(s.wallets, privateKey);
    Registry.RemovedKeyIsGone(s.wallets, privateKey);
  }

  /** Removing a key after updating it is removing it: the update is lost
      with the wallets it touched. */
  lemma {:induction false} RemoveAfterUpdate(ws: seq<Wallet>, w: Wallet)
    ensures Registry.WithoutWallet(ReplaceByKey(ws, w), w.privateKey) == Registry.WithoutWallet(ws, w.privateKey)
  {
    if ws != [] {
      RemoveAfterUpdate(ws[1..], w);
      var p := x => Registry.KeyIsNot(w.privateKey, x);
      var head := if ws[0].privateKey == w.privateKey then w else ws[0];
      assert ReplaceByKey(ws, w) == [head] + ReplaceByKey(ws[1..], w);
      assert ([head] + ReplaceByKey(ws[1..], w))[1..] == ReplaceByKey(ws[1..], w);
    }
  }

  /** Adding a wallet and then removing its key leaves the list as removing
      the key alone would. */
  lemma RemoveAfterAdd(s: State, w: Wallet)
    ensures BotReducer(BotReducer(s, AddWallet(w)), RemoveWallet(w.privateKey))
            == BotReducer(s, RemoveWallet(w.privateKey))
  {
    var p := x => Registry.KeyIsNot(w.privateKey, x);
    FilterConcat(p, s.wallets, [w]);
    assert Filter(p, [w]) == [];
  }

  /** An action of any other type returns the state itself. */
  lemma OtherIsIdentity(s: State, actionType: string)
    ensures BotReducer(s, Other(actionType)) == s
  {
  }
}
