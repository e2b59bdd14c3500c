/** The dashboard server's record logic: which stored wallets a caller sees,
    the edits its wallet routes make before writing a record back, its
    statistics, and the metrics object the bot pushes to it. Routing, the
    HTTP status plumbing, authentication, the socket broadcasts and the reload
    calls into the bot are not modelled; each route is given the rows its
    SELECT returns. */
module Api {
  import opened Common
  import opened Records
  import Registry
  import Store
  import Metrics

  // ---- The wallets a caller sees ----

  /** The authenticated user: an admin sees every stored wallet. */
  datatype Caller = Caller(id: nat, isAdmin: bool)

  /** `getAllWallets` for an admin, `getWalletsByUserId` for anyone else. */
  function Visible(rows: seq<Store.WalletRow>, caller: Caller): (ws: seq<Wallet>)
    ensures !caller.isAdmin ==> forall i :: 0 <= i < |ws| ==> ws[i].userId == Some(caller.id)
    ensures forall r :: r in rows && (caller.isAdmin || r.userId == caller.id) ==> Store.NormalizeRow(r) in ws
  {
    if caller.isAdmin then Store.NormalizeAll(rows) else Store.WalletsOfUser(rows, caller.id)
  }

  /** `/api/wallets/active`: the visible wallets that pass the registry's
      active filter, in order. */
  function ActiveRoute(rows: seq<Store.WalletRow>, caller: Caller): (ws: seq<Wallet>)
    ensures forall w :: w in ws <==> w in Visible(rows, caller) && IsActive(w)
    ensures |ws| <= |Visible(rows, caller)|
  {
    Registry.ActiveWallets(Visible(rows, caller))
  }

  // ---- The edit routes ----

  /** The record a route edits: the first visible wallet with the key, or
      nothing, which the route answers with 404 and no write. */
  function Target(ws: seq<Wallet>, privateKey: string): (r: Option<Wallet>)
    ensures r.Some? <==> exists i :: 0 <= i < |ws| && ws[i].privateKey == privateKey
    ensures r.Some? ==> r.value in ws && r.value.privateKey == privateKey
    ensures r.Some? ==> exists i :: 0 <= i < |ws| && ws[i] == r.value
                                    && forall j :: 0 <= j < i ==> ws[j].privateKey != privateKey
  {
    match Registry.FindByKey(ws, privateKey)
    case Some(i) => Some(ws[i])
    case None => None
  }

  /** The status the toggle route keeps in step with the pause flag. */
  predicate StatusMatchesPause(w: Wallet) {
    w.status == (if w.isPaused then "paused" else "active")
  }

  /** `/toggle`: flip the pause flag and set the status to agree with it. */
  function Toggled(w: Wallet): (r: Wallet)
    ensures r == w.(isPaused := r.isPaused, status := r.status)
    ensures r.isPaused == !w.isPaused
    ensures StatusMatchesPause(r)
  {
    w.(isPaused := !w.isPaused, status := if !w.isPaused then "paused" else "active")
  }

  /** After a toggle the wallet is active exactly when it was paused. */
  lemma ToggleFlipsActivity(w: Wallet)
    ensures IsActive(Toggled(w)) <==> w.isPaused
  {
  }

  /** Toggling twice gives the record back exactly when its status already
      agreed with its pause flag. */
  lemma ToggleTwiceRestores(w: Wallet)
    ensures Toggled(Toggled(w)) == w <==> StatusMatchesPause(w)
  {
    if Toggled(Toggled(w)) == w {
      assert w.status == Toggled(Toggled(w)).status;
    }
  }

  function ToggleRoute(ws: seq<Wallet>, privateKey: string): (r: Option<Wallet>)
    ensures r.None? <==> Target(ws, privateKey).None?
    ensures r.Some? ==> r.value == Toggled(Target(ws, privateKey).value)
  {
    match Target(ws, privateKey)
    case Some(w) => Some(Toggled(w))
    case None => None
  }

  /** `PUT /api/wallets/:privateKey`: a field given in the body replaces the
      record's; the edit is the registry's `updateWallet` edit. */
  function EditRoute(ws: seq<Wallet>, privateKey: string, u: Registry.WalletUpdates): (r: Option<Wallet>)
    ensures r.None? <==> Target(ws, privateKey).None?
    ensures r.Some? ==> r.value == Registry.ApplyUpdates(Target(ws, privateKey).value, u)
  {
    match Target(ws, privateKey)
    case Some(w) => Some(Registry.ApplyUpdates(w, u))
    case None => None
  }

  /** The body of `POST /tokens`: a missing string is "". */
  datatype TokenRequest = TokenRequest(tokenAddress: string, recipientAddress: string, name: string,
                                       tokenName: string, chain: string, tokenType: string)

  /** `name || tokenName || 'Unnamed Token'`. */
  function TokenLabel(req: TokenRequest): (r: string)
    ensures r != ""
    ensures req.name != "" ==> r == req.name
    ensures req.name == "" && req.tokenName != "" ==> r == req.tokenName
    ensures req.name == "" && req.tokenName == "" ==> r == "Unnamed Token"
  {
    if req.name != "" then req.name else if req.tokenName != "" then req.tokenName else "Unnamed Token"
  }

  /** The token the route appends, with `tokenType || 'erc20'`. */
  function RequestedToken(req: TokenRequest): (t: Token)
    ensures t == NewToken(req.tokenAddress, req.recipientAddress, TokenLabel(req), req.chain, t.tokenType)
    ensures t.tokenType == (if req.tokenType == "" then "erc20" else req.tokenType)
  {
    NewToken(req.tokenAddress, req.recipientAddress, TokenLabel(req), req.chain,
             if req.tokenType == "" then "erc20" else req.tokenType)
  }

  /** `POST /api/wallets/:privateKey/tokens`: append the token, with no
      check for one already watched for the same address and chain. */
  function AddTokenRoute(ws: seq<Wallet>, privateKey: string, req: TokenRequest): (r: Option<Wallet>)
    ensures r.None? <==> Target(ws, privateKey).None?
    ensures r.Some? ==> var w := Target(ws, privateKey).value;
              r.value == w.(tokens := w.tokens + [RequestedToken(req)])
  {
    match Target(ws, privateKey)
    case Some(w) => Some(w.(tokens := w.tokens + [RequestedToken(req)]))
    case None => None
  }

  /** Unlike the registry's add, the route lets a wallet watch the same
      token twice: adding one already watched breaks uniqueness. */
  lemma AddTokenRouteAllowsDuplicates(ws: seq<Wallet>, privateKey: string, req: TokenRequest)
    requires Target(ws, privateKey).Some?
    requires Registry.HasToken(Target(ws, privateKey).value.tokens, req.tokenAddress, req.chain)
    ensures !UniqueTokens(AddTokenRoute(ws, privateKey, req).value.tokens)
  {
    var w := Target(ws, privateKey).value;
    var tokens := AddTokenRoute(ws, privateKey, req).value.tokens;
    var i :| 0 <= i < |w.tokens| && Watches(w.tokens[i], req.tokenAddress, req.chain);
    assert tokens[i] == w.tokens[i];
    assert tokens[|w.tokens|] == RequestedToken(req);
  }

  /** `DELETE /tokens/:tokenAddress?chain=`: keep the tokens that are not
      watched for the address on the queried chain. Without the query
      parameter the chain compared is `undefined`, which matches exactly the
      tokens stored without a chain (here ""); a token that is not there is
      no error either. */
  function RemoveTokenRoute(ws: seq<Wallet>, privateKey: string, tokenAddress: string,
                            chain: Option<string>): (r: Option<Wallet>)
    ensures r.None? <==> Target(ws, privateKey).None?
    ensures r.Some? ==> r.value == Target(ws, privateKey).value.(tokens := r.value.tokens)
    ensures r.Some? ==>
              forall t :: t in r.value.tokens <==>
                t in Target(ws, privateKey).value.tokens && !Watches(t, tokenAddress, chain.GetOr(""))
    ensures r.Some? && chain.None? && (forall t :: t in Target(ws, privateKey).value.tokens ==> t.chain != "")
            ==> r.value == Target(ws, privateKey).value
  {
    match Target(ws, privateKey)
    case Some(w) => Some(w.(tokens := Registry.WithoutToken(w.tokens, tokenAddress, chain.GetOr(""))))
    case None => None
  }

  /** Adding a token through the route and removing it again, on its chain,
      gives the wallet back when it did not watch the token before. */
  lemma RemoveTokenUndoesAddToken(ws: seq<Wallet>, privateKey: string, req: TokenRequest)
    requires Target(ws, privateKey).Some?
    requires !Registry.HasToken(Target(ws, privateKey).value.tokens, req.tokenAddress, req.chain)
    ensures var added := AddTokenRoute(ws, privateKey, req).value;
            RemoveTokenRoute([added], privateKey, req.tokenAddress, Some(req.chain)) == Target(ws, privateKey)
  {
    var w := Target(ws, privateKey).value;
    var t := RequestedToken(req);
    var added := w.(tokens := w.tokens + [t]);
    assert Registry.FindByKey([added], privateKey) == Some(0);
    Registry.RemoveUndoesAddToken(w.tokens, t);
    assert added.(tokens := Registry.WithoutToken(added.tokens, req.tokenAddress, req.chain)) == w;
  }

  // ---- Writing an edited record back ----

  /** `updateWallet(wallet.id, wallet)` on the table: the row with the
      record's id gets the record's columns; a record without an id matches
      no row. */
  function WriteBack(rows: seq<Store.WalletRow>, w: Wallet): (r: seq<Store.WalletRow>)
    ensures |r| == |rows|
    ensures forall i :: 0 <= i < |rows| ==>
              r[i] == if Some(rows[i].id) == w.id then Store.UpdateWalletRow(rows[i].id, rows[i].userId, w) else rows[i]
  {
    if rows == [] then []
    else
      [if Some(rows[0].id) == w.id then Store.UpdateWalletRow(rows[0].id, rows[0].userId, w) else rows[0]]
      + WriteBack(rows[1..], w)
  }

  /** An admin's toggle is what the admin's next listing shows. */
  lemma AdminToggleIsStored(rows: seq<Store.WalletRow>, privateKey: string)
    requires ToggleRoute(Store.NormalizeAll(rows), privateKey).Some?
    ensures var w := ToggleRoute(Store.NormalizeAll(rows), privateKey).value;
            w in Store.NormalizeAll(WriteBack(rows, w))
  {
    var ws := Store.NormalizeAll(rows);
    var i := Registry.FindByKey(ws, privateKey).value;
    var w := Toggled(ws[i]);
    Store.UpdateThenReadBack(rows[i].id, rows[i].userId, w);
    assert Store.NormalizeAll(WriteBack(rows, w))[i] == w;
  }

  // ---- Statistics ----

  /** The object `/api/stats` answers with. */
  datatype ApiStats = ApiStats(totalWallets: nat, activeWallets: nat, totalTokens: nat,
                               totalTransactions: nat, successfulTransactions: nat, failedTransactions: nat)

  /** `/api/stats`: counts and sums with a missing counter read as 0. */
  function StatsOf(ws: seq<Wallet>): (r: ApiStats)
    ensures r.totalWallets == |ws| && r.activeWallets <= r.totalWallets
    ensures ws == [] ==> r == ApiStats(0, 0, 0, 0, 0, 0)
  {
    ApiStats(|ws|, |Registry.ActiveWallets(ws)|, SumOf(Registry.TokenCount, ws),
             SumOf(Metrics.WalletTransactions, ws), SumOf(Metrics.WalletSuccessful, ws),
             SumOf(Metrics.WalletFailed, ws))
  }

  /** A strict sum, where it is a number, is the sum with missing counters
      read as 0. */
  lemma {:induction false} StrictSumIsSum(f: Wallet -> Counter, g: Wallet -> nat, ws: seq<Wallet>)
    requires forall w :: g(w) == Count(f(w))
    ensures Registry.StrictSum(f, ws).Some? ==> Registry.StrictSum(f, ws).value == SumOf(g, ws)
    decreases |ws|
  {
    if ws != [] {
      StrictSumIsSum(f, g, ws[..|ws| - 1]);
    }
  }

  /** The server's statistics agree with the registry's `getStats` on the
      same wallets: the same counts, and the same totals wherever the
      registry's are numbers. */
  lemma StatsAgreeWithRegistry(ws: seq<Wallet>, known: set<string>)
    ensures var api, reg := StatsOf(ws), Registry.StatsOf(ws, known);
            && api.totalWallets == reg.totalWallets
            && api.activeWallets == reg.activeWallets
            && api.totalTokens == reg.totalTokens
            && (reg.totalTransactions.Some? ==> api.totalTransactions == reg.totalTransactions.value)
            && (reg.successfulTransactions.Some? ==> api.successfulTransactions == reg.successfulTransactions.value)
            && (reg.failedTransactions.Some? ==> api.failedTransactions == reg.failedTransactions.value)
  {
    StrictSumIsSum(Registry.StoredTransactions, Metrics.WalletTransactions, ws);
    StrictSumIsSum(Registry.StoredSuccessful, Metrics.WalletSuccessful, ws);
    StrictSumIsSum(Registry.StoredFailed, Metrics.WalletFailed, ws);
  }

  /** The totals the dashboard shows are those the bot rebuilds at start-up
      from the same records. */
  lemma StatsAgreeWithBot(ws: seq<Wallet>, now: int)
    ensures var api, bot := StatsOf(ws), Metrics.RebuiltMetrics(ws, now);
            && api.totalTransactions == bot.totalTransactions
            && api.successfulTransactions == bot.successfulTransactions
            && api.failedTransactions == bot.failedTransactions
  {
  }

  // ---- The metrics object ----

  /** `rpcErrors` of a chain entry: falsy, a count, or an object whose
      fields may be missing. */
  datatype RpcErrors =
    | NoErrors
    | ErrorCount(n: nat)
    | ErrorLog(count: Counter, lastError: Option<string>, lastErrorTime: Option<string>)

  /** One chain's entry; its other fields are carried as they are. */
  datatype ChainEntry = ChainEntry(rpcErrors: RpcErrors, fields: map<string, Value>)

  /** A value of the metrics object: a plain value, the array of chain keys
      the server starts with, or the per-chain table the bot sends. */
  datatype MetricValue =
    | Plain(v: Value)
    | ChainKeys(keys: seq<string>)
    | ChainTable(entries: map<string, ChainEntry>)

  type MetricsObject = map<string, MetricValue>

  /** A string that may be missing, read with `|| fallback`. */
  function Or(s: Option<string>, fallback: string): string {
    if s.Some? && s.value != "" then s.value else fallback
  }

  /** The status route's display form of an `rpcErrors` object. */
  function DisplayErrors(e: RpcErrors): (r: RpcErrors)
    ensures !e.ErrorLog? ==> r == e
    ensures e.ErrorLog? ==> r.ErrorLog? && r.count == Some(Count(e.count))
    ensures e.ErrorLog? ==> r.lastError == Some(Or(e.lastError, "No errors"))
    ensures e.ErrorLog? ==> (r.lastErrorTime.Some? <==> e.lastErrorTime.Some? && e.lastErrorTime.value != "")
  {
    match e
    case ErrorLog(count, lastError, lastErrorTime) =>
      ErrorLog(Some(Count(count)), Some(Or(lastError, "No errors")),
               if lastErrorTime.Some? && lastErrorTime.value != "" then lastErrorTime else None)
    case _ => e
  }

  /** Displaying an already displayed `rpcErrors` changes nothing. */
  lemma DisplayErrorsIdempotent(e: RpcErrors)
    ensures DisplayErrors(DisplayErrors(e)) == DisplayErrors(e)
  {
  }

  function DisplayEntries(entries: map<string, ChainEntry>): (r: map<string, ChainEntry>)
    ensures r.Keys == entries.Keys
    ensures forall c :: c in entries ==>
              r[c] == entries[c].(rpcErrors := DisplayErrors(entries[c].rpcErrors))
  {
    map c | c in entries :: entries[c].(rpcErrors := DisplayErrors(entries[c].rpcErrors))
  }

  /** The metrics `/api/status` answers with: only the `rpcErrors` objects
      of the chain table change. An array of chain keys and every other value
      are left as they are. */
  function StatusMetrics(m: MetricsObject): (r: MetricsObject)
    ensures r.Keys == m.Keys
    ensures forall k :: k in m && k != "chains" ==> r[k] == m[k]
    ensures "chains" in m && !m["chains"].ChainTable? ==> r["chains"] == m["chains"]
    ensures "chains" in m && m["chains"].ChainTable? ==>
              r["chains"].ChainTable? && r["chains"].entries == DisplayEntries(m["chains"].entries)
  {
    if "chains" in m && m["chains"].ChainTable? then m["chains" := ChainTable(DisplayEntries(m["chains"].entries))]
    else m
  }

  /** Formatting for display twice is formatting once. */
  lemma StatusMetricsIdempotent(m: MetricsObject)
    ensures StatusMetrics(StatusMetrics(m)) == StatusMetrics(m)
  {
    if "chains" in m && m["chains"].ChainTable? {
      var e := m["chains"].entries;
      forall c | c in e
        ensures DisplayEntries(DisplayEntries(e))[c] == DisplayEntries(e)[c]
      {
        DisplayErrorsIdempotent(e[c].rpcErrors);
      }
      assert DisplayEntries(DisplayEntries(e)) == DisplayEntries(e);
    }
  }

  /** `updateMetrics`: the pushed fields over the current ones, then a new
      `lastUpdate`. */
  function Merge(current: MetricsObject, pushed: MetricsObject, stamp: string): (r: MetricsObject)
    ensures r.Keys == current.Keys + pushed.Keys + {"lastUpdate"}
    ensures r["lastUpdate"] == Plain(Str(stamp))
    ensures forall k :: k in pushed && k != "lastUpdate" ==> r[k] == pushed[k]
    ensures forall k :: k in current && k !in pushed && k != "lastUpdate" ==> r[k] == current[k]
  {
    (current + pushed)["lastUpdate" := Plain(Str(stamp))]
  }

  /** Pushing the same fields twice is pushing them once, up to the stamp. */
  lemma MergeTwice(current: MetricsObject, pushed: MetricsObject, s1: string, s2: string)
    ensures Merge(Merge(current, pushed, s1), pushed, s2) == Merge(current, pushed, s2)
  {
  }

  /** The counters the server's metrics object starts with and returns to. */
  const ZeroedFields: set<string> := {"totalWallets", "totalTokens", "totalTransactions",
                                      "successfulTransactions", "failedTransactions"}

  /** `resetMetrics` and the initial `globalMetrics`: zeroed counters, the
      native-token flag from the configuration and the chain keys of the
      chains file. */
  function ResetObject(nativeTokenSupport: Value, chainKeys: seq<string>, now: int, stamp: string): (r: MetricsObject)
    ensures r.Keys == ZeroedFields + {"startTime", "nativeTokenSupport", "chains", "lastUpdate"}
    ensures forall k :: k in ZeroedFields ==> r[k] == Plain(Int(0))
    ensures r["chains"] == ChainKeys(chainKeys) && r["startTime"] == Plain(Int(now))
    ensures r["nativeTokenSupport"] == Plain(nativeTokenSupport) && r["lastUpdate"] == Plain(Str(stamp))
  {
    map["startTime" := Plain(Int(now)), "totalWallets" := Plain(Int(0)), "totalTokens" := Plain(Int(0)),
        "totalTransactions" := Plain(Int(0)), "successfulTransactions" := Plain(Int(0)),
        "failedTransactions" := Plain(Int(0)), "nativeTokenSupport" := Plain(nativeTokenSupport),
        "chains" := ChainKeys(chainKeys), "lastUpdate" := Plain(Str(stamp))]
  }

  /** The server's `globalMetrics`. */
  class MetricsStore {
    var metrics: MetricsObject

    constructor(nativeTokenSupport: Value, chainKeys: seq<string>, now: int, stamp: string)
      ensures metrics == ResetObject(nativeTokenSupport, chainKeys, now, stamp)
    {
      metrics := ResetObject(nativeTokenSupport, chainKeys, now, stamp);
    }

    /** `updateMetrics(metrics)`, called by the bot. */
    method UpdateMetrics(pushed: MetricsObject, stamp: string)
      modifies this
      ensures metrics == Merge(old(metrics), pushed, stamp)
    {
      metrics := (metrics + pushed)["lastUpdate" := Plain(Str(stamp))];
    }

    /** `resetMetrics()`: everything the bot pushed before is gone. */
    method ResetMetrics(nativeTokenSupport: Value, chainKeys: seq<string>, now: int, stamp: string)
      modifies this
      ensures metrics == ResetObject(nativeTokenSupport, chainKeys, now, stamp)
    {
      metrics := ResetObject(nativeTokenSupport, chainKeys, now, stamp);
    }

    /** `updateMetricsFromWalletManager`: the registry's counts over the
        current object. */
    method UpdateFromRegistry(stats: Registry.Stats, stamp: string)
      modifies this
      ensures metrics == Merge(old(metrics), map["totalWallets" := Plain(Int(stats.totalWallets)),
                                                 "activeWallets" := Plain(Int(stats.activeWallets)),
                                                 "totalTokens" := Plain(Int(stats.totalTokens))], stamp)
    {
      var pushed := map["totalWallets" := Plain(Int(stats.totalWallets)),
                        "activeWallets" := Plain(Int(stats.activeWallets)),
                        "totalTokens" := Plain(Int(stats.totalTokens))];
      UpdateMetrics(pushed, stamp);
    }

    /** `GET /api/status`. The copy is shallow, so the chain entries it
        rewrites are the stored ones: the stored object becomes the one
        returned. */
    method Status() returns (shown: MetricsObject)
      modifies this
      ensures shown == StatusMetrics(old(metrics))
      ensures metrics == shown
    {
      shown := metrics;
      if "chains" in shown && shown["chains"].ChainTable? {
        var entries := shown["chains"].entries;
        var chains := entries.Keys;
        var done: map<string, ChainEntry> := map[];
        while chains != {}
          invariant chains <= entries.Keys
          invariant done.Keys == entries.Keys - chains
          invariant forall c :: c in done ==> done[c] == entries[c].(rpcErrors := DisplayErrors(entries[c].rpcErrors))
          decreases chains
        {
          var c :| c in chains;
          done := done[c := entries[c].(rpcErrors := DisplayErrors(entries[c].rpcErrors))];
          chains := chains - {c};
        }
        assert done == DisplayEntries(entries);
        shown := shown["chains" := ChainTable(done)];
      }
      metrics := shown;
    }
  }

  /** Asking for the status again shows the same metrics. */
  method StatusTwice(s: MetricsStore) returns (first: MetricsObject, second: MetricsObject)
    modifies s
    ensures first == second
  {
    first := s.Status();
    second := s.Status();
    StatusMetricsIdempotent(old(s.metrics));
  }
}
