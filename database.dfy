/** The record logic of the SQLite layer: the row `createWallet` inserts,
    the normalisation of a selected wallet row, the write-back row of
    `updateWallet`, the conversion of a user's configuration row, the
    folding of selected chain and token-standard rows into nested maps, and
    the SET clause `updateChain` builds. The rows a SELECT returns are
    inputs (already filtered and ordered by the statement); JSON text
    columns hold their parsed value. */
module Store {
  import opened Common
  import opened Records

  // ---- Wallet rows ----

  /** A row of the wallets table. A JSON column that is NULL or empty is
      `None`; `isPaused` is the stored integer. */
  datatype WalletRow = WalletRow(
    id: nat,
    userId: nat,
    privateKey: string,
    name: string,
    address: string,
    chains: Option<seq<string>>,
    baseTokenRecipient: string,
    status: string,
    tokens: Option<seq<Token>>,
    totalTransferred: Counter,
    transactions: Counter,
    successfulTransactions: Counter,
    failedTransactions: Counter,
    gasUsed: Counter,
    isPaused: int,
    chainStats: Option<map<string, ChainStat>>,
    nativeTokenStats: Option<map<string, NativeStat>>)

  /** The `walletData` object `createWallet` receives; absent fields are
      `None` (or "" for a string, which `||` treats the same way). */
  datatype WalletInput = WalletInput(
    privateKey: string,
    name: string,
    address: string,
    chains: Option<seq<string>>,
    baseTokenRecipient: string,
    status: string,
    tokens: Option<seq<Token>>,
    totalTransferred: Counter,
    transactions: Counter,
    successfulTransactions: Counter,
    failedTransactions: Counter,
    gasUsed: Counter,
    isPaused: Value,
    chainStats: Option<map<string, ChainStat>>,
    nativeTokenStats: Option<map<string, NativeStat>>)

  /** The row `createWallet` inserts under the id the insert assigns. */
  function CreateWalletRow(id: nat, userId: nat, data: WalletInput): (r: WalletRow)
    ensures r.status == (if data.status == "" then "active" else data.status)
    ensures r.isPaused == (if Truthy(data.isPaused) then 1 else 0)
    ensures r.chains == Some(data.chains.GetOr([])) && r.tokens == Some(data.tokens.GetOr([]))
    ensures r.transactions == Some(Count(data.transactions)) && r.gasUsed == Some(Count(data.gasUsed))
    ensures r.chainStats == Some(data.chainStats.GetOr(map[]))
    ensures r.nativeTokenStats == Some(data.nativeTokenStats.GetOr(map[]))
  {
    WalletRow(id, userId, data.privateKey, data.name, data.address, Some(data.chains.GetOr([])),
              data.baseTokenRecipient, if data.status == "" then "active" else data.status,
              Some(data.tokens.GetOr([])),
              Some(Count(data.totalTransferred)), Some(Count(data.transactions)),
              Some(Count(data.successfulTransactions)), Some(Count(data.failedTransactions)),
              Some(Count(data.gasUsed)),
              if Truthy(data.isPaused) then 1 else 0,
              Some(data.chainStats.GetOr(map[])), Some(data.nativeTokenStats.GetOr(map[])))
  }

  /** The record a selected row becomes in `getWalletsByUserId` and
      `getAllWallets`: missing lists are empty, missing stats are empty
      objects, and `isPaused` is a Boolean. */
  function NormalizeRow(row: WalletRow): (w: Wallet)
    ensures w.id == Some(row.id) && w.userId == Some(row.userId)
    ensures w.chains == row.chains.GetOr([]) && w.tokens == row.tokens.GetOr([])
    ensures w.chainStats == row.chainStats.GetOr(map[]) && w.nativeTokenStats == row.nativeTokenStats.GetOr(map[])
    ensures w.isPaused <==> row.isPaused != 0
  {
    Wallet(Some(row.id), Some(row.userId), row.privateKey, row.name, row.address, row.chains.GetOr([]),
           row.baseTokenRecipient, row.status, row.tokens.GetOr([]),
           row.totalTransferred, row.transactions, row.successfulTransactions, row.failedTransactions,
           row.gasUsed, row.isPaused != 0, row.chainStats.GetOr(map[]), row.nativeTokenStats.GetOr(map[]))
  }

  /** The row `updateWallet(walletId, wallet)` writes; the owner column is
      not touched. */
  function UpdateWalletRow(walletId: nat, userId: nat, w: Wallet): WalletRow {
    WalletRow(walletId, userId, w.privateKey, w.name, w.address, Some(w.chains), w.baseTokenRecipient,
              w.status, Some(w.tokens), w.totalTransferred, w.transactions, w.successfulTransactions,
              w.failedTransactions, w.gasUsed, if w.isPaused then 1 else 0,
              Some(w.chainStats), Some(w.nativeTokenStats))
  }

  /** A record written back by `updateWallet` is read back unchanged, apart
      from its id and owner. */
  lemma UpdateThenReadBack(walletId: nat, userId: nat, w: Wallet)
    ensures NormalizeRow(UpdateWalletRow(walletId, userId, w)) == w.(id := Some(walletId), userId := Some(userId))
  {
  }

  /** A created wallet reads back active unless told otherwise, unpaused
      unless told otherwise, with every counter present. */
  lemma CreateThenReadBack(id: nat, userId: nat, data: WalletInput)
    ensures var w := NormalizeRow(CreateWalletRow(id, userId, data));
      && w.status == (if data.status == "" then "active" else data.status)
      && (w.isPaused <==> Truthy(data.isPaused))
      && w.chains == data.chains.GetOr([]) && w.tokens == data.tokens.GetOr([])
      && w.transactions == Some(Count(data.transactions))
      && w.successfulTransactions == Some(Count(data.successfulTransactions))
      && w.failedTransactions == Some(Count(data.failedTransactions))
      && w.chainStats == data.chainStats.GetOr(map[])
  {
  }

  /** Normalising a row and writing it back gives a row that normalises the same way. */
  lemma NormalizeIsStable(row: WalletRow)
    ensures NormalizeRow(UpdateWalletRow(row.id, row.userId, NormalizeRow(row))) == NormalizeRow(row)
  {
  }

  predicate OwnedBy(userId: nat, row: WalletRow) { row.userId == userId }

  function NormalizeAll(rows: seq<WalletRow>): (ws: seq<Wallet>)
    ensures |ws| == |rows| && forall i :: 0 <= i < |rows| ==> ws[i] == NormalizeRow(rows[i])
  {
    if rows == [] then [] else [NormalizeRow(rows[0])] + NormalizeAll(rows[1..])
  }

  /** `getWalletsByUserId`: the owner's rows, normalised. */
  function WalletsOfUser(rows: seq<WalletRow>, userId: nat): (ws: seq<Wallet>)
    ensures forall i :: 0 <= i < |ws| ==> ws[i].userId == Some(userId)
    ensures forall i :: 0 <= i < |ws| ==> exists r :: r in rows && r.userId == userId && ws[i] == NormalizeRow(r)
    ensures forall r :: r in rows && r.userId == userId ==> NormalizeRow(r) in ws
  {
    var owned := Filter(r => OwnedBy(userId, r), rows);
    var ws := NormalizeAll(owned);
    assert forall i :: 0 <= i < |ws| ==> owned[i] in rows && owned[i].userId == userId && ws[i] == NormalizeRow(owned[i]);
    ws
  }

  // ---- User configuration ----

  /** The columns `getUserConfig` copies into the configuration object. */
  const ConfigColumns: set<string> := {
    "chains", "gasPriceMultiplier", "gasPriceCacheDuration", "nonceUpdateInterval",
    "metricsUpdateInterval", "backupCheckInterval", "minBalanceToKeep", "nativeTokenSupport",
    "nativeTokenGasLimit", "nativeTokenMinBalance", "checkInterval", "maxGasPrice",
    "minBalanceThreshold", "enableMempoolMonitoring", "enableWebSocket", "maxRetries",
    "retryDelay", "enableLogging", "logLevel", "enableMetrics", "metricsInterval"}

  /** The columns converted with `Boolean(...)`. */
  const FlagColumns: set<string> := {
    "nativeTokenSupport", "enableMempoolMonitoring", "enableWebSocket", "enableLogging", "enableMetrics"}

  /** A column of a row; a NULL column is `Null`. */
  function Column(row: map<string, Value>, name: string): Value {
    if name in row then row[name] else Null
  }

  /** `getUserConfig`: no row gives null; otherwise every configuration
      column, the flags as Booleans and the rest as stored. */
  function UserConfigOf(row: Option<map<string, Value>>): (r: Option<Config>)
    ensures r.None? <==> row.None?
    ensures r.Some? ==> r.value.Keys == ConfigColumns
    ensures r.Some? ==> forall k :: k in FlagColumns ==> r.value[k] == Bool(Truthy(Column(row.value, k)))
    ensures r.Some? ==> forall k :: k in ConfigColumns && k !in FlagColumns ==> r.value[k] == Column(row.value, k)
  {
    match row
    case None => None
    case Some(cols) =>
      Some(map k | k in ConfigColumns :: if k in FlagColumns then Bool(Truthy(Column(cols, k))) else Column(cols, k))
  }

  // ---- Chains ----

  /** A selected row of the chains table. */
  datatype ChainRow = ChainRow(userId: nat, chainKey: string, name: string, chainId: int,
                               rpcUrls: seq<string>, explorerUrl: string, nativeCurrency: string)

  function Describe(row: ChainRow): ChainDescriptor {
    ChainDescriptor(row.name, row.chainId, Some(row.rpcUrls), None, row.explorerUrl, row.nativeCurrency)
  }

  /** The object `getChains` builds, row by row: a later row with the same
      key replaces an earlier one. */
  function ChainsOf(rows: seq<ChainRow>): map<string, ChainDescriptor>
    decreases |rows|
  {
    if rows == [] then map[]
    else ChainsOf(rows[..|rows| - 1])[rows[|rows| - 1].chainKey := Describe(rows[|rows| - 1])]
  }

  /** The object `getAllChains` builds: user id, then chain key. */
  function AllChainsOf(rows: seq<ChainRow>): map<nat, map<string, ChainDescriptor>>
    decreases |rows|
  {
    if rows == [] then map[]
    else
      var m := AllChainsOf(rows[..|rows| - 1]);
      var row := rows[|rows| - 1];
      var inner := if row.userId in m then m[row.userId] else map[];
      m[row.userId := inner[row.chainKey := Describe(row)]]
  }

  /** A key is in `getChains`'s object iff some row has it, and its value
      describes the last such row. */
  lemma {:induction false} ChainsOfLookup(rows: seq<ChainRow>, key: string)
    ensures key in ChainsOf(rows) <==> exists i :: 0 <= i < |rows| && rows[i].chainKey == key
    ensures key in ChainsOf(rows) ==>
              exists i :: 0 <= i < |rows| && rows[i].chainKey == key && ChainsOf(rows)[key] == Describe(rows[i])
                          && forall j :: i < j < |rows| ==> rows[j].chainKey != key
    decreases |rows|
  {
    if rows != [] {
      var init := rows[..|rows| - 1];
      ChainsOfLookup(init, key);
      assert forall i :: 0 <= i < |init| ==> init[i] == rows[i];
      if rows[|rows| - 1].chainKey != key && key in ChainsOf(rows) {
        var i :| 0 <= i < |init| && init[i].chainKey == key && ChainsOf(init)[key] == Describe(init[i])
                 && forall j :: i < j < |init| ==> init[j].chainKey != key;
        assert rows[i].chainKey == key && ChainsOf(rows)[key] == Describe(rows[i]);
      }
    }
  }

  /** The rows of one user, in order: the `WHERE user_id = ?` of
      `getChains` and `getTokenStandards`, on a table whose rows carry
      their owner's id as `owner` reads it. */
  function OwnedRows<R(==,!new)>(rows: seq<R>, owner: R -> nat, userId: nat): (r: seq<R>)
    ensures forall i :: 0 <= i < |r| ==> owner(r[i]) == userId
    ensures forall x :: x in r <==> x in rows && owner(x) == userId
    decreases |rows|
  {
    if rows == [] then []
    else
      var last := rows[|rows| - 1];
      assert rows == rows[..|rows| - 1] + [last];
      OwnedRows(rows[..|rows| - 1], owner, userId) + (if owner(last) == userId then [last] else [])
  }

  function ChainOwner(row: ChainRow): nat { row.userId }

  function StandardOwner(row: StandardRow): nat { row.userId }

  /** `getAllChains` holds, per user, what `getChains` gives for that user's
      rows, and a user only when some row is theirs. */
  lemma {:induction false} AllChainsPerUser(rows: seq<ChainRow>, userId: nat)
    ensures userId in AllChainsOf(rows) <==> OwnedRows(rows, ChainOwner, userId) != []
    ensures userId in AllChainsOf(rows) ==> AllChainsOf(rows)[userId] == ChainsOf(OwnedRows(rows, ChainOwner, userId))
    decreases |rows|
  {
    if rows != [] {
      var init := rows[..|rows| - 1];
      var row := rows[|rows| - 1];
      AllChainsPerUser(init, userId);
      if row.userId == userId {
        var f := OwnedRows(rows, ChainOwner, userId);
        assert f == OwnedRows(init, ChainOwner, userId) + [row];
        assert f[..|f| - 1] == OwnedRows(init, ChainOwner, userId);
        assert f[|f| - 1] == row;
        assert ChainsOf(OwnedRows(init, ChainOwner, userId)) == (if userId in AllChainsOf(init) then AllChainsOf(init)[userId] else map[]);
      } else {
        assert OwnedRows(rows, ChainOwner, userId) == OwnedRows(init, ChainOwner, userId) + [];
        assert OwnedRows(init, ChainOwner, userId) + [] == OwnedRows(init, ChainOwner, userId);
      }
    }
  }

  /** `getChains`, with the source's `forEach`. */
  method GetChains(rows: seq<ChainRow>) returns (chains: map<string, ChainDescriptor>)
    ensures chains == ChainsOf(rows)
  {
    chains := map[];
    var i := 0;
    while i < |rows|
      invariant 0 <= i <= |rows|
      invariant chains == ChainsOf(rows[..i])
      decreases |rows| - i
    {
      assert rows[..i + 1][..i] == rows[..i];
      chains := chains[rows[i].chainKey := Describe(rows[i])];
      i := i + 1;
    }
    assert rows[..i] == rows;
  }

  /** `getAllChains`. */
  method GetAllChains(rows: seq<ChainRow>) returns (chains: map<nat, map<string, ChainDescriptor>>)
    ensures chains == AllChainsOf(rows)
  {
    chains := map[];
    var i := 0;
    while i < |rows|
      invariant 0 <= i <= |rows|
      invariant chains == AllChainsOf(rows[..i])
      decreases |rows| - i
    {
      assert rows[..i + 1][..i] == rows[..i];
      var row := rows[i];
      if row.userId !in chains {
        chains := chains[row.userId := map[]];
      }
      chains := chains[row.userId := chains[row.userId][row.chainKey := Describe(row)]];
      i := i + 1;
    }
    assert rows[..i] == rows;
  }

  // ---- Token standards ----

  /** A selected row of the token_standards table. */
  datatype StandardRow = StandardRow(userId: nat, chainKey: string, tokenType: string, abiFile: string)

  function AddStandard(s: map<string, map<string, string>>, row: StandardRow): map<string, map<string, string>> {
    var inner := if row.chainKey in s then s[row.chainKey] else map[];
    s[row.chainKey := inner[row.tokenType := row.abiFile]]
  }

  /** The object `getTokenStandards` builds: `standards[chain][type] = abiFile`. */
  function StandardsOf(rows: seq<StandardRow>): map<string, map<string, string>>
    decreases |rows|
  {
    if rows == [] then map[] else AddStandard(StandardsOf(rows[..|rows| - 1]), rows[|rows| - 1])
  }

  /** The object `getAllTokenStandards` builds, nested under the user id. */
  function AllStandardsOf(rows: seq<StandardRow>): map<nat, map<string, map<string, string>>>
    decreases |rows|
  {
    if rows == [] then map[]
    else
      var m := AllStandardsOf(rows[..|rows| - 1]);
      var row := rows[|rows| - 1];
      var inner := if row.userId in m then m[row.userId] else map[];
      m[row.userId := AddStandard(inner, row)]
  }

  /** A (chain, type) pair is in `getTokenStandards`'s object iff some row
      has it, and its ABI file is that of the last such row. */
  lemma {:induction false} StandardsOfLookup(rows: seq<StandardRow>, chain: string, tokenType: string)
    ensures (chain in StandardsOf(rows) && tokenType in StandardsOf(rows)[chain]) <==>
              exists i :: 0 <= i < |rows| && rows[i].chainKey == chain && rows[i].tokenType == tokenType
    ensures chain in StandardsOf(rows) && tokenType in StandardsOf(rows)[chain] ==>
              exists i :: 0 <= i < |rows| && rows[i].chainKey == chain && rows[i].tokenType == tokenType
                          && StandardsOf(rows)[chain][tokenType] == rows[i].abiFile
                          && forall j :: i < j < |rows| ==> !(rows[j].chainKey == chain && rows[j].tokenType == tokenType)
    decreases |rows|
  {
    if rows != [] {
      var init := rows[..|rows| - 1];
      var last := rows[|rows| - 1];
      StandardsOfLookup(init, chain, tokenType);
      assert forall i :: 0 <= i < |init| ==> init[i] == rows[i];
      var r := StandardsOf(rows);
      if !(last.chainKey == chain && last.tokenType == tokenType) && chain in r && tokenType in r[chain] {
        assert chain in StandardsOf(init) && tokenType in StandardsOf(init)[chain];
        var i :| 0 <= i < |init| && init[i].chainKey == chain && init[i].tokenType == tokenType
                 && StandardsOf(init)[chain][tokenType] == init[i].abiFile
                 && forall j :: i < j < |init| ==> !(init[j].chainKey == chain && init[j].tokenType == tokenType);
        assert rows[i].chainKey == chain && r[chain][tokenType] == rows[i].abiFile;
      }
    }
  }

  /** `getAllTokenStandards` holds, per user, what `getTokenStandards`
      gives for that user's rows. */
  lemma {:induction false} AllStandardsPerUser(rows: seq<StandardRow>, userId: nat)
    ensures userId in AllStandardsOf(rows) <==> OwnedRows(rows, StandardOwner, userId) != []
    ensures userId in AllStandardsOf(rows) ==> AllStandardsOf(rows)[userId] == StandardsOf(OwnedRows(rows, StandardOwner, userId))
    decreases |rows|
  {
    if rows != [] {
      var init := rows[..|rows| - 1];
      var row := rows[|rows| - 1];
      AllStandardsPerUser(init, userId);
      if row.userId == userId {
        var f := OwnedRows(rows, StandardOwner, userId);
        assert f == OwnedRows(init, StandardOwner, userId) + [row];
        assert f[..|f| - 1] == OwnedRows(init, StandardOwner, userId);
        assert f[|f| - 1] == row;
        assert StandardsOf(OwnedRows(init, StandardOwner, userId)) == (if userId in AllStandardsOf(init) then AllStandardsOf(init)[userId] else map[]);
      } else {
        assert OwnedRows(rows, StandardOwner, userId) == OwnedRows(init, StandardOwner, userId) + [];
        assert OwnedRows(init, StandardOwner, userId) + [] == OwnedRows(init, StandardOwner, userId);
      }
    }
  }

  /** `getTokenStandards`. */
  method GetTokenStandards(rows: seq<StandardRow>) returns (standards: map<string, map<string, string>>)
    ensures standards == StandardsOf(rows)
  {
    standards := map[];
    var i := 0;
    while i < |rows|
      invariant 0 <= i <= |rows|
      invariant standards == StandardsOf(rows[..i])
      decreases |rows| - i
    {
      assert rows[..i + 1][..i] == rows[..i];
      var row := rows[i];
      if row.chainKey !in standards {
        standards := standards[row.chainKey := map[]];
      }
      standards := standards[row.chainKey := standards[row.chainKey][row.tokenType := row.abiFile]];
      i := i + 1;
    }
    assert rows[..i] == rows;
  }

  /** `getAllTokenStandards`. */
  method GetAllTokenStandards(rows: seq<StandardRow>) returns (standards: map<nat, map<string, map<string, string>>>)
    ensures standards == AllStandardsOf(rows)
  {
    standards := map[];
    var i := 0;
    while i < |rows|
      invariant 0 <= i <= |rows|
      invariant standards == AllStandardsOf(rows[..i])
      decreases |rows| - i
    {
      assert rows[..i + 1][..i] == rows[..i];
      var row := rows[i];
      assert rows[..i + 1][i] == row;
      if row.userId !in standards {
        standards := standards[row.userId := map[]];
      }
      var perUser := standards[row.userId];
      ghost var before := perUser;
      if row.chainKey !in perUser {
        perUser := perUser[row.chainKey := map[]];
      }
      perUser := perUser[row.chainKey := perUser[row.chainKey][row.tokenType := row.abiFile]];
      assert perUser == AddStandard(before, row);
      standards := standards[row.userId := perUser];
      i := i + 1;
    }
    assert rows[..i] == rows;
  }

  // ---- The chain update statement ----

  /** The `updates` object of `updateChain`; a falsy field is skipped
      (an empty string, a zero chain id, an absent list, an absent or empty
      currency). The currency stands for the JSON text `JSON.stringify`
      makes of it. */
  datatype ChainUpdates = ChainUpdates(name: string, chainId: int, rpcUrls: Option<seq<string>>,
                                       explorerUrl: string, nativeCurrency: Option<string>)

  /** `[x]` when `b`, nothing otherwise: one `if (...) push(...)`. */
  function PushIf<T>(b: bool, x: T): seq<T> {
    if b then [x] else []
  }

  /** The clause `col = ?` for one column. */
  function Assign(column: string): string {
    column + " = " + "?"
  }

  /** The `col = ?` clauses for the given fields, in the fixed column order. */
  function SetClauses(u: ChainUpdates): seq<string> {
    PushIf(u.name != "", Assign("name"))
    + PushIf(u.chainId != 0, Assign("chain_id"))
    + PushIf(u.rpcUrls.Some?, Assign("rpc_urls"))
    + PushIf(u.explorerUrl != "", Assign("explorer_url"))
    + PushIf(u.nativeCurrency.Some? && u.nativeCurrency.value != "", Assign("native_currency"))
  }

  /** The values bound to those clauses, in the same order. */
  function SetValues(u: ChainUpdates): seq<Value> {
    PushIf(u.name != "", Str(u.name))
    + PushIf(u.chainId != 0, Int(u.chainId))
    + PushIf(u.rpcUrls.Some?, List(u.rpcUrls.GetOr([])))
    + PushIf(u.explorerUrl != "", Str(u.explorerUrl))
    + PushIf(u.nativeCurrency.Some? && u.nativeCurrency.value != "", Str(u.nativeCurrency.GetOr("")))
  }

  const TimestampClause := "updated_at = CURRENT_TIMESTAMP"
  const WhereClause := " WHERE user_id = " + "?" + " AND chain_key = " + "?"

  /** The statement `updateChain` runs: the SET clauses, the timestamp, and
      the row selected by user and chain key. */
  function UpdateSql(u: ChainUpdates): string {
    "UPDATE chains SET " + Join(SetClauses(u) + [TimestampClause], ", ") + WhereClause
  }

  /** `updateChain`'s statement and bound values, built by pushing onto
      two arrays as the source does. */
  method UpdateChainStatement(userId: nat, chainKey: string, u: ChainUpdates) returns (sql: string, values: seq<Value>)
    ensures sql == UpdateSql(u)
    ensures values == SetValues(u) + [Int(userId), Str(chainKey)]
  {
    var fields: seq<string> := [];
    values := [];
    if u.name != "" {
      fields := fields + [Assign("name")];
      values := values + [Str(u.name)];
    }
    ghost var f, v := fields, values;
    assert f == PushIf(u.name != "", Assign("name"));
    assert v == PushIf(u.name != "", Str(u.name));
    if u.chainId != 0 {
      fields := fields + [Assign("chain_id")];
      values := values + [Int(u.chainId)];
    }
    assert fields == f + PushIf(u.chainId != 0, Assign("chain_id"));
    assert values == v + PushIf(u.chainId != 0, Int(u.chainId));
    f, v := fields, values;
    if u.rpcUrls.Some? {
      fields := fields + [Assign("rpc_urls")];
      values := values + [List(u.rpcUrls.value)];
    }
    assert fields == f + PushIf(u.rpcUrls.Some?, Assign("rpc_urls"));
    assert values == v + PushIf(u.rpcUrls.Some?, List(u.rpcUrls.GetOr([])));
    f, v := fields, values;
    if u.explorerUrl != "" {
      fields := fields + [Assign("explorer_url")];
      values := values + [Str(u.explorerUrl)];
    }
    assert fields == f + PushIf(u.explorerUrl != "", Assign("explorer_url"));
    assert values == v + PushIf(u.explorerUrl != "", Str(u.explorerUrl));
    f, v := fields, values;
    if u.nativeCurrency.Some? && u.nativeCurrency.value != "" {
      fields := fields + [Assign("native_currency")];
      values := values + [Str(u.nativeCurrency.value)];
    }
    assert fields == f + PushIf(u.nativeCurrency.Some? && u.nativeCurrency.value != "", Assign("native_currency"));
    assert values == v + PushIf(u.nativeCurrency.Some? && u.nativeCurrency.value != "", Str(u.nativeCurrency.GetOr("")));
    assert fields == SetClauses(u);
    fields := fields + [TimestampClause];
    values := values + [Int(userId), Str(chainKey)];
    sql := "UPDATE chains SET " + Join(fields, ", ") + WhereClause;
  }

  lemma {:induction false} NoPlaceholder(s: string)
    requires '?' !in s
    ensures CountChar('?', s) == 0
  {
    if s != [] {
      assert s == [s[0]] + s[1..];
      NoPlaceholder(s[1..]);
    }
  }

  lemma OnePlaceholder(q: string)
    requires q == "?"
    ensures CountChar('?', q) == 1
  {
    assert q[1..] == [];
  }

  /** Text without `?` around placeholders: `a ? b ?` holds two. */
  lemma TwoPlaceholders(a: string, b: string, q: string)
    requires '?' !in a && '?' !in b && q == "?"
    ensures CountChar('?', a + q + b + q) == 2
  {
    NoPlaceholder(a);
    NoPlaceholder(b);
    OnePlaceholder(q);
    CountCharConcat('?', a, q);
    CountCharConcat('?', a + q, b);
    CountCharConcat('?', a + q + b, q);
  }

  /** `a b ?` with no `?` in `a` or `b` holds one. */
  lemma Placeholder(a: string, b: string, q: string)
    requires '?' !in a && '?' !in b && q == "?"
    ensures CountChar('?', a + b + q) == 1
  {
    NoPlaceholder(a);
    NoPlaceholder(b);
    OnePlaceholder(q);
    CountCharConcat('?', a, b);
    CountCharConcat('?', a + b, q);
  }

  /** One optional push of `updateChain` adds one placeholder per clause it adds. */
  lemma PushPlaceholders(b: bool, column: string)
    requires '?' !in column
    ensures CountCharIn('?', PushIf(b, Assign(column))) == |PushIf(b, Assign(column))|
  {
    if b {
      Placeholder(column, " = ", "?");
      assert [Assign(column)][1..] == [];
    }
  }

  /** Five optional pushes of clauses for columns without `?`. */
  lemma FivePushes(b1: bool, c1: string, b2: bool, c2: string, b3: bool, c3: string,
                   b4: bool, c4: string, b5: bool, c5: string)
    requires '?' !in c1 && '?' !in c2 && '?' !in c3 && '?' !in c4 && '?' !in c5
    ensures var clauses := PushIf(b1, Assign(c1)) + PushIf(b2, Assign(c2)) + PushIf(b3, Assign(c3))
                           + PushIf(b4, Assign(c4)) + PushIf(b5, Assign(c5));
            CountCharIn('?', clauses) == |clauses|
  {
    var p1, p2, p3, p4, p5 := PushIf(b1, Assign(c1)), PushIf(b2, Assign(c2)), PushIf(b3, Assign(c3)),
                              PushIf(b4, Assign(c4)), PushIf(b5, Assign(c5));
    PushPlaceholders(b1, c1);
    PushPlaceholders(b2, c2);
    PushPlaceholders(b3, c3);
    PushPlaceholders(b4, c4);
    PushPlaceholders(b5, c5);
    CountCharInConcat('?', p1, p2);
    CountCharInConcat('?', p1 + p2, p3);
    CountCharInConcat('?', p1 + p2 + p3, p4);
    CountCharInConcat('?', p1 + p2 + p3 + p4, p5);
  }

  /** The SET clauses hold one placeholder each. */
  lemma SetClausePlaceholders(u: ChainUpdates)
    ensures CountCharIn('?', SetClauses(u)) == |SetClauses(u)|
  {
    FivePushes(u.name != "", "name", u.chainId != 0, "chain_id", u.rpcUrls.Some?, "rpc_urls",
               u.explorerUrl != "", "explorer_url", u.nativeCurrency.Some? && u.nativeCurrency.value != "",
               "native_currency");
  }

  /** One bound value per SET clause. */
  lemma OneValuePerClause(u: ChainUpdates)
    ensures |SetClauses(u)| == |SetValues(u)|
  {
  }

  lemma WherePlaceholders()
    ensures CountChar('?', WhereClause) == 2
  {
    TwoPlaceholders(" WHERE user_id = ", " AND chain_key = ", "?");
  }

  lemma SqlPlaceholders(u: ChainUpdates)
    ensures CountChar('?', UpdateSql(u)) == CountCharIn('?', SetClauses(u)) + CountChar('?', WhereClause)
  {
    StatementPlaceholders("UPDATE chains SET ", SetClauses(u), TimestampClause, ", ");
  }

  /** The statement has exactly one placeholder per bound value, so the
      values line up with the columns they set and with the WHERE clause. */
  lemma PlaceholdersMatchValues(userId: nat, chainKey: string, u: ChainUpdates)
    ensures CountChar('?', UpdateSql(u)) == |SetValues(u) + [Int(userId), Str(chainKey)]|
  {
    SqlPlaceholders(u);
    WherePlaceholders();
    SetClausePlaceholders(u);
    OneValuePerClause(u);
  }

  lemma StatementPlaceholders(head: string, clauses: seq<string>, last: string, sep: string)
    requires '?' !in head && '?' !in last && '?' !in sep
    ensures CountChar('?', head + Join(clauses + [last], sep) + WhereClause)
            == CountCharIn('?', clauses) + CountChar('?', WhereClause)
  {
    var fields := clauses + [last];
    NoPlaceholder(head);
    NoPlaceholder(last);
    NoPlaceholder(sep);
    CountCharJoin('?', fields, sep);
    CountCharInConcat('?', clauses, [last]);
    assert [last][1..] == [];
    CountCharConcat('?', head, Join(fields, sep));
    CountCharConcat('?', head + Join(fields, sep), WhereClause);
  }
}
