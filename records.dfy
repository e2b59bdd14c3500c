/** The wallet and token records every part of the system shares: the objects
    kept in the registry's list, stored in the wallets table and sent to the
    dashboard. Timestamps (addedAt, lastChecked, lastActive, lastTransfer) are
    not modelled. */
module Records {
  import opened Common

  /** A watched token of a wallet. */
  datatype Token = Token(
    tokenAddress: string,
    recipientAddress: string,
    name: string,
    chain: string,
    tokenType: string,
    totalTransferred: nat,
    transactions: nat,
    successfulTransactions: nat,
    failedTransactions: nat)

  /** One entry of a wallet's `chainStats` object. Any field may be missing. */
  datatype ChainStat = ChainStat(
    transactions: Counter,
    successfulTransactions: Counter,
    failedTransactions: Counter,
    gasUsed: Counter)

  /** One entry of a wallet's `nativeTokenStats` object. */
  datatype NativeStat = NativeStat(
    transactions: Counter,
    successfulTransactions: Counter,
    failedTransactions: Counter,
    gasUsed: Counter,
    totalTransferred: Counter)

  /** A wallet record. `id` and `userId` exist only once the record has been
      stored; the stored counters may be missing and are read with `|| 0`. */
  datatype Wallet = Wallet(
    id: Option<nat>,
    userId: Option<nat>,
    privateKey: string,
    name: string,
    address: string,
    chains: seq<string>,
    baseTokenRecipient: string,
    status: string,
    tokens: seq<Token>,
    totalTransferred: Counter,
    transactions: Counter,
    successfulTransactions: Counter,
    failedTransactions: Counter,
    gasUsed: Counter,
    isPaused: bool,
    chainStats: map<string, ChainStat>,
    nativeTokenStats: map<string, NativeStat>)

  /** A chain's description: its display name, chain id, RPC endpoint list
      (`rpc`, or the older `rpcUrls`), explorer URL and native currency
      (kept as its JSON text). */
  datatype ChainDescriptor = ChainDescriptor(
    name: string,
    chainId: int,
    rpc: Option<seq<string>>,
    rpcUrls: Option<seq<string>>,
    explorer: string,
    nativeCurrency: string)

  const ZeroChainStat := ChainStat(Some(0), Some(0), Some(0), Some(0))

  /** A token with all its counters at zero, as both add-token paths create it. */
  function NewToken(tokenAddress: string, recipientAddress: string, name: string,
                    chain: string, tokenType: string): Token
  {
    Token(tokenAddress, recipientAddress, name, chain, tokenType, 0, 0, 0, 0)
  }

  /** The one filter the registry, the block monitor and the API share:
      status 'active' and not paused. */
  predicate IsActive(w: Wallet) {
    w.status == "active" && !w.isPaused
  }

  /** The token is watched for `tokenAddress` on `chain`. */
  predicate Watches(t: Token, tokenAddress: string, chain: string) {
    t.tokenAddress == tokenAddress && t.chain == chain
  }

  /** At most one token per (tokenAddress, chain). */
  ghost predicate UniqueTokens(tokens: seq<Token>) {
    forall i, j :: 0 <= i < j < |tokens| ==>
      !Watches(tokens[j], tokens[i].tokenAddress, tokens[i].chain)
  }
}
