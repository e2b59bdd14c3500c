/** The transaction helper of one chain connection: a per-address nonce cache,
    a one-second gas-price cache, a cache of contract handles, and the build
    and send of a token transfer. Every network read (pending transaction
    count, gas price, gas estimate, broadcast) is a parameter holding its
    result. */
module TxManager {
  import opened Common
  import opened SweepMath

  /** How long a cached gas price is served, in milliseconds. */
  const GasPriceCacheDuration: nat := 1000
  /** Gas limit used when estimation fails. */
  const FallbackGasLimit: nat := 100000

  /** The ABI file a contract handle is built from; other types throw. */
  function AbiFileFor(tokenType: string): (r: Option<string>)
    ensures r.Some? <==> IsFungibleType(tokenType) || IsNonFungibleType(tokenType) || IsMultiTokenType(tokenType)
    ensures r == Some("erc20.json") <==> IsFungibleType(tokenType)
    ensures r == Some("erc721.json") <==> IsNonFungibleType(tokenType)
    ensures r == Some("erc1155.json") <==> IsMultiTokenType(tokenType)
  {
    if IsFungibleType(tokenType) then Some("erc20.json")
    else if IsNonFungibleType(tokenType) then Some("erc721.json")
    else if IsMultiTokenType(tokenType) then Some("erc1155.json")
    else None
  }

  /** The helper accepts exactly the token types the sweep dispatches, and
      picks the ABI that matches the call the sweep encodes. */
  lemma AbiAgreesWithDispatch(tokenType: string)
    ensures AbiFileFor(tokenType).Some? <==> TokenDispatch(tokenType).Some?
    ensures TokenDispatch(tokenType).Some? ==>
              (TokenDispatch(tokenType).value.call == Transfer <==> AbiFileFor(tokenType) == Some("erc20.json"))
              && (TokenDispatch(tokenType).value.call == TransferFrom <==> AbiFileFor(tokenType) == Some("erc721.json"))
              && (TokenDispatch(tokenType).value.call == SafeTransferFrom <==> AbiFileFor(tokenType) == Some("erc1155.json"))
  {
  }

  /** Cache key of a contract handle: `chain-tokenType-tokenAddress`. */
  function ContractKey(chain: string, tokenType: string, tokenAddress: string): (k: string)
    ensures |k| == |chain| + |tokenType| + |tokenAddress| + 2
    ensures k[..|chain|] == chain && k[|k| - |tokenAddress|..] == tokenAddress
  {
    chain + "-" + tokenType + "-" + tokenAddress
  }

  /** A contract handle: the ABI it was built from and the token address. */
  datatype Contract = Contract(abiFile: string, address: string)

  /** An unsigned transaction as `createTransaction` builds it. `gasPrice` is
      the price read; the transaction carries 1.5 times it. */
  datatype Tx = Tx(from: string, to: string, nonce: nat, gasPrice: nat, gas: nat,
                   recipient: string, amount: nat)

  class TransactionManager {
    var nonceCache: map<string, nat>
    var cachedPrice: Option<nat>
    var priceTimestamp: int
    var contractCache: map<string, Contract>

    /** A price is served from the cache: present, non-zero and fresh. */
    predicate PriceFresh(now: int)
      reads this
    {
      cachedPrice.Some? && cachedPrice.value != 0 && now - priceTimestamp < GasPriceCacheDuration
    }

    constructor ()
      ensures nonceCache == map[] && cachedPrice == None && priceTimestamp == 0 && contractCache == map[]
    {
      nonceCache := map[];
      cachedPrice := None;
      priceTimestamp := 0;
      contractCache := map[];
    }

    /** `initializeNonce`: no address gives 0 and caches nothing; otherwise
        the pending count is cached and returned, 0 when the read fails. */
    method InitializeNonce(address: string, pendingCount: Result<nat>) returns (nonce: nat)
      modifies this
      ensures address == "" ==> nonce == 0 && nonceCache == old(nonceCache)
      ensures address != "" ==> nonce == (if pendingCount.Ok? then pendingCount.value else 0)
                                && nonceCache == old(nonceCache)[address := nonce]
      ensures cachedPrice == old(cachedPrice) && priceTimestamp == old(priceTimestamp)
      ensures contractCache == old(contractCache)
    {
      if address == "" {
        return 0;
      }
      match pendingCount
      case Ok(n) =>
        nonceCache := nonceCache[address := n];
        return n;
      case Err =>
        nonceCache := nonceCache[address := 0];
        return 0;
    }

    /** `getNonce`: the cached value when there is one, else `initializeNonce`. */
    method GetNonce(address: string, pendingCount: Result<nat>) returns (nonce: nat)
      modifies this
      ensures address in old(nonceCache) ==> nonce == old(nonceCache)[address] && nonceCache == old(nonceCache)
      ensures address !in old(nonceCache) && address != "" ==>
                nonce == (if pendingCount.Ok? then pendingCount.value else 0)
                && nonceCache == old(nonceCache)[address := nonce]
      ensures address !in old(nonceCache) && address == "" ==> nonce == 0 && nonceCache == old(nonceCache)
      ensures cachedPrice == old(cachedPrice) && priceTimestamp == old(priceTimestamp)
      ensures contractCache == old(contractCache)
    {
      if address !in nonceCache {
        nonce := InitializeNonce(address, pendingCount);
        return;
      }
      return nonceCache[address];
    }

    /** `updateNonce`: one past the cached value, a missing one read as 0. */
    method UpdateNonce(address: string)
      modifies this
      ensures nonceCache == old(nonceCache)[address := (if address in old(nonceCache) then old(nonceCache)[address] else 0) + 1]
      ensures cachedPrice == old(cachedPrice) && priceTimestamp == old(priceTimestamp)
      ensures contractCache == old(contractCache)
    {
      var current := if address in nonceCache then nonceCache[address] else 0;
      nonceCache := nonceCache[address := current + 1];
    }

    /** `getContract`: a cached handle is returned as is; otherwise a handle
        is built for the type's ABI and cached, and an unknown type throws
        with nothing cached. */
    method GetContract(tokenAddress: string, chain: string, tokenType: string) returns (r: Result<Contract>)
      modifies this
      ensures var key := ContractKey(chain, tokenType, tokenAddress);
        && (key in old(contractCache) ==> r == Ok(old(contractCache)[key]) && contractCache == old(contractCache))
        && (key !in old(contractCache) && AbiFileFor(tokenType).Some? ==>
              r == Ok(Contract(AbiFileFor(tokenType).value, tokenAddress))
              && contractCache == old(contractCache)[key := r.value])
        && (key !in old(contractCache) && AbiFileFor(tokenType).None? ==> r.Err? && contractCache == old(contractCache))
      ensures r.Ok? ==> ContractKey(chain, tokenType, tokenAddress) in contractCache
                        && contractCache[ContractKey(chain, tokenType, tokenAddress)] == r.value
      ensures nonceCache == old(nonceCache) && cachedPrice == old(cachedPrice) && priceTimestamp == old(priceTimestamp)
    {
      var key := ContractKey(chain, tokenType, tokenAddress);
      if key !in contractCache {
        var abiFile := AbiFileFor(tokenType);
        if abiFile.None? {
          return Err;
        }
        contractCache := contractCache[key := Contract(abiFile.value, tokenAddress)];
      }
      return Ok(contractCache[key]);
    }

    /** `getGasPrice` at time `now`: the cached price while fresh; otherwise
        the network price, which is cached with `now` as its time. A failed
        read throws and leaves the cache alone. */
    method GetGasPrice(now: int, networkPrice: Result<nat>) returns (r: Result<nat>)
      modifies this
      ensures old(PriceFresh(now)) ==> r == Ok(old(cachedPrice).value)
                                       && cachedPrice == old(cachedPrice) && priceTimestamp == old(priceTimestamp)
      ensures !old(PriceFresh(now)) ==> r == networkPrice
      ensures !old(PriceFresh(now)) && networkPrice.Ok? ==> cachedPrice == Some(networkPrice.value) && priceTimestamp == now
      ensures !old(PriceFresh(now)) && networkPrice.Err? ==> cachedPrice == old(cachedPrice) && priceTimestamp == old(priceTimestamp)
      ensures nonceCache == old(nonceCache) && contractCache == old(contractCache)
    {
      if PriceFresh(now) {
        return Ok(cachedPrice.value);
      }
      match networkPrice
      case Err =>
        return Err;
      case Ok(p) =>
        cachedPrice := Some(p);
        priceTimestamp := now;
        return Ok(p);
    }

    /** `createTransaction` for the account `address` derived from the key.
        No key throws; so do an unsupported type and a failed price read
        when no fresh price is cached. The price is `getGasPrice`'s.
        The nonce comes from `getNonce` and is then advanced by
        `updateNonce`; a failed estimate gives the fallback gas limit. */
    method CreateTransaction(tokenAddress: string, recipient: string, amount: nat, privateKey: string,
                             address: string, chain: string, tokenType: string, now: int,
                             pendingCount: Result<nat>, networkPrice: Result<nat>, estimate: Result<nat>)
      returns (r: Result<Tx>)
      modifies this
      ensures privateKey == "" ==> r.Err?
      ensures AbiFileFor(tokenType).None? && ContractKey(chain, tokenType, tokenAddress) !in old(contractCache) ==> r.Err?
      ensures r.Ok? <==>
                && privateKey != ""
                && (ContractKey(chain, tokenType, tokenAddress) in old(contractCache) || AbiFileFor(tokenType).Some?)
                && (old(PriceFresh(now)) || networkPrice.Ok?)
      ensures r.Ok? ==>
                && r.value.gasPrice == (if old(PriceFresh(now)) then old(cachedPrice).value else networkPrice.value)
                && (old(PriceFresh(now)) ==> cachedPrice == old(cachedPrice) && priceTimestamp == old(priceTimestamp))
                && (!old(PriceFresh(now)) ==> cachedPrice == Some(networkPrice.value) && priceTimestamp == now)
                && ContractKey(chain, tokenType, tokenAddress) in contractCache
      ensures r.Ok? ==>
                && r.value.from == address && r.value.to == tokenAddress
                && r.value.recipient == recipient && r.value.amount == amount
                && r.value.gas == (if estimate.Ok? then estimate.value else FallbackGasLimit)
                && (address in old(nonceCache) ==> r.value.nonce == old(nonceCache)[address])
                && (address !in old(nonceCache) && address != "" && pendingCount.Ok? ==> r.value.nonce == pendingCount.value)
                && (address !in old(nonceCache) && (address == "" || pendingCount.Err?) ==> r.value.nonce == 0)
                && address in nonceCache && nonceCache[address] == r.value.nonce + 1
                && nonceCache.Keys == old(nonceCache).Keys + {address}
      ensures r.Err? && (privateKey == "" || (ContractKey(chain, tokenType, tokenAddress) !in old(contractCache) && AbiFileFor(tokenType).None?)) ==>
                nonceCache == old(nonceCache) && contractCache == old(contractCache)
                && cachedPrice == old(cachedPrice) && priceTimestamp == old(priceTimestamp)
      ensures r.Err? && privateKey != "" && (ContractKey(chain, tokenType, tokenAddress) in old(contractCache) || AbiFileFor(tokenType).Some?) ==>
                && ContractKey(chain, tokenType, tokenAddress) in contractCache
                && nonceCache == (if address in old(nonceCache) || address == "" then old(nonceCache)
                                  else old(nonceCache)[address := if pendingCount.Ok? then pendingCount.value else 0])
                && cachedPrice == old(cachedPrice) && priceTimestamp == old(priceTimestamp)
    {
      if privateKey == "" {
        return Err;
      }
      var contract := GetContract(tokenAddress, chain, tokenType);
      if contract.Err? {
        return Err;
      }
      var nonce := GetNonce(address, pendingCount);
      var price := GetGasPrice(now, networkPrice);
      if price.Err? {
        return Err;
      }
      var gas := if estimate.Ok? then estimate.value else FallbackGasLimit;
      ghost var before := nonceCache;
      UpdateNonce(address);
      assert address in before ==> before[address] == nonce;
      return Ok(Tx(address, tokenAddress, nonce, price.value, gas, recipient, amount));
    }

    /** `sendTransaction`: the nonce is replaced by a fresh pending count,
        one past it is cached, and the signed transaction is broadcast. Any
        failure is rethrown; a failed count read changes nothing. */
    method SendTransaction<R>(tx: Tx, address: string, pendingCount: Result<nat>, broadcast: Tx -> Result<R>)
      returns (sent: Tx, r: Result<R>)
      modifies this
      ensures pendingCount.Err? ==> r.Err? && nonceCache == old(nonceCache)
      ensures pendingCount.Ok? ==>
                && sent == tx.(nonce := pendingCount.value)
                && r == broadcast(sent)
                && nonceCache == old(nonceCache)[address := pendingCount.value + 1]
      ensures cachedPrice == old(cachedPrice) && priceTimestamp == old(priceTimestamp)
      ensures contractCache == old(contractCache)
    {
      sent := tx;
      match pendingCount
      case Err =>
        r := Err;
      case Ok(count) =>
        sent := tx.(nonce := count);
        nonceCache := nonceCache[address := count + 1];
        r := broadcast(sent);
    }
  }

  /** Two transactions built back to back for one account carry consecutive
      nonces, whatever the network reports the second time. */
  method CreateTwice(m: TransactionManager, tokenAddress: string, recipient: string, amount: nat,
                     privateKey: string, address: string, chain: string, tokenType: string, now: int,
                     pendingCount1: Result<nat>, pendingCount2: Result<nat>, networkPrice: Result<nat>,
                     estimate: Result<nat>)
    returns (first: Result<Tx>, second: Result<Tx>)
    modifies m
    ensures first.Ok? && second.Ok? ==> second.value.nonce == first.value.nonce + 1
  {
    first := m.CreateTransaction(tokenAddress, recipient, amount, privateKey, address, chain, tokenType, now,
                                 pendingCount1, networkPrice, estimate);
    second := m.CreateTransaction(tokenAddress, recipient, amount, privateKey, address, chain, tokenType, now,
                                  pendingCount2, networkPrice, estimate);
  }

  /** A cached handle is served again: two `getContract` calls for the same
      key return the same handle. */
  method GetContractTwice(m: TransactionManager, tokenAddress: string, chain: string, tokenType: string)
    returns (first: Result<Contract>, second: Result<Contract>)
    modifies m
    ensures first.Ok? ==> second == first
    ensures first.Err? <==> second.Err?
  {
    first := m.GetContract(tokenAddress, chain, tokenType);
    second := m.GetContract(tokenAddress, chain, tokenType);
  }

  /** A price read from the network at time `now` is served from the cache
      until `now + 999`. */
  method GetGasPriceTwice(m: TransactionManager, now: int, later: int, price1: Result<nat>, price2: Result<nat>)
    returns (first: Result<nat>, second: Result<nat>)
    requires !m.PriceFresh(now)
    requires now <= later < now + GasPriceCacheDuration
    modifies m
    ensures first.Ok? && first.value != 0 ==> second == first
  {
    first := m.GetGasPrice(now, price1);
    second := m.GetGasPrice(later, price2);
  }
}
