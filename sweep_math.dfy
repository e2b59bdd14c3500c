/** The integer arithmetic and the fixed choices of a sweep: the raised gas
    price, the native reserve check, the token-type dispatch and the key of the
    duplicate-transfer lock. Amounts are wei as unbounded integers (BigInt). */
module SweepMath {
  import opened Common

  /** Gas price used when no connection can be asked for one (20 gwei). */
  const DefaultGasPrice: nat := 20_000_000_000

  /** How long a lock is meant to live, in milliseconds, when no duration is given. */
  const DefaultLockDuration: nat := 5000

  /** Gas limits of the three token calls. */
  const FungibleGasLimit: nat := 100000
  const NonFungibleGasLimit: nat := 150000
  const MultiTokenGasLimit: nat := 200000

  /** BigInt `/`: the quotient rounded toward zero. */
  function TruncDiv(a: int, d: nat): (q: int)
    requires d > 0
    ensures a >= 0 ==> 0 <= q * d <= a < q * d + d
    ensures a < 0 ==> q * d - d < a <= q * d <= 0
  {
    var m := if a >= 0 then a else -a;
    assert m == (m / d) * d + m % d && 0 <= m % d < d;
    if a >= 0 then m / d else -(m / d)
  }

  /** The gas price raised by the multiplier: `gasPrice * floor(mult * 1000) / 1000n`,
      where `multMilli` is floor(mult * 1000). */
  function IncreasedGasPrice(gasPrice: nat, multMilli: int): (r: int)
    ensures multMilli >= 0 ==> 0 <= r * 1000 <= gasPrice * multMilli < r * 1000 + 1000
    ensures multMilli < 0 ==> r <= 0
  {
    TruncDiv(gasPrice * multMilli, 1000)
  }

  /** A larger multiplier never gives a lower price; a whole multiplier k
      gives exactly k times the price read, and one of at least 1 never
      gives less than it. */
  lemma IncreasedGasPriceMonotone(gasPrice: nat, m1: int, m2: int)
    requires 0 <= m1 <= m2
    ensures IncreasedGasPrice(gasPrice, m1) <= IncreasedGasPrice(gasPrice, m2)
    ensures m1 % 1000 == 0 ==> IncreasedGasPrice(gasPrice, m1) == gasPrice * (m1 / 1000)
    ensures m1 >= 1000 ==> IncreasedGasPrice(gasPrice, m1) >= gasPrice
  {
    var r1, r2 := IncreasedGasPrice(gasPrice, m1), IncreasedGasPrice(gasPrice, m2);
    var p1, p2 := gasPrice * m1, gasPrice * m2;
    ScaleMonotone(gasPrice, m1, m2);
    RoundedDownMonotone(r1, r2, p1, p2);
    if m1 % 1000 == 0 {
      var k := m1 / 1000;
      assert m1 == k * 1000;
      assert p1 == (gasPrice * k) * 1000 by {
        assert gasPrice * (k * 1000) == (gasPrice * k) * 1000;
      }
    }
    if m1 >= 1000 {
      ScaleMonotone(gasPrice, 1000, m1);
    }
  }

  lemma ScaleMonotone(p: nat, a: int, b: int)
    requires a <= b
    ensures p * a <= p * b
  {
    assert p * b == p * a + p * (b - a);
  }

  /** Quotients rounded down by 1000 keep the order of what they round. */
  lemma RoundedDownMonotone(r1: int, r2: int, p1: int, p2: int)
    requires r1 * 1000 <= p1 <= p2 < r2 * 1000 + 1000
    ensures r1 <= r2
  {
  }

  /** Gas the native transfer is budgeted at: raised price times the gas limit. */
  function NativeGasCost(gasPrice: nat, multMilli: int, gasLimit: int): int {
    IncreasedGasPrice(gasPrice, multMilli) * gasLimit
  }

  /** The value the native sweep sends, if it sends at all: the balance above
      the reserve minus the gas budget, when both differences are positive. */
  function NativeTransferValue(balance: nat, minBalance: int, gasPrice: nat,
                               multMilli: int, gasLimit: int): (r: Option<int>)
    ensures r.Some? <==>
              balance > minBalance && balance - minBalance > NativeGasCost(gasPrice, multMilli, gasLimit)
    ensures r.Some? ==> r.value > 0
    ensures r.Some? ==> r.value + NativeGasCost(gasPrice, multMilli, gasLimit) + minBalance == balance
  {
    var transferAmount := balance - minBalance;
    var gasCost := NativeGasCost(gasPrice, multMilli, gasLimit);
    if balance > minBalance && transferAmount > gasCost then Some(transferAmount - gasCost)
    else None
  }

  /** A larger balance sends more by exactly the difference: the reserve and
      the gas budget do not depend on the balance. */
  lemma NativeTransferValueShift(b1: nat, b2: nat, minBalance: int, gasPrice: nat,
                                 multMilli: int, gasLimit: int)
    requires b1 <= b2
    requires NativeTransferValue(b1, minBalance, gasPrice, multMilli, gasLimit).Some?
    ensures NativeTransferValue(b2, minBalance, gasPrice, multMilli, gasLimit).Some?
    ensures NativeTransferValue(b2, minBalance, gasPrice, multMilli, gasLimit).value
            == NativeTransferValue(b1, minBalance, gasPrice, multMilli, gasLimit).value + (b2 - b1)
  {
  }

  /** The contract call a token sweep encodes. */
  datatype TransferCall =
    | Transfer          // EIP-20 transfer(to, amount)
    | TransferFrom      // EIP-721 transferFrom(from, to, id)
    | SafeTransferFrom  // EIP-1155 safeTransferFrom(from, to, id, amount, data)

  datatype TokenCall = TokenCall(call: TransferCall, gas: nat)

  predicate IsFungibleType(tokenType: string) {
    tokenType == "erc20" || tokenType == "bep20"
  }

  predicate IsNonFungibleType(tokenType: string) {
    tokenType == "erc721" || tokenType == "bep721"
  }

  predicate IsMultiTokenType(tokenType: string) {
    tokenType == "erc1155"
  }

  /** The call and gas limit chosen for a token type; `None` for a type the
      sweep does not support. */
  function TokenDispatch(tokenType: string): (r: Option<TokenCall>)
    ensures r.Some? <==>
              IsFungibleType(tokenType) || IsNonFungibleType(tokenType) || IsMultiTokenType(tokenType)
    ensures r.Some? && r.value.call == Transfer ==> r.value.gas == FungibleGasLimit
    ensures r.Some? && r.value.call == TransferFrom ==> r.value.gas == NonFungibleGasLimit
    ensures r.Some? && r.value.call == SafeTransferFrom ==> r.value.gas == MultiTokenGasLimit
    ensures r.Some? ==> (r.value.call == Transfer <==> IsFungibleType(tokenType))
    ensures r.Some? ==> (r.value.call == TransferFrom <==> IsNonFungibleType(tokenType))
  {
    if IsFungibleType(tokenType) then Some(TokenCall(Transfer, FungibleGasLimit))
    else if IsNonFungibleType(tokenType) then Some(TokenCall(TransferFrom, NonFungibleGasLimit))
    else if IsMultiTokenType(tokenType) then Some(TokenCall(SafeTransferFrom, MultiTokenGasLimit))
    else None
  }

  /** Key of the duplicate-transfer lock: `wallet-token-chain`. */
  function LockKey(walletAddress: string, tokenAddress: string, chain: string): (k: string)
    ensures |k| == |walletAddress| + |tokenAddress| + |chain| + 2
    ensures k[..|walletAddress|] == walletAddress
    ensures k[|walletAddress|] == '-'
    ensures k[|k| - |chain|..] == chain
  {
    walletAddress + "-" + tokenAddress + "-" + chain
  }

  /** Splitting at the first dash recovers both halves when the first half has none. */
  lemma {:induction false} SplitAtDash(a: string, b: string, c: string, d: string)
    requires '-' !in a && '-' !in c
    requires a + "-" + b == c + "-" + d
    ensures a == c && b == d
  {
    var k := a + "-" + b;
    assert forall i :: 0 <= i < |a| ==> k[i] == a[i] != '-';
    assert forall i :: 0 <= i < |c| ==> k[i] == c[i] != '-';
    assert k[|a|] == '-' && k[|c|] == '-';
    assert |a| == |c|;
    assert a == k[..|a|] == c;
    assert b == k[|a| + 1..] == d;
  }

  /** When neither address contains a dash, distinct triples never share a
      lock, whatever the chain keys hold. */
  lemma {:induction false} LockKeyInjective(w1: string, t1: string, c1: string,
                                            w2: string, t2: string, c2: string)
    requires '-' !in w1 && '-' !in t1 && '-' !in w2 && '-' !in t2
    requires LockKey(w1, t1, c1) == LockKey(w2, t2, c2)
    ensures w1 == w2 && t1 == t2 && c1 == c2
  {
    assert LockKey(w1, t1, c1) == w1 + "-" + (t1 + "-" + c1);
    assert LockKey(w2, t2, c2) == w2 + "-" + (t2 + "-" + c2);
    SplitAtDash(w1, t1 + "-" + c1, w2, t2 + "-" + c2);
    SplitAtDash(t1, c1, t2, c2);
  }
}
