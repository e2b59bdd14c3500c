/** Choosing the RPC connection of each (user, chain): the endpoints of the
    chain are tried in list order and the first that answers is kept; a
    connection is named by its endpoint URL. Whether an endpoint answers
    (provider creation and a block-number read, each within a timeout) is a
    parameter. */
module Connections {
  import opened Common
  import opened Records

  /** `chainConfig.rpc || chainConfig.rpcUrls || []`: an array is truthy even
      when empty, so a present `rpc` list always wins. */
  function EndpointList(d: ChainDescriptor): (r: seq<string>)
    ensures d.rpc.Some? ==> r == d.rpc.value
    ensures forall e :: e in r ==> (d.rpc.Some? && e in d.rpc.value) || (d.rpcUrls.Some? && e in d.rpcUrls.value)
  {
    if d.rpc.Some? then d.rpc.value
    else if d.rpcUrls.Some? then d.rpcUrls.value
    else []
  }

  lemma EmptyRpcHidesRpcUrls(d: ChainDescriptor)
    requires d.rpc == Some([])
    ensures EndpointList(d) == []
  {
  }

  /** The first endpoint that answers, if any. */
  function FirstReachable(urls: seq<string>, reachable: string -> bool): (r: Option<string>)
    ensures r.Some? ==> r.value in urls && reachable(r.value)
    ensures r.None? <==> forall i :: 0 <= i < |urls| ==> !reachable(urls[i])
  {
    if urls == [] then None
    else if reachable(urls[0]) then Some(urls[0])
    else FirstReachable(urls[1..], reachable)
  }

  /** Every endpoint listed before the chosen one failed. */
  lemma {:induction false} FirstReachableIsFirst(urls: seq<string>, reachable: string -> bool, k: nat)
    requires FirstReachable(urls, reachable).Some?
    requires k < |urls| && urls[k] == FirstReachable(urls, reachable).value
    requires forall j :: 0 <= j < k ==> urls[j] != urls[k]
    ensures forall j :: 0 <= j < k ==> !reachable(urls[j])
  {
    if k > 0 {
      FirstReachableIsFirst(urls[1..], reachable, k - 1);
      assert forall j :: 1 <= j < k ==> urls[j] == urls[1..][j - 1];
    }
  }

  /** The connections one chain ends up with: the first answering endpoint,
      or none. */
  function ChainConnections(urls: seq<string>, reachable: string -> bool): (r: seq<string>)
    ensures |r| <= 1
    ensures |r| == 1 ==> r[0] in urls && reachable(r[0])
  {
    match FirstReachable(urls, reachable)
    case Some(u) => [u]
    case None => []
  }

  /** The endpoint loop: try each URL in order, keep the first that answers
      and stop. */
  method ConnectChain(urls: seq<string>, reachable: string -> bool) returns (conns: seq<string>)
    ensures conns == ChainConnections(urls, reachable)
  {
    conns := [];
    var i := 0;
    while i < |urls|
      invariant 0 <= i <= |urls|
      invariant conns == [] && FirstReachable(urls, reachable) == FirstReachable(urls[i..], reachable)
      decreases |urls| - i
    {
      assert urls[i..][1..] == urls[i + 1..];
      if reachable(urls[i]) {
        conns := conns + [urls[i]];
        return;
      }
      i := i + 1;
    }
  }

  /** `getUserWeb3`: the first connection of the user's chain, or null. */
  function GetUserWeb3(instances: map<nat, map<string, seq<string>>>, userId: Option<nat>, chain: string): (r: Option<string>)
    ensures r.Some? <==> userId.Some? && userId.value in instances && chain in instances[userId.value]
                         && instances[userId.value][chain] != []
    ensures r.Some? ==> r.value == instances[userId.value][chain][0]
  {
    if userId.Some? && userId.value in instances && chain in instances[userId.value]
       && instances[userId.value][chain] != []
    then Some(instances[userId.value][chain][0])
    else None
  }
}
