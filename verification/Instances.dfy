// What the other modules assume can be met: valid configurations for all acceptable chains, key
// derivation and address printing for the signer, and nodes every connectable chain connects to.
module Instances {
  import opened Definitions
  import opened Chains
  import opened Watching
  import opened Protocol
  import opened Routing
  import opened Scenarios
  import Signing

  // --- Accounts printed in hexadecimal ---

  function Digit(n: u8): (d: u8)
    requires n < 16
    ensures d < 0x80
  {
    if n < 10 then 48 + n else 87 + n
  }

  function Value(d: u8): Option<u8> {
    if 48 <= d < 58 then Some(d - 48) else if 97 <= d < 103 then Some(d - 87) else None
  }

  function Hex(a: bytes): (t: bytes)
    ensures |t| == 2 * |a| && AllAscii(t)
  {
    if |a| == 0 then [] else [Digit(a[0] / 16), Digit(a[0] % 16)] + Hex(a[1..])
  }

  function FromHex(t: bytes): Option<bytes> {
    if |t| == 0 then Some([])
    else if |t| == 1 then None
    else
      match (Value(t[0]), Value(t[1]), FromHex(t[2..]))
      case (Some(h), Some(l), Some(rest)) => if h < 16 && l < 16 then Some([16 * h + l] + rest) else None
      case _ => None
  }

  lemma {:induction false} HexRoundTrip(a: bytes)
    ensures FromHex(Hex(a)) == Some(a)
  {
    if |a| > 0 {
      HexRoundTrip(a[1..]);
      assert Hex(a)[2..] == Hex(a[1..]);
      assert a == [a[0]] + a[1..];
    }
  }

  function Printed(a: Account, prefix: u16): Text {
    AsciiIsText(Hex(a));
    Hex(a)
  }

  function Parsed(t: Text): Option<Account> {
    match FromHex(t)
    case None => None
    case Some(a) => if |a| == 32 then Some(a) else None
  }

  /** Acceptable chains are enough for a valid configuration, with any recipient, lifetime and chain history. */
  lemma AcceptableIsEnough(chains: seq<Chain>, recipient: Account, lifetime: u64, block: (nat, nat) -> BlockData)
    returns (c: Config)
    requires Acceptable(chains)
    ensures c.Valid() && c.chains == chains && c.recipient == recipient && c.lifetime == lifetime && c.block == block
    ensures c.capacity == 1024
  {
    hide Acceptable, Hex, FromHex;
    c := Config(chains, recipient, (r, id) => r, Printed, Parsed, (x, decimals) => x, lifetime, 1024, block);
    forall a: Account, p: u16 ensures c.fromBase58(c.toBase58(a, p)) == Some(a) {
      HexRoundTrip(a);
    }
  }

  lemma SignersExist() returns (crypto: Signing.Crypto)
    ensures crypto.Valid()
  {
    hide Hex, FromHex;
    crypto := Signing.Crypto((entropy, r, id) => r, Printed, Parsed);
    forall a: Account, p: u16 ensures crypto.fromBase58(crypto.toBase58(a, p)) == Some(a) {
      HexRoundTrip(a);
    }
  }

  // --- Nodes the chains connect to ---

  /** A chain some node can satisfy: with a native token, it lists no assets. */
  predicate Connectable(chain: Chain) {
    chain.nativeToken.Some? ==> chain.asset == []
  }

  function Listing(asset: seq<AssetInfo>): (r: seq<AssetRecord>)
    ensures |r| == |asset|
    ensures forall i :: 0 <= i < |r| ==> r[i].symbol == asset[i].name && r[i].id == asset[i].id
  {
    seq(|asset|, i requires 0 <= i < |asset| => AssetRecord(asset[i].name, 6, asset[i].id))
  }

  function NodeOf(chain: Chain): NodeReport {
    match chain.nativeToken
    case Some(t) => NodeReport(chain.name, [], Specs(t.name, t.decimals, 0), [])
    case None => NodeReport(chain.name, [], Specs([], 0, 0), Listing(chain.asset))
  }

  function NodesOf(chains: seq<Chain>): (r: seq<NodeReport>)
    ensures |r| == |chains| && forall t :: 0 <= t < |r| ==> r[t] == NodeOf(chains[t])
  {
    seq(|chains|, t requires 0 <= t < |chains| => NodeOf(chains[t]))
  }

  lemma LastAt(listing: seq<AssetRecord>, i: nat) returns (k: nat)
    requires i < |listing|
    ensures k < |listing| && listing[k].symbol == listing[i].symbol
    ensures LastListed(listing, listing[i].symbol) == Some(listing[k])
  {
    var n := listing[i].symbol;
    LastListedIs(listing, n);
    hide LastListed, ValidUtf8;
    assert LastListed(listing, n).Some?;
    k :| IsLast(listing, n, k) && listing[k] == LastListed(listing, n).value;
  }

  lemma ListedLast(chain: Chain, i: nat)
    requires Distinct(Names(chain)) && chain.nativeToken.None? && i < |chain.asset|
    ensures LastListed(Listing(chain.asset), chain.asset[i].name) == Some(Listing(chain.asset)[i])
  {
    hide LastListed, ValidUtf8;
    var k := LastAt(Listing(chain.asset), i);
    assert Names(chain)[k] == Names(chain)[i];
  }

  lemma NodeConnects(chain: Chain)
    requires Distinct(Names(chain)) && Connectable(chain)
    ensures Prepare(chain, NodeOf(chain)).Ok?
  {
    var r := NodeOf(chain);
    ConnectsIff(chain, r);
    if chain.nativeToken.None? {
      forall i | 0 <= i < |chain.asset|
        ensures chain.asset[i].name in AssetsOf(r, r.listing)
                && AssetsOf(r, r.listing)[chain.asset[i].name].assetId == Some(chain.asset[i].id)
      {
        EntryIs(r, r.listing, chain.asset[i].name);
        ListedLast(chain, i);
      }
      hide Prepare, AssetsOf, LastListed, Listing, Distinct, Names;
    }
  }

  lemma {:induction false} CurrenciesAre(chains: seq<Chain>, reports: seq<NodeReport>, k: nat, n: Text)
    requires k <= |chains| == |reports|
    ensures n in Currencies(chains, reports, k)
       <==> exists t :: 0 <= t < k && Learned(chains, reports, t).Some? && n in Learned(chains, reports, t).value
  {
    hide Learned;
    if k > 0 {
      CurrenciesAre(chains, reports, k - 1, n);
    }
  }

  /** With chain names apart, whatever the State handler knows is routed to a connected chain that knows it. */
  lemma OfferedIff(c: Config, reports: seq<NodeReport>, n: Text)
    requires c.Valid() && NamedApart(c) && |c.chains| == |reports|
    ensures n in Currencies(c.chains, reports, |c.chains|) <==> exists t: nat :: Offered(c.chains, reports, t, n)
  {
    CurrenciesAre(c.chains, reports, |c.chains|, n);
    hide Currencies, Acceptable, NamedApart, Prepare;
    forall t: nat | t < |c.chains| && Learned(c.chains, reports, t).Some? && n in Learned(c.chains, reports, t).value
      ensures Offered(c.chains, reports, t, n)
    {
      ConnectHome(c, t, reports[t]);
    }
    hide Learned;
  }

  /** So with these nodes every configured currency is offered, and the runs that need it exist. */
  lemma ConfiguredIsOffered(c: Config, t: nat, n: Text)
    requires c.Valid() && NamedApart(c) && t < |c.chains| && Connectable(c.chains[t]) && n in Names(c.chains[t])
    ensures Offered(c.chains, NodesOf(c.chains), t, n)
    ensures n in Currencies(c.chains, NodesOf(c.chains), |c.chains|)
  {
    NamesDistinct(c.chains, t);
    NodeConnects(c.chains[t]);
    ConnectHome(c, t, NodeOf(c.chains[t]));
    HomeIff(c, t, n);
    CurrenciesAre(c.chains, NodesOf(c.chains), |c.chains|, n);
    hide Currencies, Prepare, NodeOf, Route;
  }

  // --- The shipped configuration for Polkadot ---

  const POLKADOT: Text := (var t: bytes := [112, 111, 108, 107, 97, 100, 111, 116]; AsciiIsText(t); t)
  const STATEMINT: Text := (var t: bytes := [115, 116, 97, 116, 101, 109, 105, 110, 116]; AsciiIsText(t); t)
  const DOT: Text := (var t: bytes := [68, 79, 84]; AsciiIsText(t); t)
  const USDC: Text := (var t: bytes := [85, 83, 68, 67]; AsciiIsText(t); t)
  const USDT: Text := (var t: bytes := [85, 83, 68, 116]; AsciiIsText(t); t)

  /** The chains of configs/polkadot.toml; what the addresses of the endpoints are does not matter. */
  function Shipped(endpoints: seq<Text>): seq<Chain> {
    [Chain(POLKADOT, endpoints, Some(NativeToken(DOT, 10)), []),
     Chain(STATEMINT, endpoints, None, [AssetInfo(USDC, 1337), AssetInfo(USDT, 1984)])]
  }

  lemma ShippedNames(endpoints: seq<Text>)
    ensures Names(Shipped(endpoints)[0]) == [DOT] && Names(Shipped(endpoints)[1]) == [USDC, USDT]
    ensures Distinct([DOT, USDC, USDT]) && POLKADOT != STATEMINT
  {
    hide ValidUtf8;
    assert DOT[0] == 68 && USDC[0] == USDT[0] == 85 && USDC[3] == 67 && USDT[3] == 116;
    assert |POLKADOT| == 8 && |STATEMINT| == 9;
    assert AssetNames([]) == [];
    assert AssetNames([AssetInfo(USDC, 1337), AssetInfo(USDT, 1984)]) == [USDC, USDT];
  }

  lemma {:induction false} NamesOfTwo(one: Chain, two: Chain)
    ensures AllNames([one, two]) == Names(one) + Names(two)
  {
    hide Names;
    assert [one, two][..1] == [one] && [one][..0] == [];
    assert AllNames([one]) == AllNames([]) + Names(one);
  }

  /** The manager starts on it. */
  lemma ShippedIsAcceptable(endpoints: seq<Text>)
    requires |endpoints| > 0
    ensures Acceptable(Shipped(endpoints))
  {
    ShippedNames(endpoints);
    var chains := Shipped(endpoints);
    hide ValidUtf8, Names, Distinct;
    NamesOfTwo(chains[0], chains[1]);
    assert [DOT] + [USDC, USDT] == [DOT, USDC, USDT];
    assert chains == [chains[0], chains[1]];
  }

  /** Its chain names are apart, and nodes can satisfy its chains: everything configured is offered. */
  lemma ShippedIsApart(endpoints: seq<Text>, c: Config)
    requires c.chains == Shipped(endpoints)
    ensures NamedApart(c) && forall t :: 0 <= t < |c.chains| ==> Connectable(c.chains[t])
  {
    ShippedNames(endpoints);
    hide ValidUtf8, Names, Distinct;
  }
}
