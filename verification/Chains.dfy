// Configured chains: duplicate rejection and routing tables in the chain manager, and the matching
// of a node's assets against the configuration in the tracker.
module Chains {
  import opened Definitions

  datatype NativeToken = NativeToken(name: Text, decimals: u8)

  datatype AssetInfo = AssetInfo(name: Text, id: u32)

  datatype Chain = Chain(name: Text, endpoints: seq<Text>, nativeToken: Option<NativeToken>, asset: seq<AssetInfo>)

  type Assets = map<Text, CurrencyProperties>

  ghost predicate Distinct<T>(s: seq<T>) {
    forall i, j :: 0 <= i < j < |s| ==> s[i] != s[j]
  }

  function AssetNames(asset: seq<AssetInfo>): (r: seq<Text>)
    ensures |r| == |asset| && forall i :: 0 <= i < |r| ==> r[i] == asset[i].name
  {
    seq(|asset|, i requires 0 <= i < |asset| => asset[i].name)
  }

  /** The currencies a chain asks for, in the order the manager meets them. */
  function Names(c: Chain): seq<Text> {
    (if c.nativeToken.Some? then [c.nativeToken.value.name] else []) + AssetNames(c.asset)
  }

  function AllNames(chains: seq<Chain>): seq<Text> {
    if |chains| == 0 then [] else AllNames(chains[..|chains| - 1]) + Names(chains[|chains| - 1])
  }

  lemma {:induction false} NamesAreAllNames(chains: seq<Chain>, i: nat, n: Text)
    requires i < |chains| && n in Names(chains[i])
    ensures n in AllNames(chains)
  {
    if i < |chains| - 1 {
      NamesAreAllNames(chains[..|chains| - 1], i, n);
    }
  }

  lemma {:induction false} OwnerOfName(chains: seq<Chain>, n: Text) returns (i: nat)
    requires n in AllNames(chains)
    ensures i < |chains| && n in Names(chains[i])
  {
    if n in Names(chains[|chains| - 1]) {
      i := |chains| - 1;
    } else {
      i := OwnerOfName(chains[..|chains| - 1], n);
    }
  }

  lemma NotInBoth(before: seq<Text>, last: seq<Text>, n: Text)
    requires Distinct(before + last) && n in before
    ensures n !in last
  {
    var all := before + last;
    var k :| 0 <= k < |before| && before[k] == n;
    forall l | 0 <= l < |last| ensures last[l] != n {
      assert all[k] == n && all[|before| + l] == last[l];
    }
  }

  /** No currency is asked for twice, so each has one owning chain. */
  lemma {:induction false} OneOwner(chains: seq<Chain>, i: nat, j: nat, n: Text)
    requires Distinct(AllNames(chains))
    requires i < |chains| && j < |chains| && n in Names(chains[i]) && n in Names(chains[j])
    ensures i == j
  {
    var before, last := AllNames(chains[..|chains| - 1]), Names(chains[|chains| - 1]);
    assert AllNames(chains) == before + last;
    assert forall k :: 0 <= k < |before| ==> AllNames(chains)[k] == before[k];
    if i < |chains| - 1 && j < |chains| - 1 {
      OneOwner(chains[..|chains| - 1], i, j, n);
    } else if i != j {
      NamesAreAllNames(chains[..|chains| - 1], if i < j then i else j, n);
      NotInBoth(before, last, n);
    }
  }

  lemma {:induction false} NamesDistinct(chains: seq<Chain>, i: nat)
    requires Distinct(AllNames(chains)) && i < |chains|
    ensures Distinct(Names(chains[i]))
  {
    var before, last := AllNames(chains[..|chains| - 1]), Names(chains[|chains| - 1]);
    assert forall k :: 0 <= k < |before| ==> AllNames(chains)[k] == before[k];
    assert forall k :: 0 <= k < |last| ==> AllNames(chains)[|before| + k] == last[k];
    if i < |chains| - 1 {
      NamesDistinct(chains[..|chains| - 1], i);
    }
  }

  // --- The routing tables ---

  function NamesToChain(names: seq<Text>, chain: Text): map<Text, Text> {
    map n | n in names :: chain
  }

  lemma ToChainGrows(names: seq<Text>, n: Text, chain: Text)
    ensures NamesToChain(names + [n], chain) == NamesToChain(names, chain)[n := chain]
  {
  }

  lemma NothingToChain(chain: Text)
    ensures NamesToChain([], chain) == map[]
  {
  }

  /** Currency name to chain name, later chains inserting over earlier ones. */
  function CurrencyMap(chains: seq<Chain>): map<Text, Text> {
    if |chains| == 0 then map[]
    else
      var c := chains[|chains| - 1];
      CurrencyMap(chains[..|chains| - 1]) + NamesToChain(Names(c), c.name)
  }

  /** Chain name to the index of the tracker whose queue is kept under it. */
  function WatchChain(chains: seq<Chain>): map<Text, nat> {
    if |chains| == 0 then map[]
    else WatchChain(chains[..|chains| - 1])[chains[|chains| - 1].name := |chains| - 1]
  }

  /** The trackers the manager still knows at shutdown: one per chain name. */
  function Drained(chains: seq<Chain>): set<nat> {
    WatchChain(chains).Values
  }

  /** The tracker a request for this currency is forwarded to. */
  function Route(chains: seq<Chain>, currency: Text): Option<nat> {
    var names := CurrencyMap(chains);
    var queues := WatchChain(chains);
    if currency in names && names[currency] in queues then Some(queues[names[currency]]) else None
  }

  /** The last chain of that name, which is the one whose queue is kept. */
  ghost predicate LastNamed(chains: seq<Chain>, i: nat) {
    i < |chains| && forall j :: i < j < |chains| ==> chains[j].name != chains[i].name
  }

  lemma {:induction false} ClaimedNames(chains: seq<Chain>)
    ensures forall n :: n in CurrencyMap(chains) <==> n in AllNames(chains)
  {
    if |chains| > 0 {
      ClaimedNames(chains[..|chains| - 1]);
    }
  }

  lemma {:induction false} ClaimedBy(chains: seq<Chain>, i: nat, n: Text)
    requires Distinct(AllNames(chains)) && i < |chains| && n in Names(chains[i])
    ensures n in CurrencyMap(chains) && CurrencyMap(chains)[n] == chains[i].name
  {
    hide Names;
    var front := chains[..|chains| - 1];
    if i < |front| {
      AllNamesPrefix(chains, |front|);
      hide Distinct, AllNames;
      ClaimedBy(front, i, n);
      if n in Names(chains[|front|]) {
        OneOwner(chains, i, |front|, n);
      }
    }
  }

  lemma {:induction false} WatchChainIs(chains: seq<Chain>)
    ensures forall i :: 0 <= i < |chains| ==> chains[i].name in WatchChain(chains)
    ensures forall name :: name in WatchChain(chains) ==>
              LastNamed(chains, WatchChain(chains)[name]) && chains[WatchChain(chains)[name]].name == name
  {
    if |chains| > 0 {
      var front, last := chains[..|chains| - 1], chains[|chains| - 1];
      WatchChainIs(front);
      forall i | 0 <= i < |chains| ensures chains[i].name in WatchChain(chains) {
        if i < |front| {
          assert front[i] == chains[i];
        }
      }
      forall name | name in WatchChain(chains)
        ensures LastNamed(chains, WatchChain(chains)[name]) && chains[WatchChain(chains)[name]].name == name
      {
        if name != last.name {
          var i := WatchChain(front)[name];
          assert LastNamed(front, i) && front[i] == chains[i];
          forall j | i < j < |chains| ensures chains[j].name != chains[i].name {
            if j < |front| {
              assert front[j] == chains[j];
            }
          }
        }
      }
    }
  }

  /**
   * Deduplication looks at currency names only. A configured currency reaches its own chain's
   * tracker exactly when no later chain carries the same chain name.
   */
  lemma {:induction false} RoutedHomeIff(chains: seq<Chain>, i: nat, n: Text)
    requires Distinct(AllNames(chains))
    requires i < |chains| && n in Names(chains[i])
    ensures Route(chains, n) == Some(i) <==> LastNamed(chains, i)
  {
    hide Names, Distinct, AllNames, CurrencyMap, WatchChain;
    ClaimedBy(chains, i, n);
    WatchChainIs(chains);
    var t := WatchChain(chains)[chains[i].name];
    assert Route(chains, n) == Some(t) && LastNamed(chains, t) && chains[t].name == chains[i].name;
  }

  /** A request is refused for its currency exactly when no configured chain asks for that currency. */
  lemma {:induction false} RoutesIff(chains: seq<Chain>, n: Text)
    ensures Route(chains, n).Some? <==> n in AllNames(chains)
    ensures Route(chains, n).Some? ==> Route(chains, n).value < |chains|
  {
    ClaimedNames(chains);
    WatchChainIs(chains);
    if n in AllNames(chains) {
      CurrencyMapNamesChains(chains, n);
    }
  }

  lemma {:induction false} CurrencyMapNamesChains(chains: seq<Chain>, n: Text)
    requires n in CurrencyMap(chains)
    ensures exists i :: 0 <= i < |chains| && chains[i].name == CurrencyMap(chains)[n]
  {
    var front, last := chains[..|chains| - 1], chains[|chains| - 1];
    if n in Names(last) {
      assert chains[|chains| - 1].name == CurrencyMap(chains)[n];
    } else {
      CurrencyMapNamesChains(front, n);
      var i :| 0 <= i < |front| && front[i].name == CurrencyMap(front)[n];
      assert chains[i].name == CurrencyMap(chains)[n];
    }
  }

  datatype IgniteError = EmptyEndpoints(chain: Text) | DuplicateCurrency(currency: Text)

  /** What makes a configuration acceptable. */
  ghost predicate Acceptable(chains: seq<Chain>) {
    (forall i :: 0 <= i < |chains| ==> |chains[i].endpoints| > 0) && Distinct(AllNames(chains))
  }

  /** The routing state of the chain manager task. */
  class Manager {
    var currencyMap: map<Text, Text>
    var watchChain: map<Text, nat>

    constructor ()
      ensures currencyMap == map[] && watchChain == map[]
    {
      currencyMap, watchChain := map[], map[];
    }

    /** Inserts one currency; false when it was there already. */
    method Claim(currency: Text, chain: Text) returns (unclaimed: bool)
      modifies this`currencyMap
      ensures unclaimed <==> currency !in old(currencyMap)
      ensures currencyMap == old(currencyMap)[currency := chain]
    {
      unclaimed := currency !in currencyMap;
      currencyMap := currencyMap[currency := chain];
    }

    /** Inserts the currencies of one chain, up to the first that was there already. */
    method ClaimAll(names: seq<Text>, chain: Text, ghost before: seq<Text>) returns (duplicate: Option<Text>)
      requires Distinct(before) && forall n :: n in currencyMap <==> n in before
      modifies this`currencyMap
      ensures duplicate.None? ==> Distinct(before + names)
      ensures duplicate.None? ==> currencyMap == old(currencyMap) + NamesToChain(names, chain)
      ensures duplicate.Some? ==> multiset(before + names)[duplicate.value] >= 2
    {
      hide Distinct, NamesToChain, ValidUtf8;
      NothingToChain(chain);
      var k := 0;
      assert before + names[..0] == before;
      while k < |names|
        invariant 0 <= k <= |names|
        invariant Distinct(before + names[..k])
        invariant forall n :: n in currencyMap <==> n in before + names[..k]
        invariant currencyMap == old(currencyMap) + NamesToChain(names[..k], chain)
      {
        var unclaimed := Claim(names[k], chain);
        if !unclaimed {
          ClaimedTwice(before, names, k);
          return Some(names[k]);
        }
        OneMoreClaimed(before, names, k, chain);
        k := k + 1;
      }
      assert names[..k] == names;
      return None;
    }

    /**
     * The loop of ignite. It succeeds exactly on acceptable configurations and then holds the
     * routing tables; otherwise it names the first chain or currency at fault.
     */
    method Ignite(chains: seq<Chain>) returns (error: Option<IgniteError>)
      requires currencyMap == map[] && watchChain == map[]
      modifies this
      ensures error.None? <==> Acceptable(chains)
      ensures error.None? ==> currencyMap == CurrencyMap(chains) && watchChain == WatchChain(chains)
      ensures match error
              case None => true
              case Some(EmptyEndpoints(name)) => exists i :: 0 <= i < |chains| && chains[i].name == name && |chains[i].endpoints| == 0
              case Some(DuplicateCurrency(n)) => multiset(AllNames(chains))[n] >= 2
    {
      hide Distinct, Names, NamesToChain, AllNames, CurrencyMap, WatchChain;
      var i := 0;
      EmptyConfiguration();
      assert chains[..0] == [];
      while i < |chains|
        invariant 0 <= i <= |chains|
        invariant Distinct(AllNames(chains[..i])) && forall j :: 0 <= j < i ==> |chains[j].endpoints| > 0
        invariant currencyMap == CurrencyMap(chains[..i]) && watchChain == WatchChain(chains[..i])
      {
        var c := chains[i];
        if |c.endpoints| == 0 {
          return Some(EmptyEndpoints(c.name));
        }
        NextChain(chains, i);
        ClaimedNames(chains[..i]);
        AllNamesPrefix(chains, i + 1);
        watchChain := watchChain[c.name := i];
        var duplicate := ClaimAll(Names(c), c.name, AllNames(chains[..i]));
        if duplicate.Some? {
          NotDistinctPrefix(AllNames(chains), AllNames(chains[..i + 1]), duplicate.value);
          return Some(DuplicateCurrency(duplicate.value));
        }
        i := i + 1;
      }
      assert chains[..i] == chains;
      return None;
    }
  }

  lemma EmptyConfiguration()
    ensures Distinct(AllNames([])) && CurrencyMap([]) == map[] && WatchChain([]) == map[]
  {
  }

  lemma NextChain(chains: seq<Chain>, i: nat)
    requires i < |chains|
    ensures AllNames(chains[..i + 1]) == AllNames(chains[..i]) + Names(chains[i])
    ensures CurrencyMap(chains[..i + 1]) == CurrencyMap(chains[..i]) + NamesToChain(Names(chains[i]), chains[i].name)
    ensures WatchChain(chains[..i + 1]) == WatchChain(chains[..i])[chains[i].name := i]
  {
    hide Names, NamesToChain;
    assert chains[..i + 1][..i] == chains[..i];
  }

  lemma DistinctGrows(s: seq<Text>, n: Text)
    requires Distinct(s) && n !in s
    ensures Distinct(s + [n])
  {
  }

  lemma OneMoreClaimed(before: seq<Text>, names: seq<Text>, k: nat, chain: Text)
    requires k < |names| && Distinct(before + names[..k]) && names[k] !in before + names[..k]
    ensures Distinct(before + names[..k + 1])
    ensures forall n :: n in before + names[..k + 1] <==> n in before + names[..k] || n == names[k]
    ensures NamesToChain(names[..k + 1], chain) == NamesToChain(names[..k], chain)[names[k] := chain]
  {
    assert names[..k + 1] == names[..k] + [names[k]];
    assert before + names[..k + 1] == (before + names[..k]) + [names[k]];
    DistinctGrows(before + names[..k], names[k]);
    ToChainGrows(names[..k], names[k], chain);
    hide Distinct, NamesToChain;
  }

  lemma {:induction false} AllNamesPrefix(chains: seq<Chain>, k: nat)
    requires k <= |chains|
    ensures AllNames(chains[..k]) <= AllNames(chains)
    ensures k > 0 ==> AllNames(chains[..k]) == AllNames(chains[..k - 1]) + Names(chains[k - 1])
  {
    if k > 0 {
      assert chains[..k][..k - 1] == chains[..k - 1];
    }
    if k < |chains| {
      AllNamesPrefix(chains[..|chains| - 1], k);
      assert chains[..|chains| - 1][..k] == chains[..k];
    } else {
      assert chains[..k] == chains;
    }
  }

  lemma ClaimedTwice(before: seq<Text>, names: seq<Text>, k: nat)
    requires k < |names| && names[k] in before + names[..k]
    ensures multiset(before + names)[names[k]] >= 2
  {
    var front := before + names[..k];
    assert before + names == front + [names[k]] + names[k + 1..];
    assert multiset(before + names) == multiset(front) + multiset([names[k]]) + multiset(names[k + 1..]);
    assert names[k] in multiset(front);
  }

  lemma NotDistinctPrefix(all: seq<Text>, part: seq<Text>, n: Text)
    requires part <= all && multiset(part)[n] >= 2
    ensures multiset(all)[n] >= 2 && !Distinct(all)
  {
    assert all == part + all[|part|..];
    assert multiset(all) == multiset(part) + multiset(all[|part|..]);
    if Distinct(all) {
      DistinctCount(all, n);
    }
  }

  lemma {:induction false} DistinctCount(s: seq<Text>, n: Text)
    requires Distinct(s)
    ensures multiset(s)[n] <= 1
  {
    if |s| > 0 {
      var front, last := s[..|s| - 1], s[|s| - 1];
      assert s == front + [last];
      DistinctCount(front, n);
      if last == n {
        assert n !in front;
        assert n !in multiset(front);
      }
    }
  }

  // --- Matching a node's assets ---

  datatype Specs = Specs(unit: Text, decimals: u8, base58prefix: u16)

  /** A sufficient asset as the node lists it, with symbol and decimals decoded. */
  datatype AssetRecord = AssetRecord(symbol: Text, decimals: u8, id: u32)

  /** What one endpoint says about itself. */
  datatype NodeReport = NodeReport(specName: Text, rpcUrl: Text, specs: Specs, listing: seq<AssetRecord>)

  function NativeEntry(r: NodeReport): CurrencyProperties {
    CurrencyProperties(r.specName, Native, r.specs.decimals, r.rpcUrl, None, r.specs.base58prefix)
  }

  function AssetEntry(r: NodeReport, a: AssetRecord): CurrencyProperties {
    CurrencyProperties(r.specName, Asset, a.decimals, r.rpcUrl, Some(a.id), r.specs.base58prefix)
  }

  function AssetsOf(r: NodeReport, listing: seq<AssetRecord>): Assets {
    if |listing| == 0 then map[r.specs.unit := NativeEntry(r)]
    else
      var a := listing[|listing| - 1];
      AssetsOf(r, listing[..|listing| - 1])[a.symbol := AssetEntry(r, a)]
  }

  /**
   * An entry of this node's table: name of the chain, endpoint and address prefix are the node's own;
   * kind, decimals and id are those of the last asset listed under the name, or of the native token.
   */
  predicate EntryOf(r: NodeReport, n: Text, p: CurrencyProperties) {
    && p.chainName == r.specName && p.rpcUrl == r.rpcUrl && p.ss58 == r.specs.base58prefix
    && match LastListed(r.listing, n)
       case Some(a) => p.kind == Asset && p.decimals == a.decimals && p.assetId == Some(a.id)
       case None => n == r.specs.unit && p.kind == Native && p.decimals == r.specs.decimals && p.assetId == None
  }

  /** The native token first, then every listed asset inserted over it: one entry for each name there is. */
  method AssetsSet(r: NodeReport) returns (assets: Assets)
    ensures assets == AssetsOf(r, r.listing)
    ensures forall n :: n in assets <==> n == r.specs.unit || exists i :: 0 <= i < |r.listing| && r.listing[i].symbol == n
    ensures forall n :: n in assets ==> EntryOf(r, n, assets[n])
  {
    assets := map[];
    assets := assets[r.specs.unit := NativeEntry(r)];
    for i := 0 to |r.listing|
      invariant assets == AssetsOf(r, r.listing[..i])
    {
      assert r.listing[..i + 1][..i] == r.listing[..i];
      assets := assets[r.listing[i].symbol := AssetEntry(r, r.listing[i])];
    }
    assert r.listing[..|r.listing|] == r.listing;
    hide AssetsOf;
    forall n ensures n in assets <==> n == r.specs.unit || exists i :: 0 <= i < |r.listing| && r.listing[i].symbol == n {
      EntryIs(r, r.listing, n);
      LastListedIs(r.listing, n);
    }
    forall n | n in assets { EntryFields(r, n); }
  }

  /** The closure given to retain. */
  predicate Wanted(c: Chain, specs: Specs, name: Text, p: CurrencyProperties) {
    match c.nativeToken
    case Some(t) => t.name == name && t.decimals == specs.decimals
    case None => exists i :: 0 <= i < |c.asset| && c.asset[i].name == name && Some(c.asset[i].id) == p.assetId
  }

  function Retained(c: Chain, specs: Specs, assets: Assets): Assets {
    map n | n in assets && Wanted(c, specs, n, assets[n]) :: assets[n]
  }

  function RequestedCount(c: Chain): nat {
    |c.asset| + if c.nativeToken.Some? then 1 else 0
  }

  datatype PrepareError = WrongNetwork | AssetsInvalid

  /** The assets a connection reports to the State, if the node passes. */
  function Prepare(c: Chain, r: NodeReport): Result<Assets, PrepareError> {
    if r.specName != c.name then Err(WrongNetwork)
    else
      var kept := Retained(c, r.specs, AssetsOf(r, r.listing));
      if |kept| != RequestedCount(c) then Err(AssetsInvalid) else Ok(kept)
  }

  /** The retain loop, over the table in any order, and the count check; what is reported are the node's own entries. */
  method PrepareAssets(c: Chain, r: NodeReport) returns (result: Result<Assets, PrepareError>)
    ensures result == Prepare(c, r)
    ensures result.Ok? ==> forall n :: n in result.value ==> EntryOf(r, n, result.value[n])
    ensures result.Err? ==> result.error == if r.specName != c.name then WrongNetwork else AssetsInvalid
  {
    hide Wanted, EntryOf, AssetsOf, ValidUtf8;
    if r.specName != c.name {
      return Err(WrongNetwork);
    }
    var all := AssetsSet(r);
    var assets := all;
    var rest := all.Keys;
    while rest != {}
      invariant rest <= all.Keys
      invariant assets == map n | n in all && (n in rest || Wanted(c, r.specs, n, all[n])) :: all[n]
      decreases rest
    {
      var n :| n in rest;
      rest := rest - {n};
      if !Wanted(c, r.specs, n, all[n]) {
        assets := assets - {n};
      }
    }
    assert assets == Retained(c, r.specs, all);
    if |assets| != |c.asset| + if c.nativeToken.Some? then 1 else 0 {
      return Err(AssetsInvalid);
    }
    return Ok(assets);
  }

  /** The last listed asset of this name. */
  function LastListed(listing: seq<AssetRecord>, n: Text): Option<AssetRecord> {
    if |listing| == 0 then None
    else if listing[|listing| - 1].symbol == n then Some(listing[|listing| - 1])
    else LastListed(listing[..|listing| - 1], n)
  }

  /** The i-th listed asset has this name, and none after it has. */
  ghost predicate IsLast(listing: seq<AssetRecord>, n: Text, i: nat) {
    i < |listing| && listing[i].symbol == n && forall j :: i < j < |listing| ==> listing[j].symbol != n
  }

  lemma {:induction false} LastListedIs(listing: seq<AssetRecord>, n: Text)
    ensures LastListed(listing, n).None? <==> forall i :: 0 <= i < |listing| ==> listing[i].symbol != n
    ensures LastListed(listing, n).Some? ==>
              exists i: nat :: IsLast(listing, n, i) && listing[i] == LastListed(listing, n).value
  {
    hide ValidUtf8;
    if |listing| > 0 {
      var k := |listing| - 1;
      var front := listing[..k];
      LastListedIs(front, n);
      if listing[k].symbol == n {
        assert IsLast(listing, n, k);
      } else if LastListed(front, n).Some? {
        var i: nat :| IsLast(front, n, i) && front[i] == LastListed(front, n).value;
        assert IsLast(listing, n, i) && listing[i] == front[i];
      } else {
        forall i | 0 <= i < |listing| ensures listing[i].symbol != n {
          assert i < k ==> front[i].symbol != n;
        }
      }
    }
  }

  /** A name has the entry of the last asset listed under it; without one, the native entry if it is the unit. */
  lemma {:induction false} EntryIs(r: NodeReport, listing: seq<AssetRecord>, n: Text)
    ensures n in AssetsOf(r, listing) <==> n == r.specs.unit || LastListed(listing, n).Some?
    ensures n in AssetsOf(r, listing) ==>
              AssetsOf(r, listing)[n] == match LastListed(listing, n)
                                         case None => NativeEntry(r)
                                         case Some(a) => AssetEntry(r, a)
  {
    if |listing| > 0 {
      EntryIs(r, listing[..|listing| - 1], n);
    }
  }

  lemma EntryFields(r: NodeReport, n: Text)
    requires n in AssetsOf(r, r.listing)
    ensures EntryOf(r, n, AssetsOf(r, r.listing)[n])
  {
    EntryIs(r, r.listing, n);
    hide AssetsOf, LastListed;
  }

  lemma SubsetOfSameSize<T>(a: set<T>, b: set<T>)
    requires a <= b && |a| == |b|
    ensures a == b
  {
    assert b == a + (b - a);
    assert |b - a| == 0;
  }

  function SetOf<T>(s: seq<T>): set<T> { set x | x in s }

  lemma {:induction false} DistinctSize<T>(s: seq<T>)
    requires Distinct(s)
    ensures |SetOf(s)| == |s|
  {
    if |s| > 0 {
      var front, last := s[..|s| - 1], s[|s| - 1];
      DistinctSize(front);
      assert SetOf(s) == SetOf(front) + {last};
      assert last !in front;
    }
  }

  lemma RetainedAreConfigured(c: Chain, specs: Specs, assets: Assets)
    ensures Retained(c, specs, assets).Keys <= SetOf(Names(c))
  {
    forall n | n in Retained(c, specs, assets) ensures n in Names(c) {
      if c.nativeToken.None? {
        var i :| 0 <= i < |c.asset| && c.asset[i].name == n;
        assert Names(c)[i] == n;
      } else {
        assert Names(c)[0] == n;
      }
    }
  }

  lemma KeptAreConfigured(c: Chain, r: NodeReport)
    requires Distinct(Names(c)) && Prepare(c, r).Ok?
    ensures Prepare(c, r).value.Keys == SetOf(Names(c))
  {
    var kept := Prepare(c, r).value;
    RetainedAreConfigured(c, r.specs, AssetsOf(r, r.listing));
    DistinctSize(Names(c));
    assert |kept.Keys| == |kept|;
    hide Distinct, Names, AssetsOf, Retained;
    SubsetOfSameSize(kept.Keys, SetOf(Names(c)));
  }

  /** What the closure given to retain says of a kept entry. */
  lemma KeptEntry(c: Chain, r: NodeReport, n: Text)
    requires Prepare(c, r).Ok? && n in Prepare(c, r).value
    ensures Prepare(c, r).value[n] == AssetsOf(r, r.listing)[n]
    ensures Prepare(c, r).value[n].chainName == c.name
    ensures c.nativeToken.None? ==>
              exists j :: 0 <= j < |c.asset| && c.asset[j].name == n && Prepare(c, r).value[n].assetId == Some(c.asset[j].id)
  {
    EntryIs(r, r.listing, n);
    hide AssetsOf, LastListed;
    assert Wanted(c, r.specs, n, AssetsOf(r, r.listing)[n]);
  }

  lemma OneIdPerName(c: Chain, i: nat, j: nat)
    requires Distinct(Names(c)) && c.nativeToken.None? && i < |c.asset| && j < |c.asset| && c.asset[i].name == c.asset[j].name
    ensures i == j
  {
    assert Names(c)[i] == Names(c)[j];
  }

  lemma ConfiguredIsKept(c: Chain, r: NodeReport, i: nat)
    requires Distinct(Names(c)) && Prepare(c, r).Ok? && c.nativeToken.None? && i < |c.asset|
    ensures var n := c.asset[i].name;
            n in Prepare(c, r).value
            && Prepare(c, r).value[n].assetId == Some(c.asset[i].id) && Prepare(c, r).value[n].kind.Asset?
  {
    var n := c.asset[i].name;
    assert Names(c)[i] == n;
    KeptAreConfigured(c, r);
    assert n in SetOf(Names(c));
    KeptEntry(c, r, n);
    EntryIs(r, r.listing, n);
    hide Prepare, AssetsOf, Distinct, Names;
    var j :| 0 <= j < |c.asset| && c.asset[j].name == n && Prepare(c, r).value[n].assetId == Some(c.asset[j].id);
    OneIdPerName(c, i, j);
  }

  /**
   * The code filters and counts; by pigeonhole what it reports is exactly what was configured:
   * the same names, and on a chain without native token the configured asset ids.
   */
  lemma ExactMatch(c: Chain, r: NodeReport)
    requires Distinct(Names(c))
    requires Prepare(c, r).Ok?
    ensures Prepare(c, r).value.Keys == SetOf(Names(c))
    ensures forall n :: n in Prepare(c, r).value ==> Prepare(c, r).value[n].chainName == c.name
    ensures c.nativeToken.None? ==>
              forall i :: 0 <= i < |c.asset| ==>
                var n := c.asset[i].name;
                n in Prepare(c, r).value
                && Prepare(c, r).value[n].assetId == Some(c.asset[i].id) && Prepare(c, r).value[n].kind.Asset?
  {
    KeptAreConfigured(c, r);
    hide Prepare, Distinct, Names;
    forall n | n in Prepare(c, r).value ensures Prepare(c, r).value[n].chainName == c.name {
      KeptEntry(c, r, n);
    }
    if c.nativeToken.None? {
      forall i | 0 <= i < |c.asset|
        ensures var n := c.asset[i].name;
                n in Prepare(c, r).value
                && Prepare(c, r).value[n].assetId == Some(c.asset[i].id) && Prepare(c, r).value[n].kind.Asset?
      {
        ConfiguredIsKept(c, r, i);
      }
    }
  }

  lemma NativeConnectsIff(c: Chain, r: NodeReport)
    requires c.nativeToken.Some?
    ensures Prepare(c, r).Ok? <==>
              && r.specName == c.name && |c.asset| == 0
              && c.nativeToken.value.decimals == r.specs.decimals
              && c.nativeToken.value.name in AssetsOf(r, r.listing)
  {
    var all := AssetsOf(r, r.listing);
    var kept := Retained(c, r.specs, all);
    var n := c.nativeToken.value.name;
    assert kept.Keys == if n in all && c.nativeToken.value.decimals == r.specs.decimals then {n} else {};
    assert |kept| == |kept.Keys|;
  }

  lemma AllAreKept(c: Chain, specs: Specs, all: Assets)
    requires c.nativeToken.None?
    requires forall i :: 0 <= i < |c.asset| ==> c.asset[i].name in all && all[c.asset[i].name].assetId == Some(c.asset[i].id)
    ensures SetOf(Names(c)) <= Retained(c, specs, all).Keys
  {
    hide ValidUtf8;
    forall n | n in SetOf(Names(c)) ensures n in Retained(c, specs, all) {
      var i :| 0 <= i < |c.asset| && Names(c)[i] == n;
      assert c.asset[i].name == n;
    }
  }

  lemma AssetsConnectIff(c: Chain, r: NodeReport)
    requires Distinct(Names(c)) && c.nativeToken.None?
    ensures Prepare(c, r).Ok? <==>
              && r.specName == c.name
              && forall i :: 0 <= i < |c.asset| ==>
                   c.asset[i].name in AssetsOf(r, r.listing)
                   && AssetsOf(r, r.listing)[c.asset[i].name].assetId == Some(c.asset[i].id)
  {
    hide AssetsOf, Wanted, Distinct, ValidUtf8;
    var all := AssetsOf(r, r.listing);
    if Prepare(c, r).Ok? {
      ExactMatch(c, r);
    }
    if r.specName == c.name
       && forall i :: 0 <= i < |c.asset| ==> c.asset[i].name in all && all[c.asset[i].name].assetId == Some(c.asset[i].id)
    {
      AllKeptConnects(c, r);
    }
  }

  lemma AllKeptConnects(c: Chain, r: NodeReport)
    requires Distinct(Names(c)) && c.nativeToken.None? && r.specName == c.name
    requires forall i :: 0 <= i < |c.asset| ==>
               c.asset[i].name in AssetsOf(r, r.listing)
               && AssetsOf(r, r.listing)[c.asset[i].name].assetId == Some(c.asset[i].id)
    ensures Prepare(c, r).Ok?
  {
    var all := AssetsOf(r, r.listing);
    AllAreKept(c, r.specs, all);
    RetainedAreConfigured(c, r.specs, all);
    DistinctSize(Names(c));
    hide AssetsOf, Wanted, Distinct, ValidUtf8;
    var kept := Retained(c, r.specs, all);
    hide Retained;
    assert kept.Keys == SetOf(Names(c));
    assert |kept.Keys| == |kept|;
  }

  /**
   * When a chain can connect at all. With a native token only that name is kept, so a chain that
   * also lists assets is refused by every node.
   */
  lemma ConnectsIff(c: Chain, r: NodeReport)
    requires Distinct(Names(c))
    ensures Prepare(c, r).Ok? <==>
              && r.specName == c.name
              && (match c.nativeToken
                  case Some(t) => |c.asset| == 0 && t.decimals == r.specs.decimals && t.name in AssetsOf(r, r.listing)
                  case None =>
                    forall i :: 0 <= i < |c.asset| ==>
                      c.asset[i].name in AssetsOf(r, r.listing)
                      && AssetsOf(r, r.listing)[c.asset[i].name].assetId == Some(c.asset[i].id))
  {
    if c.nativeToken.Some? {
      NativeConnectsIff(c, r);
    } else {
      AssetsConnectIff(c, r);
    }
    hide Prepare, AssetsOf;
  }

  /**
   * retain compares the configured decimals with the chain's, never with the entry's, and does not
   * look at the kind. The entry kept for a native token is the native one exactly when the node's
   * unit has that name and no asset's symbol does; it has the configured decimals exactly then, or
   * when the last asset listed under that name happens to have them.
   */
  lemma NativeEntryIff(c: Chain, r: NodeReport)
    requires c.nativeToken.Some? && Prepare(c, r).Ok?
    ensures var n := c.nativeToken.value.name;
            && n in Prepare(c, r).value
            && (Prepare(c, r).value[n].kind.Native?
                <==> r.specs.unit == n && forall i :: 0 <= i < |r.listing| ==> r.listing[i].symbol != n)
            && (Prepare(c, r).value[n].decimals == c.nativeToken.value.decimals
                <==> match LastListed(r.listing, n)
                     case None => true
                     case Some(a) => a.decimals == c.nativeToken.value.decimals)
  {
    var n := c.nativeToken.value.name;
    NativeConnectsIff(c, r);
    EntryIs(r, r.listing, n);
    LastListedIs(r.listing, n);
    hide AssetsOf, LastListed;
    assert n in Prepare(c, r).value;
  }

  const DOT: Text := [68, 79, 84]

  /** A node whose asset has the symbol of the native token passes, with an asset of other decimals. */
  lemma NativeShadowedByAsset()
    ensures var c := Chain([], [[]], Some(NativeToken(DOT, 10)), []);
            var r := NodeReport([], [], Specs(DOT, 10, 0), [AssetRecord(DOT, 6, 1984)]);
            Prepare(c, r) == Ok(map[DOT := CurrencyProperties([], Asset, 6, [], Some(1984), 0)])
  {
    var c := Chain([], [[]], Some(NativeToken(DOT, 10)), []);
    var r := NodeReport([], [], Specs(DOT, 10, 0), [AssetRecord(DOT, 6, 1984)]);
    assert r.listing[..|r.listing| - 1] == [];
    assert AssetsOf(r, []) == map[DOT := NativeEntry(r)];
    var all := AssetsOf(r, r.listing);
    assert all == map[DOT := AssetEntry(r, AssetRecord(DOT, 6, 1984))];
    assert Retained(c, r.specs, all) == all;
  }
}
