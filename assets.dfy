/**
 * The asset records of the simulator and the operations that split money
 * across them: `createAsset`, `createAssets`, `divideAssets` and
 * `rebalance`. An asset is an object whose `amount`, `lastChartPrice` and
 * `balance` are updated in place; a portfolio is an array of distinct assets.
 */
module Assets {
  import opened Sums
  import opened Config
  import opened Wrappers

  class Asset {
    /** The label the asset is reported under. */
    const name: string
    /** The largest daily move, in percent. */
    const updown: real
    /** The number of samples averaged per day; fewer samples swing harder. */
    const volatility: int
    /** Whether the asset follows the economy (true) or moves against it (false). */
    const positive: bool
    /** Target weight in tenths. */
    var balance: real
    /** Money held in the asset. */
    var amount: real
    const firstChartPrice: real
    var lastChartPrice: real
    const investHistory: seq<string>
    const chartPriceHistory: seq<real>

    /** `createAsset`: a new asset with nothing invested, priced at `FIRST_CHART_PRICE`. */
    constructor (name: string, balance: real, updown: real, volatility: int, positive: bool)
      ensures this.name == name && this.balance == balance
      ensures this.updown == updown && this.volatility == volatility && this.positive == positive
      ensures amount == 0.0
      ensures firstChartPrice == FIRST_CHART_PRICE && lastChartPrice == FIRST_CHART_PRICE
      ensures investHistory == [] && chartPriceHistory == []
    {
      this.name := name;
      this.updown := updown;
      this.volatility := volatility;
      this.positive := positive;
      this.balance := balance;
      amount := 0.0;
      firstChartPrice := FIRST_CHART_PRICE;
      lastChartPrice := FIRST_CHART_PRICE;
      investHistory := [];
      chartPriceHistory := [];
    }
  }

  /** The per-asset parameters that drive a simulated day. */
  datatype Profile = Profile(updown: real, volatility: int, positive: bool, balance: real)

  /** One entry of a rebalance's history: the asset's price, the amount bought (negative: sold) and the new amount. */
  datatype Trade = Trade(price: real, diff: real, amount: real)

  ghost function Elements(assets: seq<Asset>): set<Asset>
  {
    set a | a in assets
  }

  /** No asset object appears twice in the portfolio. */
  ghost predicate Distinct(assets: seq<Asset>)
  {
    forall i, j :: 0 <= i < j < |assets| ==> assets[i] != assets[j]
  }

  /** The amount held in every asset, in portfolio order. */
  ghost function Amounts(assets: seq<Asset>): (s: seq<real>)
    reads Elements(assets)`amount
    ensures |s| == |assets|
    ensures forall i :: 0 <= i < |assets| ==> s[i] == assets[i].amount
  {
    if |assets| == 0 then [] else Amounts(assets[..|assets| - 1]) + [assets[|assets| - 1].amount]
  }

  /** The price of every asset, in portfolio order. */
  ghost function Prices(assets: seq<Asset>): (s: seq<real>)
    reads Elements(assets)`lastChartPrice
    ensures |s| == |assets|
    ensures forall i :: 0 <= i < |assets| ==> s[i] == assets[i].lastChartPrice
  {
    if |assets| == 0 then [] else Prices(assets[..|assets| - 1]) + [assets[|assets| - 1].lastChartPrice]
  }

  /** The profile of every asset, in portfolio order. */
  ghost function Profiles(assets: seq<Asset>): (ps: seq<Profile>)
    reads Elements(assets)`balance
    ensures |ps| == |assets|
    ensures forall i :: 0 <= i < |assets| ==>
      ps[i] == Profile(assets[i].updown, assets[i].volatility, assets[i].positive, assets[i].balance)
  {
    if |assets| == 0 then []
    else
      var a := assets[|assets| - 1];
      Profiles(assets[..|assets| - 1]) + [Profile(a.updown, a.volatility, a.positive, a.balance)]
  }

  /** The amounts are `s` when every asset holds the matching slot of `s`. */
  lemma AmountsAre(assets: seq<Asset>, s: seq<real>)
    requires |s| == |assets|
    requires forall k :: 0 <= k < |assets| ==> assets[k].amount == s[k]
    ensures Amounts(assets) == s
  {
  }

  /** The prices are `s` when every asset is priced at the matching slot of `s`. */
  lemma PricesAre(assets: seq<Asset>, s: seq<real>)
    requires |s| == |assets|
    requires forall k :: 0 <= k < |assets| ==> assets[k].lastChartPrice == s[k]
    ensures Prices(assets) == s
  {
  }

  function Weights(ps: seq<Profile>): (w: seq<real>)
    ensures |w| == |ps|
    ensures forall i :: 0 <= i < |ps| ==> w[i] == ps[i].balance
  {
    seq(|ps|, i requires 0 <= i < |ps| => ps[i].balance)
  }

  /** The weight `createAssets` gives slot `i`: the override if there is one, else 0. */
  function BalanceAt(balances: Option<seq<real>>, i: nat): real
  {
    if balances.Some? && i < |balances.value| then balances.value[i] else 0.0
  }

  /** `createAssets` can override at most as many weights as it builds assets. */
  predicate FitsAssets(balances: Option<seq<real>>)
  {
    balances.None? || |balances.value| <= NUM_ASSETS
  }

  /** The profiles `createAssets` builds: a stock and an inversely correlated asset, both moving at most 6% a day. */
  function InitialProfiles(balances: Option<seq<real>>): (ps: seq<Profile>)
    requires FitsAssets(balances)
    ensures |ps| == NUM_ASSETS
    ensures forall i :: 0 <= i < |ps| ==> ps[i].updown == 6.0 && ps[i].volatility == 10
    ensures ps[0].positive && !ps[1].positive
    ensures forall i :: 0 <= i < |ps| ==> ps[i].balance == BalanceAt(balances, i)
  {
    [Profile(6.0, 10, true, BalanceAt(balances, 0)), Profile(6.0, 10, false, BalanceAt(balances, 1))]
  }

  /**
   * `createAssets`: two fresh assets, with their weights replaced by
   * `balances` where it is given.
   */
  method CreateAssets(balances: Option<seq<real>>) returns (assets: seq<Asset>)
    requires FitsAssets(balances)
    ensures |assets| == NUM_ASSETS
    ensures forall i :: 0 <= i < |assets| ==> fresh(assets[i])
    ensures Distinct(assets)
    ensures Profiles(assets) == InitialProfiles(balances)
    ensures Amounts(assets) == Fill(NUM_ASSETS, 0.0)
    ensures Prices(assets) == Fill(NUM_ASSETS, FIRST_CHART_PRICE)
    ensures assets[0].name == "株式1" && assets[1].name == "逆相関2"
  {
    var stock := new Asset("株式1", 0.0, 6.0, 10, true);
    var inverse := new Asset("逆相関2", 0.0, 6.0, 10, false);
    assets := [stock, inverse];
    if balances.Some? {
      var bs := balances.value;
      var i := 0;
      while i < |bs|
        invariant 0 <= i <= |bs|
        invariant assets[0] == stock && assets[1] == inverse
        invariant forall k :: 0 <= k < i ==> assets[k].balance == bs[k]
        invariant forall k :: i <= k < NUM_ASSETS ==> assets[k].balance == 0.0
        invariant stock.amount == 0.0 && inverse.amount == 0.0
        invariant stock.lastChartPrice == FIRST_CHART_PRICE && inverse.lastChartPrice == FIRST_CHART_PRICE
      {
        assets[i].balance := bs[i];
        i := i + 1;
      }
    }
  }

  /** `divideAssets`: slot `i` of the result is `dealAmount` times asset `i`'s weight, in tenths. */
  method DivideAssets(assets: seq<Asset>, dealAmount: real) returns (balances: array<real>)
    ensures fresh(balances)
    ensures balances[..] == Split(Weights(Profiles(assets)), dealAmount)
    ensures Sum(Weights(Profiles(assets))) == 10.0 ==> Sum(balances[..]) == dealAmount
  {
    balances := new real[|assets|];
    var i := 0;
    while i < |assets|
      invariant 0 <= i <= |assets|
      invariant forall k :: 0 <= k < i ==> balances[k] == Share(dealAmount, assets[k].balance)
    {
      balances[i] := dealAmount * assets[i].balance / 10.0;
      i := i + 1;
    }
    assert forall k :: 0 <= k < |assets| ==> balances[..][k] == Split(Weights(Profiles(assets)), dealAmount)[k];
    assert balances[..] == Split(Weights(Profiles(assets)), dealAmount);
    if Sum(Weights(Profiles(assets))) == 10.0 {
      SplitConserves(Weights(Profiles(assets)), dealAmount);
    }
  }

  /** The money held across the portfolio, summed asset by asset (the first loop of `rebalance`). */
  method TotalAmount(assets: seq<Asset>) returns (dealAmount: real)
    ensures dealAmount == Sum(Amounts(assets))
  {
    dealAmount := 0.0;
    var i := 0;
    while i < |assets|
      invariant 0 <= i <= |assets|
      invariant dealAmount == Sum(Amounts(assets)[..i])
    {
      assert Amounts(assets)[..i + 1][..i] == Amounts(assets)[..i];
      dealAmount := dealAmount + assets[i].amount;
      i := i + 1;
    }
    assert Amounts(assets)[..|assets|] == Amounts(assets);
  }

  /**
   * The second loop of `rebalance`: move every asset to its new amount and
   * record the trade.
   */
  method ApplyBalances(assets: seq<Asset>, balances: array<real>) returns (history: seq<Trade>)
    requires Distinct(assets) && balances.Length == |assets|
    modifies Elements(assets)`amount
    ensures Amounts(assets) == balances[..]
    ensures Profiles(assets) == old(Profiles(assets)) && Prices(assets) == old(Prices(assets))
    ensures |history| == |assets|
    ensures forall i :: 0 <= i < |assets| ==>
      history[i] == Trade(assets[i].lastChartPrice, balances[i] - old(assets[i].amount), balances[i])
  {
    history := [];
    var i := 0;
    while i < |assets|
      invariant 0 <= i <= |assets|
      invariant |history| == i
      invariant forall k :: 0 <= k < i ==> assets[k].amount == balances[k]
      invariant forall k :: 0 <= k < i ==>
        history[k] == Trade(assets[k].lastChartPrice, balances[k] - old(assets[k].amount), balances[k])
      invariant forall k :: i <= k < |assets| ==> assets[k].amount == old(assets[k].amount)
    {
      var diff := balances[i] - assets[i].amount;
      assets[i].amount := balances[i];
      history := history + [Trade(assets[i].lastChartPrice, diff, assets[i].amount)];
      i := i + 1;
    }
    assert Amounts(assets) == balances[..];
    assert Profiles(assets) == old(Profiles(assets));
    assert Prices(assets) == old(Prices(assets));
  }

  /**
   * `rebalance`: pool every asset's amount and split the pool by weight.
   * Only the amounts change; the history has one entry per asset, in order.
   */
  method Rebalance(assets: seq<Asset>) returns (history: seq<Trade>)
    requires Distinct(assets)
    modifies Elements(assets)`amount
    ensures Amounts(assets) == Split(Weights(Profiles(assets)), Sum(old(Amounts(assets))))
    ensures Sum(Weights(Profiles(assets))) == 10.0 ==> Sum(Amounts(assets)) == Sum(old(Amounts(assets)))
    ensures Profiles(assets) == old(Profiles(assets)) && Prices(assets) == old(Prices(assets))
    ensures |history| == |assets|
    ensures forall i :: 0 <= i < |assets| ==>
      history[i] == Trade(assets[i].lastChartPrice, assets[i].amount - old(assets[i].amount), assets[i].amount)
  {
    var dealAmount := TotalAmount(assets);
    var balances := DivideAssets(assets, dealAmount);
    history := ApplyBalances(assets, balances);
  }
}
