/** Transfer routes between venues: withdrawal fees per network on the Korean side, deposit networks on
    the foreign side, and a flat snapshot of the cheapest shared network for every pair and coin. */
module TransferRoutes {
  import opened Options
  import opened TradingConfig
  import opened ChainNames

  datatype NetworkFee = NetworkFee(network: string, feeCoins: real)

  datatype Route = Route(available: bool, withdrawOpen: bool, depositOpen: bool, feeCoins: real, network: string)

  /** The largest finite double, the start value of the running minimum. */
  const DOUBLE_MAX := 179769313486231570814527423731704356798070567525844996598917476803157260780028538760589558632766878171540458953514382464234321326889464182768467546703537516986049910576551282076245490090389328944075868508455133942304583236903222948165808559332123348274797826204144723168738177180919299881250404026184124858368.0

  // ---------------------------------------------------------------------------------------
  // Keys
  // ---------------------------------------------------------------------------------------

  function Digit(ex: Exchange): char {
    match ex
    case Bithumb => '0'
    case Bybit => '1'
    case Okx => '2'
    case Upbit => '3'
  }

  /** `make_fee_key` */
  function FeeKey(korean: Exchange, foreign: Exchange, coin: string): string {
    [Digit(korean), ':', Digit(foreign), ':'] + coin
  }

  /** Different venues or coins have different keys, whatever characters a coin name holds. */
  lemma FeeKeyInjective(k: Exchange, f: Exchange, coin: string, k': Exchange, f': Exchange, coin': string)
    requires FeeKey(k, f, coin) == FeeKey(k', f', coin')
    ensures k == k' && f == f' && coin == coin'
  {
    var key, key' := FeeKey(k, f, coin), FeeKey(k', f', coin');
    assert key[0] == key'[0] && key[2] == key'[2];
    assert key[4..] == coin && key'[4..] == coin';
  }

  /** The digits of both venues and the coin, with colons between them. */
  lemma FeeKeyForm(k: Exchange, f: Exchange, coin: string)
    ensures FeeKey(k, f, coin) == [Digit(k)] + ":" + [Digit(f)] + ":" + coin
    ensures FeeKey(Bithumb, Okx, "BTC") == "0:2:BTC" && FeeKey(Upbit, Bybit, "XRP") == "3:1:XRP"
  {
  }

  // ---------------------------------------------------------------------------------------
  // The direct computation
  // ---------------------------------------------------------------------------------------

  type Triple = (Exchange, Exchange, string)

  datatype Data = Data(
    withdraw: map<Exchange, map<string, seq<NetworkFee>>>,
    deposit: map<Exchange, map<string, set<string>>>,
    enabled: map<Exchange, map<string, bool>>)

  function Withdrawals(d: Data, korean: Exchange, coin: string): seq<NetworkFee> {
    if korean in d.withdraw && coin in d.withdraw[korean] then d.withdraw[korean][coin] else []
  }

  function Deposits(d: Data, foreign: Exchange, coin: string): set<string> {
    if foreign in d.deposit && coin in d.deposit[foreign] then d.deposit[foreign][coin] else {}
  }

  /** A coin counts as open for withdrawal unless the venue says that it is not. */
  predicate Enabled(d: Data, korean: Exchange, coin: string) {
    korean in d.enabled && coin in d.enabled[korean] ==> d.enabled[korean][coin]
  }

  predicate Suspended(d: Data, korean: Exchange, coin: string) {
    korean in d.enabled && coin in d.enabled[korean] && !d.enabled[korean][coin]
  }

  /** What the record of a route says: besides the answer, whether each side is open, and the network. */
  ghost predicate Describes(d: Data, t: Triple, r: Route) {
    var (korean, foreign, coin) := t;
    && Answers(d, korean, foreign, coin, r.available, r.feeCoins)
    && (r.depositOpen <==> Deposits(d, foreign, coin) != {})
    && (r.withdrawOpen <==> Withdrawals(d, korean, coin) != [] && !Suspended(d, korean, coin))
    && (r.available ==>
          && NetworkFee(r.network, r.feeCoins) in Withdrawals(d, korean, coin)
          && r.network in Deposits(d, foreign, coin))
  }

  /** A withdrawal network on which the foreign venue takes deposits; a fee at the sentinel is none. */
  predicate Shared(d: Data, korean: Exchange, foreign: Exchange, coin: string, i: nat) {
    var fees := Withdrawals(d, korean, coin);
    i < |fees| && fees[i].network in Deposits(d, foreign, coin) && fees[i].feeCoins < DOUBLE_MAX
  }

  /** A route exists: withdrawals are not disabled and some network is shared. */
  ghost predicate Open(d: Data, korean: Exchange, foreign: Exchange, coin: string) {
    Enabled(d, korean, coin) && exists i: nat :: Shared(d, korean, foreign, coin, i)
  }

  /** `fee` is the least withdrawal fee over the shared networks. */
  ghost predicate Cheapest(d: Data, korean: Exchange, foreign: Exchange, coin: string, fee: real) {
    && (exists i: nat :: Shared(d, korean, foreign, coin, i) && Withdrawals(d, korean, coin)[i].feeCoins == fee)
    && (forall i: nat :: Shared(d, korean, foreign, coin, i) ==> fee <= Withdrawals(d, korean, coin)[i].feeCoins)
  }

  /** What a lookup must answer: the least fee of an open route, and otherwise unavailable and 0. */
  ghost predicate Answers(d: Data, korean: Exchange, foreign: Exchange, coin: string, available: bool, fee: real) {
    && (available <==> Open(d, korean, foreign, coin))
    && (if available then Cheapest(d, korean, foreign, coin, fee) else fee == 0.0)
  }

  /** The answer is unique. */
  lemma AnswerUnique(d: Data, korean: Exchange, foreign: Exchange, coin: string, a: bool, fee: real, a': bool,
                     fee': real)
    requires Answers(d, korean, foreign, coin, a, fee) && Answers(d, korean, foreign, coin, a', fee')
    ensures a == a' && fee == fee'
  {
    if a {
      var i: nat :| Shared(d, korean, foreign, coin, i) && Withdrawals(d, korean, coin)[i].feeCoins == fee;
      var j: nat :| Shared(d, korean, foreign, coin, j) && Withdrawals(d, korean, coin)[j].feeCoins == fee';
      assert fee' <= Withdrawals(d, korean, coin)[i].feeCoins && fee <= Withdrawals(d, korean, coin)[j].feeCoins;
    }
  }

  /** `get_withdraw_fee_locked` */
  method ComputeRoute(d: Data, korean: Exchange, foreign: Exchange, coin: string) returns (r: Route)
    ensures Describes(d, (korean, foreign, coin), r)
    ensures r.available <==>
      !Suspended(d, korean, coin) && exists i: nat :: Shared(d, korean, foreign, coin, i)
  {
    var fees, nets := Withdrawals(d, korean, coin), Deposits(d, foreign, coin);
    r := Route(false, |fees| > 0 && Enabled(d, korean, coin), nets != {}, 0.0, "");
    if !r.withdrawOpen || !r.depositOpen {
      return;
    }
    var least, network, at: nat := DOUBLE_MAX, "", |fees|;
    for i := 0 to |fees|
      invariant least <= DOUBLE_MAX
      invariant forall k: nat :: k < i && Shared(d, korean, foreign, coin, k) ==> least <= fees[k].feeCoins
      invariant least < DOUBLE_MAX ==>
        at < i && Shared(d, korean, foreign, coin, at) && fees[at] == NetworkFee(network, least)
    {
      if fees[i].network in nets && fees[i].feeCoins < least {
        least, network, at := fees[i].feeCoins, fees[i].network, i;
      }
    }
    if least < DOUBLE_MAX {
      r := r.(available := true, feeCoins := least, network := network);
    }
  }

  // ---------------------------------------------------------------------------------------
  // The snapshot
  // ---------------------------------------------------------------------------------------

  function KeyOf(t: Triple): string {
    FeeKey(t.0, t.1, t.2)
  }

  datatype Snapshot = Snapshot(fees: map<string, real>, routes: map<string, Route>)

  function LookupFee(s: Snapshot, t: Triple): real {
    if KeyOf(t) in s.fees then s.fees[KeyOf(t)] else 0.0
  }

  predicate LookupAvailable(s: Snapshot, t: Triple) {
    KeyOf(t) in s.routes && s.routes[KeyOf(t)].available
  }

  /** The snapshot answers for `t` as the direct computation does. */
  ghost predicate Agrees(d: Data, s: Snapshot, t: Triple) {
    Answers(d, t.0, t.1, t.2, LookupAvailable(s, t), LookupFee(s, t))
  }

  /** The snapshot has the record of `t`, and its fee exactly when the route is available. */
  ghost predicate Recorded(d: Data, s: Snapshot, t: Triple) {
    var key := KeyOf(t);
    && key in s.routes && Describes(d, t, s.routes[key])
    && (key in s.fees <==> s.routes[key].available)
    && (key in s.fees ==> s.fees[key] == s.routes[key].feeCoins)
  }

  /** A record answers lookups as the direct computation does. */
  lemma RecordedAgrees(d: Data, s: Snapshot, t: Triple)
    requires Recorded(d, s, t)
    ensures Agrees(d, s, t)
  {
    var r := s.routes[KeyOf(t)];
    AnswerZero(d, t, r);
    hide Answers, FeeKey;
  }

  function Stored(s: Snapshot, t: Triple, r: Route): Snapshot {
    Snapshot(if r.available then s.fees[KeyOf(t) := r.feeCoins] else s.fees, s.routes[KeyOf(t) := r])
  }

  /** Nothing is stored under the key of `t`. */
  predicate Unset(s: Snapshot, t: Triple) {
    KeyOf(t) !in s.fees && KeyOf(t) !in s.routes
  }

  /** Storing one route records its triple and leaves every other one alone. */
  lemma StoredRecords(d: Data, s: Snapshot, t: Triple, r: Route, u: Triple)
    requires Describes(d, t, r) && Unset(s, t)
    ensures Recorded(d, Stored(s, t, r), t)
    ensures u != t ==>
      Unset(Stored(s, t, r), u) == Unset(s, u) && Recorded(d, Stored(s, t, r), u) == Recorded(d, s, u)
  {
    hide Describes, FeeKey;
    KeysDiffer(t, u);
    assert r.available == Stored(s, t, r).routes[KeyOf(t)].available;
  }

  lemma AnswerZero(d: Data, t: Triple, r: Route)
    requires Answers(d, t.0, t.1, t.2, r.available, r.feeCoins)
    ensures !r.available ==> r.feeCoins == 0.0
  {
  }

  lemma KeysDiffer(t: Triple, u: Triple)
    ensures KeyOf(t) == KeyOf(u) <==> t == u
  {
    if KeyOf(t) == KeyOf(u) {
      FeeKeyInjective(t.0, t.1, t.2, u.0, u.1, u.2);
    }
  }

  function CoinsOf<V>(m: map<Exchange, map<string, V>>): set<string> {
    set ex, coin | ex in m && coin in m[ex] :: coin
  }

  function AllCoins(d: Data): set<string> {
    CoinsOf(d.withdraw) + CoinsOf(d.deposit) + CoinsOf(d.enabled)
  }

  function KoreanVenues(d: Data): set<Exchange> {
    d.withdraw.Keys + d.enabled.Keys
  }

  /** The venues with deposit data or, when there are none yet, both foreign venues. */
  function ForeignVenues(d: Data): set<Exchange> {
    if d.deposit.Keys == {} then {Bybit, Okx} else d.deposit.Keys
  }

  predicate Listed(d: Data, t: Triple) {
    t.0 in KoreanVenues(d) && t.1 in ForeignVenues(d) && t.2 in AllCoins(d)
  }

  /** What is not listed has no route, so finding nothing is the right answer. */
  lemma UnlistedAnswers(d: Data, s: Snapshot, t: Triple)
    requires !Listed(d, t) && Unset(s, t)
    ensures Agrees(d, s, t)
  {
    if t.1 !in ForeignVenues(d) {
      assert Deposits(d, t.1, t.2) == {};
    } else {
      assert Withdrawals(d, t.0, t.2) == [];
    }
  }

  // ---------------------------------------------------------------------------------------
  // Filling the snapshot
  // ---------------------------------------------------------------------------------------

  /** Listed, and already visited by the three loops: `coins`, `ks` and `fs` are what is left of
      each, `coin` and `k` where the outer two stand. */
  predicate Visited(d: Data, coins: set<string>, coin: string, ks: set<Exchange>, k: Exchange, fs: set<Exchange>,
                    t: Triple) {
    Listed(d, t) && (t.2 !in coins || (t.2 == coin && (t.0 !in ks || (t.0 == k && t.1 !in fs))))
  }

  /** Visited triples are answered, all others have no entry. */
  ghost predicate Standing(d: Data, s: Snapshot, t: Triple, visited: bool) {
    if visited then Recorded(d, s, t) else Unset(s, t)
  }

  ghost predicate Progress(d: Data, s: Snapshot, coins: set<string>, coin: string, ks: set<Exchange>, k: Exchange,
                           fs: set<Exchange>) {
    forall t: Triple :: Standing(d, s, t, Visited(d, coins, coin, ks, k, fs, t))
  }

  lemma OneStored(d: Data, s: Snapshot, coins: set<string>, coin: string, ks: set<Exchange>, k: Exchange,
                  fs: set<Exchange>, f: Exchange, r: Route)
    requires Progress(d, s, coins, coin, ks, k, fs) && Listed(d, (k, f, coin)) && coin in coins && k in ks && f in fs
    requires Describes(d, (k, f, coin), r)
    ensures Progress(d, Stored(s, (k, f, coin), r), coins, coin, ks, k, fs - {f})
  {
    hide Describes, Recorded, Unset, Stored, Listed;
    var t := (k, f, coin);
    assert Standing(d, s, t, Visited(d, coins, coin, ks, k, fs, t));
    forall u: Triple
      ensures Standing(d, Stored(s, t, r), u, Visited(d, coins, coin, ks, k, fs - {f}, u))
    {
      assert Standing(d, s, u, Visited(d, coins, coin, ks, k, fs, u));
      StoredRecords(d, s, t, r, u);
    }
  }

  lemma InnerDone(d: Data, s: Snapshot, coins: set<string>, coin: string, ks: set<Exchange>, k: Exchange)
    requires Progress(d, s, coins, coin, ks, k, {}) && k in ks
    ensures Progress(d, s, coins, coin, ks - {k}, k, ForeignVenues(d))
  {
    hide Standing;
    forall t: Triple
      ensures Standing(d, s, t, Visited(d, coins, coin, ks - {k}, k, ForeignVenues(d), t))
    {
      assert Standing(d, s, t, Visited(d, coins, coin, ks, k, {}, t));
    }
  }

  lemma MiddleDone(d: Data, s: Snapshot, coins: set<string>, coin: string, k: Exchange, fs: set<Exchange>,
                   coin': string, k': Exchange)
    requires Progress(d, s, coins, coin, {}, k, fs) && coin in coins
    ensures Progress(d, s, coins - {coin}, coin', KoreanVenues(d), k', ForeignVenues(d))
  {
    hide Standing;
    forall t: Triple
      ensures Standing(d, s, t, Visited(d, coins - {coin}, coin', KoreanVenues(d), k', ForeignVenues(d), t))
    {
      assert Standing(d, s, t, Visited(d, coins, coin, {}, k, fs, t));
    }
  }

  lemma NextTurn(d: Data, s: Snapshot, coins: set<string>, coin: string, ks: set<Exchange>, k: Exchange,
                 coin': string, k': Exchange)
    requires Progress(d, s, coins, coin, ks, k, ForeignVenues(d)) && (coin == coin' || ks == KoreanVenues(d))
    ensures Progress(d, s, coins, coin', ks, k', ForeignVenues(d))
  {
    hide Standing;
    forall t: Triple
      ensures Standing(d, s, t, Visited(d, coins, coin', ks, k', ForeignVenues(d), t))
    {
      assert Standing(d, s, t, Visited(d, coins, coin, ks, k, ForeignVenues(d), t));
    }
  }

  lemma NothingVisited(d: Data, coin: string, k: Exchange)
    ensures Progress(d, Snapshot(map[], map[]), AllCoins(d), coin, KoreanVenues(d), k, ForeignVenues(d))
  {
    forall t: Triple
      ensures Standing(d, Snapshot(map[], map[]), t,
                       Visited(d, AllCoins(d), coin, KoreanVenues(d), k, ForeignVenues(d), t))
    {
    }
  }

  lemma EverythingVisited(d: Data, s: Snapshot, coin: string, k: Exchange, t: Triple)
    requires Progress(d, s, {}, coin, KoreanVenues(d), k, ForeignVenues(d))
    ensures Agrees(d, s, t) && if Mentioned(d, t) then Recorded(d, s, t) else Unset(s, t)
  {
    hide Agrees, Unset, Recorded, Mentioned;
    assert Standing(d, s, t, Visited(d, {}, coin, KoreanVenues(d), k, ForeignVenues(d), t));
    ListedIs(d, t);
    if Listed(d, t) { RecordedAgrees(d, s, t); } else { UnlistedAnswers(d, s, t); }
  }

  /** Somebody has data on the Korean venue's withdrawals, on the foreign venue's deposits, or on no deposits at
      all yet, and on the coin. */
  ghost predicate Mentioned(d: Data, t: Triple) {
    && (t.0 in d.withdraw || t.0 in d.enabled)
    && (t.1 in d.deposit || ((forall ex :: ex !in d.deposit) && (t.1.Bybit? || t.1.Okx?)))
    && (|| (exists ex :: ex in d.withdraw && t.2 in d.withdraw[ex])
        || (exists ex :: ex in d.deposit && t.2 in d.deposit[ex])
        || (exists ex :: ex in d.enabled && t.2 in d.enabled[ex]))
  }

  lemma ListedIs(d: Data, t: Triple)
    ensures Listed(d, t) <==> Mentioned(d, t)
  {
    assert d.deposit.Keys == {} <==> forall ex :: ex !in d.deposit;
  }

  // ---------------------------------------------------------------------------------------
  // The cache
  // ---------------------------------------------------------------------------------------

  function Normalized(fees: seq<NetworkFee>): seq<NetworkFee> {
    seq(|fees|, i requires 0 <= i < |fees| => fees[i].(network := Normalize(fees[i].network)))
  }

  function NormalizedNets(nets: set<string>): set<string> {
    set n | n in nets :: Normalize(n)
  }

  function Put<V>(m: map<Exchange, map<string, V>>, ex: Exchange, coin: string, v: V): map<Exchange, map<string, V>> {
    m[ex := (if ex in m then m[ex] else map[])[coin := v]]
  }

  function At<V>(m: map<Exchange, map<string, V>>, ex: Exchange, coin: string): Option<V> {
    if ex in m && coin in m[ex] then Some(m[ex][coin]) else None
  }

  /** Storing under a venue and a coin changes that entry and no other. */
  lemma PutChangesOne<V>(m: map<Exchange, map<string, V>>, ex: Exchange, coin: string, v: V, ex': Exchange,
                         coin': string)
    ensures At(Put(m, ex, coin, v), ex', coin') == if ex' == ex && coin' == coin then Some(v) else At(m, ex', coin')
  {
  }

  /** Names that a venue adapter has normalised already are stored like raw ones. */
  lemma DoubleNormalisation(fees: seq<NetworkFee>, nets: set<string>)
    ensures Normalized(Normalized(fees)) == Normalized(fees)
    ensures NormalizedNets(NormalizedNets(nets)) == NormalizedNets(nets)
  {
    hide Normalize;
    forall i: nat | i < |fees|
      ensures Normalized(Normalized(fees))[i] == Normalized(fees)[i]
    {
      NormalizeIdempotent(fees[i].network);
    }
    forall n | n in nets
      ensures Normalize(Normalize(n)) == Normalize(n)
    {
      NormalizeIdempotent(n);
    }
  }

  class PriceCache {
    var data: Data
    var snapshot: Snapshot

    constructor ()
      ensures data == Data(map[], map[], map[]) && snapshot == Snapshot(map[], map[])
    {
      data := Data(map[], map[], map[]);
      snapshot := Snapshot(map[], map[]);
    }

    /** The published snapshot answers every lookup as the data in store does. */
    ghost predicate Published()
      reads this
    {
      forall t: Triple :: Agrees(data, snapshot, t)
    }

    method SetWithdrawNetworkFees(ex: Exchange, coin: string, fees: seq<NetworkFee>)
      modifies this`data
      ensures data == old(data).(withdraw := Put(old(data).withdraw, ex, coin, Normalized(fees)))
    {
      var names: seq<NetworkFee> := [];
      for i := 0 to |fees|
        invariant data == old(data)
        invariant |names| == i && forall k: nat :: k < i ==> names[k] == Normalized(fees)[k]
      {
        hide Normalize;
        var name := NormalizeChain(fees[i].network);
        names := names + [fees[i].(network := name)];
      }
      assert names == Normalized(fees);
      data := data.(withdraw := Put(data.withdraw, ex, coin, names));
    }

    method SetForeignDepositNetworks(ex: Exchange, coin: string, nets: set<string>)
      modifies this`data
      ensures data == old(data).(deposit := Put(old(data).deposit, ex, coin, NormalizedNets(nets)))
    {
      hide Normalize;
      var names: set<string> := {};
      var left := nets;
      while left != {}
        invariant data == old(data)
        invariant left <= nets && names == NormalizedNets(nets - left)
        decreases left
      {
        var n :| n in left;
        var name := NormalizeChain(n);
        assert nets - (left - {n}) == (nets - left) + {n};
        names := names + {name};
        left := left - {n};
      }
      assert nets - left == nets;
      data := data.(deposit := Put(data.deposit, ex, coin, names));
    }

    method SetKoreanWithdrawEnabled(ex: Exchange, coin: string, on: bool)
      modifies this`data
      ensures data == old(data).(enabled := Put(old(data).enabled, ex, coin, on))
    {
      data := data.(enabled := Put(data.enabled, ex, coin, on));
    }

    /** `finalize_withdraw_fees` */
    method FinalizeWithdrawFees()
      modifies this`snapshot
      ensures Published()
      ensures forall t: Triple :: if Mentioned(data, t) then Recorded(data, snapshot, t) else Unset(snapshot, t)
    {
      hide Answers, Agrees, Unset, Stored, Visited, Progress, Recorded, Mentioned;
      var d, s := data, Snapshot(map[], map[]);
      var coins := AllCoins(d);
      var last := "";
      NothingVisited(d, last, Bithumb);
      while coins != {}
        invariant coins <= AllCoins(d)
        invariant Progress(d, s, coins, last, KoreanVenues(d), Bithumb, ForeignVenues(d))
        decreases coins
      {
        var coin :| coin in coins;
        NextTurn(d, s, coins, last, KoreanVenues(d), Bithumb, coin, Bithumb);
        s := FillCoin(d, s, coins, coin);
        coins, last := coins - {coin}, coin;
      }
      forall t: Triple
        ensures Agrees(d, s, t) && if Mentioned(d, t) then Recorded(d, s, t) else Unset(s, t)
      {
        EverythingVisited(d, s, last, Bithumb, t);
      }
      snapshot := s;
    }

    /** The two inner loops, for one coin. */
    static method FillCoin(d: Data, s0: Snapshot, coins: set<string>, coin: string) returns (s: Snapshot)
      requires coin in coins && coins <= AllCoins(d)
      requires Progress(d, s0, coins, coin, KoreanVenues(d), Bithumb, ForeignVenues(d))
      ensures Progress(d, s, coins - {coin}, coin, KoreanVenues(d), Bithumb, ForeignVenues(d))
    {
      hide Describes, Recorded, Unset, Stored, Visited, Progress, AllCoins, KoreanVenues, ForeignVenues;
      s := s0;
      var ks, last := KoreanVenues(d), Bithumb;
      while ks != {}
        invariant ks <= KoreanVenues(d)
        invariant Progress(d, s, coins, coin, ks, last, ForeignVenues(d))
        decreases ks
      {
        var k :| k in ks;
        NextTurn(d, s, coins, coin, ks, last, coin, k);
        var fs := ForeignVenues(d);
        while fs != {}
          invariant fs <= ForeignVenues(d)
          invariant Progress(d, s, coins, coin, ks, k, fs)
          decreases fs
        {
          var f :| f in fs;
          var r := ComputeRoute(d, k, f, coin);
          OneStored(d, s, coins, coin, ks, k, fs, f, r);
          s := Stored(s, (k, f, coin), r);
          fs := fs - {f};
        }
        InnerDone(d, s, coins, coin, ks, k);
        ks, last := ks - {k}, k;
      }
      MiddleDone(d, s, coins, coin, last, ForeignVenues(d), coin, Bithumb);
    }

    method GetWithdrawFee(korean: Exchange, foreign: Exchange, coin: string) returns (fee: real)
      ensures fee == LookupFee(snapshot, (korean, foreign, coin))
      ensures Published() ==>
        if Open(data, korean, foreign, coin) then Cheapest(data, korean, foreign, coin, fee) else fee == 0.0
    {
      assert Published() ==> Agrees(data, snapshot, (korean, foreign, coin));
      var key := FeeKey(korean, foreign, coin);
      fee := if key in snapshot.fees then snapshot.fees[key] else 0.0;
    }

    method IsTransferRouteAvailable(korean: Exchange, foreign: Exchange, coin: string) returns (available: bool)
      ensures available == LookupAvailable(snapshot, (korean, foreign, coin))
      ensures Published() ==> (available <==> Open(data, korean, foreign, coin))
    {
      assert Published() ==> Agrees(data, snapshot, (korean, foreign, coin));
      var key := FeeKey(korean, foreign, coin);
      available := key in snapshot.routes && snapshot.routes[key].available;
    }
  }
}
