/** Bithumb's order books and the best bid and ask that are kept beside them. A depth message carries
    updates of several symbols; the best quotes of a symbol are refreshed when the message moves on to
    another one, and at its end. */
module BestQuotes {

  type Symbol = string

  datatype Book = Book(bids: map<real, real>, asks: map<real, real>, initialized: bool)

  datatype Quotes = Quotes(bid: real, bidQty: real, ask: real, askQty: real)

  datatype DepthUpdate = DepthUpdate(symbol: Symbol, isBid: bool, price: real, quantity: real)

  // ---------------------------------------------------------------------------------------
  // Books
  // ---------------------------------------------------------------------------------------

  function Level(side: map<real, real>, price: real, quantity: real): map<real, real> {
    if quantity <= 0.0 then side - {price} else side[price := quantity]
  }

  function Applied(b: Book, u: DepthUpdate): Book {
    if u.isBid then b.(bids := Level(b.bids, u.price, u.quantity)) else b.(asks := Level(b.asks, u.price, u.quantity))
  }

  predicate Live(books: map<Symbol, Book>, s: Symbol) {
    s in books && books[s].initialized
  }

  function AppliedTo(books: map<Symbol, Book>, u: DepthUpdate): map<Symbol, Book> {
    if Live(books, u.symbol) then books[u.symbol := Applied(books[u.symbol], u)] else books
  }

  /** All books after all updates of a message. */
  function Folded(books: map<Symbol, Book>, us: seq<DepthUpdate>): map<Symbol, Book> {
    if |us| == 0 then books else AppliedTo(Folded(books, us[..|us| - 1]), us[|us| - 1])
  }

  /** One book after its own updates, whatever lies between them. */
  function OwnFold(b: Book, s: Symbol, us: seq<DepthUpdate>): Book {
    if |us| == 0 then b
    else
      var before := OwnFold(b, s, us[..|us| - 1]);
      if us[|us| - 1].symbol == s then Applied(before, us[|us| - 1]) else before
  }

  /** Interleaving does not matter: each live book is the fold of its own updates, the others stay. */
  lemma {:induction false} FoldBySymbol(books: map<Symbol, Book>, us: seq<DepthUpdate>, s: Symbol)
    ensures s in Folded(books, us) <==> s in books
    ensures Live(Folded(books, us), s) <==> Live(books, s)
    ensures s in books ==> Folded(books, us)[s] == if books[s].initialized then OwnFold(books[s], s, us) else books[s]
    decreases |us|
  {
    if |us| > 0 { FoldBySymbol(books, us[..|us| - 1], s); }
  }

  // ---------------------------------------------------------------------------------------
  // What a message does to one price level
  // ---------------------------------------------------------------------------------------

  function SideOf(b: Book, isBid: bool): map<real, real> {
    if isBid then b.bids else b.asks
  }

  /** Update `i` is the last one of the message for this symbol, side and price. */
  ghost predicate LastFor(us: seq<DepthUpdate>, i: nat, s: Symbol, isBid: bool, price: real) {
    && i < |us| && us[i].symbol == s && us[i].isBid == isBid && us[i].price == price
    && forall j: nat :: i < j < |us| ==> !(us[j].symbol == s && us[j].isBid == isBid && us[j].price == price)
  }

  ghost predicate Mentioned(us: seq<DepthUpdate>, s: Symbol, isBid: bool, price: real) {
    exists i: nat :: LastFor(us, i, s, isBid, price)
  }

  /** A level has the quantity of its last update, is gone if that is not positive, and is as it was if the
      message does not mention it. */
  ghost predicate LevelFollows(before: Book, after: Book, us: seq<DepthUpdate>, s: Symbol, isBid: bool, price: real) {
    var was, now := SideOf(before, isBid), SideOf(after, isBid);
    && (forall i: nat :: LastFor(us, i, s, isBid, price) ==>
          if us[i].quantity > 0.0 then price in now && now[price] == us[i].quantity else price !in now)
    && (!Mentioned(us, s, isBid, price) ==>
          (price in now <==> price in was) && (price in now ==> now[price] == was[price]))
  }

  /** A message that holds an update of a level has a last one. */
  lemma {:induction false} HasLast(us: seq<DepthUpdate>, k: nat)
    requires k < |us|
    ensures Mentioned(us, us[k].symbol, us[k].isBid, us[k].price)
    decreases |us| - k
  {
    var s, isBid, price := us[k].symbol, us[k].isBid, us[k].price;
    if !LastFor(us, k, s, isBid, price) {
      var j: nat :| k < j < |us| && us[j].symbol == s && us[j].isBid == isBid && us[j].price == price;
      HasLast(us, j);
    }
  }

  lemma LastForSnoc(us: seq<DepthUpdate>, u: DepthUpdate, i: nat, s: Symbol, isBid: bool, price: real)
    ensures LastFor(us + [u], i, s, isBid, price) <==>
      if u.symbol == s && u.isBid == isBid && u.price == price then i == |us| else LastFor(us, i, s, isBid, price)
  {
    var all := us + [u];
    assert all[|us|] == u;
    assert forall j: nat :: j < |us| ==> all[j] == us[j];
  }

  /** One more update changes its own level and no other. */
  lemma LevelSnoc(before: Book, after: Book, us: seq<DepthUpdate>, u: DepthUpdate, s: Symbol, isBid: bool, price: real)
    requires LevelFollows(before, after, us, s, isBid, price)
    ensures LevelFollows(before, if u.symbol == s then Applied(after, u) else after, us + [u], s, isBid, price)
  {
    var all := us + [u];
    forall i: nat
      ensures LastFor(all, i, s, isBid, price) <==>
        if u.symbol == s && u.isBid == isBid && u.price == price then i == |us| else LastFor(us, i, s, isBid, price)
    {
      LastForSnoc(us, u, i, s, isBid, price);
    }
    assert forall i: nat :: i < |us| ==> all[i] == us[i];
    if u.symbol == s && u.isBid == isBid && u.price == price {
      assert LastFor(all, |us|, s, isBid, price);
    } else {
      assert Mentioned(all, s, isBid, price) <==> Mentioned(us, s, isBid, price);
      assert forall i: nat :: LastFor(all, i, s, isBid, price) ==> i < |us|;
    }
  }

  lemma {:induction false} OwnLevel(b: Book, s: Symbol, us: seq<DepthUpdate>, isBid: bool, price: real)
    ensures LevelFollows(b, OwnFold(b, s, us), us, s, isBid, price)
    decreases |us|
  {
    if |us| > 0 {
      var n := |us| - 1;
      assert us[..n] + [us[n]] == us;
      OwnLevel(b, s, us[..n], isBid, price);
      LevelSnoc(b, OwnFold(b, s, us[..n]), us[..n], us[n], s, isBid, price);
    }
  }

  /** After a message every level of every live book is what the last update of that symbol, side and price
      says, whatever lies between. */
  lemma LevelIsLastUpdate(books: map<Symbol, Book>, us: seq<DepthUpdate>, s: Symbol, isBid: bool, price: real)
    requires Live(books, s)
    ensures Live(Folded(books, us), s)
    ensures LevelFollows(books[s], Folded(books, us)[s], us, s, isBid, price)
  {
    FoldBySymbol(books, us, s);
    OwnLevel(books[s], s, us, isBid, price);
  }

  /** The same for all books, of which those that are not initialised stay as they are. */
  ghost predicate Follows(before: map<Symbol, Book>, after: map<Symbol, Book>, us: seq<DepthUpdate>) {
    && before.Keys == after.Keys
    && (forall s, isBid, price :: s in before && before[s].initialized ==>
          LevelFollows(before[s], after[s], us, s, isBid, price))
    && (forall s :: s in before && !before[s].initialized ==> after[s] == before[s])
  }

  lemma BooksFollow(books: map<Symbol, Book>, us: seq<DepthUpdate>)
    ensures Follows(books, Folded(books, us), us)
  {
    forall s
      ensures s in Folded(books, us) <==> s in books
      ensures s in books && !Live(books, s) ==> Folded(books, us)[s] == books[s]
    {
      FoldBySymbol(books, us, s);
    }
    forall s, isBid, price | Live(books, s) ensures LevelFollows(books[s], Folded(books, us)[s], us, s, isBid, price) {
      LevelIsLastUpdate(books, us, s, isBid, price);
    }
  }

  /** The symbols that a message updates. */
  predicate Touched(books: map<Symbol, Book>, us: seq<DepthUpdate>, s: Symbol) {
    Live(books, s) && exists i: nat :: i < |us| && us[i].symbol == s
  }

  lemma TouchedSnoc(books: map<Symbol, Book>, us: seq<DepthUpdate>, u: DepthUpdate, s: Symbol)
    ensures Touched(books, us + [u], s) <==> Touched(books, us, s) || (Live(books, s) && u.symbol == s)
  {
    var all := us + [u];
    if Touched(books, us, s) {
      var i: nat :| i < |us| && us[i].symbol == s;
      assert all[i].symbol == s;
    } else if Live(books, s) && u.symbol == s {
      assert all[|us|].symbol == s;
    }
  }

  // ---------------------------------------------------------------------------------------
  // Best quotes
  // ---------------------------------------------------------------------------------------

  /** The bids are ordered from the highest price, the asks from the lowest; an empty side is 0. */
  predicate BestBid(bids: map<real, real>, price: real, qty: real) {
    if bids == map[] then price == 0.0 && qty == 0.0
    else price in bids && bids[price] == qty && forall p :: p in bids ==> p <= price
  }

  predicate BestAsk(asks: map<real, real>, price: real, qty: real) {
    if asks == map[] then price == 0.0 && qty == 0.0
    else price in asks && asks[price] == qty && forall p :: p in asks ==> price <= p
  }

  predicate Matches(b: Book, q: Quotes) {
    BestBid(b.bids, q.bid, q.bidQty) && BestAsk(b.asks, q.ask, q.askQty)
  }

  /** A book has one pair of best quotes. */
  lemma BestUnique(b: Book, q: Quotes, q': Quotes)
    requires Matches(b, q) && Matches(b, q')
    ensures q == q'
  {
  }

  lemma SomeKey(keys: set<real>)
    ensures keys == {} || exists p :: p in keys
  {
    if forall p :: p !in keys {
      assert keys == {};
    }
  }

  /** `begin()` of a map ordered from the highest key. */
  method First(side: map<real, real>, highest: bool) returns (price: real)
    requires side != map[]
    ensures price in side && forall p :: p in side ==> if highest then p <= price else price <= p
  {
    var left := side.Keys;
    SomeKey(left);
    price :| price in left;
    left := left - {price};
    while left != {}
      invariant left <= side.Keys && price in side
      invariant forall p :: p in side && p !in left ==> if highest then p <= price else price <= p
      decreases left
    {
      SomeKey(left);
      var p :| p in left;
      if (if highest then price < p else p < price) {
        price := p;
      }
      left := left - {p};
    }
  }

  class Feed {
    var books: map<Symbol, Book>
    var quotes: map<Symbol, Quotes>

    constructor (b: map<Symbol, Book>, q: map<Symbol, Quotes>)
      ensures books == b && quotes == q
    {
      books, quotes := b, q;
    }

    /** `update_bbo` */
    method UpdateBest(s: Symbol)
      modifies this`quotes
      ensures quotes.Keys == old(quotes).Keys
      ensures forall t :: t in quotes && !(t == s && Live(books, s)) ==> quotes[t] == old(quotes)[t]
      ensures s in quotes && Live(books, s) ==> Matches(books[s], quotes[s])
      ensures !(s in books && books[s].initialized) ==> quotes == old(quotes)
    {
      if !Live(books, s) || s !in quotes { return; }
      var b := books[s];
      var q := quotes[s];
      if b.bids != map[] {
        var price := First(b.bids, true);
        q := q.(bid := price, bidQty := b.bids[price]);
      } else {
        q := q.(bid := 0.0, bidQty := 0.0);
      }
      if b.asks != map[] {
        var price := First(b.asks, false);
        q := q.(ask := price, askQty := b.asks[price]);
      } else {
        q := q.(ask := 0.0, askQty := 0.0);
      }
      quotes := quotes[s := q];
    }

    /** The quotes of every touched symbol match its book, but for the stale ones; the quotes of the
        others are as they were. */
    ghost predicate Refreshed(books0: map<Symbol, Book>, quotes0: map<Symbol, Quotes>, us: seq<DepthUpdate>,
                              stale: set<Symbol>)
      reads this
    {
      && books == Folded(books0, us) && quotes.Keys == quotes0.Keys
      && (forall s :: s in quotes && !Touched(books0, us, s) ==> quotes[s] == quotes0[s])
      && (forall s :: s in quotes && Touched(books0, us, s) && s !in stale ==>
            s in books && Matches(books[s], quotes[s]))
    }

    /** One update goes into its book, whose quotes are then stale. */
    method Apply(ghost books0: map<Symbol, Book>, ghost quotes0: map<Symbol, Quotes>, ghost us: seq<DepthUpdate>,
                 u: DepthUpdate, ghost stale: set<Symbol>)
      requires Refreshed(books0, quotes0, us, stale) && Live(books, u.symbol)
      modifies this`books
      ensures Refreshed(books0, quotes0, us + [u], stale + {u.symbol})
    {
      hide Folded, Touched, Matches;
      Advanced(books0, us, u);
      books := books[u.symbol := Applied(books[u.symbol], u)];
    }

    /** Refreshes the quotes of a touched symbol. */
    method Flush(ghost books0: map<Symbol, Book>, ghost quotes0: map<Symbol, Quotes>, ghost us: seq<DepthUpdate>,
                 s: Symbol, ghost stale: set<Symbol>)
      requires Refreshed(books0, quotes0, us, stale) && Touched(books0, us, s)
      modifies this`quotes
      ensures Refreshed(books0, quotes0, us, stale - {s})
    {
      hide Folded, Touched, Matches;
      LiveAfter(books0, us, s);
      UpdateBest(s);
    }

    /** The update loop of `parse_orderbookdepth_message`: every touched symbol ends with quotes that
        match its folded book, the others keep theirs, and exactly the touched symbols are returned. */
    method DepthMessage(us: seq<DepthUpdate>) returns (updated: seq<Symbol>)
      modifies this
      ensures books == Folded(old(books), us)
      ensures Follows(old(books), books, us)
      ensures Refreshed(old(books), old(quotes), us, {})
      ensures forall s :: s in updated <==> Touched(old(books), us, s)
      ensures forall s :: s in updated <==>
        s in old(books) && old(books)[s].initialized && exists i: nat :: i < |us| && us[i].symbol == s
    {
      updated := [];
      var last, hasLast := "", false;
      for i := 0 to |us|
        invariant Refreshed(old(books), old(quotes), us[..i], if hasLast then {last} else {})
        invariant Lists(old(books), us[..i], updated, hasLast, last)
      {
        hide Folded, Touched, Applied, Refreshed;
        var u := us[i];
        assert us[..i + 1] == us[..i] + [u];
        BooksFolded(old(books), old(quotes), us[..i], if hasLast then {last} else {});
        Advanced(old(books), us[..i], u);
        if Live(books, u.symbol) {
          ghost var stale := if hasLast then {last} else {};
          Apply(old(books), old(quotes), us[..i], u, stale);
          if !hasLast || u.symbol != last {
            if hasLast {
              Flush(old(books), old(quotes), us[..i + 1], last, stale + {u.symbol});
              assert stale + {u.symbol} - {last} == {u.symbol};
              updated := updated + [last];
            }
            assert {} + {u.symbol} == {u.symbol};
            last, hasLast := u.symbol, true;
          } else {
            assert stale + {u.symbol} == {last};
          }
        } else {
          Skipped(old(books), old(quotes), us[..i], u, if hasLast then {last} else {});
        }
      }
      assert us[..|us|] == us;
      if hasLast {
        hide Folded, Touched, Refreshed;
        Flush(old(books), old(quotes), us, last, {last});
        assert {last} - {last} == {};
        updated := updated + [last];
        BooksFolded(old(books), old(quotes), us, {});
      }
      hide Folded, Follows;
      BooksFollow(old(books), us);
    }

    lemma BooksFolded(books0: map<Symbol, Book>, quotes0: map<Symbol, Quotes>, us: seq<DepthUpdate>, stale: set<Symbol>)
      requires Refreshed(books0, quotes0, us, stale)
      ensures books == Folded(books0, us)
    {
    }

    lemma Skipped(books0: map<Symbol, Book>, quotes0: map<Symbol, Quotes>, us: seq<DepthUpdate>, u: DepthUpdate,
                  stale: set<Symbol>)
      requires Refreshed(books0, quotes0, us, stale) && !Live(books, u.symbol)
      ensures Refreshed(books0, quotes0, us + [u], stale)
    {
      hide Folded, Touched, Matches;
      Advanced(books0, us, u);
    }
  }

  /** The symbols returned so far, with the one the loop stands at, are the touched ones. */
  ghost predicate Lists(books0: map<Symbol, Book>, us: seq<DepthUpdate>, updated: seq<Symbol>, hasLast: bool,
                        last: Symbol) {
    forall s :: Touched(books0, us, s) <==> s in updated || (hasLast && s == last)
  }

  lemma Advanced(books0: map<Symbol, Book>, us: seq<DepthUpdate>, u: DepthUpdate)
    ensures Folded(books0, us + [u]) == AppliedTo(Folded(books0, us), u)
    ensures forall s :: Touched(books0, us + [u], s) <==> Touched(books0, us, s) || (Live(books0, s) && u.symbol == s)
    ensures Live(Folded(books0, us), u.symbol) <==> Live(books0, u.symbol)
  {
    assert (us + [u])[..|us|] == us;
    forall s
      ensures Touched(books0, us + [u], s) <==> Touched(books0, us, s) || (Live(books0, s) && u.symbol == s)
    {
      TouchedSnoc(books0, us, u, s);
    }
    FoldBySymbol(books0, us, u.symbol);
  }

  lemma LiveAfter(books0: map<Symbol, Book>, us: seq<DepthUpdate>, s: Symbol)
    ensures Touched(books0, us, s) ==> Live(Folded(books0, us), s)
  {
    FoldBySymbol(books0, us, s);
  }
}
