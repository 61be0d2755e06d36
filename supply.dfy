/** The stock, the waste piles and the three-slot draw window, as values.

    The stock is drawn from its front. Two recycling rules coexist in the
    game: the draw-one level turns the waste over in reverse order, while
    the draw-three level copies the waste into the stock in its own order.
    The window has three slots; its active card is the rightmost occupied
    slot. */
module Supply {
  import opened Cards

  /** What a draw from stock and waste yields: the cards drawn, in draw
      order, and the stock and waste left behind. */
  datatype Drawn = Drawn(cards: seq<Card>, stock: seq<Card>, waste: seq<Card>)

  /** Draws up to n cards from the front of the stock; when the stock is
      empty and the waste is not, the waste is copied unreversed into the
      stock and emptied; when both are empty, drawing stops. This is the
      loop shared by the window refill and the draw-three reveal. Drawing
      never reorders: drawn cards, then the stock, then the waste, read as
      the old stock followed by the old waste. */
  function Take(stock: seq<Card>, waste: seq<Card>, n: nat): (d: Drawn)
    ensures |d.cards| <= n
    decreases |stock| + 2 * |waste|
  {
    if n == 0 then Drawn([], stock, waste)
    else if stock != [] then
      var d := Take(stock[1..], waste, n - 1);
      Drawn([stock[0]] + d.cards, d.stock, d.waste)
    else if waste != [] then Take(waste, [], n)
    else Drawn([], [], [])
  }

  /** Drawing never reorders: the drawn cards, then the stock, then the
      waste read as the old stock followed by the old waste. */
  lemma {:induction false} TakeKeepsOrder(stock: seq<Card>, waste: seq<Card>, n: nat)
    ensures var d := Take(stock, waste, n); d.cards + d.stock + d.waste == stock + waste
    decreases |stock| + 2 * |waste|
  {
    if n == 0 {
    } else if stock != [] {
      var d := Take(stock[1..], waste, n - 1);
      TakeKeepsOrder(stock[1..], waste, n - 1);
      assert Take(stock, waste, n) == Drawn([stock[0]] + d.cards, d.stock, d.waste);
      assert [stock[0]] + d.cards + d.stock + d.waste == [stock[0]] + (d.cards + d.stock + d.waste);
      assert stock + waste == [stock[0]] + (stock[1..] + waste);
    } else if waste != [] {
      TakeKeepsOrder(waste, [], n);
      assert waste + [] == waste;
    }
  }

  /** It draws n cards unless fewer are left. */
  lemma {:induction false} TakeCount(stock: seq<Card>, waste: seq<Card>, n: nat)
    ensures |Take(stock, waste, n).cards| == Min(n, |stock| + |waste|)
    decreases |stock| + 2 * |waste|
  {
    if n == 0 {
    } else if stock != [] {
      TakeCount(stock[1..], waste, n - 1);
    } else if waste != [] {
      TakeCount(waste, [], n);
    }
  }

  /** While the stock lasts the waste is left alone, and once the stock is
      exhausted the waste has gone into it. */
  lemma {:induction false} TakeLeavesWaste(stock: seq<Card>, waste: seq<Card>, n: nat)
    ensures var d := Take(stock, waste, n);
      && (|stock| >= n ==> d.stock == stock[n..] && d.waste == waste)
      && (|stock| < n ==> d.waste == [])
    decreases |stock| + 2 * |waste|
  {
    if n == 0 {
    } else if stock != [] {
      TakeLeavesWaste(stock[1..], waste, n - 1);
      if |stock| >= n {
        assert stock[1..][n - 1..] == stock[n..];
      }
    } else if waste != [] {
      TakeLeavesWaste(waste, [], n);
    }
  }

  /** The three together. */
  lemma TakeSpec(stock: seq<Card>, waste: seq<Card>, n: nat)
    ensures var d := Take(stock, waste, n);
      && d.cards + d.stock + d.waste == stock + waste
      && |d.cards| == Min(n, |stock| + |waste|)
      && (|stock| >= n ==> d.stock == stock[n..] && d.waste == waste)
      && (|stock| < n ==> d.waste == [])
  {
    TakeKeepsOrder(stock, waste, n);
    TakeCount(stock, waste, n);
    TakeLeavesWaste(stock, waste, n);
  }

  /** Drawing neither loses nor creates a card. */
  lemma TakeConserves(stock: seq<Card>, waste: seq<Card>, n: nat)
    ensures var d := Take(stock, waste, n);
      multiset(d.cards) + multiset(d.stock) + multiset(d.waste) == multiset(stock) + multiset(waste)
  {
    var d := Take(stock, waste, n);
    TakeSpec(stock, waste, n);
    assert multiset(d.cards + d.stock + d.waste) == multiset(stock + waste);
  }

  /** The cards drawn are the next ones of the stock followed by the
      waste, as many as asked for unless fewer are left. */
  lemma TakePrefix(stock: seq<Card>, waste: seq<Card>, n: nat)
    ensures var d := Take(stock, waste, n);
      |d.cards| == Min(n, |stock| + |waste|) && d.cards == (stock + waste)[..|d.cards|]
  {
    var d := Take(stock, waste, n);
    TakeSpec(stock, waste, n);
    assert stock + waste == d.cards + (d.stock + d.waste);
  }

  /** Drawing stops short of n cards only when stock and waste are both
      used up. */
  lemma TakeExhausts(stock: seq<Card>, waste: seq<Card>, n: nat)
    requires |Take(stock, waste, n).cards| < n
    ensures Take(stock, waste, n).stock == [] && Take(stock, waste, n).waste == []
  {
    TakeSpec(stock, waste, n);
  }

  /** One more round of the drawing loop: take the front of the stock;
      failing that, move the waste into the stock and take its front;
      failing that, stop. */
  lemma {:induction false} TakeStep(stock: seq<Card>, waste: seq<Card>, i: nat)
    ensures var d, e := Take(stock, waste, i), Take(stock, waste, i + 1);
      if d.stock != [] then e == Drawn(d.cards + [d.stock[0]], d.stock[1..], d.waste)
      else if d.waste != [] then e == Drawn(d.cards + [d.waste[0]], d.waste[1..], [])
      else e == d
    decreases |stock| + 2 * |waste|
  {
    if i == 0 {
      if stock == [] && waste != [] {
        assert Take(waste, [], 1) == Drawn([waste[0]] + Take(waste[1..], [], 0).cards, waste[1..], []);
      }
    } else if stock != [] {
      TakeStep(stock[1..], waste, i - 1);
      var d := Take(stock[1..], waste, i - 1);
      if d.stock != [] {
        assert [stock[0]] + d.cards + [d.stock[0]] == [stock[0]] + (d.cards + [d.stock[0]]);
      } else if d.waste != [] {
        assert [stock[0]] + d.cards + [d.waste[0]] == [stock[0]] + (d.cards + [d.waste[0]]);
      }
    } else if waste != [] {
      TakeStep(waste, [], i);
    }
  }

  /** One round of the drawing loop, given its outcome: the card drawn
      (if any) and the stock and waste left after it. */
  lemma DrawStep(stock: seq<Card>, waste: seq<Card>, n: nat, drawn: seq<Card>, st: seq<Card>, w: seq<Card>,
                 next: Option<Card>, st': seq<Card>, w': seq<Card>)
    requires Take(stock, waste, n) == Drawn(drawn, st, w)
    requires st != [] ==> next == Some(st[0]) && st' == st[1..] && w' == w
    requires st == [] && w != [] ==> next == Some(w[0]) && st' == w[1..] && w' == []
    requires st == [] && w == [] ==> next.None?
    ensures next.Some? ==> Take(stock, waste, n + 1) == Drawn(drawn + [next.value], st', w')
  {
    TakeStep(stock, waste, n);
  }

  /** Once stock and waste are both used up, further rounds draw nothing. */
  lemma {:induction false} TakeStalls(stock: seq<Card>, waste: seq<Card>, i: nat, j: nat)
    requires i <= j
    requires Take(stock, waste, i).stock == [] && Take(stock, waste, i).waste == []
    ensures Take(stock, waste, j) == Take(stock, waste, i)
    decreases j - i
  {
    if i < j {
      TakeStep(stock, waste, i);
      TakeStalls(stock, waste, i + 1, j);
    }
  }

  function Reverse<T>(s: seq<T>): (r: seq<T>)
    ensures |r| == |s|
  {
    if s == [] then [] else Reverse(s[1..]) + [s[0]]
  }

  lemma {:induction false} ReverseAt<T>(s: seq<T>, k: nat)
    requires k < |s|
    ensures Reverse(s)[k] == s[|s| - 1 - k]
  {
    if k < |s| - 1 {
      ReverseAt(s[1..], k);
    }
  }

  lemma {:induction false} ReversePermutes<T>(s: seq<T>)
    ensures multiset(Reverse(s)) == multiset(s)
  {
    if s != [] {
      ReversePermutes(s[1..]);
      assert s == [s[0]] + s[1..];
    }
  }

  lemma {:induction false} ReverseAppend<T>(x: seq<T>, y: seq<T>)
    ensures Reverse(x + y) == Reverse(y) + Reverse(x)
  {
    if x == [] {
      assert x + y == y;
    } else {
      assert (x + y)[1..] == x[1..] + y;
      assert (x + y)[0] == x[0];
      ReverseAppend(x[1..], y);
    }
  }

  /** The stock, the draw-one waste and the active card. */
  datatype Pile = Pile(stock: seq<Card>, waste: seq<Card>, active: Option<Card>)

  function PileCards(p: Pile): multiset<Card> {
    multiset(p.stock) + multiset(p.waste) + multiset(OptionToSeq(p.active))
  }

  /** The draw-one step of reveal_reserve_card: retire the active card to
      the waste; if the stock is empty, turn the waste over (reversed) into
      the stock; then the front of the stock becomes active, or nothing is
      active when no card is left. */
  function Draw1(p: Pile): (r: Pile) {
    var waste := p.waste + OptionToSeq(p.active);
    if p.stock == [] && waste != [] then
      var stock := Reverse(waste);
      Pile(stock[1..], [], Some(stock[0]))
    else if p.stock != [] then
      Pile(p.stock[1..], waste, Some(p.stock[0]))
    else
      Pile([], [], None)
  }

  /** A draw-one step neither loses nor creates a card, and a card becomes
      active unless no card is left at all. */
  lemma Draw1Conserves(p: Pile)
    ensures PileCards(Draw1(p)) == PileCards(p)
    ensures Draw1(p).active.None? <==> p.stock == [] && p.waste == [] && p.active.None?
  {
    var waste := p.waste + OptionToSeq(p.active);
    if p.stock == [] && waste != [] {
      Draw1Recycles(p, waste);
    } else if p.stock != [] {
      var s := p.stock;
      assert multiset(s) == multiset(s[1..]) + multiset{s[0]} by {
        assert s == [s[0]] + s[1..];
      }
    }
  }

  lemma Draw1Recycles(p: Pile, waste: seq<Card>)
    requires waste == p.waste + OptionToSeq(p.active)
    requires p.stock == [] && waste != []
    ensures PileCards(Draw1(p)) == multiset(waste)
  {
    var stock := Reverse(waste);
    assert multiset(stock) == multiset(waste) by {
      ReversePermutes(waste);
    }
    assert multiset(stock) == multiset(stock[1..]) + multiset{stock[0]} by {
      assert stock == [stock[0]] + stock[1..];
    }
  }

  /** Which card a draw-one step makes active: the stock's front when there
      is one; otherwise the card retired last, with the rest of the waste
      turned over behind it. */
  lemma Draw1Draws(p: Pile)
    ensures p.stock != [] ==> Draw1(p).active == Some(p.stock[0]) && Draw1(p).stock == p.stock[1..]
    ensures var waste := p.waste + OptionToSeq(p.active);
      p.stock == [] && waste != [] ==>
        Draw1(p).waste == [] && Draw1(p).active == Some(Last(waste)) &&
        Draw1(p).stock == Reverse(DropLast(waste))
  {
    var waste := p.waste + OptionToSeq(p.active);
    if p.stock == [] && waste != [] {
      assert waste == DropLast(waste) + [Last(waste)];
      ReverseAppend(DropLast(waste), [Last(waste)]);
      assert Reverse([Last(waste)]) == [Last(waste)];
    }
  }

}
