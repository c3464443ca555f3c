/** The table: building and shuffling the deck and dealing the hole cards
    (the `TexasHoldem3Game` class of main.py). */
module Holdem {
  import opened Seqs
  import opened Cards
  import opened Players

  /** Dealing two cards to each of `n` seats from a deck whose top is its last element:
      seat after seat, each takes the top card and then the new top card. Answers the
      hands in seat order and what is left of the deck. */
  function DealHands<T>(deck: seq<T>, n: nat): (r: (seq<seq<T>>, seq<T>))
    requires 2 * n <= |deck|
    ensures |r.0| == n
    ensures forall i :: 0 <= i < n ==> r.0[i] == [deck[|deck| - 1 - 2 * i], deck[|deck| - 2 - 2 * i]]
    ensures r.1 == deck[..|deck| - 2 * n]
  {
    if n == 0 then ([], deck)
    else
      var (hands, rest) := DealHands(deck, n - 1);
      (hands + [[rest[|rest| - 1], rest[|rest| - 2]]], rest[..|rest| - 2])
  }

  /** Dealing loses and invents no card: the hands and the rest of the deck together are
      a rearrangement of the deck. */
  lemma {:induction false} DealConserves<T>(deck: seq<T>, n: nat)
    requires 2 * n <= |deck|
    ensures multiset(Flatten(DealHands(deck, n).0) + DealHands(deck, n).1) == multiset(deck)
  {
    if n == 0 {
      assert Flatten(DealHands(deck, n).0) + DealHands(deck, n).1 == deck;
    } else {
      var prev := DealHands(deck, n - 1);
      var hands, rest := prev.0, prev.1;
      DealConserves(deck, n - 1);
      var hand := [rest[|rest| - 1], rest[|rest| - 2]];
      var left := rest[..|rest| - 2];
      var dealt := DealHands(deck, n);
      assert dealt == (hands + [hand], left);
      FlattenAppend(hands, hand);
      assert Flatten(dealt.0) + dealt.1 == Flatten(hands) + hand + left;
      MoveToFront(Flatten(hands), hand, left, rest);
      assert multiset(Flatten(hands) + rest) == multiset(deck);
    }
  }

  lemma MoveToFront<T>(f: seq<T>, hand: seq<T>, left: seq<T>, rest: seq<T>)
    requires |rest| >= 2 && hand == [rest[|rest| - 1], rest[|rest| - 2]] && left == rest[..|rest| - 2]
    ensures multiset(f + hand + left) == multiset(f + rest)
  {
    assert rest == left + [rest[|rest| - 2], rest[|rest| - 1]];
    assert multiset(rest) == multiset(left) + multiset(hand);
  }

  /** After a deal from a shuffled full deck, the hands and the rest of the deck hold the
      full deck, each card once. */
  lemma DealtIsPermutation(shuffled: seq<Card>, n: nat)
    requires 2 * n <= |shuffled| && multiset(Ids(shuffled)) == multiset(FullDeck())
    ensures multiset(Ids(Flatten(DealHands(shuffled, n).0) + DealHands(shuffled, n).1)) == multiset(FullDeck())
  {
    DealConserves(shuffled, n);
    IdsOfPermutation(Flatten(DealHands(shuffled, n).0) + DealHands(shuffled, n).1, shuffled);
  }

  /** `random.shuffle`: for i from the last index down to 1, swap element i with an element
      at a position j <= i. The random numbers are given as `draws`; `draws[k] % (i + 1)` is
      the position chosen at step k, when i == |s| - 1 - k. */
  method Shuffle<T>(s: seq<T>, draws: seq<nat>) returns (r: seq<T>)
    requires |s| <= |draws| + 1
    ensures |r| == |s|
    ensures multiset(r) == multiset(s)
  {
    r := s;
    var i := |r| - 1;
    while i >= 1
      invariant -1 <= i < |r|
      invariant |r| == |s|
      invariant multiset(r) == multiset(s)
    {
      var j := draws[|s| - 1 - i] % (i + 1);
      r := r[i := r[j]][j := r[i]];
      i := i - 1;
    }
  }

  /** The list comprehension over suits and ranks: 52 new face-up cards in the order of
      the full deck. */
  method BuildDeck() returns (d: seq<Card>)
    ensures Ids(d) == FullDeck()
    ensures forall c :: c in d ==> fresh(c) && c.faceUp
  {
    ghost var full := FullDeck();
    d := [];
    for si := 0 to |AllSuits|
      invariant |d| == 13 * si
      invariant Ids(d) == full[..|d|]
      invariant forall c :: c in d ==> fresh(c) && c.faceUp
    {
      for ri := 0 to |AllRanks|
        invariant |d| == 13 * si + ri
        invariant Ids(d) == full[..|d|]
        invariant forall c :: c in d ==> fresh(c) && c.faceUp
      {
        var c := new Card(AllSuits[si], AllRanks[ri]);
        FullDeckAt(si, ri);
        IdsAppend(d, [c]);
        ExtendPrefix(Ids(d), full, c.Id());
        d := d + [c];
      }
    }
  }

  /** Seat `p` holds `top` and then `second`, both face up exactly when `p` is the human,
      and has no bet, has not folded, is not all in, and has `chips` in its stack. */
  ghost predicate Dealt(p: Player, top: Card, second: Card, chips: int)
    reads p, top, second
  {
    && p.hand == [top, second]
    && top.faceUp == p.isHuman && second.faceUp == p.isHuman
    && p.currentBet == 0 && !p.folded && !p.allIn && p.chips == chips
  }

  class Game {
    var players: seq<Player>
    var communityCards: seq<Card>
    var pot: int
    var currentBet: int
    var gameState: string
    var currentIdx: int
    var deck: seq<Card>

    /** The seats are distinct players, few enough that every one can be dealt two cards. */
    ghost predicate Valid()
      reads this
    {
      Distinct(players) && 2 * |players| <= |FullDeck()|
    }

    /** The hole cards of the seats, in seat order. */
    function Hands(): (hs: seq<seq<Card>>)
      reads this`players, players
      ensures |hs| == |players|
    {
      var seats := players;
      seq(|seats|, i requires 0 <= i < |seats| reads seats => seats[i].hand)
    }

    /** Four computer players with 5000 chips and the human with 10000 in the last seat,
        whose turn it is; the deck is built and shuffled but nothing is dealt yet. */
    constructor (draws: seq<nat>)
      requires |draws| + 1 >= |FullDeck()|
      ensures Valid() && |players| == 5
      ensures forall i :: 0 <= i < 4 ==> !players[i].isHuman && players[i].chips == 5000
      ensures players[0].name == "AI 1" && players[1].name == "AI 2"
      ensures players[2].name == "AI 3" && players[3].name == "AI 4"
      ensures players[4].name == "我" && players[4].isHuman && players[4].chips == 10000
      ensures forall p :: p in players ==> fresh(p) && p.hand == [] && p.currentBet == 0 && !p.folded && !p.allIn
      ensures communityCards == [] && pot == 0 && currentBet == 0
      ensures gameState == "preflop" && currentIdx == 4
      ensures |deck| == |FullDeck()| && multiset(Ids(deck)) == multiset(FullDeck())
      ensures Distinct(Ids(deck)) && forall c :: c in deck ==> fresh(c) && c.faceUp
    {
      var ai1 := new Player("AI 1", false, 5000);
      var ai2 := new Player("AI 2", false, 5000);
      var ai3 := new Player("AI 3", false, 5000);
      var ai4 := new Player("AI 4", false, 5000);
      var me := new Player("我", true, 10000);
      players := [ai1, ai2, ai3, ai4, me];
      communityCards := [];
      pot := 0;
      currentBet := 0;
      gameState := "preflop";
      currentIdx := 4;
      deck := [];
      new;
      FullDeckIsComplete();
      NewDeck(draws);
    }

    /** A fresh deck of 52 face-up cards, one of each suit and rank, in shuffled order. */
    method NewDeck(draws: seq<nat>)
      requires |draws| + 1 >= |FullDeck()|
      modifies this`deck
      ensures |deck| == |FullDeck()| && multiset(Ids(deck)) == multiset(FullDeck())
      ensures Distinct(Ids(deck)) && Distinct(deck)
      ensures forall c :: c in deck ==> fresh(c) && c.faceUp
    {
      var ordered := BuildDeck();
      deck := Shuffle(ordered, draws);
      SameElements(deck, ordered);
      IdsOfPermutation(deck, ordered);
      FullDeckIsComplete();
      PermutationKeepsDistinct(Ids(deck), FullDeck());
      DistinctIdsDistinctCards(deck);
    }

    /** One round of the deal loop: the seat is reset and takes the top card and then the
        new top card, both turned face up exactly when the seat is the human's. */
    method DealSeat(p: Player)
      requires |deck| >= 2
      modifies this`deck, p, deck[|deck| - 1], deck[|deck| - 2]
      ensures deck == old(deck)[..|old(deck)| - 2]
      ensures p.hand == [old(deck)[|old(deck)| - 1], old(deck)[|old(deck)| - 2]]
      ensures p.hand[0].faceUp == p.isHuman && p.hand[1].faceUp == p.isHuman
      ensures p.currentBet == 0 && !p.folded && !p.allIn && p.chips == old(p.chips)
    {
      p.ResetHand();
      var first := deck[|deck| - 1];
      deck := deck[..|deck| - 1];
      var second := deck[|deck| - 1];
      deck := deck[..|deck| - 1];
      p.hand := [first, second];
      first.faceUp := p.isHuman;
      second.faceUp := p.isHuman;
    }

    /** The deal loop: seat after seat, in seat order, is reset and given the top two cards
        of the deck, face up exactly for the human; the cards left in the deck are not touched. */
    method DealHoleCards()
      requires Distinct(players) && Distinct(deck) && 2 * |players| <= |deck|
      modifies this`deck, players, set c | c in deck
      ensures players == old(players) && currentIdx == old(currentIdx) && currentBet == old(currentBet)
      ensures pot == old(pot) && communityCards == old(communityCards)
      ensures deck == old(deck)[..|old(deck)| - 2 * |players|]
      ensures forall i :: 0 <= i < |players| ==>
        Dealt(players[i], old(deck)[|old(deck)| - 1 - 2 * i], old(deck)[|old(deck)| - 2 - 2 * i], old(players[i].chips))
      ensures forall k :: 0 <= k < |deck| ==> deck[k].faceUp == old(deck[k].faceUp)
    {
      ghost var shuffled := deck;
      var n := |deck|;
      for i := 0 to |players|
        invariant deck == shuffled[..n - 2 * i]
        invariant forall k :: 0 <= k < i ==>
          Dealt(players[k], shuffled[n - 1 - 2 * k], shuffled[n - 2 - 2 * k], old(players[k].chips))
        invariant forall k :: i <= k < |players| ==> players[k].chips == old(players[k].chips)
        invariant forall k :: 0 <= k < n - 2 * i ==> shuffled[k].faceUp == old(shuffled[k].faceUp)
      {
        DealSeat(players[i]);
      }
    }

    /** Seats that were dealt from `shuffled` seat by seat hold the hands `DealHands` gives. */
    lemma HandsAreDealt(shuffled: seq<Card>)
      requires 2 * |players| <= |shuffled|
      requires forall i :: 0 <= i < |players| ==>
        players[i].hand == [shuffled[|shuffled| - 1 - 2 * i], shuffled[|shuffled| - 2 - 2 * i]]
      ensures Hands() == DealHands(shuffled, |players|).0
    {
    }

    /** After a deal from a shuffled full deck, the hole cards of all the seats and the
        rest of the deck are the full deck, each card once. */
    lemma DealKeepsFullDeck(shuffled: seq<Card>)
      requires 2 * |players| <= |shuffled| && multiset(Ids(shuffled)) == multiset(FullDeck())
      requires deck == shuffled[..|shuffled| - 2 * |players|]
      requires forall i :: 0 <= i < |players| ==>
        players[i].hand == [shuffled[|shuffled| - 1 - 2 * i], shuffled[|shuffled| - 2 - 2 * i]]
      ensures multiset(Ids(Flatten(Hands()) + deck)) == multiset(FullDeck())
    {
      HandsAreDealt(shuffled);
      DealtIsPermutation(shuffled, |players|);
    }

    /** Starts a hand: a new shuffled deck, no community cards, an empty pot, and each seat
        in turn reset and dealt the top two cards of the deck, face up only for the human.
        `shuffled` is the new deck as it was before the deal; the cards it leaves in the deck
        lie face up. */
    method StartHand(draws: seq<nat>) returns (ghost shuffled: seq<Card>)
      requires Valid() && |draws| + 1 >= |FullDeck()|
      modifies this, players
      ensures Valid() && players == old(players)
      ensures |shuffled| == |FullDeck()| && multiset(Ids(shuffled)) == multiset(FullDeck())
      ensures Distinct(Ids(shuffled))
      ensures deck == shuffled[..|shuffled| - 2 * |players|]
      ensures forall i :: 0 <= i < |players| ==>
        Dealt(players[i], shuffled[|shuffled| - 1 - 2 * i], shuffled[|shuffled| - 2 - 2 * i], old(players[i].chips))
      ensures forall c :: c in shuffled ==> fresh(c)
      ensures forall c :: c in deck ==> c.faceUp
      ensures communityCards == [] && pot == 0 && gameState == "preflop"
      ensures currentIdx == old(currentIdx) && currentBet == old(currentBet)
    {
      NewDeck(draws);
      shuffled := deck;
      communityCards := [];
      pot := 0;
      assert forall c :: c in deck ==> fresh(c);
      DealHoleCards();
      gameState := "preflop";
    }
  }
}
