/** Suits, ranks, cards and the 52-card deck (the `Suit`, `Rank` and `Card` classes of main.py). */
module Cards {
  import opened Seqs
  import opened Numerals

  datatype Suit = Hearts | Diamonds | Clubs | Spades

  datatype Rank = Two | Three | Four | Five | Six | Seven | Eight | Nine | Ten
                | Jack | Queen | King | Ace

  /** The two colours a card face is drawn in. */
  datatype CardColor = Red | Black

  /** The enumerations in declaration order, the order in which iterating them yields their members. */
  const AllSuits: seq<Suit> := [Hearts, Diamonds, Clubs, Spades]
  const AllRanks: seq<Rank> :=
    [Two, Three, Four, Five, Six, Seven, Eight, Nine, Ten, Jack, Queen, King, Ace]

  /** The sign of a suit. */
  function SuitSymbol(s: Suit): string {
    match s
    case Hearts => "♥" case Diamonds => "♦" case Clubs => "♣" case Spades => "♠"
  }

  /** Each suit is drawn as a single sign of its own. */
  lemma SuitSymbols()
    ensures forall s :: |SuitSymbol(s)| == 1
    ensures forall s, t :: SuitSymbol(s) == SuitSymbol(t) ==> s == t
  {
  }

  /** The text printed in a card's corner. */
  function Symbol(r: Rank): string {
    match r
    case Two => "2"   case Three => "3" case Four => "4"  case Five => "5"
    case Six => "6"   case Seven => "7" case Eight => "8" case Nine => "9"
    case Ten => "10"  case Jack => "J"  case Queen => "Q" case King => "K"
    case Ace => "A"
  }

  /** The numeric value of a rank, ace high. */
  function ValueNum(r: Rank): (v: int)
    ensures 2 <= v <= 14
    ensures v == 14 <==> r == Ace
  {
    match r
    case Two => 2   case Three => 3 case Four => 4  case Five => 5
    case Six => 6   case Seven => 7 case Eight => 8 case Nine => 9
    case Ten => 10  case Jack => 11 case Queen => 12 case King => 13
    case Ace => 14
  }

  /** Ranks run from two to ace in strictly increasing value, each one more than the previous. */
  lemma RankValues()
    ensures |AllRanks| == 13
    ensures forall i :: 0 <= i < |AllRanks| ==> ValueNum(AllRanks[i]) == i + 2
    ensures forall r :: r in AllRanks
  {
    forall i | 0 <= i < |AllRanks| ensures ValueNum(AllRanks[i]) == i + 2 {
      assert i in {0, 1, 2, 3, 4, 5, 6, 7, 8, 9, 10, 11, 12};
    }
    forall r ensures r in AllRanks {
      assert AllRanks[ValueNum(r) - 2] == r;
    }
  }

  /** The symbol of a number card is its value written out; the symbols of the picture
      cards are capital letters; no two ranks share a symbol. */
  lemma SymbolsMatchValues()
    ensures forall r :: ValueNum(r) <= 10 ==> Symbol(r) == Decimal(ValueNum(r))
    ensures forall r :: ValueNum(r) > 10 ==> |Symbol(r)| == 1 && 'A' <= Symbol(r)[0] <= 'Z'
    ensures forall r, q :: Symbol(r) == Symbol(q) ==> r == q
  {
    forall r | ValueNum(r) <= 10 ensures Symbol(r) == Decimal(ValueNum(r)) {
      if r == Ten {
        assert Decimal(10) == Decimal(1) + [DigitChar(0)];
      }
    }
  }

  /** Hearts and diamonds are red, clubs and spades black. */
  function SuitColor(s: Suit): CardColor {
    if s == Hearts || s == Diamonds then Red else Black
  }

  /** What a card is, apart from which way up it lies. */
  datatype CardId = CardId(suit: Suit, rank: Rank)

  /** The deck in the order of the comprehension that builds it: suits outermost, ranks inner. */
  function FullDeck(): seq<CardId> {
    seq(52, i requires 0 <= i < 52 => CardId(AllSuits[i / 13], AllRanks[i % 13]))
  }

  /** The card of the `ri`-th rank of the `si`-th suit sits at position 13 * si + ri. */
  lemma FullDeckAt(si: nat, ri: nat)
    requires si < |AllSuits| && ri < |AllRanks|
    ensures |FullDeck()| == 52 && 13 * si + ri < 52
    ensures FullDeck()[13 * si + ri] == CardId(AllSuits[si], AllRanks[ri])
  {
    assert (13 * si + ri) / 13 == si && (13 * si + ri) % 13 == ri;
  }

  function SuitIndex(s: Suit): (k: nat)
    ensures k < |AllSuits| && AllSuits[k] == s
  {
    match s
    case Hearts => 0 case Diamonds => 1 case Clubs => 2 case Spades => 3
  }

  lemma SuitIndices()
    ensures forall q :: 0 <= q < |AllSuits| ==> SuitIndex(AllSuits[q]) == q
  {
    forall q | 0 <= q < |AllSuits| ensures SuitIndex(AllSuits[q]) == q {
      assert q in {0, 1, 2, 3};
    }
  }

  /** The position of a card in the full deck is 13 times its suit's index plus its rank's. */
  lemma PositionOf(k: nat)
    requires k < 52
    ensures |FullDeck()| == 52
    ensures 13 * SuitIndex(FullDeck()[k].suit) + ValueNum(FullDeck()[k].rank) - 2 == k
  {
    RankValues();
    SuitIndices();
    assert FullDeck()[k] == CardId(AllSuits[k / 13], AllRanks[k % 13]);
  }

  /** The full deck holds 52 cards, one for every suit and rank, and none twice. */
  lemma FullDeckIsComplete()
    ensures |FullDeck()| == 52
    ensures forall s, r :: CardId(s, r) in FullDeck()
    ensures Distinct(FullDeck())
  {
    RankValues();
    forall s, r ensures CardId(s, r) in FullDeck() {
      FullDeckAt(SuitIndex(s), ValueNum(r) - 2);
    }
    forall i, j | 0 <= i < j < 52 ensures FullDeck()[i] != FullDeck()[j] {
      PositionOf(i);
      PositionOf(j);
    }
  }

  /** How many cards of the given colour a sequence holds. */
  function CountColor(s: seq<CardId>, c: CardColor): nat {
    if s == [] then 0
    else (if SuitColor(s[0].suit) == c then 1 else 0) + CountColor(s[1..], c)
  }

  lemma {:induction false} CountColorAppend(a: seq<CardId>, b: seq<CardId>, c: CardColor)
    ensures CountColor(a + b, c) == CountColor(a, c) + CountColor(b, c)
    decreases |a|
  {
    if a == [] {
      assert a + b == b;
    } else {
      assert (a + b)[1..] == a[1..] + b;
      CountColorAppend(a[1..], b, c);
    }
  }

  lemma {:induction false} CountColorOneSuit(s: seq<CardId>, suit: Suit, c: CardColor)
    requires forall k :: 0 <= k < |s| ==> s[k].suit == suit
    ensures CountColor(s, c) == if SuitColor(suit) == c then |s| else 0
    decreases |s|
  {
    if s != [] {
      CountColorOneSuit(s[1..], suit, c);
    }
  }

  /** Every card of the `si`-th block of thirteen is of the `si`-th suit. */
  lemma SuitBlock(si: nat)
    requires si < |AllSuits|
    ensures |FullDeck()| == 52
    ensures forall k :: 13 * si <= k < 13 * si + 13 ==> FullDeck()[k].suit == AllSuits[si]
  {
    forall k | 13 * si <= k < 13 * si + 13 ensures FullDeck()[k].suit == AllSuits[si] {
      assert k / 13 == si;
    }
  }

  lemma CountColorBlock(si: nat, c: CardColor)
    requires si < |AllSuits|
    ensures |FullDeck()| == 52
    ensures CountColor(FullDeck()[13 * si..13 * si + 13], c) == if SuitColor(AllSuits[si]) == c then 13 else 0
  {
    SuitBlock(si);
    CountColorOneSuit(FullDeck()[13 * si..13 * si + 13], AllSuits[si], c);
  }

  /** The colouring splits the deck evenly: 26 red cards and 26 black ones. */
  lemma ColorSplit()
    ensures CountColor(FullDeck(), Red) == 26
    ensures CountColor(FullDeck(), Black) == 26
  {
    var d := FullDeck();
    var b0, b1, b2, b3 := d[..13], d[13..26], d[26..39], d[39..];
    assert d == b0 + b1 + b2 + b3;
    forall c: CardColor ensures CountColor(d, c) == 26 {
      CountColorAppend(b0 + b1 + b2, b3, c);
      CountColorAppend(b0 + b1, b2, c);
      CountColorAppend(b0, b1, c);
      CountColorBlock(0, c);
      CountColorBlock(1, c);
      CountColorBlock(2, c);
      CountColorBlock(3, c);
      assert b0 == d[13 * 0..13 * 0 + 13] && b3 == d[13 * 3..13 * 3 + 13];
    }
  }

  /** A playing card: a fixed suit and rank and a face-up flag that the deal turns over. */
  class Card {
    const suit: Suit
    const rank: Rank
    var faceUp: bool

    /** A new card lies face up. */
    constructor (suit: Suit, rank: Rank)
      ensures this.suit == suit && this.rank == rank && faceUp
    {
      this.suit := suit;
      this.rank := rank;
      faceUp := true;
    }

    function Id(): CardId {
      CardId(suit, rank)
    }

    function GetColor(): CardColor {
      SuitColor(suit)
    }
  }

  /** What the cards of a sequence are, position by position. */
  function Ids(cards: seq<Card>): (ids: seq<CardId>)
    ensures |ids| == |cards|
  {
    seq(|cards|, i requires 0 <= i < |cards| => cards[i].Id())
  }

  /** Cards that are different cards are different objects. */
  lemma DistinctIdsDistinctCards(cards: seq<Card>)
    requires Distinct(Ids(cards))
    ensures Distinct(cards)
  {
    forall i, j | 0 <= i < j < |cards| ensures cards[i] != cards[j] {
      assert Ids(cards)[i] != Ids(cards)[j];
    }
  }

  lemma IdsAppend(a: seq<Card>, b: seq<Card>)
    ensures Ids(a + b) == Ids(a) + Ids(b)
  {
  }

  /** Taking one occurrence of `b[k]` out of `b` leaves the rest of a permutation of `b`. */
  lemma RemoveAt<T>(a: seq<T>, b: seq<T>, k: nat)
    requires multiset(a) == multiset(b) && a != [] && k < |b| && b[k] == a[0]
    ensures multiset(a[1..]) == multiset(b[..k] + b[k + 1..])
  {
    assert a == [a[0]] + a[1..];
    assert b == b[..k] + [b[k]] + b[k + 1..];
    var x := multiset{a[0]};
    assert multiset(a) == x + multiset(a[1..]);
    assert multiset(b) == multiset(b[..k]) + x + multiset(b[k + 1..]);
    assert multiset(b[..k] + b[k + 1..]) == multiset(b[..k]) + multiset(b[k + 1..]);
    forall y ensures multiset(a[1..])[y] == multiset(b[..k] + b[k + 1..])[y] {
      assert multiset(a)[y] == multiset(b)[y];
    }
  }

  /** Reordering cards reorders what they are in the same way. */
  lemma {:induction false} IdsOfPermutation(a: seq<Card>, b: seq<Card>)
    requires multiset(a) == multiset(b)
    ensures multiset(Ids(a)) == multiset(Ids(b))
    decreases |a|
  {
    if a == [] {
      assert |b| == |multiset(b)| == 0;
    } else {
      var x := a[0];
      assert x in multiset(b);
      var k :| 0 <= k < |b| && b[k] == x;
      var rest := b[..k] + b[k + 1..];
      RemoveAt(a, b, k);
      IdsOfPermutation(a[1..], rest);
      assert a == [x] + a[1..];
      assert b == b[..k] + [x] + b[k + 1..];
      IdsAppend([x], a[1..]);
      IdsAppend(b[..k] + [x], b[k + 1..]);
      IdsAppend(b[..k], [x]);
      IdsAppend(b[..k], b[k + 1..]);
    }
  }
}
