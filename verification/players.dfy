/** A seat at the table: its chip stack, its bet in the current hand and its hole cards
    (the `Player` class of main.py). */
module Players {
  import opened Cards

  /** The money side of a player: the stack, what is already bet this hand, and whether
      the whole stack has gone in. */
  datatype Ledger = Ledger(chips: int, currentBet: int, allIn: bool)

  /** The ledger after a bet, and how much was actually wagered. */
  datatype BetResult = BetResult(after: Ledger, wagered: int)

  /** A bet of `amount`: an amount that reaches the stack is cut down to the stack and puts
      the player all in; the wagered chips move from the stack to the current bet. Nothing
      rejects a negative amount: it is taken as asked and moves chips back to the stack. */
  function BetOn(l: Ledger, amount: int): (r: BetResult)
    // a bet below the stack is taken as asked and leaves the all-in flag alone
    ensures amount < l.chips ==>
      && r.wagered == amount
      && r.after == Ledger(l.chips - amount, l.currentBet + amount, l.allIn)
    // a bet that reaches the stack (including a stack of zero) wagers the stack
    ensures amount >= l.chips ==>
      && r.wagered == l.chips
      && r.after == Ledger(0, l.currentBet + l.chips, true)
    // chips only move between the stack and the current bet
    ensures r.after.chips + r.after.currentBet == l.chips + l.currentBet
    ensures r.wagered == l.chips - r.after.chips
    ensures r.after.chips >= 0
  {
    var wagered := if amount >= l.chips then l.chips else amount;
    var allIn := if amount >= l.chips then true else l.allIn;
    BetResult(Ledger(l.chips - wagered, l.currentBet + wagered, allIn), wagered)
  }

  ghost predicate NonNegative(amounts: seq<int>) {
    forall i :: 0 <= i < |amounts| ==> amounts[i] >= 0
  }

  /** A series of bets within one hand, one after another; `wagered` is their total. */
  function BetSeries(l: Ledger, amounts: seq<int>): BetResult
    decreases |amounts|
  {
    if amounts == [] then BetResult(l, 0)
    else
      var first := BetOn(l, amounts[0]);
      var rest := BetSeries(first.after, amounts[1..]);
      BetResult(rest.after, first.wagered + rest.wagered)
  }

  /** However many bets a player makes in a hand, the stack plus the current bet stays the
      same, the current bet grows by exactly what was wagered, and an all-in player stays all
      in; a player who starts with a non-negative stack and makes no negative bet never
      wagers more than that stack. */
  lemma {:induction false} BetSeriesConserves(l: Ledger, amounts: seq<int>)
    ensures var r := BetSeries(l, amounts);
      && r.after.chips + r.after.currentBet == l.chips + l.currentBet
      && r.wagered == l.chips - r.after.chips
      && r.after.currentBet == l.currentBet + r.wagered
      && (l.chips >= 0 && NonNegative(amounts) ==> 0 <= r.wagered <= l.chips)
      && (l.allIn ==> r.after.allIn)
    decreases |amounts|
  {
    if amounts != [] {
      var first := BetOn(l, amounts[0]);
      BetSeriesConserves(first.after, amounts[1..]);
    }
  }

  class Player {
    const name: string
    const isHuman: bool
    var chips: int
    var hand: seq<Card>
    var currentBet: int
    var folded: bool
    var allIn: bool

    /** The money side of this player. */
    function Account(): Ledger
      reads this
    {
      Ledger(chips, currentBet, allIn)
    }

    /** A player starts with no cards, no bet, not folded and not all in. */
    constructor (name: string, isHuman: bool := false, chips: int := 10000)
      ensures this.name == name && this.isHuman == isHuman && this.chips == chips
      ensures hand == [] && currentBet == 0 && !folded && !allIn
    {
      this.name := name;
      this.isHuman := isHuman;
      this.chips := chips;
      hand := [];
      currentBet := 0;
      folded := false;
      allIn := false;
    }

    /** Clears what belongs to one hand; the stack carries over to the next hand. */
    method ResetHand()
      modifies this`hand, this`currentBet, this`folded, this`allIn
      ensures hand == [] && currentBet == 0 && !folded && !allIn
      ensures chips == old(chips)
    {
      hand := [];
      currentBet := 0;
      folded := false;
      allIn := false;
    }

    /** Bets `amount`, clamped to the stack, and answers the amount actually wagered. */
    method Bet(amount: int) returns (wagered: int)
      modifies this
      ensures BetResult(Account(), wagered) == BetOn(old(Account()), amount)
      ensures hand == old(hand) && folded == old(folded)
    {
      var a := amount;
      if a >= chips {
        a := chips;
        allIn := true;
      }
      chips := chips - a;
      currentBet := currentBet + a;
      wagered := a;
    }
  }
}
