# Texas Hold'em table core, modelled in Dafny

The game is a Kivy app in `main.py` where four computer players and one human play Texas
Hold'em. This project models the app's logic core:

- the `Suit` and `Rank` enumerations, with a rank's symbol and numeric value;
- the `Card` class, whose face-up flag the deal turns over;
- the `Player` class, with its chip stack, its bet, and the bet that is clamped to the stack;
- the `TexasHoldem3Game` class, which seats the players, builds and shuffles a 52-card deck,
  and starts a hand by dealing two hole cards to every seat;
- the status line that a seat shows under its name.

Modules:

- `Seqs` (`seqs.dfy`): sequence helpers (distinctness, flattening, permutations).
- `Numerals` (`numerals.dfy`): decimal rendering of a natural number, as an f-string prints
  it, and its inverse.
- `Cards` (`cards.dfy`): suits, ranks, the card class, the full deck in comprehension
  order, and the red/black colouring.
- `Players` (`players.dfy`): the player class. The pure function `BetOn` specifies its bet.
- `Status` (`status.dfy`): the status-line rule.
- `Holdem` (`holdem.dfy`): deck building, `random.shuffle`, the deal, and the game class.

The top of the deck is the end of the list, because `list.pop()` takes the last element.
`random.shuffle` is modelled as CPython's Fisher–Yates loop. The random numbers it draws are
a parameter (`draws`): `draws[k] % (i + 1)` is the position chosen at step `k`. Python
integers are unbounded, so chip arithmetic is modelled on `int` with no wrap-around.

## Model

| member | source | states |
|---|---|---|
| Cards.ValueNum | main.py:45-52 | `value_num`: a rank's value lies between 2 and 14, and it is 14 exactly for the ace |
| Cards.RankValues | main.py:45-52 | in declaration order the thirteen ranks are worth 2, 3, …, 14, one more each time, and every rank is among them |
| Cards.SymbolsMatchValues | main.py:45-52 | about `Cards.Symbol`: a number card's symbol is its value written in decimal; a picture card's symbol is one capital letter, so not a digit; no two ranks share a symbol |
| Cards.SuitSymbols | main.py:39-43 | about `Cards.SuitSymbol`: each suit's sign is one character, and no two suits share a sign |
| Cards.Card.constructor | main.py:76-80 | a new card has the given suit and rank and lies face up |
| Cards.FullDeckIsComplete | main.py:215-216 | about `Cards.FullDeck`: the suit-by-rank comprehension yields 52 cards, holds every suit and rank pair, and holds none twice |
| Cards.ColorSplit | main.py:81-82 | about `Cards.SuitColor` (used by `Cards.Card.GetColor`): colouring hearts and diamonds red and the rest black colours 26 cards of the deck red and 26 black |
| Players.Player.constructor | main.py:84-92 | a player has the given name, human flag and stack (10000 unless given), no cards, no bet, and is neither folded nor all in |
| Players.Player.ResetHand | main.py:94-98 | the hand, the bet, the folded flag and the all-in flag are cleared; the stack is kept |
| Players.BetOn | main.py:100-106 | a bet below the stack is taken as asked; a bet that reaches the stack wagers the whole stack and sets all in; stack plus current bet is conserved; the stack never ends negative |
| Players.Player.Bet | main.py:100-106 | the new stack, bet and all-in flag and the returned amount are those of `BetOn` on the old ones; the hand and the folded flag are unchanged |
| Players.BetSeriesConserves | main.py:100-106 | about `Players.BetSeries`: over any series of bets, stack plus bet is conserved, the bet grows by the total wagered, all in stays all in, and non-negative bets from a non-negative stack wager at most the stack |
| Numerals.Decimal | main.py:192 | a number prints as a non-empty run of digits with no leading zero unless the number is 0 |
| Numerals.DecimalRoundTrip | main.py:192 | reading the printed digits back gives the number |
| Numerals.DecimalInjective | main.py:192 | different numbers print differently |
| Status.StatusLabelMeaning | main.py:189-193 | about `Status.StatusLabel`: folded shows "弃牌"; otherwise all in shows "全下"; otherwise a positive bet shows "下注:" and the bet, which can be read back; otherwise nothing. Each text appears exactly in its case |
| Holdem.BuildDeck | main.py:216 | the comprehension makes 52 new face-up cards whose suits and ranks are the full deck in suit-major order |
| Holdem.Shuffle | main.py:217 | shuffling returns a rearrangement of the deck: same length, same cards, same multiplicities |
| Holdem.Game.NewDeck | main.py:215-217 | the new deck has 52 new face-up cards, one of each suit and rank and no card object twice, in shuffled order |
| Holdem.Game.constructor | main.py:201-213 | four players "AI 1" to "AI 4", not human, with 5000 chips each; "我", human, with 10000 chips in the last seat; no community cards, pot or bet; state "preflop"; the human's turn (index 4); a fresh shuffled full deck |
| Holdem.DealHands | main.py:223-225 | with two pops per seat, seat i gets the cards at positions len-1-2i and len-2-2i, and the deck keeps its first len-2n cards |
| Holdem.DealConserves | main.py:223-225 | the dealt hands and the rest of the deck together are a rearrangement of the deck |
| Holdem.DealtIsPermutation | main.py:219-225 | after dealing from a shuffled full deck, hands plus remaining deck hold every card of the full deck exactly once |
| Holdem.Game.DealSeat | main.py:222-227 | the seat is reset, takes the top card and then the next one, and both are face up exactly when the seat is the human's; the deck loses those two cards; the stack is kept |
| Holdem.Game.DealHoleCards | main.py:221-227 | in seat order, seat i holds the old deck's cards at positions len-1-2i and len-2-2i, face up only for the human, with its bet and flags reset and its stack kept; the deck keeps its first len-2n cards, whose face-up flags are unchanged; seats, pot and community cards are unchanged |
| Holdem.Game.HandsAreDealt | main.py:221-227 | about `Holdem.Game.Hands`: seats dealt that way hold exactly the hands of `DealHands` |
| Holdem.Game.DealKeepsFullDeck | main.py:219-227 | after the deal, all hole cards plus the rest of the deck are the full deck, each card once |
| Holdem.Game.StartHand | main.py:219-228 | a new shuffled full deck is dealt two cards a seat in seat order, face up only for the human; bets and flags are reset and stacks kept; the deck's cards are new objects and those left in the deck lie face up; the community cards and the pot are emptied; the state is "preflop"; the turn index and current bet are unchanged |

## Left out

- The Kivy widgets, canvas drawing, animations, sounds, settings popup and screen adapter
  are left out. They are user interface, not game logic.
- Card.GetColor: answers `Red` or `Black` instead of the RGBA float tuples of the colour
  table, which are display data.
- The choice of actions (`process_action`, the AI turns) and betting-round rules are left
  out. Only the parts the deal and the status line use are modelled.
- The chip label's thousands separator (`¥{chips:,}`) is not modelled. It is display
  formatting.
- Holdem.Shuffle: the random numbers are a parameter. The model says nothing about their
  distribution, only that every outcome is a rearrangement.
- Holdem.Game.StartHand: requires at most 26 distinct seats (`Valid`). With more seats,
  `list.pop()` would raise `IndexError` on the exhausted deck. The game always has five
  seats, so this path is not modelled.
- Holdem.Game.DealSeat: requires at least two cards in the deck, for the same reason.
- Holdem.Game.StartHand: its contract gives each seat's two cards, and the fact that they
  are drawn from a full deck is stated separately by `Holdem.Game.DealKeepsFullDeck`.
- Status.PlayerStatus: reads the label off a player object and has no contract of its own.
  `Status.StatusLabelMeaning` states the rule it applies.
