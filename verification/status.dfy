/** The status line under a player's name (the label chosen in `PlayerUI.update_ui` of main.py). */
module Status {
  import opened Numerals
  import opened Players

  const FoldedLabel: string := "弃牌"
  const AllInLabel: string := "全下"
  const BetPrefix: string := "下注:"

  /** Folded wins over all in, all in over a positive bet, and otherwise the line is empty. */
  function StatusLabel(folded: bool, allIn: bool, currentBet: int): string {
    if folded then FoldedLabel
    else if allIn then AllInLabel
    else if currentBet > 0 then BetPrefix + Decimal(currentBet)
    else ""
  }

  /** The label a player's seat shows. */
  function PlayerStatus(p: Player): string
    reads p
  {
    StatusLabel(p.folded, p.allIn, p.currentBet)
  }

  /** Each label means exactly one state: a folded player never shows the all-in or bet text,
      an all-in player never shows a bet, the bet text appears exactly for a positive bet of
      a player who is neither folded nor all in, and that bet can be read back off the label. */
  lemma StatusLabelMeaning(folded: bool, allIn: bool, currentBet: int)
    ensures var text := StatusLabel(folded, allIn, currentBet);
      && (text == FoldedLabel <==> folded)
      && (text == AllInLabel <==> !folded && allIn)
      && (text == "" <==> !folded && !allIn && currentBet <= 0)
      && (BetPrefix < text <==> !folded && !allIn && currentBet > 0)
      && (BetPrefix < text ==> IsDigits(text[|BetPrefix|..])
                                && DigitsValue(text[|BetPrefix|..]) == currentBet)
  {
    var text := StatusLabel(folded, allIn, currentBet);
    assert FoldedLabel[0] != AllInLabel[0] && FoldedLabel[0] != BetPrefix[0] && AllInLabel[0] != BetPrefix[0];
    if !folded && !allIn && currentBet > 0 {
      assert text[|BetPrefix|..] == Decimal(currentBet);
      DecimalRoundTrip(currentBet);
    }
  }
}
