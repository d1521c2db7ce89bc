/** services/gameUtils.ts: player creation, deck drawing, shuffling, the gem
    count, the affordability test, turn order and market replenishment. */
module GameUtils {
  import opened Text
  import opened Gems
  import opened Entities

  /** `createPlayer`: a player with nothing yet. */
  function CreatePlayer(id: string, name: string, isHuman: bool, avatarId: int,
                        strategy: Option<Strategy>): (p: Player)
    ensures p.id == id && p.name == name && p.isHuman == isHuman && p.avatarId == avatarId
    ensures p.strategy == strategy
    ensures forall c :: p.gems.Get(c) == 0 && p.bonuses.Get(c) == 0
    ensures p.reserved == [] && p.points == 0 && p.nobles == [] && p.lastAction == None
  {
    Player(id, name, isHuman, avatarId, strategy, NoTokens, NoTokens, [], 0, [], None)
  }

  // ------------------------------------------------------------- shuffle

  /** `Math.floor(roll * n)` for a roll in [0, 1) lies in [0, n). */
  lemma RollIndexInRange(roll: real, n: nat)
    requires 0.0 <= roll < 1.0 && n > 0
    ensures 0 <= (roll * n as real).Floor < n
  {
    assert roll * n as real < n as real by {
      assert (1.0 - roll) * n as real > 0.0;
    }
  }

  /** The index `Math.floor(roll * n)`. */
  function RollIndex(roll: real, n: nat): (j: int)
    requires 0.0 <= roll < 1.0 && n > 0
    ensures 0 <= j < n
  {
    RollIndexInRange(roll, n);
    (roll * n as real).Floor
  }

  lemma SwapPreservesMultiset<T>(s: seq<T>, i: int, j: int)
    requires 0 <= i < |s| && 0 <= j < |s|
    ensures multiset(s[i := s[j]][j := s[i]]) == multiset(s)
  {
  }

  /** The destructuring swap `[a[i], a[j]] = [a[j], a[i]]`. */
  method Swap<T>(a: array<T>, i: int, j: int)
    requires 0 <= i < a.Length && 0 <= j < a.Length
    modifies a
    ensures a[..] == old(a[..])[i := old(a[j])][j := old(a[i])]
  {
    a[i], a[j] := a[j], a[i];
  }

  /** `shuffle(items, rng)`: Fisher-Yates over a copy, index `i` from the end
      down to 1 swapped with `floor(rng() * (i + 1))`. `rolls[k]` is the k-th
      value the random source returns. */
  method Shuffle<T>(items: seq<T>, rolls: seq<real>) returns (r: seq<T>)
    requires |items| <= |rolls| + 1
    requires forall k :: 0 <= k < |rolls| ==> 0.0 <= rolls[k] < 1.0
    ensures |r| == |items| && multiset(r) == multiset(items)
  {
    var copy := new T[|items|](k requires 0 <= k < |items| => items[k]);
    assert copy[..] == items;
    var i := |items| - 1;
    while i > 0
      invariant -1 <= i < |items| && copy.Length == |items|
      invariant multiset(copy[..]) == multiset(items)
    {
      var j := RollIndex(rolls[|items| - 1 - i], i + 1);
      ghost var before := copy[..];
      Swap(copy, i, j);
      SwapPreservesMultiset(before, i, j);
      i := i - 1;
    }
    r := copy[..];
  }

  // ------------------------------------------------------------- drawing

  datatype Drawn<T> = Drawn(drawn: seq<T>, deck: seq<T>)

  /** `drawMany(deck, count)`: `splice(0, count)` on a copy. */
  function DrawMany<T>(deck: seq<T>, count: int): (r: Drawn<T>)
    ensures |r.drawn| == if count <= 0 then 0 else if count < |deck| then count else |deck|
    ensures r.drawn + r.deck == deck
  {
    var n := if count <= 0 then 0 else if count < |deck| then count else |deck|;
    Drawn(deck[..n], deck[n..])
  }

  datatype Top<T> = Top(card: Option<T>, deck: seq<T>)

  /** `drawTop(deck)`: `shift()` on a copy. */
  function DrawTop<T>(deck: seq<T>): (r: Top<T>)
    ensures deck == [] ==> r.card == None && r.deck == deck
    ensures deck != [] ==> r.card == Some(deck[0]) && [deck[0]] + r.deck == deck
  {
    if |deck| == 0 then Top(None, deck) else Top(Some(deck[0]), deck[1..])
  }

  // ------------------------------------------------------ counting, buying

  /** `getGemCount`: all six colours, gold included. */
  function GetGemCount(p: Player): (n: int)
    ensures n == p.gems.Get(White) + p.gems.Get(Blue) + p.gems.Get(Green) + p.gems.Get(Red)
                 + p.gems.Get(Black) + p.gems.Get(Gold)
  {
    p.gems.Total()
  }

  function Max(a: int, b: int): int { if a >= b then a else b }
  function Min(a: int, b: int): int { if a <= b then a else b }

  /** Gold that colour `c` of `card` needs beyond its bonus and own tokens;
      a colour the card does not cost is skipped, as in the source. */
  function ColourShortfall(p: Player, card: Card, c: Gem): int {
    var cost := card.cost.Get(c);
    if cost == 0 then 0
    else
      var remaining := Max(0, cost - p.bonuses.Get(c));
      var owned := p.gems.Get(c);
      if owned < remaining then remaining - owned else 0
  }

  function ShortfallOver(p: Player, card: Card, colours: seq<Gem>): int {
    if |colours| == 0 then 0
    else ShortfallOver(p, card, colours[..|colours| - 1]) + ColourShortfall(p, card, colours[|colours| - 1])
  }

  /** The total gold `canBuyCard` finds missing. */
  function GoldShortfall(p: Player, card: Card): int {
    ShortfallOver(p, card, NonGoldGems)
  }

  lemma ColourShortfallFormula(p: Player, card: Card, c: Gem)
    requires p.gems.Get(c) >= 0 && p.bonuses.Get(c) >= 0
    ensures ColourShortfall(p, card, c) == Max(0, Max(0, card.cost.Get(c) - p.bonuses.Get(c)) - p.gems.Get(c))
  {
  }

  /** The shortfall is the sum of the five colours' shortfalls. */
  lemma ShortfallFive(p: Player, card: Card)
    ensures GoldShortfall(p, card)
         == ColourShortfall(p, card, White) + ColourShortfall(p, card, Blue) + ColourShortfall(p, card, Green)
          + ColourShortfall(p, card, Red) + ColourShortfall(p, card, Black)
  {
    assert [White][..0] == [];
    assert [White, Blue][..1] == [White];
    assert [White, Blue, Green][..2] == [White, Blue];
    assert [White, Blue, Green, Red][..3] == [White, Blue, Green];
    assert NonGoldGems[..4] == [White, Blue, Green, Red];
    assert ShortfallOver(p, card, [White]) == ColourShortfall(p, card, White);
    assert ShortfallOver(p, card, [White, Blue])
        == ShortfallOver(p, card, [White]) + ColourShortfall(p, card, Blue);
    assert ShortfallOver(p, card, [White, Blue, Green])
        == ShortfallOver(p, card, [White, Blue]) + ColourShortfall(p, card, Green);
    assert ShortfallOver(p, card, [White, Blue, Green, Red])
        == ShortfallOver(p, card, [White, Blue, Green]) + ColourShortfall(p, card, Red);
  }

  /** With holdings that are not negative, the shortfall is the sum over the
      five colours of `max(0, max(0, cost - bonus) - owned)`. */
  lemma GoldShortfallFormula(p: Player, card: Card)
    requires p.gems.NonNegative() && p.bonuses.NonNegative()
    ensures GoldShortfall(p, card)
         == Max(0, Max(0, card.cost.Get(White) - p.bonuses.Get(White)) - p.gems.Get(White))
          + Max(0, Max(0, card.cost.Get(Blue) - p.bonuses.Get(Blue)) - p.gems.Get(Blue))
          + Max(0, Max(0, card.cost.Get(Green) - p.bonuses.Get(Green)) - p.gems.Get(Green))
          + Max(0, Max(0, card.cost.Get(Red) - p.bonuses.Get(Red)) - p.gems.Get(Red))
          + Max(0, Max(0, card.cost.Get(Black) - p.bonuses.Get(Black)) - p.gems.Get(Black))
  {
    ShortfallFive(p, card);
    ColourShortfallFormula(p, card, White);
    ColourShortfallFormula(p, card, Blue);
    ColourShortfallFormula(p, card, Green);
    ColourShortfallFormula(p, card, Red);
    ColourShortfallFormula(p, card, Black);
  }

  /** The value `canBuyCard` returns. */
  predicate Affordable(p: Player, card: Card) {
    p.gems.gold >= GoldShortfall(p, card)
  }

  /** `canBuyCard`: accumulates the missing gold colour by colour. */
  method CanBuyCard(p: Player, card: Card) returns (ok: bool)
    ensures ok <==> p.gems.gold >= GoldShortfall(p, card)
  {
    var goldNeeded := 0;
    for k := 0 to |NonGoldGems|
      invariant goldNeeded == ShortfallOver(p, card, NonGoldGems[..k])
    {
      assert NonGoldGems[..k + 1][..k] == NonGoldGems[..k];
      var color := NonGoldGems[k];
      var cost := card.cost.Get(color);
      if cost == 0 {
        continue;
      }
      var bonus := p.bonuses.Get(color);
      var owned := p.gems.Get(color);
      var remainingCost := Max(0, cost - bonus);
      if owned < remainingCost {
        goldNeeded := goldNeeded + (remainingCost - owned);
      }
    }
    assert NonGoldGems[..|NonGoldGems|] == NonGoldGems;
    ok := p.gems.gold >= goldNeeded;
  }

  // ---------------------------------------------------------- turn order

  /** JavaScript's `a % b` for `b > 0`: the remainder takes the sign of `a`. */
  function JsRemainder(a: int, b: int): (r: int)
    requires b > 0
    ensures -b < r < b
    ensures a >= 0 ==> r >= 0
    ensures a <= 0 ==> r <= 0
    ensures -b < a < b ==> r == a
    ensures a == b ==> r == 0
  {
    if a >= 0 then a % b else -((-a) % b)
  }

  /** `nextPlayerIndex(current, total)` */
  function NextPlayerIndex(current: int, total: int): (r: int)
    requires total > 0
    ensures current >= -1 ==> 0 <= r < total
    ensures 0 <= current < total - 1 ==> r == current + 1
    ensures current == total - 1 ==> r == 0
  {
    JsRemainder(current + 1, total)
  }

  // ----------------------------------------------------- market refilling

  /** The market and decks after a vacated slot of row `level` is refilled
      from the top of that level's deck, or removed when the deck is empty. */
  function Replenish(market: Rows, decks: Rows, level: Level, slot: int): (r: (Rows, Rows))
    requires 0 <= slot < |market.Get(level)|
    ensures forall m: Level :: m != level ==> r.0.Get(m) == market.Get(m) && r.1.Get(m) == decks.Get(m)
    ensures |decks.Get(level)| > 0 ==>
              |r.0.Get(level)| == |market.Get(level)| && r.0.Get(level)[slot] == decks.Get(level)[0]
              && r.1.Get(level) == decks.Get(level)[1..]
    ensures |decks.Get(level)| == 0 ==> |r.0.Get(level)| == |market.Get(level)| - 1 && r.1 == decks
    ensures forall k :: 0 <= k < |r.0.Get(level)| && k != slot ==>
              r.0.Get(level)[k] == market.Get(level)[if k < slot then k else if |decks.Get(level)| > 0 then k else k + 1]
    ensures multiset(r.0.Get(level)) + multiset(r.1.Get(level)) + multiset{market.Get(level)[slot]}
         == multiset(market.Get(level)) + multiset(decks.Get(level))
  {
    var row := market.Get(level);
    var deck := decks.Get(level);
    if |deck| > 0 then
      assert multiset(deck) == multiset{deck[0]} + multiset(deck[1..]) by {
        assert deck == [deck[0]] + deck[1..];
      }
      (market.With(level, FillSlot(row, slot, deck[0])), decks.With(level, deck[1..]))
    else
      (market.With(level, DropSlot(row, slot)), decks)
  }

  /** `row[slot] = top` */
  function FillSlot(row: seq<Card>, slot: nat, top: Card): (r: seq<Card>)
    requires slot < |row|
    ensures |r| == |row| && r[slot] == top
    ensures forall k :: 0 <= k < |r| && k != slot ==> r[k] == row[k]
    ensures multiset(r) + multiset{row[slot]} == multiset(row) + multiset{top}
  {
    assert row == row[..slot] + [row[slot]] + row[slot + 1..];
    assert row[slot := top] == row[..slot] + [top] + row[slot + 1..];
    row[slot := top]
  }

  /** `row.splice(slot, 1)` */
  function DropSlot(row: seq<Card>, slot: nat): (r: seq<Card>)
    requires slot < |row|
    ensures |r| == |row| - 1
    ensures forall k :: 0 <= k < |r| ==> r[k] == row[if k < slot then k else k + 1]
    ensures multiset(r) + multiset{row[slot]} == multiset(row)
  {
    assert row == row[..slot] + [row[slot]] + row[slot + 1..];
    row[..slot] + row[slot + 1..]
  }

  /** Refilling keeps every card in the row and the deck of its level. */
  lemma ReplenishConsistent(market: Rows, decks: Rows, level: Level, slot: int)
    requires 0 <= slot < |market.Get(level)| && market.Consistent() && decks.Consistent()
    ensures Replenish(market, decks, level, slot).0.Consistent()
    ensures Replenish(market, decks, level, slot).1.Consistent()
  {
    var row := market.Get(level);
    var deck := decks.Get(level);
    assert forall k :: 0 <= k < |row| ==> row[k].level == level;
    assert forall k :: 0 <= k < |deck| ==> deck[k].level == level;
    if |deck| > 0 {
      var row' := FillSlot(row, slot, deck[0]);
      assert forall k :: 0 <= k < |row'| ==> row'[k].level == level;
      assert forall k :: 0 <= k < |deck[1..]| ==> deck[1..][k].level == level;
    } else {
      var row' := DropSlot(row, slot);
      assert forall k :: 0 <= k < |row'| ==> row'[k].level == level;
    }
  }

  /** `replenishMarketSlot(state, level, slotIndex)`: draws the deck top into
      the slot (assignment) or removes the slot (`splice`). */
  method ReplenishMarketSlot(state: GameState, level: Level, slotIndex: int)
    requires 0 <= slotIndex < |state.market.Get(level)|
    modifies state
    ensures (state.market, state.decks) == Replenish(old(state.market), old(state.decks), level, slotIndex)
    ensures state.players == old(state.players) && state.currentPlayerIndex == old(state.currentPlayerIndex)
    ensures state.nobles == old(state.nobles) && state.gems == old(state.gems)
    ensures state.winnerId == old(state.winnerId) && state.targetScore == old(state.targetScore)
    ensures state.turn == old(state.turn) && state.lastAction == old(state.lastAction)
    ensures state.history == old(state.history)
  {
    var top := DrawTop(state.decks.Get(level));
    state.decks := state.decks.With(level, top.deck);
    var row := state.market.Get(level);
    if top.card.Some? {
      state.market := state.market.With(level, row[slotIndex := top.card.value]);
    } else {
      state.market := state.market.With(level, row[..slotIndex] + row[slotIndex + 1..]);
    }
  }
}
