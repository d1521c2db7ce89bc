/** services/ai/decisionEngine.ts: the local AI. It lists the affordable
    cards, scores market cards, orders the colours a player lacks, picks a
    gem take, finds a card to block, and combines these into the aggressive,
    defensive, balanced and random strategies; `chooseAIMove` dispatches on
    the player's strategy. The remote model's answer and the random roll are
    parameters. */
module DecisionEngine {
  import opened Text
  import opened Gems
  import opened Entities
  import opened Ordering
  import opened GameUtils
  import opened Catalog

  // ---------------------------------------------------- affordable cards

  /** `AffordableCard` */
  datatype AffordableCard = AffordableCard(card: Card, fromReserve: bool)

  /** The entries `listAffordableCards` pushes while it walks `cards`. */
  function Affordables(p: Player, cards: seq<Card>, fromReserve: bool): (r: seq<AffordableCard>)
    ensures |r| <= |cards|
    ensures forall k :: 0 <= k < |r| ==>
              r[k].card in cards && Affordable(p, r[k].card) && r[k].fromReserve == fromReserve
  {
    if |cards| == 0 then []
    else
      var init := cards[..|cards| - 1];
      var last := cards[|cards| - 1];
      assert cards == init + [last];
      Affordables(p, init, fromReserve) + (if Affordable(p, last) then [AffordableCard(last, fromReserve)] else [])
  }

  lemma {:induction false} AffordablesComplete(p: Player, cards: seq<Card>, fromReserve: bool, c: Card)
    requires c in cards && Affordable(p, c)
    ensures AffordableCard(c, fromReserve) in Affordables(p, cards, fromReserve)
  {
    var init := cards[..|cards| - 1];
    assert cards == init + [cards[|cards| - 1]];
    if c != cards[|cards| - 1] {
      AffordablesComplete(p, init, fromReserve, c);
    }
  }

  lemma {:induction false} AffordablesAppend(p: Player, a: seq<Card>, b: seq<Card>, fromReserve: bool)
    ensures Affordables(p, a + b, fromReserve) == Affordables(p, a, fromReserve) + Affordables(p, b, fromReserve)
  {
    if |b| == 0 {
      assert a + b == a;
    } else {
      var init := b[..|b| - 1];
      assert (a + b)[..|a + b| - 1] == a + init;
      assert (a + b)[|a + b| - 1] == b[|b| - 1];
      AffordablesAppend(p, a, init, fromReserve);
    }
  }

  /** The market in the order the AI walks it: level 3, then 2, then 1. */
  function MarketOrder(m: Rows): seq<Card> { m.level3 + m.level2 + m.level1 }

  /** What `listAffordableCards` returns: the affordable reserved cards, then
      the affordable market cards, level 3 first. */
  function AffordableList(s: State, p: Player): seq<AffordableCard> {
    Affordables(p, p.reserved, true) + Affordables(p, MarketOrder(s.market), false)
  }

  /** One `forEach` of `listAffordableCards`: pushes the affordable cards of
      `cards`. */
  method PushAffordable(p: Player, cards: seq<AffordableCard>, level: seq<Card>, fromReserve: bool)
    returns (r: seq<AffordableCard>)
    ensures r == cards + Affordables(p, level, fromReserve)
  {
    r := cards;
    for i := 0 to |level|
      invariant r == cards + Affordables(p, level[..i], fromReserve)
    {
      assert level[..i + 1][..i] == level[..i];
      var ok := CanBuyCard(p, level[i]);
      if ok {
        r := r + [AffordableCard(level[i], fromReserve)];
      }
    }
    assert level[..|level|] == level;
  }

  /** The `forEach` over `[level3, level2, level1]`. */
  method PushMarket(p: Player, cards: seq<AffordableCard>, m: Rows) returns (r: seq<AffordableCard>)
    ensures r == cards + Affordables(p, MarketOrder(m), false)
  {
    r := PushAffordable(p, cards, m.level3, false);
    r := PushAffordable(p, r, m.level2, false);
    r := PushAffordable(p, r, m.level1, false);
    MarketAffordables(p, m);
  }

  /** `listAffordableCards(state, player, helpers)` with the engine's
      `canBuyCard` as the helper. */
  method ListAffordableCards(s: State, p: Player) returns (cards: seq<AffordableCard>)
    ensures cards == AffordableList(s, p)
  {
    cards := PushAffordable(p, [], p.reserved, true);
    cards := PushMarket(p, cards, s.market);
  }

  lemma MarketAffordables(p: Player, m: Rows)
    ensures Affordables(p, MarketOrder(m), false)
         == Affordables(p, m.level3, false) + Affordables(p, m.level2, false) + Affordables(p, m.level1, false)
  {
    AffordablesAppend(p, m.level3, m.level2, false);
    AffordablesAppend(p, m.level3 + m.level2, m.level1, false);
  }

  /** Every listed card is affordable and comes from where its flag says;
      every affordable reserved or market card is listed, reserved cards
      ahead of market cards. */
  lemma AffordableListExact(s: State, p: Player)
    ensures forall a :: a in AffordableList(s, p) ==> Affordable(p, a.card)
    ensures forall a :: a in AffordableList(s, p) ==>
              (if a.fromReserve then a.card in p.reserved else a.card in MarketOrder(s.market))
    ensures forall c :: c in p.reserved && Affordable(p, c) ==> AffordableCard(c, true) in AffordableList(s, p)
    ensures forall c :: c in MarketOrder(s.market) && Affordable(p, c) ==>
              AffordableCard(c, false) in AffordableList(s, p)
    ensures forall i, j :: 0 <= i < j < |AffordableList(s, p)| && AffordableList(s, p)[j].fromReserve ==>
              AffordableList(s, p)[i].fromReserve
  {
    var r := Affordables(p, p.reserved, true);
    var m := Affordables(p, MarketOrder(s.market), false);
    assert AffordableList(s, p) == r + m;
    forall a: AffordableCard | a in r + m
      ensures if a.fromReserve then a.card in p.reserved else a.card in MarketOrder(s.market)
    {
      if a in r {
        var k :| 0 <= k < |r| && r[k] == a;
      } else {
        var k :| 0 <= k < |m| && m[k] == a;
      }
    }
    forall c | c in p.reserved && Affordable(p, c) ensures AffordableCard(c, true) in r + m {
      AffordablesComplete(p, p.reserved, true, c);
    }
    forall c | c in MarketOrder(s.market) && Affordable(p, c) ensures AffordableCard(c, false) in r + m {
      AffordablesComplete(p, MarketOrder(s.market), false, c);
    }
    forall i, j | 0 <= i < j < |r + m| && (r + m)[j].fromReserve ensures (r + m)[i].fromReserve {
      if j < |r| {
        assert (r + m)[i] == r[i];
      }
    }
  }

  // ------------------------------------------------------------- scoring

  /** `totalCost`: the sum of the card's five cost entries. */
  function TotalCost(card: Card): int { card.cost.Total() }

  /** `scoreCardAggressive`. Its bonus term is the length of the bonus
      colour's name, as in the source (`card.bonus.length`). */
  function ScoreAggressive(card: Card): int {
    card.points * 3 + |Name(card.bonus)| - TotalCost(card)
  }

  /** `scoreCardBalanced` */
  function ScoreBalanced(card: Card): int {
    card.points * 2 + |Name(card.bonus)| - TotalCost(card)
  }

  /** The bonus term makes a white, green or black card outscore an
      otherwise equal red one by two and a blue one by one. */
  lemma BonusNameLength(card: Card)
    ensures ScoreAggressive(card.(bonus := White)) == ScoreAggressive(card.(bonus := Red)) + 2
    ensures ScoreAggressive(card.(bonus := Green)) == ScoreAggressive(card.(bonus := Blue)) + 1
    ensures ScoreBalanced(card.(bonus := Black)) == ScoreBalanced(card.(bonus := Blue)) + 1
  {
  }

  /** `pickHighestValueMarketCard`: the first card of the market sorted by
      descending aggressive score. */
  function PickHighestValueMarketCard(s: State): (r: Option<Card>)
    ensures r.None? <==> MarketOrder(s.market) == []
    ensures r.Some? ==> r.value == MarketOrder(s.market)[FirstMax(MarketOrder(s.market), ScoreAggressive)]
  {
    var all := MarketOrder(s.market);
    if |all| == 0 then None
    else
      SortDescHead(all, ScoreAggressive);
      Some(SortDesc(all, ScoreAggressive)[0])
  }

  /** The card picked scores at least as much as every market card and
      more than every card before it in level 3, 2, 1 order. */
  lemma PickHighestIsEarliestBest(s: State)
    requires PickHighestValueMarketCard(s).Some?
    ensures var all := MarketOrder(s.market);
            exists i :: 0 <= i < |all| && all[i] == PickHighestValueMarketCard(s).value
                        && (forall j :: 0 <= j < |all| ==> ScoreAggressive(all[j]) <= ScoreAggressive(all[i]))
                        && (forall j :: 0 <= j < i ==> ScoreAggressive(all[j]) < ScoreAggressive(all[i]))
  {
    var all := MarketOrder(s.market);
    var i := FirstMax(all, ScoreAggressive);
    assert all[i] == PickHighestValueMarketCard(s).value;
  }

  // ---------------------------------------------------- colour priority

  /** How many tokens of colour `c` the player lacks for `top`, counting
      gems and bonuses. */
  function Need(top: Card, p: Player, c: Gem): int {
    Max(0, top.cost.Get(c) - (p.gems.Get(c) + p.bonuses.Get(c)))
  }

  function NeedKey(top: Card, p: Player): Gem -> int {
    c => Need(top, p, c)
  }

  /** `prioritizeNeededColors(state, player)` */
  function PrioritizeNeededColors(s: State, p: Player): (r: seq<Gem>)
    ensures multiset(r) == multiset(NonGoldGems) && |r| == |NonGoldGems|
    ensures PickHighestValueMarketCard(s).None? ==> r == NonGoldGems
    ensures PickHighestValueMarketCard(s).Some? ==> SortedDesc(r, NeedKey(PickHighestValueMarketCard(s).value, p))
  {
    match PickHighestValueMarketCard(s)
    case None => NonGoldGems
    case Some(top) => SortDesc(NonGoldGems, NeedKey(top, p))
  }

  /** Colours the player lacks equally keep their `NON_GOLD_GEMS` order. */
  lemma PrioritizeStable(s: State, p: Player, k: int)
    requires PickHighestValueMarketCard(s).Some?
    ensures var key := NeedKey(PickHighestValueMarketCard(s).value, p);
            WithKey(PrioritizeNeededColors(s, p), key, k) == WithKey(NonGoldGems, key, k)
  {
    SortDescStable(NonGoldGems, NeedKey(PickHighestValueMarketCard(s).value, p), k);
  }

  // ------------------------------------------------------------ gem take

  /** `NON_GOLD_GEMS.filter(c => state.gems[c] > 0)` on any colour list. */
  function Stocked(bank: Tokens, cs: seq<Gem>): (r: seq<Gem>)
    ensures forall k :: 0 <= k < |r| ==> r[k] in cs && bank.Get(r[k]) > 0
    ensures |r| <= |cs|
  {
    if |cs| == 0 then []
    else (if bank.Get(cs[0]) > 0 then [cs[0]] else []) + Stocked(bank, cs[1..])
  }

  lemma {:induction false} StockedComplete(bank: Tokens, cs: seq<Gem>, c: Gem)
    requires c in cs && bank.Get(c) > 0
    ensures c in Stocked(bank, cs)
  {
    if cs[0] != c {
      StockedComplete(bank, cs[1..], c);
    }
  }

  /** `xs.filter(c => pool.includes(c))` */
  function Among(xs: seq<Gem>, pool: seq<Gem>): (r: seq<Gem>)
    ensures forall k :: 0 <= k < |r| ==> r[k] in xs && r[k] in pool
  {
    if |xs| == 0 then [] else (if xs[0] in pool then [xs[0]] else []) + Among(xs[1..], pool)
  }

  lemma {:induction false} AmongComplete(xs: seq<Gem>, pool: seq<Gem>, c: Gem)
    requires c in xs && c in pool
    ensures c in Among(xs, pool)
  {
    if xs[0] != c {
      AmongComplete(xs[1..], pool, c);
    }
  }

  predicate Distinct(xs: seq<Gem>) { forall i, j :: 0 <= i < j < |xs| ==> xs[i] != xs[j] }

  /** `Array.from(new Set(xs))`: first occurrences, in order. */
  function Dedup(xs: seq<Gem>): (r: seq<Gem>)
    ensures Distinct(r)
    ensures forall k :: 0 <= k < |r| ==> r[k] in xs
  {
    if |xs| == 0 then []
    else
      var init := xs[..|xs| - 1];
      var last := xs[|xs| - 1];
      assert xs == init + [last];
      var d := Dedup(init);
      if last in d then d else d + [last]
  }

  lemma {:induction false} DedupComplete(xs: seq<Gem>, c: Gem)
    requires c in xs
    ensures c in Dedup(xs)
  {
    var init := xs[..|xs| - 1];
    assert xs == init + [xs[|xs| - 1]];
    if c != xs[|xs| - 1] {
      DedupComplete(init, c);
    }
  }

  /** A list with at least three distinct colours keeps three after `Dedup`. */
  lemma DistinctCount(xs: seq<Gem>, ys: seq<Gem>)
    requires Distinct(ys) && forall c :: c in ys ==> c in xs
    ensures |Dedup(xs)| >= |ys|
  {
    var d := Dedup(xs);
    forall c | c in ys ensures c in d {
      DedupComplete(xs, c);
    }
    DistinctSubset(ys, d);
  }

  /** A distinct list whose members all lie in a distinct list is no longer. */
  lemma {:induction false} DistinctSubset(ys: seq<Gem>, d: seq<Gem>)
    requires Distinct(ys) && Distinct(d) && forall c :: c in ys ==> c in d
    ensures |ys| <= |d|
  {
    if |ys| > 0 {
      var y := ys[0];
      assert y in ys;
      var i :| 0 <= i < |d| && d[i] == y;
      var d' := d[..i] + d[i + 1..];
      forall c | c in ys[1..] ensures c in d' {
        var j :| 0 <= j < |ys[1..]| && ys[1..][j] == c;
        assert ys[j + 1] == c && c != y;
        assert c in ys;
        var m :| 0 <= m < |d| && d[m] == c;
        if m < i { assert d'[m] == c; } else { assert d'[m - 1] == c; }
      }
      forall a, b | 0 <= a < b < |d'| ensures d'[a] != d'[b] {
        var a' := if a < i then a else a + 1;
        var b' := if b < i then b else b + 1;
        assert d'[a] == d[a'] && d'[b] == d[b'];
      }
      forall a, b | 0 <= a < b < |ys[1..]| ensures ys[1..][a] != ys[1..][b] {
        assert ys[1..][a] == ys[a + 1] && ys[1..][b] == ys[b + 1];
      }
      DistinctSubset(ys[1..], d');
    }
  }

  /** `available.find(c => state.gems[c] >= 4)` */
  function FirstRich(bank: Tokens, available: seq<Gem>): (r: Option<Gem>)
    ensures r.Some? ==> r.value in available && bank.Get(r.value) >= 4
    ensures r.None? ==> forall k :: 0 <= k < |available| ==> bank.Get(available[k]) < 4
  {
    if |available| == 0 then None
    else if bank.Get(available[0]) >= 4 then Some(available[0])
    else FirstRich(bank, available[1..])
  }

  /** `priority.find(c => available.includes(c))` */
  function FirstIn(priority: seq<Gem>, available: seq<Gem>): (r: Option<Gem>)
    ensures r.Some? ==> r.value in available && r.value in priority
    ensures r.None? ==> forall k :: 0 <= k < |priority| ==> priority[k] !in available
  {
    if |priority| == 0 then None
    else if priority[0] in available then Some(priority[0])
    else FirstIn(priority[1..], available)
  }

  /** Room left under `MAX_GEMS`. */
  function Capacity(p: Player): int { MaxGems - GetGemCount(p) }

  /** The colours `chooseGemTake` may pick from. */
  function Available(s: State): (r: seq<Gem>)
    ensures forall k :: 0 <= k < |r| ==> r[k] != Gold && s.bank.Get(r[k]) > 0
  {
    Stocked(s.bank, NonGoldGems)
  }

  /** Every non-gold colour in stock is available. */
  lemma AvailableComplete(s: State, c: Gem)
    requires c != Gold && s.bank.Get(c) > 0
    ensures c in Available(s)
  {
    assert NonGoldGems[Rank(c)] == c;
    StockedComplete(s.bank, NonGoldGems, c);
  }

  lemma AvailableEmpty(s: State)
    ensures |Available(s)| == 0 <==> forall c :: c != Gold ==> s.bank.Get(c) <= 0
  {
    if |Available(s)| == 0 {
      forall c | c != Gold ensures s.bank.Get(c) <= 0 {
        if s.bank.Get(c) > 0 {
          AvailableComplete(s, c);
        }
      }
    } else {
      assert Available(s)[0] != Gold && s.bank.Get(Available(s)[0]) > 0;
    }
  }

  /** The three-colour candidate of `chooseGemTake`: the priority order
      restricted to available colours, then the remaining available ones. */
  function Distinct3(s: State, priority: seq<Gem>): (r: seq<Gem>)
    ensures Distinct(r) && forall k :: 0 <= k < |r| ==> r[k] in Available(s)
  {
    var xs := Among(priority, Available(s)) + Available(s);
    var r := Dedup(xs);
    assert forall k :: 0 <= k < |r| ==> r[k] in xs;
    r
  }

  /** `chooseGemTake(state, player, helpers, priority)` */
  function ChooseGemTake(s: State, p: Player, priority: seq<Gem>): (r: Option<seq<Gem>>)
    ensures r.None? <==> Capacity(p) <= 0 || forall c :: c != Gold ==> s.bank.Get(c) <= 0
    ensures r.Some? ==> 1 <= |r.value| <= 3 && |r.value| <= Capacity(p)
    ensures r.Some? ==> forall k :: 0 <= k < |r.value| ==> r.value[k] != Gold && s.bank.Get(r.value[k]) > 0
    ensures r.Some? && |r.value| == 3 ==> Distinct(r.value)
    ensures r.Some? && |r.value| == 2 ==> r.value[0] == r.value[1] && s.bank.Get(r.value[0]) >= 4
  {
    var capacity := Capacity(p);
    var available := Available(s);
    AvailableEmpty(s);
    if capacity <= 0 then None
    else if |available| == 0 then None
    else if capacity >= 3 && |available| >= 3 && |Distinct3(s, priority)| >= 3 then Some(Distinct3(s, priority)[..3])
    else if capacity >= 2 && FirstRich(s.bank, available).Some? then
      var d := FirstRich(s.bank, available).value;
      Some([d, d])
    else
      var single := if FirstIn(priority, available).Some? then FirstIn(priority, available).value else available[0];
      Some([single])
  }

  /** With room for three and three colours in stock, the take is three
      distinct colours. */
  lemma ChooseGemTakeThree(s: State, p: Player, priority: seq<Gem>)
    requires Capacity(p) >= 3 && |Available(s)| >= 3
    ensures ChooseGemTake(s, p, priority).Some? && |ChooseGemTake(s, p, priority).value| == 3
  {
    var available := Available(s);
    var three := available[..3];
    assert Distinct(three) by {
      StockedDistinct(s.bank, NonGoldGems);
      assert three[0] == available[0] && three[1] == available[1] && three[2] == available[2];
    }
    DistinctCount(Among(priority, available) + available, three);
  }

  /** `Stocked` keeps a distinct list distinct. */
  lemma {:induction false} StockedDistinct(bank: Tokens, cs: seq<Gem>)
    requires Distinct(cs)
    ensures Distinct(Stocked(bank, cs))
  {
    if |cs| > 0 {
      var rest := Stocked(bank, cs[1..]);
      assert Distinct(cs[1..]) by {
        forall a, b | 0 <= a < b < |cs[1..]| ensures cs[1..][a] != cs[1..][b] {
          assert cs[1..][a] == cs[a + 1] && cs[1..][b] == cs[b + 1];
        }
      }
      StockedDistinct(bank, cs[1..]);
      assert cs[0] !in cs[1..];
      assert cs[0] !in rest;
      var r := (if bank.Get(cs[0]) > 0 then [cs[0]] else []) + rest;
      forall a, b | 0 <= a < b < |r| ensures r[a] != r[b] {
        if bank.Get(cs[0]) > 0 && a == 0 {
          assert r[b] == rest[b - 1] && r[b] in rest;
        }
      }
    }
  }

  /** When the priority list is a permutation of the five colours, the
      three-colour take is the first three available colours in priority
      order. */
  lemma ChooseGemTakeFollowsPriority(s: State, p: Player, priority: seq<Gem>)
    requires Capacity(p) >= 3 && |Available(s)| >= 3
    requires multiset(priority) == multiset(NonGoldGems) && |priority| == |NonGoldGems|
    ensures |Among(priority, Available(s))| >= 3
    ensures ChooseGemTake(s, p, priority) == Some(Among(priority, Available(s))[..3])
  {
    ChooseGemTakeThree(s, p, priority);
    var available := Available(s);
    var ordered := Among(priority, available);
    forall c | c in available ensures c in ordered {
      assert c in multiset(NonGoldGems);
      assert c in multiset(priority);
      AmongComplete(priority, available, c);
    }
    assert Distinct(priority) by { PermutationDistinct(priority); }
    AmongDistinct(priority, available);
    DedupAbsorbs(ordered, available);
    DedupOfDistinct(ordered);
  }

  /** A permutation of the five colours has no repeats. */
  lemma PermutationDistinct(priority: seq<Gem>)
    requires multiset(priority) == multiset(NonGoldGems)
    ensures Distinct(priority)
  {
    forall i, j | 0 <= i < j < |priority| ensures priority[i] != priority[j] {
    }
  }

  lemma {:induction false} AmongDistinct(xs: seq<Gem>, pool: seq<Gem>)
    requires Distinct(xs)
    ensures Distinct(Among(xs, pool))
  {
    if |xs| > 0 {
      var rest := Among(xs[1..], pool);
      assert Distinct(xs[1..]) by {
        forall a, b | 0 <= a < b < |xs[1..]| ensures xs[1..][a] != xs[1..][b] {
          assert xs[1..][a] == xs[a + 1] && xs[1..][b] == xs[b + 1];
        }
      }
      AmongDistinct(xs[1..], pool);
      assert xs[0] !in xs[1..];
      assert xs[0] !in rest;
      var r := (if xs[0] in pool then [xs[0]] else []) + rest;
      forall a, b | 0 <= a < b < |r| ensures r[a] != r[b] {
        if xs[0] in pool && a == 0 {
          assert r[b] == rest[b - 1] && r[b] in rest;
        }
      }
    }
  }

  /** Appending colours already present changes nothing after `Dedup`. */
  lemma {:induction false} DedupAbsorbs(xs: seq<Gem>, ys: seq<Gem>)
    requires forall c :: c in ys ==> c in xs
    ensures Dedup(xs + ys) == Dedup(xs)
  {
    if |ys| == 0 {
      assert xs + ys == xs;
    } else {
      var init := ys[..|ys| - 1];
      assert (xs + ys)[..|xs + ys| - 1] == xs + init;
      assert (xs + ys)[|xs + ys| - 1] == ys[|ys| - 1];
      assert ys[|ys| - 1] in ys;
      forall c | c in init ensures c in xs { assert c in ys; }
      DedupAbsorbs(xs, init);
      DedupComplete(xs + init, ys[|ys| - 1]);
    }
  }

  lemma {:induction false} DedupOfDistinct(xs: seq<Gem>)
    requires Distinct(xs)
    ensures Dedup(xs) == xs
  {
    if |xs| > 0 {
      var init := xs[..|xs| - 1];
      var last := xs[|xs| - 1];
      assert Distinct(init);
      DedupOfDistinct(init);
      assert last !in init;
      assert xs == init + [last];
    }
  }

  // ------------------------------------------------------------ blocking

  /** `cardMissingCost` on values: what the colours in `cs` lack after
      bonuses and gems. */
  function MissingOver(p: Player, card: Card, cs: seq<Gem>): int {
    if |cs| == 0 then 0
    else
      var c := cs[|cs| - 1];
      MissingOver(p, card, cs[..|cs| - 1]) + Max(0, card.cost.Get(c) - p.bonuses.Get(c) - p.gems.Get(c))
  }

  function MissingCost(p: Player, card: Card): int { MissingOver(p, card, NonGoldGems) }

  /** `cardMissingCost(player, card)`: a loop over the card's cost keys. */
  method CardMissingCost(p: Player, card: Card) returns (missing: int)
    ensures missing == MissingCost(p, card)
  {
    missing := 0;
    for k := 0 to |NonGoldGems|
      invariant missing == MissingOver(p, card, NonGoldGems[..k])
    {
      assert NonGoldGems[..k + 1][..k] == NonGoldGems[..k];
      var color := NonGoldGems[k];
      var need := card.cost.Get(color) - p.bonuses.Get(color) - p.gems.Get(color);
      missing := missing + Max(0, need);
    }
    assert NonGoldGems[..|NonGoldGems|] == NonGoldGems;
  }

  /** With gems that are not negative, what a card lacks is exactly the
      gold `canBuyCard` asks for; so a card that lacks nothing is
      affordable. */
  lemma {:induction false} MissingIsShortfall(p: Player, card: Card, cs: seq<Gem>)
    requires p.gems.NonNegative() && p.bonuses.NonNegative()
    ensures MissingOver(p, card, cs) == ShortfallOver(p, card, cs)
    ensures MissingOver(p, card, cs) >= 0
  {
    if |cs| > 0 {
      MissingIsShortfall(p, card, cs[..|cs| - 1]);
      assert p.gems.Get(cs[|cs| - 1]) >= 0 && p.bonuses.Get(cs[|cs| - 1]) >= 0;
    }
  }

  /** `threatScore(opponent, card)` */
  function ThreatScore(opp: Player, card: Card): (r: int)
    ensures 0 <= r <= 4
    ensures MissingCost(opp, card) <= 2 ==> r >= 3
    ensures MissingCost(opp, card) > 4 ==> (r == 1 <==> card.points >= 3) && r <= 1
    ensures card.points >= 3 ==> r >= 1
  {
    var costGap := MissingCost(opp, card);
    var canSoonBuy := if costGap <= 2 then 3 else if costGap <= 4 then 1 else 0;
    var nobleSynergy := if card.points >= 3 then 1 else 0;
    canSoonBuy + nobleSynergy
  }

  /** An opponent who lacks less is at least as threatening. */
  lemma ThreatMonotone(a: Player, b: Player, card: Card)
    requires MissingCost(a, card) <= MissingCost(b, card)
    ensures ThreatScore(a, card) >= ThreatScore(b, card)
  {
  }

  /** `state.players.filter(p => p.id !== player.id)` */
  function Opponents(players: seq<Player>, id: string): (r: seq<Player>)
    ensures forall k :: 0 <= k < |r| ==> r[k] in players && r[k].id != id
    ensures forall q :: q in players && q.id != id ==> q in r
  {
    if |players| == 0 then []
    else (if players[0].id != id then [players[0]] else []) + Opponents(players[1..], id)
  }

  /** The `reduce` over the opponents' threat scores. */
  function Pressure(opps: seq<Player>, card: Card): (r: int)
    ensures r >= 0
  {
    if |opps| == 0 then 0 else ThreatScore(opps[0], card) + Pressure(opps[1..], card)
  }

  function PressureKey(opps: seq<Player>): Card -> int {
    c => Pressure(opps, c)
  }

  /** `findBlockCandidate` on values: the earliest market card of maximal
      pressure, unless that pressure is 0. */
  function BlockCandidate(s: State, p: Player): (r: Option<Card>)
    ensures r.None? <==> forall k :: 0 <= k < |MarketOrder(s.market)| ==>
                           Pressure(Opponents(s.players, p.id), MarketOrder(s.market)[k]) == 0
    ensures r.Some? ==> Pressure(Opponents(s.players, p.id), r.value) > 0
    ensures r.Some? ==> r.value == MarketOrder(s.market)[FirstMax(MarketOrder(s.market), PressureKey(Opponents(s.players, p.id)))]
    ensures r.Some? ==> r.value in MarketOrder(s.market)
  {
    var cards := MarketOrder(s.market);
    var key := PressureKey(Opponents(s.players, p.id));
    if |cards| == 0 then None
    else
      var i := FirstMax(cards, key);
      if key(cards[i]) != 0 then Some(cards[i]) else None
  }

  /** `findBlockCandidate(state, player, helpers)`: a `forEach` that keeps the
      first card of strictly higher pressure. */
  method FindBlockCandidate(s: State, p: Player) returns (r: Option<Card>)
    ensures r == BlockCandidate(s, p)
  {
    var opponents := Opponents(s.players, p.id);
    ghost var key := PressureKey(opponents);
    var best: Option<(Card, int)> := None;
    ghost var bestIndex := 0;
    var marketCards := s.market.level3 + s.market.level2 + s.market.level1;
    for k := 0 to |marketCards|
      invariant best.None? <==> k == 0
      invariant best.Some? ==> bestIndex < k && best.value == (marketCards[bestIndex], key(marketCards[bestIndex]))
      invariant best.Some? ==> forall j :: 0 <= j < k ==> key(marketCards[j]) <= best.value.1
      invariant best.Some? ==> forall j :: 0 <= j < bestIndex ==> key(marketCards[j]) < best.value.1
    {
      var card := marketCards[k];
      var pressure := Pressure(opponents, card);
      if best.None? || pressure > best.value.1 {
        best := Some((card, pressure));
        bestIndex := k;
      }
    }
    if best.Some? {
      FirstMaxUnique(marketCards, key, bestIndex);
    }
    r := if best.Some? && best.value.1 != 0 then Some(best.value.0) else None;
  }

  // ---------------------------------------------------------- strategies

  function PassDecision(strategy: Strategy): Decision {
    Decision(PassAction, None, None, None, None, Some("No valid move found"), Some(strategy), Local)
  }

  function BuyDecision(a: AffordableCard, strategy: Strategy, reasoning: Option<string>): Decision {
    Decision(BuyAction, None, Some(a.card.id), Some(a.fromReserve), None, reasoning, Some(strategy), Local)
  }

  function ReserveDecision(card: Card, strategy: Strategy, reasoning: Option<string>): Decision {
    Decision(ReserveAction, None, Some(card.id), None, None, reasoning, Some(strategy), Local)
  }

  function TakeDecision(g: seq<Gem>, strategy: Strategy, reasoning: Option<string>): Decision {
    Decision(TakeGemsAction, Some(g), None, None, None, reasoning, Some(strategy), Local)
  }

  function AggressiveKey(a: AffordableCard): int { ScoreAggressive(a.card) }

  function BalancedKey(a: AffordableCard): int { ScoreBalanced(a.card) }

  /** The gem take every strategy falls back to. */
  function GemChoice(s: State, p: Player): Option<seq<Gem>> {
    ChooseGemTake(s, p, PrioritizeNeededColors(s, p))
  }

  /** `aggressiveAction`: buy the best-scored affordable card, else reserve
      the best market card, else take gems, else pass. */
  function AggressiveAction(s: State, p: Player): Decision {
    AggressiveTail(SortDesc(AffordableList(s, p), AggressiveKey), |p.reserved| < MaxReserved,
                   PickHighestValueMarketCard(s), GemChoice(s, p))
  }

  /** With something affordable, the aggressive player buys the first card of
      top aggressive score. */
  lemma AggressiveBuysBest(s: State, p: Player)
    ensures var buyable := AffordableList(s, p);
            |buyable| > 0 ==> AggressiveAction(s, p) == BuyDecision(buyable[FirstMax(buyable, AggressiveKey)], Aggressive,
                                                                    Some("Buying the highest value card available"))
  {
    var buyable := AffordableList(s, p);
    if |buyable| > 0 {
      SortDescHead(buyable, AggressiveKey);
    }
  }

  /** The branches of `aggressiveAction`, given the sorted purchases, whether
      the reserve has room, the best market card and the gem take. */
  function AggressiveTail(buyable: seq<AffordableCard>, room: bool, best: Option<Card>, gems: Option<seq<Gem>>): Decision {
    if |buyable| > 0 then
      BuyDecision(buyable[0], Aggressive, Some("Buying the highest value card available"))
    else if room && best.Some? then
      ReserveDecision(best.value, Aggressive, Some("Reserving a high value card to secure points"))
    else if gems.Some? then
      TakeDecision(gems.value, Aggressive, Some("Gathering gems to afford high value cards"))
    else PassDecision(Aggressive)
  }

  /** `defensiveAction`: buy the first affordable card (reserved, then level
      3, 2, 1), else reserve the card that blocks opponents most, else take
      gems, else pass. */
  function DefensiveAction(s: State, p: Player): (d: Decision) {
    DefensiveTail(AffordableList(s, p), |p.reserved| < MaxReserved, BlockCandidate(s, p), GemChoice(s, p))
  }

  /** The branches of `defensiveAction`, given the purchases, whether the
      reserve has room, the blocking card and the gem take. */
  function DefensiveTail(buyable: seq<AffordableCard>, room: bool, block: Option<Card>, gems: Option<seq<Gem>>): Decision {
    if |buyable| > 0 then
      BuyDecision(buyable[0], Defensive, Some("Converting resources into secured points"))
    else if room && block.Some? then
      ReserveDecision(block.value, Defensive, Some("Blocking an opponent who is close to buying"))
    else if gems.Some? then
      TakeDecision(gems.value, Defensive, Some("Collecting gems while limiting opponent access"))
    else PassDecision(Defensive)
  }

  /** `balancedAction` with `roll` for its `Math.random()`. */
  function BalancedAction(s: State, p: Player, roll: real): Decision {
    BalancedTail(SortDesc(AffordableList(s, p), BalancedKey), roll, |p.reserved| < MaxReserved,
                 PickHighestValueMarketCard(s), GemChoice(s, p))
  }

  /** Under a roll of 0.45 with something affordable, the balanced player
      buys the first card of top balanced score. */
  lemma BalancedBuysBest(s: State, p: Player, roll: real)
    ensures var buyable := AffordableList(s, p);
            |buyable| > 0 && roll < 0.45 ==>
              BalancedAction(s, p, roll) == BuyDecision(buyable[FirstMax(buyable, BalancedKey)], Balanced,
                                                        Some("Buying efficiently scored card"))
  {
    var buyable := AffordableList(s, p);
    if |buyable| > 0 {
      SortDescHead(buyable, BalancedKey);
    }
  }

  /** The branches of `balancedAction`, given the sorted purchases, the
      roll, whether the reserve has room, the best market card and the gem
      take. */
  function BalancedTail(buyable: seq<AffordableCard>, roll: real, room: bool, best: Option<Card>,
                        gems: Option<seq<Gem>>): Decision {
    if |buyable| > 0 && roll < 0.45 then
      BuyDecision(buyable[0], Balanced, Some("Buying efficiently scored card"))
    else if room && roll < 0.65 && best.Some? then
      ReserveDecision(best.value, Balanced, Some("Holding a useful card for later"))
    else if gems.Some? then
      TakeDecision(gems.value, Balanced, Some("Gathering gems to unlock more buys"))
    else if |buyable| > 0 then
      BuyDecision(buyable[0], Balanced, Some("Fallback to available purchase"))
    else PassDecision(Balanced)
  }

  /** The options `randomAction` collects: one purchase per affordable card,
      the best market card to reserve, a gem take. */
  function RandomOptions(s: State, p: Player): seq<Decision> {
    BuyOptions(AffordableList(s, p)) + ReserveOption(s, p) + TakeOption(s, p)
  }

  function ReserveOption(s: State, p: Player): seq<Decision> {
    if |p.reserved| < MaxReserved && PickHighestValueMarketCard(s).Some? then
      [ReserveDecision(PickHighestValueMarketCard(s).value, RandomPick, None)]
    else []
  }

  function TakeOption(s: State, p: Player): seq<Decision> {
    if GemChoice(s, p).Some? then [TakeDecision(GemChoice(s, p).value, RandomPick, None)] else []
  }

  function BuyOptions(buyable: seq<AffordableCard>): (r: seq<Decision>)
    ensures |r| == |buyable| && forall k :: 0 <= k < |r| ==> r[k] == BuyDecision(buyable[k], RandomPick, None)
  {
    if |buyable| == 0 then [] else BuyOptions(buyable[..|buyable| - 1]) + [BuyDecision(buyable[|buyable| - 1], RandomPick, None)]
  }

  /** `options[Math.floor(roll * options.length)]` */
  function PickByRoll<T>(options: seq<T>, roll: real): (r: T)
    requires |options| > 0 && 0.0 <= roll < 1.0
    ensures r in options
  {
    options[RollIndex(roll, |options|)]
  }

  /** `randomAction` with `roll` for its `Math.random()`. */
  function RandomChoice(s: State, p: Player, roll: real): (d: Decision)
    requires 0.0 <= roll < 1.0
  {
    var options := RandomOptions(s, p);
    if |options| == 0 then PassDecision(RandomPick) else PickByRoll(options, roll)
  }

  /** `buyable.forEach(b => options.push(...))` */
  method PushBuyOptions(buyable: seq<AffordableCard>) returns (options: seq<Decision>)
    ensures options == BuyOptions(buyable)
  {
    options := [];
    for k := 0 to |buyable|
      invariant options == BuyOptions(buyable[..k])
    {
      assert buyable[..k + 1][..k] == buyable[..k];
      options := options + [BuyDecision(buyable[k], RandomPick, None)];
    }
    assert buyable[..|buyable|] == buyable;
  }

  /** The options array of `randomAction`. */
  method CollectOptions(s: State, p: Player) returns (options: seq<Decision>)
    ensures options == RandomOptions(s, p)
  {
    var buyable := ListAffordableCards(s, p);
    options := PushBuyOptions(buyable);
    ghost var buys := options;
    if |p.reserved| < MaxReserved {
      var candidate := PickHighestValueMarketCard(s);
      if candidate.Some? {
        options := options + [ReserveDecision(candidate.value, RandomPick, None)];
      }
    }
    assert options == buys + ReserveOption(s, p);
    options := PushTakeOption(s, p, options);
  }

  /** The gem-take push of `randomAction`. */
  method PushTakeOption(s: State, p: Player, options: seq<Decision>) returns (r: seq<Decision>)
    ensures r == options + TakeOption(s, p)
  {
    r := options;
    var gemChoice := GemChoice(s, p);
    if gemChoice.Some? {
      r := r + [TakeDecision(gemChoice.value, RandomPick, None)];
    }
  }

  /** `randomAction(state, player, helpers)`: collects its options, then
      picks one with the roll. */
  method RandomAction(s: State, p: Player, roll: real) returns (d: Decision)
    requires 0.0 <= roll < 1.0
    ensures d == RandomChoice(s, p, roll)
  {
    var options := CollectOptions(s, p);
    if |options| == 0 {
      return PassDecision(RandomPick);
    }
    d := PickByRoll(options, roll);
  }

  /** `pickLocalStrategy` on values. */
  function LocalChoice(s: State, p: Player, strategy: Strategy, roll: real): Decision
    requires 0.0 <= roll < 1.0
  {
    match strategy
    case RandomPick => RandomChoice(s, p, roll)
    case Aggressive => AggressiveAction(s, p)
    case Defensive => DefensiveAction(s, p)
    case _ => BalancedAction(s, p, roll)
  }

  /** `pickLocalStrategy(state, player, helpers, strategy)` */
  method PickLocalStrategy(s: State, p: Player, strategy: Strategy, roll: real) returns (d: Decision)
    requires 0.0 <= roll < 1.0
    ensures d == LocalChoice(s, p, strategy, roll)
  {
    if strategy == RandomPick {
      d := RandomAction(s, p, roll);
      return;
    }
    if strategy == Aggressive {
      return AggressiveAction(s, p);
    }
    if strategy == Defensive {
      return DefensiveAction(s, p);
    }
    return BalancedAction(s, p, roll);
  }

  predicate IsRemote(strategy: Strategy) { strategy == Gemini || strategy == Gemma }

  /** The decision `chooseAIMove` settles on. */
  function AIChoice(s: State, p: Player, remote: Option<Decision>, roll: real): Decision
    requires 0.0 <= roll < 1.0
  {
    var strategy := if p.strategy.Some? then p.strategy.value else Balanced;
    if IsRemote(strategy) then (if remote.Some? then remote.value else BalancedAction(s, p, roll))
    else LocalChoice(s, p, strategy, roll)
  }

  /** `chooseAIMove({ state, player, helpers })`. `remote` is what the remote
      model's request returned for a gemini or gemma player (`None` for no
      key, a failed request or an unusable answer); `roll` is the one
      `Math.random()` a local strategy draws. */
  method ChooseAIMove(s: State, p: Player, remote: Option<Decision>, roll: real) returns (d: Decision)
    requires 0.0 <= roll < 1.0
    ensures d == AIChoice(s, p, remote, roll)
    ensures var strategy := if p.strategy.Some? then p.strategy.value else Balanced;
            if IsRemote(strategy) && remote.Some? then d == remote.value
            else if IsRemote(strategy) then d == BalancedAction(s, p, roll)
            else d == LocalChoice(s, p, strategy, roll)
  {
    var strategy := if p.strategy.Some? then p.strategy.value else Balanced;
    if strategy == Gemini || strategy == Gemma {
      if remote.Some? {
        return remote.value;
      }
    }
    d := PickLocalStrategy(s, p, if strategy == Gemini || strategy == Gemma then Balanced else strategy, roll);
  }

  // ------------------------------------------------- what strategies do

  /** What any local decision satisfies: a purchase names an affordable card
      with its true source, a reservation names a market card and leaves
      room in the reserve, a gem take is `chooseGemTake`'s answer. */
  predicate LocalShape(s: State, p: Player, d: Decision) {
    d.source == Local
    && (d.kind == BuyAction ==>
          exists a :: a in AffordableList(s, p) && d.cardId == Some(a.card.id) && d.fromReserve == Some(a.fromReserve))
    && (d.kind == ReserveAction ==>
          |p.reserved| < MaxReserved && d.reserveFromDeckLevel.None?
          && exists c :: c in MarketOrder(s.market) && d.cardId == Some(c.id))
    && (d.kind == TakeGemsAction ==> d.gems.Some? && GemChoice(s, p) == d.gems)
  }

  lemma BuyOptionsShape(s: State, p: Player, d: Decision)
    requires d in BuyOptions(AffordableList(s, p))
    ensures LocalShape(s, p, d)
  {
    var buyable := AffordableList(s, p);
    var k :| 0 <= k < |BuyOptions(buyable)| && BuyOptions(buyable)[k] == d;
    assert buyable[k] in buyable;
  }

  lemma PickHighestInMarket(s: State)
    requires PickHighestValueMarketCard(s).Some?
    ensures PickHighestValueMarketCard(s).value in MarketOrder(s.market)
  {
  }

  lemma BuyShape(s: State, p: Player, a: AffordableCard, strategy: Strategy, reasoning: Option<string>)
    requires a in AffordableList(s, p)
    ensures LocalShape(s, p, BuyDecision(a, strategy, reasoning))
  {
  }

  lemma ReserveShape(s: State, p: Player, c: Card, strategy: Strategy, reasoning: Option<string>)
    requires |p.reserved| < MaxReserved && c in MarketOrder(s.market)
    ensures LocalShape(s, p, ReserveDecision(c, strategy, reasoning))
  {
  }

  lemma TakeShape(s: State, p: Player, strategy: Strategy, reasoning: Option<string>)
    requires GemChoice(s, p).Some?
    ensures LocalShape(s, p, TakeDecision(GemChoice(s, p).value, strategy, reasoning))
  {
  }

  lemma AggressiveShape(s: State, p: Player)
    ensures LocalShape(s, p, AggressiveAction(s, p))
  {
    var buyable := AffordableList(s, p);
    var sorted := SortDesc(buyable, AggressiveKey);
    var best := PickHighestValueMarketCard(s);
    var gems := GemChoice(s, p);
    var d := AggressiveAction(s, p);
    assert d == AggressiveTail(sorted, |p.reserved| < MaxReserved, best, gems);
    if |sorted| > 0 {
      SortDescHead(buyable, AggressiveKey);
      BuyShape(s, p, sorted[0], Aggressive, Some("Buying the highest value card available"));
    } else if |p.reserved| < MaxReserved && best.Some? {
      PickHighestInMarket(s);
      ReserveShape(s, p, best.value, Aggressive, Some("Reserving a high value card to secure points"));
    } else if gems.Some? {
      TakeShape(s, p, Aggressive, Some("Gathering gems to afford high value cards"));
    }
  }

  lemma DefensiveShape(s: State, p: Player)
    ensures LocalShape(s, p, DefensiveAction(s, p))
  {
    var buyable := AffordableList(s, p);
    var block := BlockCandidate(s, p);
    var gems := GemChoice(s, p);
    var d := DefensiveAction(s, p);
    assert d == DefensiveTail(buyable, |p.reserved| < MaxReserved, block, gems);
    if |buyable| > 0 {
      BuyShape(s, p, buyable[0], Defensive, Some("Converting resources into secured points"));
    } else if |p.reserved| < MaxReserved && block.Some? {
      ReserveShape(s, p, block.value, Defensive, Some("Blocking an opponent who is close to buying"));
    } else if gems.Some? {
      TakeShape(s, p, Defensive, Some("Collecting gems while limiting opponent access"));
    }
  }

  lemma BalancedShape(s: State, p: Player, roll: real)
    ensures LocalShape(s, p, BalancedAction(s, p, roll))
  {
    var buyable := AffordableList(s, p);
    var sorted := SortDesc(buyable, BalancedKey);
    var best := PickHighestValueMarketCard(s);
    var gems := GemChoice(s, p);
    var d := BalancedAction(s, p, roll);
    assert d == BalancedTail(sorted, roll, |p.reserved| < MaxReserved, best, gems);
    if |sorted| > 0 && roll < 0.45 {
      SortDescHead(buyable, BalancedKey);
      BuyShape(s, p, sorted[0], Balanced, Some("Buying efficiently scored card"));
    } else if |p.reserved| < MaxReserved && roll < 0.65 && best.Some? {
      PickHighestInMarket(s);
      ReserveShape(s, p, best.value, Balanced, Some("Holding a useful card for later"));
    } else if gems.Some? {
      TakeShape(s, p, Balanced, Some("Gathering gems to unlock more buys"));
    } else if |sorted| > 0 {
      SortDescHead(buyable, BalancedKey);
      BuyShape(s, p, sorted[0], Balanced, Some("Fallback to available purchase"));
    }
  }

  lemma RandomShape(s: State, p: Player, roll: real)
    requires 0.0 <= roll < 1.0
    ensures LocalShape(s, p, RandomChoice(s, p, roll))
  {
    var options := RandomOptions(s, p);
    if |options| > 0 {
      var d := PickByRoll(options, roll);
      assert RandomChoice(s, p, roll) == d;
      RandomOptionsShape(s, p, d);
    } else {
      assert RandomChoice(s, p, roll) == PassDecision(RandomPick);
    }
  }

  lemma RandomOptionsShape(s: State, p: Player, d: Decision)
    requires d in RandomOptions(s, p)
    ensures LocalShape(s, p, d)
  {
    var buys := BuyOptions(AffordableList(s, p));
    var reserve := ReserveOption(s, p);
    var take := TakeOption(s, p);
    assert RandomOptions(s, p) == buys + reserve + take;
    if d in buys {
      BuyOptionsShape(s, p, d);
    } else if d in reserve {
      ReserveOptionShape(s, p, d);
    } else {
      TakeOptionShape(s, p, d);
    }
  }

  lemma ReserveOptionShape(s: State, p: Player, d: Decision)
    requires d in ReserveOption(s, p)
    ensures LocalShape(s, p, d)
  {
    PickHighestInMarket(s);
    assert d == ReserveDecision(PickHighestValueMarketCard(s).value, RandomPick, None);
  }

  lemma TakeOptionShape(s: State, p: Player, d: Decision)
    requires d in TakeOption(s, p)
    ensures LocalShape(s, p, d)
  {
    assert d == TakeDecision(GemChoice(s, p).value, RandomPick, None);
  }

  /** Every local strategy decides within `LocalShape`. */
  lemma LocalChoiceShape(s: State, p: Player, strategy: Strategy, roll: real)
    requires 0.0 <= roll < 1.0
    ensures LocalShape(s, p, LocalChoice(s, p, strategy, roll))
  {
    var d := LocalChoice(s, p, strategy, roll);
    if strategy == RandomPick {
      assert d == RandomChoice(s, p, roll);
      RandomShape(s, p, roll);
    } else if strategy == Aggressive {
      assert d == AggressiveAction(s, p);
      AggressiveShape(s, p);
    } else if strategy == Defensive {
      assert d == DefensiveAction(s, p);
      DefensiveShape(s, p);
    } else {
      assert d == BalancedAction(s, p, roll);
      BalancedShape(s, p, roll);
    }
  }

  /** The order of the branches of `aggressiveAction`. */
  lemma AggressiveTailOrder(buyable: seq<AffordableCard>, room: bool, best: Option<Card>, gems: Option<seq<Gem>>)
    ensures var d := AggressiveTail(buyable, room, best, gems);
            (d.kind == BuyAction <==> |buyable| > 0)
            && (d.kind == ReserveAction <==> |buyable| == 0 && room && best.Some?)
            && (d.kind == TakeGemsAction <==> |buyable| == 0 && !(room && best.Some?) && gems.Some?)
            && (d.kind == PassAction <==> |buyable| == 0 && !(room && best.Some?) && gems.None?)
  {
  }

  /** `aggressiveAction` buys whenever a card is affordable; otherwise it
      reserves only with room and a market card; then it takes gems; it
      passes only when none of these is possible. */
  lemma AggressiveOrder(s: State, p: Player)
    ensures var d := AggressiveAction(s, p);
            var canReserve := |p.reserved| < MaxReserved && PickHighestValueMarketCard(s).Some?;
            (d.kind == BuyAction <==> |AffordableList(s, p)| > 0)
            && (d.kind == ReserveAction <==> |AffordableList(s, p)| == 0 && canReserve)
            && (d.kind == TakeGemsAction <==> |AffordableList(s, p)| == 0 && !canReserve && GemChoice(s, p).Some?)
            && (d.kind == PassAction <==> |AffordableList(s, p)| == 0 && !canReserve && GemChoice(s, p).None?)
  {
    var buyable := SortDesc(AffordableList(s, p), AggressiveKey);
    var room := |p.reserved| < MaxReserved;
    var best := PickHighestValueMarketCard(s);
    var gems := GemChoice(s, p);
    assert |buyable| == |AffordableList(s, p)|;
    assert AggressiveAction(s, p) == AggressiveTail(buyable, room, best, gems);
    AggressiveTailOrder(buyable, room, best, gems);
  }

  /** The order of the branches of `defensiveAction`. */
  lemma DefensiveTailOrder(buyable: seq<AffordableCard>, room: bool, block: Option<Card>, gems: Option<seq<Gem>>)
    ensures var d := DefensiveTail(buyable, room, block, gems);
            (d.kind == BuyAction <==> |buyable| > 0)
            && (|buyable| > 0 ==> d.cardId == Some(buyable[0].card.id) && d.fromReserve == Some(buyable[0].fromReserve))
            && (d.kind == ReserveAction <==> |buyable| == 0 && room && block.Some?)
            && (d.kind == ReserveAction ==> d.cardId == Some(block.value.id))
            && (d.kind == TakeGemsAction <==> |buyable| == 0 && !(room && block.Some?) && gems.Some?)
            && (d.kind == PassAction <==> |buyable| == 0 && !(room && block.Some?) && gems.None?)
  {
  }

  /** `defensiveAction` buys the first affordable card (reserved, then level
      3, 2, 1) whenever there is one; otherwise it reserves the blocking card
      only with room; then it takes gems; then it passes. */
  lemma DefensiveOrder(s: State, p: Player)
    ensures var d := DefensiveAction(s, p);
            var buyable := AffordableList(s, p);
            var canBlock := |p.reserved| < MaxReserved && BlockCandidate(s, p).Some?;
            (d.kind == BuyAction <==> |buyable| > 0)
            && (|buyable| > 0 ==> d.cardId == Some(buyable[0].card.id) && d.fromReserve == Some(buyable[0].fromReserve))
            && (d.kind == ReserveAction <==> |buyable| == 0 && canBlock)
            && (d.kind == ReserveAction ==> d.cardId == Some(BlockCandidate(s, p).value.id))
            && (d.kind == TakeGemsAction <==> |buyable| == 0 && !canBlock && GemChoice(s, p).Some?)
            && (d.kind == PassAction <==> |buyable| == 0 && !canBlock && GemChoice(s, p).None?)
  {
    DefensiveTailOrder(AffordableList(s, p), |p.reserved| < MaxReserved, BlockCandidate(s, p), GemChoice(s, p));
  }

  /** The order of the branches of `balancedAction`. */
  lemma BalancedTailOrder(buyable: seq<AffordableCard>, roll: real, room: bool, best: Option<Card>,
                          gems: Option<seq<Gem>>)
    ensures var d := BalancedTail(buyable, roll, room, best, gems);
            var n := |buyable|;
            var canReserve := room && roll < 0.65 && best.Some?;
            (n > 0 && roll < 0.45 ==> d.kind == BuyAction)
            && (d.kind == ReserveAction <==> !(n > 0 && roll < 0.45) && canReserve)
            && (d.kind == TakeGemsAction <==> !(n > 0 && roll < 0.45) && !canReserve && gems.Some?)
            && (d.kind == BuyAction <==> n > 0 && (roll < 0.45 || (!canReserve && gems.None?)))
            && (d.kind == PassAction <==> n == 0 && !canReserve && gems.None?)
  {
  }

  /** `balancedAction`: a purchase below 0.45 when one is possible, else a
      reservation below 0.65 with room and a market card, else gems, else
      any purchase, else a pass. */
  lemma BalancedOrder(s: State, p: Player, roll: real)
    ensures var d := BalancedAction(s, p, roll);
            var n := |AffordableList(s, p)|;
            var canReserve := |p.reserved| < MaxReserved && roll < 0.65 && PickHighestValueMarketCard(s).Some?;
            (n > 0 && roll < 0.45 ==> d.kind == BuyAction)
            && (d.kind == ReserveAction <==> !(n > 0 && roll < 0.45) && canReserve)
            && (d.kind == TakeGemsAction <==> !(n > 0 && roll < 0.45) && !canReserve && GemChoice(s, p).Some?)
            && (d.kind == BuyAction <==> n > 0 && (roll < 0.45 || (!canReserve && GemChoice(s, p).None?)))
            && (d.kind == PassAction <==> n == 0 && !canReserve && GemChoice(s, p).None?)
  {
    var buyable := SortDesc(AffordableList(s, p), BalancedKey);
    var room := |p.reserved| < MaxReserved;
    var best := PickHighestValueMarketCard(s);
    var gems := GemChoice(s, p);
    assert |buyable| == |AffordableList(s, p)|;
    assert BalancedAction(s, p, roll) == BalancedTail(buyable, roll, room, best, gems);
    BalancedTailOrder(buyable, roll, room, best, gems);
  }
}
