/** services/gameEngine.ts: game set-up, the three player actions, passing,
    the end of a turn (nobles, turn order, winner) and the application of an
    AI decision.

    Every action takes a `GameState` and returns either that same object
    (the move is rejected) or a fresh clone that the action has updated in
    place. Each method is proved against a function on `State`, the value of
    all fields, which returns `None` for a rejection; the lemmas of module
    `EngineProperties` are about those functions. `Date.now()` is the
    parameter `now`, read once per action. */
module GameEngine {
  import opened Text
  import opened Gems
  import opened Entities
  import opened Ordering
  import opened GameUtils
  import opened Catalog
  import opened DecisionEngine

  // ---------------------------------------------------------- the log

  /** `logAction`: one entry for the current player, appended. */
  function Log(s: State, kind: LogKind, summary: string, payload: Option<Payload>, now: int): (r: State)
    requires 0 <= s.currentPlayerIndex < |s.players|
    ensures r == s.(history := r.history)
    ensures r.history == s.history + [LogEntry(s.turn, s.Current().id, s.Current().name, kind, summary, payload, Some(now))]
  {
    var actor := s.players[s.currentPlayerIndex];
    s.(history := s.history + [LogEntry(s.turn, actor.id, actor.name, kind, summary, payload, Some(now))])
  }

  method LogAction(state: GameState, kind: LogKind, summary: string, payload: Option<Payload>, now: int)
    requires 0 <= state.currentPlayerIndex < |state.players|
    modifies state
    ensures state.Snapshot() == Log(old(state.Snapshot()), kind, summary, payload, now)
  {
    var actor := state.players[state.currentPlayerIndex];
    state.history := state.history + [LogEntry(state.turn, actor.id, actor.name, kind, summary, payload, Some(now))];
  }

  /** `formatBonusLabel` */
  function BonusLabel(c: Gem): string { Capitalize(Name(c)) }

  function OptStr(o: Option<string>): Value {
    match o
    case Some(v) => Str(v)
    case None => Undefined
  }

  function GemNames(g: seq<Gem>): (r: seq<string>)
    ensures |r| == |g| && forall k :: 0 <= k < |g| ==> r[k] == Name(g[k])
  {
    seq(|g|, k requires 0 <= k < |g| => Name(g[k]))
  }

  /** The `gemCounts` reduce: a count per colour name, in first-seen order. */
  function GemCounts(g: seq<Gem>): map<string, Value> {
    if |g| == 0 then map[]
    else
      var acc := GemCounts(g[..|g| - 1]);
      var key := Name(g[|g| - 1]);
      acc[key := Num((if key in acc && acc[key].Num? then acc[key].n else 0) + 1)]
  }

  function TakePayload(g: seq<Gem>): Payload {
    map["gems" := Arr(seq(|g|, k requires 0 <= k < |g| => Str(Name(g[k])))), "gemCounts" := Obj(GemCounts(g))]
  }

  function CardPayload(card: Card): Payload {
    map["cardId" := Str(card.id), "cardName" := OptStr(card.name), "cardLevel" := Num(card.level),
        "cardPoints" := Num(card.points), "cardBonus" := Str(Name(card.bonus))]
  }

  function ReservePayload(card: Card, fromDeckLevel: Option<Level>): Payload {
    CardPayload(card)["fromDeckLevel" := if fromDeckLevel.Some? then Num(fromDeckLevel.value) else Undefined]
  }

  function BuyPayload(card: Card, isReserved: bool): Payload {
    CardPayload(card)["isReserved" := Bool(isReserved)]
  }

  // ------------------------------------------------------ card lookups

  /** `row.findIndex(c => c.id === id)` */
  function FindIndex(row: seq<Card>, id: string): (r: int)
    ensures -1 <= r < |row|
    ensures r >= 0 ==> row[r].id == id && forall k :: 0 <= k < r ==> row[k].id != id
    ensures r == -1 <==> forall k :: 0 <= k < |row| ==> row[k].id != id
  {
    if |row| == 0 then -1
    else if row[0].id == id then 0
    else
      var k := FindIndex(row[1..], id);
      if k == -1 then -1 else k + 1
  }

  /** `row.some(c => c.id === id)` */
  predicate HasId(row: seq<Card>, id: string) {
    exists k :: 0 <= k < |row| && row[k].id == id
  }

  /** `row.find(c => c.id === id)` */
  function FindById(row: seq<Card>, id: string): (r: Option<Card>)
    ensures r.Some? <==> HasId(row, id)
    ensures r.Some? ==> r.value.id == id && r.value in row
  {
    var k := FindIndex(row, id);
    if k >= 0 then Some(row[k]) else None
  }

  /** `cards.filter(c => c.id !== id)` */
  function WithoutId(cards: seq<Card>, id: string): (r: seq<Card>)
    ensures !HasId(r, id)
    ensures forall c :: c in cards && c.id != id ==> c in r
    ensures forall c :: c in r ==> c in cards
    ensures |r| <= |cards|
  {
    if |cards| == 0 then []
    else
      var rest := WithoutId(cards[1..], id);
      if cards[0].id != id then
        var r := [cards[0]] + rest;
        assert forall k :: 1 <= k < |r| ==> r[k] == rest[k - 1];
        r
      else rest
  }

  /** The card `findCardInMarket` returns: the first with that id in the
      level 3 row, else the level 2 row, else the level 1 row. */
  function CardInMarket(market: Rows, id: string): (r: Option<Card>)
    ensures r.Some? ==> r.value.id == id
    ensures r.None? <==> !HasId(market.level1, id) && !HasId(market.level2, id) && !HasId(market.level3, id)
    ensures HasId(market.level3, id) ==> r.Some? && r.value in market.level3
    ensures !HasId(market.level3, id) && HasId(market.level2, id) ==> r.Some? && r.value in market.level2
    ensures r.Some? ==> r.value in market.level1 || r.value in market.level2 || r.value in market.level3
  {
    var f3 := FindById(market.level3, id);
    if f3.Some? then f3
    else
      var f2 := FindById(market.level2, id);
      if f2.Some? then f2 else FindById(market.level1, id)
  }

  /** `findCardInMarket(state, cardId)`: the levels in the order 3, 2, 1. */
  method FindCardInMarket(state: GameState, cardId: string) returns (found: Option<Card>)
    ensures found == CardInMarket(state.market, cardId)
  {
    var levels: seq<Level> := [3, 2, 1];
    for k := 0 to |levels|
      invariant forall j :: 0 <= j < k ==> !HasId(state.market.Get(levels[j]), cardId)
    {
      var m := FindById(state.market.Get(levels[k]), cardId);
      if m.Some? {
        assert levels[0] == 3 && levels[1] == 2;
        assert k >= 1 ==> !HasId(state.market.Get(levels[0]), cardId);
        assert k >= 2 ==> !HasId(state.market.Get(levels[1]), cardId);
        return m;
      }
    }
    assert !HasId(state.market.Get(levels[0]), cardId) && !HasId(state.market.Get(levels[1]), cardId);
    assert !HasId(state.market.Get(levels[2]), cardId);
    return None;
  }

  // ------------------------------------------------- end of a turn

  /** `player.bonuses[color] >= requirement` for every required colour. */
  predicate Qualifies(p: Player, n: Noble) {
    forall c :: c != Gold ==> p.bonuses.Get(c) >= n.requirements.Get(c)
  }

  /** The noble the backward scan of `checkNoblesAndEndTurn` picks: the one
      with the highest index that the player qualifies for, or -1. */
  function HighestQualifyingNoble(p: Player, nobles: seq<Noble>): (r: int)
    ensures -1 <= r < |nobles|
    ensures r >= 0 ==> Qualifies(p, nobles[r]) && forall j :: r < j < |nobles| ==> !Qualifies(p, nobles[j])
    ensures r == -1 <==> forall j :: 0 <= j < |nobles| ==> !Qualifies(p, nobles[j])
  {
    if |nobles| == 0 then -1
    else if Qualifies(p, nobles[|nobles| - 1]) then |nobles| - 1
    else HighestQualifyingNoble(p, nobles[..|nobles| - 1])
  }

  /** The text after "gained": `noble.name || noble.id`. */
  function NobleLabel(n: Noble): string {
    if Truthy(n.name) then n.name.value else n.id
  }

  /** The noble step: the chosen noble moves from the board to the current
      player, who scores its points, and the visit is logged. */
  function AwardNoble(s: State, now: int): (r: State)
    requires s.WellFormed()
    ensures r.WellFormed()
  {
    var p := s.Current();
    var k := HighestQualifyingNoble(p, s.nobles);
    if k < 0 then s
    else
      var n := s.nobles[k];
      var p' := p.(nobles := p.nobles + [n], points := p.points + n.points);
      var t := s.(players := s.players[s.currentPlayerIndex := p'], nobles := s.nobles[..k] + s.nobles[k + 1..]);
      Log(t, NobleEvent, p.name + " gained " + NobleLabel(n), Some(map["nobleId" := Str(n.id)]), now)
  }

  function PointsOf(p: Player): int { p.points }

  /** `players.filter(p => p.points >= target)` */
  function Qualifiers(players: seq<Player>, target: int): (r: seq<Player>)
    ensures |r| <= |players|
    ensures forall k :: 0 <= k < |r| ==> r[k].points >= target
  {
    if |players| == 0 then []
    else (if players[0].points >= target then [players[0]] else []) + Qualifiers(players[1..], target)
  }

  /** The id the wrap of the turn writes: the first of the qualifying
      players sorted by points, descending and stable. */
  function WinnerOf(players: seq<Player>, target: int): Option<string> {
    var w := Qualifiers(players, target);
    if |w| > 0 then Some(SortDesc(w, PointsOf)[0].id) else None
  }

  /** `checkNoblesAndEndTurn` on values. */
  function EndTurn(s: State, now: int): (r: State)
    requires s.WellFormed()
    ensures r.WellFormed()
  {
    WrapTurn(AwardNoble(s, now))
  }

  /** The wrap of the turn: the seat moves on, and when it wraps to the
      first seat the turn counter grows and a qualifying winner is written. */
  function WrapTurn(a: State): (r: State)
    requires a.WellFormed()
    ensures r.WellFormed()
  {
    var next := NextPlayerIndex(a.currentPlayerIndex, |a.players|);
    if next == 0 then
      var w := WinnerOf(a.players, a.targetScore);
      a.(currentPlayerIndex := 0, turn := a.turn + 1, winnerId := if w.Some? then w else a.winnerId)
    else a.(currentPlayerIndex := next)
  }

  /** The inner loop of the noble scan: every required colour, in the
      order of the requirement record's keys, until one falls short. */
  method MeetsRequirements(player: Player, noble: Noble) returns (qualifies: bool)
    ensures qualifies == Qualifies(player, noble)
  {
    qualifies := true;
    for k := 0 to |NonGoldGems|
      invariant qualifies
      invariant forall j :: 0 <= j < k ==> player.bonuses.Get(NonGoldGems[j]) >= noble.requirements.Get(NonGoldGems[j])
    {
      var color := NonGoldGems[k];
      if player.bonuses.Get(color) < noble.requirements.Get(color) {
        qualifies := false;
        break;
      }
    }
    if qualifies {
      forall c | c != Gold ensures player.bonuses.Get(c) >= noble.requirements.Get(c) {
        assert NonGoldGems[Rank(c)] == c;
      }
    }
  }

  /** The noble scan of `checkNoblesAndEndTurn`, from the last noble down,
      stopping at the first visit. */
  method VisitNoble(state: GameState, now: int)
    requires state.Valid()
    modifies state
    ensures state.Snapshot() == AwardNoble(old(state.Snapshot()), now)
  {
    ghost var s := state.Snapshot();
    var player := state.players[state.currentPlayerIndex];
    var i := |state.nobles| - 1;
    while i >= 0
      invariant -1 <= i < |state.nobles|
      invariant state.Snapshot() == s
      invariant forall j :: i < j < |state.nobles| ==> !Qualifies(player, state.nobles[j])
    {
      var noble := state.nobles[i];
      var qualifies := MeetsRequirements(player, noble);
      if qualifies {
        assert HighestQualifyingNoble(player, s.nobles) == i;
        var p' := player.(nobles := player.nobles + [noble], points := player.points + noble.points);
        state.players := state.players[state.currentPlayerIndex := p'];
        state.nobles := state.nobles[..i] + state.nobles[i + 1..];
        LogAction(state, NobleEvent, player.name + " gained " + NobleLabel(noble), Some(map["nobleId" := Str(noble.id)]), now);
        return;
      }
      i := i - 1;
    }
  }

  /** `checkNoblesAndEndTurn(state)` */
  method CheckNoblesAndEndTurn(state: GameState, now: int)
    requires state.Valid()
    modifies state
    ensures state.Snapshot() == EndTurn(old(state.Snapshot()), now) && state.Valid()
  {
    VisitNoble(state, now);
    AdvanceTurn(state);
  }

  /** The wrap of `checkNoblesAndEndTurn`, after the noble step. */
  method AdvanceTurn(state: GameState)
    requires state.Valid()
    modifies state
    ensures state.Snapshot() == WrapTurn(old(state.Snapshot()))
  {
    var nextIndex := NextPlayerIndex(state.currentPlayerIndex, |state.players|);
    state.currentPlayerIndex := nextIndex;
    if nextIndex == 0 {
      state.turn := state.turn + 1;
      var winner := FindWinner(state.players, state.targetScore);
      if winner.Some? {
        state.winnerId := winner;
      }
    }
  }

  /** The winner search of the wrap: the qualifying players, sorted by
      points, and the first of them. */
  method FindWinner(players: seq<Player>, targetScore: int) returns (winner: Option<string>)
    ensures winner == WinnerOf(players, targetScore)
  {
    var winners := Qualifiers(players, targetScore);
    winner := None;
    if |winners| > 0 {
      var sorted := SortDesc(winners, PointsOf);
      winner := Some(sorted[0].id);
    }
  }

  // -------------------------------------------------------- take gems

  /** The guards of `takeGems`, in the source's order; each colour is
      checked against the bank as it was before the move. */
  predicate TakeGemsRejected(s: State, g: seq<Gem>)
    requires 0 <= s.currentPlayerIndex < |s.players|
  {
    Gold in g
    || GetGemCount(s.Current()) + |g| > MaxGems
    || (|g| == 2 && g[0] == g[1] && s.bank.Get(g[0]) < 4)
    || exists k :: 0 <= k < |g| && s.bank.Get(g[k]) <= 0
  }

  /** The state an accepted `takeGems` logs: every listed token moved from
      the bank to the current player, and both captions set. */
  function TakeGemsApply(s: State, g: seq<Gem>): (t: State)
    requires s.WellFormed()
    ensures t.WellFormed()
  {
    var p := s.Current();
    var m := Multiplicity(g);
    var player := p.(gems := p.gems.Plus(m), lastAction := Some("Took " + Join(GemNames(g), ", ")));
    s.(players := s.players[s.currentPlayerIndex := player], bank := s.bank.Minus(m),
       lastAction := Some(p.name + " took gems"))
  }

  function TakeGemsOutcome(s: State, g: seq<Gem>, now: int): (r: Option<State>)
    requires s.WellFormed()
    ensures r.Some? ==> r.value.WellFormed()
  {
    if TakeGemsRejected(s, g) then None
    else
      var t := TakeGemsApply(s, g);
      Some(EndTurn(Log(t, TakeGemsEvent, s.Current().name + " took gems", Some(TakePayload(g)), now), now))
  }

  /** The guards of `takeGems`, checked in order. */
  method TakeGemsGuards(state: GameState, gemsToTake: seq<Gem>) returns (rejected: bool)
    requires state.Valid()
    ensures rejected == TakeGemsRejected(state.Snapshot(), gemsToTake)
  {
    var currentPlayer := state.players[state.currentPlayerIndex];
    if Gold in gemsToTake {
      return true;
    }
    if GetGemCount(currentPlayer) + |gemsToTake| > MaxGems {
      return true;
    }
    if |gemsToTake| == 2 && gemsToTake[0] == gemsToTake[1] {
      if state.gems.Get(gemsToTake[0]) < 4 {
        return true;
      }
    }
    for k := 0 to |gemsToTake|
      invariant forall j :: 0 <= j < k ==> state.gems.Get(gemsToTake[j]) > 0
    {
      if state.gems.Get(gemsToTake[k]) <= 0 {
        return true;
      }
    }
    return false;
  }

  /** The `forEach` of `takeGems`: one token at a time from the bank to the player. */
  method MoveTokens(p: Player, bank: Tokens, gemsToTake: seq<Gem>) returns (player: Player, bank': Tokens)
    ensures bank' == bank.Minus(Multiplicity(gemsToTake))
    ensures player == p.(gems := p.gems.Plus(Multiplicity(gemsToTake)))
  {
    player, bank' := p, bank;
    for k := 0 to |gemsToTake|
      invariant bank' == bank.Minus(Multiplicity(gemsToTake[..k]))
      invariant player == p.(gems := p.gems.Plus(Multiplicity(gemsToTake[..k])))
    {
      var color := gemsToTake[k];
      assert gemsToTake[..k + 1] == gemsToTake[..k] + [color];
      MultiplicitySnoc(gemsToTake[..k], color);
      TokensEq(bank'.Bump(color, -1), bank.Minus(Multiplicity(gemsToTake[..k + 1])));
      TokensEq(player.gems.Bump(color, 1), p.gems.Plus(Multiplicity(gemsToTake[..k + 1])));
      bank' := bank'.Bump(color, -1);
      player := player.(gems := player.gems.Bump(color, 1));
    }
    assert gemsToTake[..|gemsToTake|] == gemsToTake;
  }

  /** `takeGems(state, gemsToTake)` */
  method TakeGems(state: GameState, gemsToTake: seq<Gem>, now: int) returns (r: GameState)
    requires state.Valid()
    ensures TakeGemsOutcome(state.Snapshot(), gemsToTake, now).None? ==> r == state
    ensures TakeGemsOutcome(state.Snapshot(), gemsToTake, now).Some? ==>
              fresh(r) && r.Valid() && r.Snapshot() == TakeGemsOutcome(state.Snapshot(), gemsToTake, now).value
  {
    var rejected := TakeGemsGuards(state, gemsToTake);
    if rejected {
      return state;
    }
    ghost var s := state.Snapshot();
    var newState := state.Clone();
    var player, bank := MoveTokens(newState.players[newState.currentPlayerIndex], newState.gems, gemsToTake);
    newState.gems := bank;
    player := player.(lastAction := Some("Took " + Join(GemNames(gemsToTake), ", ")));
    newState.players := newState.players[newState.currentPlayerIndex := player];
    var summary := player.name + " took gems";
    newState.lastAction := Some(summary);
    assert newState.Snapshot() == TakeGemsApply(s, gemsToTake);
    LogAction(newState, TakeGemsEvent, summary, Some(TakePayload(gemsToTake)), now);
    CheckNoblesAndEndTurn(newState, now);
    r := newState;
  }

  // ----------------------------------------------------- reserve a card

  /** The guards of `reserveCard`: a full reserve, an empty deck, or a
      market card that is absent or not found by id in its level's row. */
  predicate ReserveRejected(s: State, card: Option<Card>, fromDeckLevel: Option<Level>)
    requires s.WellFormed()
  {
    |s.Current().reserved| >= MaxReserved
    || (fromDeckLevel.Some? && |s.decks.Get(fromDeckLevel.value)| == 0)
    || (fromDeckLevel.None? && (card.None? || !HasId(s.market.Get(card.value.level), card.value.id)))
  }

  /** The card taken for the reserve and the state once it has left its deck
      (the top card) or its market slot (which is refilled). */
  function ReserveDraw(s: State, card: Option<Card>, fromDeckLevel: Option<Level>): (r: (State, Card))
    requires s.WellFormed() && !ReserveRejected(s, card, fromDeckLevel)
    ensures r.0.WellFormed() && r.0 == s.(market := r.0.market, decks := r.0.decks)
  {
    if fromDeckLevel.Some? then
      var deck := s.decks.Get(fromDeckLevel.value);
      assert forall k :: 0 <= k < |deck[1..]| ==> deck[1..][k] == deck[k + 1];
      (s.(decks := s.decks.With(fromDeckLevel.value, deck[1..])), deck[0])
    else
      var level := card.value.level;
      var slot := FindIndex(s.market.Get(level), card.value.id);
      ReplenishConsistent(s.market, s.decks, level, slot);
      var refilled := Replenish(s.market, s.decks, level, slot);
      (s.(market := refilled.0, decks := refilled.1), s.market.Get(level)[slot])
  }

  /** Whether the reserve comes with a gold token: the bank has gold and the
      player holds fewer than `MAX_GEMS` tokens. */
  predicate ReserveTakesGold(s: State)
    requires 0 <= s.currentPlayerIndex < |s.players|
  {
    s.bank.gold > 0 && GetGemCount(s.Current()) < MaxGems
  }

  /** The state an accepted `reserveCard` logs. */
  function ReserveApply(s: State, selected: Card): (t: State)
    requires s.WellFormed()
    ensures t.WellFormed()
  {
    var p := s.Current();
    var held := p.(reserved := p.reserved + [selected]);
    var takeGold := ReserveTakesGold(s);
    var withGold := if takeGold then held.(gems := held.gems.Bump(Gold, 1)) else held;
    var player := withGold.(lastAction := Some("Reserved " + selected.id));
    s.(players := s.players[s.currentPlayerIndex := player],
       bank := if takeGold then s.bank.Bump(Gold, -1) else s.bank,
       lastAction := Some(p.name + " reserved a card"))
  }

  function ReserveOutcome(s: State, card: Option<Card>, fromDeckLevel: Option<Level>, now: int): (r: Option<State>)
    requires s.WellFormed()
    ensures r.Some? ==> r.value.WellFormed()
  {
    if ReserveRejected(s, card, fromDeckLevel) then None
    else
      var (t, selected) := ReserveDraw(s, card, fromDeckLevel);
      Some(EndTurn(Log(ReserveApply(t, selected), ReserveEvent, s.Current().name + " reserved a card",
                       Some(ReservePayload(selected, fromDeckLevel)), now), now))
  }

  /** The guards of `reserveCard`, checked in order. */
  method ReserveGuards(state: GameState, card: Option<Card>, fromDeckLevel: Option<Level>) returns (rejected: bool)
    requires state.Valid()
    ensures rejected == ReserveRejected(state.Snapshot(), card, fromDeckLevel)
  {
    var currentPlayer := state.players[state.currentPlayerIndex];
    if |currentPlayer.reserved| >= MaxReserved {
      return true;
    }
    if fromDeckLevel.Some? {
      if |state.decks.Get(fromDeckLevel.value)| == 0 {
        return true;
      }
    } else {
      if card.None? {
        return true;
      }
      if !HasId(state.market.Get(card.value.level), card.value.id) {
        return true;
      }
    }
    return false;
  }

  /** The draw of `reserveCard`; the source's checks after it (no card
      drawn, slot not found) cannot fail once the guards have passed and are
      asserted here instead. */
  method ReserveTake(newState: GameState, card: Option<Card>, fromDeckLevel: Option<Level>)
    returns (selected: Card)
    requires newState.Valid() && !ReserveRejected(newState.Snapshot(), card, fromDeckLevel)
    modifies newState
    ensures (newState.Snapshot(), selected) == ReserveDraw(old(newState.Snapshot()), card, fromDeckLevel)
  {
    if fromDeckLevel.Some? {
      var top := DrawTop(newState.decks.Get(fromDeckLevel.value));
      assert top.card.Some?;
      newState.decks := newState.decks.With(fromDeckLevel.value, top.deck);
      selected := top.card.value;
    } else {
      var level := card.value.level;
      var slotIndex := FindIndex(newState.market.Get(level), card.value.id);
      assert slotIndex != -1;
      selected := newState.market.Get(level)[slotIndex];
      assert selected.level == level;
      ReplenishMarketSlot(newState, selected.level, slotIndex);
    }
  }

  /** The reserve itself: the card joins the player's reserve, with a gold
      token when the bank has one and the player holds fewer than `MAX_GEMS`. */
  method ReserveCredit(newState: GameState, selected: Card)
    requires newState.Valid()
    modifies newState
    ensures newState.Snapshot() == ReserveApply(old(newState.Snapshot()), selected)
  {
    var current := newState.players[newState.currentPlayerIndex];
    var player := current.(reserved := current.reserved + [selected]);
    var bank := newState.gems;
    if bank.gold > 0 && GetGemCount(player) < MaxGems {
      bank := bank.Bump(Gold, -1);
      player := player.(gems := player.gems.Bump(Gold, 1));
    }
    player := player.(lastAction := Some("Reserved " + selected.id));
    newState.gems := bank;
    newState.players := newState.players[newState.currentPlayerIndex := player];
    newState.lastAction := Some(player.name + " reserved a card");
  }

  /** `reserveCard(state, card, fromDeckLevel)` */
  method ReserveCard(state: GameState, card: Option<Card>, fromDeckLevel: Option<Level>, now: int)
    returns (r: GameState)
    requires state.Valid()
    ensures ReserveOutcome(state.Snapshot(), card, fromDeckLevel, now).None? ==> r == state
    ensures ReserveOutcome(state.Snapshot(), card, fromDeckLevel, now).Some? ==>
              fresh(r) && r.Valid() && r.Snapshot() == ReserveOutcome(state.Snapshot(), card, fromDeckLevel, now).value
  {
    var rejected := ReserveGuards(state, card, fromDeckLevel);
    if rejected {
      return state;
    }
    ghost var s := state.Snapshot();
    var newState := state.Clone();
    var selected := ReserveTake(newState, card, fromDeckLevel);
    ReserveCredit(newState, selected);
    var summary := newState.lastAction.value;
    LogAction(newState, ReserveEvent, summary, Some(ReservePayload(selected, fromDeckLevel)), now);
    CheckNoblesAndEndTurn(newState, now);
    r := newState;
  }

  // --------------------------------------------------------- buy a card

  /** Tokens of colour `c` that `buyCard` takes from the player's own gems. */
  function Spent(p: Player, card: Card, c: Gem): int {
    var cost := card.cost.Get(c);
    var effective := Max(0, cost - p.bonuses.Get(c));
    if cost == 0 || effective == 0 then 0 else Min(p.gems.Get(c), effective)
  }

  /** Gold that colour `c` of the card takes. */
  function GoldSpent(p: Player, card: Card, c: Gem): int {
    var cost := card.cost.Get(c);
    var effective := Max(0, cost - p.bonuses.Get(c));
    var remaining := effective - Spent(p, card, c);
    if cost == 0 || effective == 0 || remaining <= 0 then 0 else remaining
  }

  /** The gold that the first `k` colours of `NON_GOLD_GEMS` take. */
  function GoldOver(p: Player, card: Card, k: nat): int
    requires k <= |NonGoldGems|
  {
    if k == 0 then 0 else GoldOver(p, card, k - 1) + GoldSpent(p, card, NonGoldGems[k - 1])
  }

  /** Everything `buyCard` moves from the player to the bank. */
  function Payment(p: Player, card: Card): (t: Tokens)
    ensures forall c :: c != Gold ==> t.Get(c) == Spent(p, card, c)
    ensures t.gold == GoldOver(p, card, |NonGoldGems|)
  {
    Tokens(Spent(p, card, White), Spent(p, card, Blue), Spent(p, card, Green), Spent(p, card, Red),
           Spent(p, card, Black), GoldOver(p, card, |NonGoldGems|))
  }

  /** The guards of `buyCard`: not affordable, or not found by id where
      `isReserved` says it is. */
  predicate BuyRejected(s: State, card: Card, isReserved: bool)
    requires s.WellFormed()
  {
    !Affordable(s.Current(), card)
    || (!isReserved && !HasId(s.market.Get(card.level), card.id))
    || (isReserved && !HasId(s.Current().reserved, card.id))
  }

  /** The market slot of a card bought from the market, refilled. */
  function RefillAfterBuy(t: State, card: Card): (r: State)
    requires t.WellFormed() && HasId(t.market.Get(card.level), card.id)
    ensures r.WellFormed() && r == t.(market := r.market, decks := r.decks)
  {
    var slot := FindIndex(t.market.Get(card.level), card.id);
    ReplenishConsistent(t.market, t.decks, card.level, slot);
    var refilled := Replenish(t.market, t.decks, card.level, slot);
    t.(market := refilled.0, decks := refilled.1)
  }

  function BuyCaption(p: Player, card: Card): string {
    p.name + " built " + BonusLabel(card.bonus) + " module (" + IntToString(card.points) + " pts)"
  }

  /** The paying part of an accepted `buyCard`: the payment has moved to
      the bank, the bonus and points are credited, a reserved card has left
      the reserve. */
  function BuyPaid(s: State, card: Card, isReserved: bool): (t: State)
    requires s.WellFormed()
    ensures t.WellFormed() && t.market == s.market && t.decks == s.decks
  {
    var p := s.Current();
    s.(players := s.players[s.currentPlayerIndex := PaidBuyer(p, card, isReserved)], bank := s.bank.Plus(Payment(p, card)),
       lastAction := Some(BuyCaption(p, card)))
  }

  /** The buyer after paying: tokens spent, bonus and points credited, the
      card gone from the reserve when it came from there. */
  function PaidBuyer(p: Player, card: Card, isReserved: bool): Player {
    var paid := p.(gems := p.gems.Minus(Payment(p, card)), bonuses := p.bonuses.Bump(card.bonus, 1),
                   points := p.points + card.points);
    var kept := if isReserved then paid.(reserved := WithoutId(paid.reserved, card.id)) else paid;
    kept.(lastAction := Some("Built " + card.id + " (" + BonusLabel(card.bonus) + ", "
                             + IntToString(card.points) + " pts)"))
  }

  /** The state an accepted `buyCard` logs: paid, and the market slot of a
      card bought from the market refilled. */
  function BuyApply(s: State, card: Card, isReserved: bool): (t: State)
    requires s.WellFormed() && !BuyRejected(s, card, isReserved)
    ensures t.WellFormed()
  {
    var t := BuyPaid(s, card, isReserved);
    if isReserved then t else RefillAfterBuy(t, card)
  }

  function BuyOutcome(s: State, card: Card, isReserved: bool, now: int): (r: Option<State>)
    requires s.WellFormed()
    ensures r.Some? ==> r.value.WellFormed()
  {
    if BuyRejected(s, card, isReserved) then None
    else
      Some(EndTurn(Log(BuyApply(s, card, isReserved), BuyEvent, BuyCaption(s.Current(), card),
                       Some(BuyPayload(card, isReserved)), now), now))
  }

  /** One turn of the payment loop: the colour's own tokens first, then
      gold for what remains. */
  method PayColour(player: Player, bank: Tokens, card: Card, color: Gem) returns (player': Player, bank': Tokens)
    requires color != Gold
    ensures player' == player.(gems := player.gems.Bump(color, -Spent(player, card, color))
                                                  .Bump(Gold, -GoldSpent(player, card, color)))
    ensures bank' == bank.Bump(color, Spent(player, card, color)).Bump(Gold, GoldSpent(player, card, color))
  {
    player', bank' := player, bank;
    var cost := card.cost.Get(color);
    if cost == 0 {
      NoSpend(player, bank, color);
      return;
    }
    var bonus := player.bonuses.Get(color);
    var effectiveCost := Max(0, cost - bonus);
    if effectiveCost == 0 {
      NoSpend(player, bank, color);
      return;
    }
    var available := player.gems.Get(color);
    var spentFromColor := Min(available, effectiveCost);
    assert spentFromColor == Spent(player, card, color);
    player' := player'.(gems := player'.gems.Bump(color, -spentFromColor));
    bank' := bank'.Bump(color, spentFromColor);
    var remaining := effectiveCost - spentFromColor;
    if remaining > 0 {
      assert remaining == GoldSpent(player, card, color);
      player' := player'.(gems := player'.gems.Bump(Gold, -remaining));
      bank' := bank'.Bump(Gold, remaining);
    } else {
      assert GoldSpent(player, card, color) == 0;
      BumpZero(player'.gems, Gold);
      BumpZero(bank', Gold);
    }
  }

  lemma NoSpend(player: Player, bank: Tokens, color: Gem)
    ensures player == player.(gems := player.gems.Bump(color, 0).Bump(Gold, 0))
    ensures bank == bank.Bump(color, 0).Bump(Gold, 0)
  {
    BumpZero(player.gems, color);
    BumpZero(player.gems, Gold);
    BumpZero(bank, color);
    BumpZero(bank, Gold);
  }

  /** What the first `k` colours of `NON_GOLD_GEMS` take. */
  function PaidBefore(p: Player, card: Card, k: nat): (t: Tokens)
    requires k <= |NonGoldGems|
  {
    if k == 0 then NoTokens
    else
      var c := NonGoldGems[k - 1];
      PaidBefore(p, card, k - 1).Bump(c, Spent(p, card, c)).Bump(Gold, GoldSpent(p, card, c))
  }

  lemma PaidBeforeAll(p: Player, card: Card)
    ensures PaidBefore(p, card, |NonGoldGems|) == Payment(p, card)
  {
    var t := PaidBefore(p, card, 5);
    assert PaidBefore(p, card, 1).white == Spent(p, card, White);
    assert PaidBefore(p, card, 2).blue == Spent(p, card, Blue);
    assert PaidBefore(p, card, 3).green == Spent(p, card, Green);
    assert PaidBefore(p, card, 4).red == Spent(p, card, Red);
    assert t.black == Spent(p, card, Black);
    PaidBeforeGold(p, card, 5);
    TokensEq(t, Payment(p, card));
  }

  /** The payment loop of `buyCard` over `NON_GOLD_GEMS`. */
  method Pay(p: Player, card: Card, bank: Tokens) returns (player: Player, bank': Tokens)
    ensures player == p.(gems := p.gems.Minus(Payment(p, card)))
    ensures bank' == bank.Plus(Payment(p, card))
  {
    player, bank' := PayColours(p, card, bank);
    PaidBeforeAll(p, card);
  }

  /** The loop itself, tracked colour by colour. */
  method PayColours(p: Player, card: Card, bank: Tokens) returns (player: Player, bank': Tokens)
    ensures player == p.(gems := p.gems.Minus(PaidBefore(p, card, |NonGoldGems|)))
    ensures bank' == bank.Plus(PaidBefore(p, card, |NonGoldGems|))
  {
    player, bank' := p, bank;
    for k := 0 to |NonGoldGems|
      invariant player == p.(gems := p.gems.Minus(PaidBefore(p, card, k)))
      invariant bank' == bank.Plus(PaidBefore(p, card, k))
    {
      var color := NonGoldGems[k];
      ghost var before := PaidBefore(p, card, k);
      ghost var sp := Spent(p, card, color);
      ghost var gs := GoldSpent(p, card, color);
      PaidBeforeUntouched(p, card, k);
      assert player.gems.Get(color) == p.gems.Get(color);
      assert Spent(player, card, color) == sp;
      assert GoldSpent(player, card, color) == gs;
      player, bank' := PayColour(player, bank', card, color);
      MinusBump(p.gems, before, color, sp);
      MinusBump(p.gems, before.Bump(color, sp), Gold, gs);
      PlusBump(bank, before, color, sp);
      PlusBump(bank, before.Bump(color, sp), Gold, gs);
    }
  }

  lemma {:induction false} PaidBeforeGold(p: Player, card: Card, k: nat)
    requires k <= |NonGoldGems|
    ensures PaidBefore(p, card, k).gold == GoldOver(p, card, k)
  {
    if k > 0 {
      PaidBeforeGold(p, card, k - 1);
    }
  }

  /** Colours not yet paid for have paid nothing. */
  lemma {:induction false} PaidBeforeUntouched(p: Player, card: Card, k: nat)
    requires k < |NonGoldGems|
    ensures PaidBefore(p, card, k).Get(NonGoldGems[k]) == 0
  {
    var j := k;
    while j > 0
      invariant 0 <= j <= k
      invariant PaidBefore(p, card, k).Get(NonGoldGems[k]) == PaidBefore(p, card, j).Get(NonGoldGems[k])
    {
      assert NonGoldGems[j - 1] != NonGoldGems[k];
      j := j - 1;
    }
  }

  /** The payment, the credit and the reserve removal of `buyCard`. */
  method BuyCredit(newState: GameState, card: Card, isReserved: bool)
    requires newState.Valid()
    modifies newState
    ensures newState.Snapshot() == BuyPaid(old(newState.Snapshot()), card, isReserved)
  {
    ghost var s := newState.Snapshot();
    var current := newState.players[newState.currentPlayerIndex];
    var player, bank := PayBuyer(current, card, isReserved, newState.gems);
    var caption := current.name + " built " + BonusLabel(card.bonus) + " module (" + IntToString(card.points) + " pts)";
    assert caption == BuyCaption(current, card);
    var players := newState.players[newState.currentPlayerIndex := player];
    newState.players, newState.gems, newState.lastAction := players, bank, Some(caption);
  }

  /** The buyer's side of `buyCard`: pay, take the bonus and the points, and
      drop the card from the reserve when it came from there. */
  method PayBuyer(current: Player, card: Card, isReserved: bool, bank: Tokens) returns (player: Player, bank': Tokens)
    ensures player == PaidBuyer(current, card, isReserved)
    ensures bank' == bank.Plus(Payment(current, card))
  {
    player, bank' := Pay(current, card, bank);
    player := player.(bonuses := player.bonuses.Bump(card.bonus, 1));
    player := player.(points := player.points + card.points);
    if isReserved {
      player := player.(reserved := WithoutId(player.reserved, card.id));
    }
    var bonusLabel := BonusLabel(card.bonus);
    var pointsLabel := IntToString(card.points);
    player := player.(lastAction := Some("Built " + card.id + " (" + bonusLabel + ", " + pointsLabel + " pts)"));
  }

  /** The market refill of `buyCard`; the slot is always found, since the
      guard saw the card in its row. */
  method RefillBoughtSlot(newState: GameState, card: Card)
    requires newState.Valid() && HasId(newState.market.Get(card.level), card.id)
    modifies newState
    ensures newState.Snapshot() == RefillAfterBuy(old(newState.Snapshot()), card)
  {
    var slotIndex := FindIndex(newState.market.Get(card.level), card.id);
    if slotIndex != -1 {
      ReplenishMarketSlot(newState, card.level, slotIndex);
    }
  }

  /** `buyCard(state, card, isReserved)` */
  method BuyCard(state: GameState, card: Card, isReserved: bool, now: int) returns (r: GameState)
    requires state.Valid()
    ensures BuyOutcome(state.Snapshot(), card, isReserved, now).None? ==> r == state
    ensures BuyOutcome(state.Snapshot(), card, isReserved, now).Some? ==>
              fresh(r) && r.Valid() && r.Snapshot() == BuyOutcome(state.Snapshot(), card, isReserved, now).value
  {
    var currentPlayer := state.players[state.currentPlayerIndex];
    var affordable := CanBuyCard(currentPlayer, card);
    if !affordable {
      return state;
    }
    if !isReserved {
      if !HasId(state.market.Get(card.level), card.id) {
        return state;
      }
    } else {
      if !HasId(currentPlayer.reserved, card.id) {
        return state;
      }
    }
    ghost var s := state.Snapshot();
    assert !BuyRejected(s, card, isReserved);
    var newState := state.Clone();
    BuyCredit(newState, card, isReserved);
    if !isReserved {
      RefillBoughtSlot(newState, card);
    }
    assert newState.Snapshot() == BuyApply(s, card, isReserved);
    var summary := newState.lastAction.value;
    LogAction(newState, BuyEvent, summary, Some(BuyPayload(card, isReserved)), now);
    CheckNoblesAndEndTurn(newState, now);
    r := newState;
  }

  // ------------------------------------------------------------ passing

  function StrategyValue(o: Option<Strategy>): Value {
    if o.Some? then Str(StrategyName(o.value)) else Undefined
  }

  function SourceValue(o: Option<MoveSource>): Value {
    if o.Some? then Str(SourceName(o.value)) else Undefined
  }

  /** `passTurn(state, strategy, source)`: always a fresh state. */
  function PassOutcome(s: State, strategy: Option<Strategy>, source: Option<MoveSource>, now: int): (r: State)
    requires s.WellFormed()
    ensures r.WellFormed()
  {
    var summary := s.Current().name + " passed";
    var t := s.(lastAction := Some(summary));
    EndTurn(Log(t, PassEvent, summary, Some(map["strategy" := StrategyValue(strategy), "source" := SourceValue(source)]), now), now)
  }

  method PassTurn(state: GameState, strategy: Option<Strategy>, source: Option<MoveSource>, now: int)
    returns (r: GameState)
    requires state.Valid()
    ensures fresh(r) && r.Snapshot() == PassOutcome(state.Snapshot(), strategy, source, now) && r.Valid()
  {
    var newState := state.Clone();
    var aiPlayer := newState.players[newState.currentPlayerIndex];
    var summary := aiPlayer.name + " passed";
    newState.lastAction := Some(summary);
    LogAction(newState, PassEvent, summary,
              Some(map["strategy" := StrategyValue(strategy), "source" := SourceValue(source)]), now);
    CheckNoblesAndEndTurn(newState, now);
    r := newState;
  }

  // ------------------------------------------------- applying a decision

  /** The `RESERVE` case of `applyAIDecision`: from a deck when a level is
      named, else the market card with that id, else a pass. */
  function ApplyReserve(s: State, d: Decision, now: int): (r: Option<State>)
    requires s.WellFormed()
    ensures r.Some? ==> r.value.WellFormed()
  {
    if d.reserveFromDeckLevel.Some? then ReserveOutcome(s, None, d.reserveFromDeckLevel, now)
    else if Truthy(d.cardId) && CardInMarket(s.market, d.cardId.value).Some? then
      ReserveOutcome(s, CardInMarket(s.market, d.cardId.value), None, now)
    else Some(PassOutcome(s, d.strategyUsed, Some(d.source), now))
  }

  /** Where the `BUY` case of `applyAIDecision` looks for the card:
      `fromReserve`, or else whether the reserve holds that id. */
  function BuyFromReserve(p: Player, d: Decision): bool
    requires Truthy(d.cardId)
  {
    if d.fromReserve.Some? then d.fromReserve.value else HasId(p.reserved, d.cardId.value)
  }

  /** The `BUY` case of `applyAIDecision`. */
  function ApplyBuy(s: State, d: Decision, now: int): (r: Option<State>)
    requires s.WellFormed()
    ensures r.Some? ==> r.value.WellFormed()
  {
    if !Truthy(d.cardId) then Some(PassOutcome(s, d.strategyUsed, Some(d.source), now))
    else
      var id := d.cardId.value;
      var fromReserve := BuyFromReserve(s.Current(), d);
      var target := if fromReserve then FindById(s.Current().reserved, id) else CardInMarket(s.market, id);
      if target.Some? then BuyOutcome(s, target.value, fromReserve, now)
      else Some(PassOutcome(s, d.strategyUsed, Some(d.source), now))
  }

  /** `applyAIDecision` on values; `None` when it hands back the same state,
      which happens only when the action it delegates to rejects the move. */
  function ApplyOutcome(s: State, decision: Option<Decision>, now: int): (r: Option<State>)
    requires s.WellFormed()
    ensures r.Some? ==> r.value.WellFormed()
  {
    if decision.None? then Some(PassOutcome(s, None, None, now))
    else
      var d := decision.value;
      match d.kind
      case TakeGemsAction =>
        if d.gems.Some? && |d.gems.value| > 0 then TakeGemsOutcome(s, d.gems.value, now)
        else Some(PassOutcome(s, d.strategyUsed, Some(d.source), now))
      case ReserveAction => ApplyReserve(s, d, now)
      case BuyAction => ApplyBuy(s, d, now)
      case PassAction => Some(PassOutcome(s, d.strategyUsed, Some(d.source), now))
  }

  method ApplyReserveDecision(state: GameState, d: Decision, now: int) returns (r: GameState)
    requires state.Valid()
    ensures ApplyReserve(state.Snapshot(), d, now).None? ==> r == state
    ensures ApplyReserve(state.Snapshot(), d, now).Some? ==>
              fresh(r) && r.Valid() && r.Snapshot() == ApplyReserve(state.Snapshot(), d, now).value
  {
    if d.reserveFromDeckLevel.Some? {
      r := ReserveCard(state, None, d.reserveFromDeckLevel, now);
      return;
    }
    if Truthy(d.cardId) {
      var target := FindCardInMarket(state, d.cardId.value);
      if target.Some? {
        r := ReserveCard(state, target, None, now);
        return;
      }
    }
    r := PassTurn(state, d.strategyUsed, Some(d.source), now);
  }

  method ApplyBuyDecision(state: GameState, d: Decision, now: int) returns (r: GameState)
    requires state.Valid()
    ensures ApplyBuy(state.Snapshot(), d, now).None? ==> r == state
    ensures ApplyBuy(state.Snapshot(), d, now).Some? ==>
              fresh(r) && r.Valid() && r.Snapshot() == ApplyBuy(state.Snapshot(), d, now).value
  {
    ghost var s := state.Snapshot();
    if !Truthy(d.cardId) {
      r := PassTurn(state, d.strategyUsed, Some(d.source), now);
      return;
    }
    var player := state.players[state.currentPlayerIndex];
    assert player == s.Current();
    var fromReserve := if d.fromReserve.Some? then d.fromReserve.value else HasId(player.reserved, d.cardId.value);
    assert fromReserve == BuyFromReserve(s.Current(), d);
    var target: Option<Card>;
    if fromReserve {
      target := FindById(player.reserved, d.cardId.value);
    } else {
      target := FindCardInMarket(state, d.cardId.value);
    }
    if target.Some? {
      assert ApplyBuy(s, d, now) == BuyOutcome(s, target.value, fromReserve, now);
      r := BuyCard(state, target.value, fromReserve, now);
      return;
    }
    assert ApplyBuy(s, d, now) == Some(PassOutcome(s, d.strategyUsed, Some(d.source), now));
    r := PassTurn(state, d.strategyUsed, Some(d.source), now);
  }

  /** `applyAIDecision(state, decision)` */
  method ApplyAIDecision(state: GameState, decision: Option<Decision>, now: int) returns (r: GameState)
    requires state.Valid()
    ensures ApplyOutcome(state.Snapshot(), decision, now).None? ==> r == state
    ensures ApplyOutcome(state.Snapshot(), decision, now).Some? ==>
              fresh(r) && r.Valid() && r.Snapshot() == ApplyOutcome(state.Snapshot(), decision, now).value
  {
    if decision.None? {
      r := PassTurn(state, None, None, now);
      return;
    }
    var d := decision.value;
    match d.kind {
      case TakeGemsAction =>
        if d.gems.Some? && |d.gems.value| > 0 {
          r := TakeGems(state, d.gems.value, now);
          return;
        }
        r := PassTurn(state, d.strategyUsed, Some(d.source), now);
      case ReserveAction =>
        r := ApplyReserveDecision(state, d, now);
      case BuyAction =>
        r := ApplyBuyDecision(state, d, now);
      case PassAction =>
        r := PassTurn(state, d.strategyUsed, Some(d.source), now);
    }
  }

  // ------------------------------------------------------------- set-up

  /** The player `initializeGame` seats at `seatIndex`. */
  function SeatPlayer(seats: seq<PlayerConfig>, seatIndex: nat): (p: Player)
    requires seatIndex < 4
    ensures seatIndex >= |seats| ==>
              p.id == "ai-" + NatToString(seatIndex + 1) && !p.isHuman && p.avatarId == seatIndex + 5
              && p.strategy == Some(DefaultAIStrategies[seatIndex])
    ensures seatIndex < |seats| ==> p.isHuman == seats[seatIndex].isHuman && p.strategy == seats[seatIndex].strategy
    ensures seatIndex < |seats| && seats[seatIndex].id != "" ==> p.id == seats[seatIndex].id
    ensures p.gems == NoTokens && p.bonuses == NoTokens && p.reserved == [] && p.points == 0 && p.nobles == []
  {
    if seatIndex < |seats| then
      var provided := seats[seatIndex];
      var name := if provided.name != "" then provided.name else "Explorer " + NatToString(seatIndex + 1);
      var avatarId := if provided.avatarId.Some? then provided.avatarId.value
                      else if provided.isHuman then seatIndex + 1 else seatIndex + 5;
      var id := if provided.id != "" then provided.id
                else if provided.isHuman then "player-" + NatToString(seatIndex + 1)
                else "ai-" + NatToString(seatIndex + 1);
      CreatePlayer(id, name, provided.isHuman, avatarId, provided.strategy)
    else
      var aiName := AvatarNames[seatIndex];
      var aiStrategy := DefaultAIStrategies[seatIndex % |DefaultAIStrategies|];
      CreatePlayer("ai-" + NatToString(seatIndex + 1), aiName, false, seatIndex + 5, Some(aiStrategy))
  }

  /** The number of values `shuffle` draws from the random source. */
  function RollsFor(n: nat): nat { if n > 0 then n - 1 else 0 }

  /** A shuffled deck of one level and its first four cards laid out. */
  method Deal(deck: seq<Card>, rolls: seq<real>) returns (market: seq<Card>, rest: seq<Card>)
    requires |rolls| == RollsFor(|deck|)
    requires forall k :: 0 <= k < |rolls| ==> 0.0 <= rolls[k] < 1.0
    ensures multiset(market) + multiset(rest) == multiset(deck)
    ensures |market| == Min(4, |deck|)
    ensures forall c :: c in market || c in rest ==> c in deck
  {
    var shuffled := Shuffle(deck, rolls);
    var d := DrawMany(shuffled, 4);
    market, rest := d.drawn, d.deck;
    assert shuffled == market + rest;
    forall c | c in market || c in rest ensures c in deck {
      assert c in multiset(shuffled);
    }
  }

  predicate AllIn(cards: seq<Card>, l: Level) { forall k :: 0 <= k < |cards| ==> cards[k].level == l }

  lemma AllInFromMembership(cards: seq<Card>, source: seq<Card>, l: Level)
    requires AllIn(source, l) && forall c :: c in cards ==> c in source
    ensures AllIn(cards, l)
  {
    forall k | 0 <= k < |cards| ensures cards[k].level == l {
      assert cards[k] in source;
    }
  }

  /** The four players of a new game, seat by seat. */
  function SeatAll(seats: seq<PlayerConfig>): (players: seq<Player>)
    ensures |players| == 4 && forall i :: 0 <= i < 4 ==> players[i] == SeatPlayer(seats, i)
  {
    [SeatPlayer(seats, 0), SeatPlayer(seats, 1), SeatPlayer(seats, 2), SeatPlayer(seats, 3)]
  }

  /** The rolls the three deck shuffles draw together. */
  function DealRolls(decks: Rows): nat {
    RollsFor(|decks.level1|) + RollsFor(|decks.level2|) + RollsFor(|decks.level3|)
  }

  /** The three decks shuffled in level order, four cards of each laid out. */
  method DealRows(decks: Rows, rolls: seq<real>) returns (market: Rows, rest: Rows)
    requires decks.Consistent() && |rolls| == DealRolls(decks)
    requires forall k :: 0 <= k < |rolls| ==> 0.0 <= rolls[k] < 1.0
    ensures market.Consistent() && rest.Consistent()
    ensures forall l: Level :: multiset(market.Get(l)) + multiset(rest.Get(l)) == multiset(decks.Get(l))
    ensures forall l: Level :: |market.Get(l)| == Min(4, |decks.Get(l)|)
  {
    var n1 := RollsFor(|decks.level1|);
    var n2 := RollsFor(|decks.level2|);
    var n3 := RollsFor(|decks.level3|);
    var market1, rest1 := Deal(decks.level1, rolls[..n1]);
    var market2, rest2 := Deal(decks.level2, rolls[n1..n1 + n2]);
    var market3, rest3 := Deal(decks.level3, rolls[n1 + n2..]);
    AllInFromMembership(market1, decks.level1, 1);
    AllInFromMembership(rest1, decks.level1, 1);
    AllInFromMembership(market2, decks.level2, 2);
    AllInFromMembership(rest2, decks.level2, 2);
    AllInFromMembership(market3, decks.level3, 3);
    AllInFromMembership(rest3, decks.level3, 3);
    market, rest := Rows(market1, market2, market3), Rows(rest1, rest2, rest3);
  }

  /** `shuffle(NOBLES).slice(0, 5)` */
  method DealNobles(rolls: seq<real>) returns (nobles: seq<Noble>)
    requires |rolls| == RollsFor(|Nobles|)
    requires forall k :: 0 <= k < |rolls| ==> 0.0 <= rolls[k] < 1.0
    ensures |nobles| == 5 && multiset(nobles) <= multiset(Nobles)
  {
    var shuffled := Shuffle(Nobles, rolls);
    nobles := shuffled[..5];
    assert shuffled == nobles + shuffled[5..];
  }

  /** `initializeGame({ seats, targetScore })` with the catalogue text
      `cardsRaw` and the values `rolls` of the random source, consumed by
      the four shuffles in order. */
  method InitializeGame(seats: seq<PlayerConfig>, targetScore: Option<int>, cardsRaw: string, rolls: seq<real>)
    returns (g: GameState)
    requires |rolls| == DealRolls(InitialDecks(ParseCards(cardsRaw))) + RollsFor(|Nobles|)
    requires forall k :: 0 <= k < |rolls| ==> 0.0 <= rolls[k] < 1.0
    ensures fresh(g) && g.Valid()
    ensures |g.players| == 4 && forall i :: 0 <= i < 4 ==> g.players[i] == SeatPlayer(seats, i)
    ensures forall l: Level :: multiset(g.market.Get(l)) + multiset(g.decks.Get(l))
                                == multiset(InitialDecks(ParseCards(cardsRaw)).Get(l))
    ensures forall l: Level :: |g.market.Get(l)| == Min(4, |InitialDecks(ParseCards(cardsRaw)).Get(l)|)
    ensures |g.nobles| == 5 && multiset(g.nobles) <= multiset(Nobles)
    ensures g.gems == Tokens(7, 7, 7, 7, 7, 5)
    ensures g.currentPlayerIndex == 0 && g.winnerId == None && g.turn == 1 && g.history == []
    ensures g.targetScore == (if targetScore.Some? then targetScore.value else TargetScoreDefault)
    ensures g.lastAction == Some("Mission Started")
  {
    var initial := InitialDecks(ParseCards(cardsRaw));
    var n := DealRolls(initial);
    var market, decks := DealRows(initial, rolls[..n]);
    var nobles := DealNobles(rolls[n..]);
    var players := SeatAll(seats);
    var s := State(players, 0, market, decks, nobles, Tokens(7, 7, 7, 7, 7, 5), None,
                   if targetScore.Some? then targetScore.value else TargetScoreDefault,
                   1, Some("Mission Started"), []);
    g := new GameState.FromState(s);
  }

  // ---------------------------------------------------------- AI turn

  /** `performAIMove(state)`: a human's turn is left alone; otherwise the
      current player's decision is chosen and applied. `remote` and `roll`
      stand for the remote model's answer and the strategy's random draw. */
  method PerformAIMove(state: GameState, remote: Option<Decision>, roll: real, now: int) returns (r: GameState)
    requires state.Valid() && 0.0 <= roll < 1.0
    ensures state.Snapshot().Current().isHuman ==> r == state
    ensures !state.Snapshot().Current().isHuman ==>
              var d := AIChoice(state.Snapshot(), state.Snapshot().Current(), remote, roll);
              (ApplyOutcome(state.Snapshot(), Some(d), now).None? ==> r == state)
              && (ApplyOutcome(state.Snapshot(), Some(d), now).Some? ==>
                    fresh(r) && r.Valid() && r.Snapshot() == ApplyOutcome(state.Snapshot(), Some(d), now).value)
  {
    var aiPlayer := state.players[state.currentPlayerIndex];
    if aiPlayer.isHuman {
      return state;
    }
    var decision := ChooseAIMove(state.Snapshot(), aiPlayer, remote, roll);
    r := ApplyAIDecision(state, Some(decision), now);
  }
}
