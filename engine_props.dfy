/** Properties of the action engine of services/gameEngine.ts: what each
    accepted action moves, the conservation of tokens, the noble step, turn
    order and the winner, and the agreement between the AI's gem take and
    the engine's guards. */
module EngineProperties {
  import opened Text
  import opened Gems
  import opened Entities
  import opened Ordering
  import opened GameUtils
  import opened Catalog
  import opened DecisionEngine
  import opened GameEngine

  // ------------------------------------------------------------ supply

  /** Tokens of colour `c` the players hold together. */
  function Held(players: seq<Player>, c: Gem): int {
    if |players| == 0 then 0 else players[0].gems.Get(c) + Held(players[1..], c)
  }

  /** Tokens of colour `c` in play: in the bank or in a player's hand. */
  function Supply(s: State, c: Gem): int {
    s.bank.Get(c) + Held(s.players, c)
  }

  lemma {:induction false} HeldUpdate(players: seq<Player>, i: nat, p: Player, c: Gem)
    requires i < |players|
    ensures Held(players[i := p], c) == Held(players, c) - players[i].gems.Get(c) + p.gems.Get(c)
  {
    if i > 0 {
      HeldUpdate(players[1..], i - 1, p, c);
      assert players[i := p][1..] == players[1..][i - 1 := p];
    } else {
      assert players[i := p][1..] == players[1..];
    }
  }

  /** Seat by seat the same gems, bonuses and reserve. */
  predicate SameHoldings(a: seq<Player>, b: seq<Player>) {
    |a| == |b|
    && forall i :: 0 <= i < |a| ==> a[i].gems == b[i].gems && a[i].bonuses == b[i].bonuses && a[i].reserved == b[i].reserved
  }

  lemma {:induction false} HeldSameHoldings(a: seq<Player>, b: seq<Player>, c: Gem)
    requires SameHoldings(a, b)
    ensures Held(a, c) == Held(b, c)
  {
    if |a| > 0 {
      assert SameHoldings(a[1..], b[1..]);
      HeldSameHoldings(a[1..], b[1..], c);
    }
  }

  /** A freshly seated table holds no token. */
  lemma {:induction false} HeldNothing(players: seq<Player>, c: Gem)
    requires forall i :: 0 <= i < |players| ==> players[i].gems == NoTokens
    ensures Held(players, c) == 0
  {
    if |players| > 0 {
      HeldNothing(players[1..], c);
    }
  }

  /** `initializeGame` puts 7 tokens of each colour and 5 gold into play,
      all of them in the bank. */
  lemma InitialSupply(seats: seq<PlayerConfig>, s: State)
    requires s.players == SeatAll(seats) && s.bank == Tokens(7, 7, 7, 7, 7, 5)
    ensures forall c :: c != Gold ==> Supply(s, c) == 7
    ensures Supply(s, Gold) == 5
  {
    forall c ensures Held(s.players, c) == 0 {
      HeldNothing(s.players, c);
    }
  }

  // ---------------------------------------------------- end of a turn

  /** The end of a turn moves no token and no card of a player's hand or
      reserve, and keeps the market and the decks. */
  lemma AwardNobleKeeps(s: State, now: int)
    requires s.WellFormed()
    ensures var r := AwardNoble(s, now);
            r.bank == s.bank && r.market == s.market && r.decks == s.decks
            && SameHoldings(r.players, s.players)
            && r.currentPlayerIndex == s.currentPlayerIndex && r.turn == s.turn
            && r.winnerId == s.winnerId && r.targetScore == s.targetScore
  {
  }

  lemma EndTurnKeeps(s: State, now: int)
    requires s.WellFormed()
    ensures var r := EndTurn(s, now);
            r.bank == s.bank && r.market == s.market && r.decks == s.decks
            && SameHoldings(r.players, s.players)
    ensures forall c :: Supply(EndTurn(s, now), c) == Supply(s, c)
  {
    var a := AwardNoble(s, now);
    AwardNobleKeeps(s, now);
    WrapTurnKeeps(a);
    var r := EndTurn(s, now);
    assert r == WrapTurn(a);
    assert SameHoldings(r.players, s.players);
    forall c ensures Supply(r, c) == Supply(s, c) {
      HeldSameHoldings(r.players, s.players, c);
    }
  }

  /** The wrap of the turn touches only the seat, the turn counter and the
      winner. */
  lemma WrapTurnKeeps(a: State)
    requires a.WellFormed()
    ensures var r := WrapTurn(a);
            r.players == a.players && r.bank == a.bank && r.market == a.market && r.decks == a.decks
            && r.nobles == a.nobles && r.history == a.history && r.targetScore == a.targetScore
            && r.lastAction == a.lastAction
  {
  }

  /** The noble step does nothing when the current player qualifies for no noble. */
  lemma AwardNobleSkips(s: State, now: int)
    requires s.WellFormed() && HighestQualifyingNoble(s.Current(), s.nobles) < 0
    ensures AwardNoble(s, now) == s
  {
  }

  /** Otherwise it awards one noble: the one of highest index the current
      player qualifies for, which leaves the board for the player's tableau
      and adds its points, and it logs one noble entry. */
  lemma AwardNobleEffect(s: State, now: int, k: int)
    requires s.WellFormed() && k == HighestQualifyingNoble(s.Current(), s.nobles) && k >= 0
    ensures var r := AwardNoble(s, now);
            var i := s.currentPlayerIndex;
            |r.players| == |s.players| && r.currentPlayerIndex == i
            && r.nobles == s.nobles[..k] + s.nobles[k + 1..] && |r.nobles| == |s.nobles| - 1
            && r.players[i].nobles == s.players[i].nobles + [s.nobles[k]]
            && r.players[i].points == s.players[i].points + s.nobles[k].points
            && (forall j :: k < j < |s.nobles| ==> !Qualifies(s.Current(), s.nobles[j]))
            && |r.history| == |s.history| + 1 && r.history[|s.history|].kind == NobleEvent
  {
  }

  /** The noble step keeps the log written so far and every other player. */
  lemma AwardNobleOthers(s: State, now: int)
    requires s.WellFormed()
    ensures var r := AwardNoble(s, now);
            |r.history| >= |s.history| && r.history[..|s.history|] == s.history
            && |r.players| == |s.players|
            && forall j :: 0 <= j < |s.players| && j != s.currentPlayerIndex ==> r.players[j] == s.players[j]
  {
    var k := HighestQualifyingNoble(s.Current(), s.nobles);
    var r := AwardNoble(s, now);
    if k < 0 {
      AwardNobleSkips(s, now);
    } else {
      var t := AwardNobleStep(s, now, k);
      assert r.history[..|s.history|] == t.history;
    }
  }

  /** The state the noble step logs its entry on. */
  lemma AwardNobleStep(s: State, now: int, k: int) returns (t: State)
    requires s.WellFormed() && k == HighestQualifyingNoble(s.Current(), s.nobles) && k >= 0
    ensures t.history == s.history && |t.players| == |s.players| && t.currentPlayerIndex == s.currentPlayerIndex
    ensures forall j :: 0 <= j < |s.players| && j != s.currentPlayerIndex ==> t.players[j] == s.players[j]
    ensures AwardNoble(s, now).history == t.history + [AwardNoble(s, now).history[|t.history|]]
    ensures AwardNoble(s, now).players == t.players
  {
    var p := s.Current();
    var n := s.nobles[k];
    var p' := p.(nobles := p.nobles + [n], points := p.points + n.points);
    t := s.(players := s.players[s.currentPlayerIndex := p'], nobles := s.nobles[..k] + s.nobles[k + 1..]);
    assert AwardNoble(s, now) == Log(t, NobleEvent, p.name + " gained " + NobleLabel(n), Some(map["nobleId" := Str(n.id)]), now);
  }

  /** The turn passes to the next seat; the turn counter and the winner
      change only when the seat wraps to 0. */
  lemma EndTurnOrder(s: State, now: int)
    requires s.WellFormed()
    ensures var r := EndTurn(s, now);
            var a := AwardNoble(s, now);
            r.currentPlayerIndex == NextPlayerIndex(s.currentPlayerIndex, |s.players|)
            && r.currentPlayerIndex == (s.currentPlayerIndex + 1) % |s.players|
            && r.turn == (if r.currentPlayerIndex == 0 then s.turn + 1 else s.turn)
            && (r.currentPlayerIndex != 0 ==> r.winnerId == s.winnerId)
            && (r.currentPlayerIndex == 0 ==>
                  r.winnerId == (if WinnerOf(a.players, s.targetScore).Some? then WinnerOf(a.players, s.targetScore) else s.winnerId))
            && r.players == a.players && r.nobles == a.nobles && r.history == a.history
  {
    AwardNobleKeeps(s, now);
  }

  // ------------------------------------------------------------ winner

  /** The winner the wrap writes is a qualifying player with the most
      points, and every qualifying player seated before them has fewer. */
  lemma {:induction false} WinnerIsEarliestBest(players: seq<Player>, target: int)
    requires WinnerOf(players, target).Some?
    ensures exists i :: 0 <= i < |players| && players[i].id == WinnerOf(players, target).value
              && players[i].points >= target
              && (forall j :: 0 <= j < |players| && players[j].points >= target ==> players[j].points <= players[i].points)
              && (forall j :: 0 <= j < i && players[j].points >= target ==> players[j].points < players[i].points)
  {
    var w := Qualifiers(players, target);
    SortDescHead(w, PointsOf);
    var i := QualifierSeat(players, target);
    assert players[i] == w[FirstMax(w, PointsOf)];
    forall j | 0 <= j < |players| && players[j].points >= target ensures players[j].points <= players[i].points {
      QualifierMax(players, target, j);
    }
  }

  /** `Qualifiers` keeps exactly the players at or above the target. */
  lemma {:induction false} QualifiersComplete(players: seq<Player>, target: int, j: nat)
    requires j < |players| && players[j].points >= target
    ensures players[j] in Qualifiers(players, target)
  {
    if j > 0 {
      QualifiersComplete(players[1..], target, j - 1);
    }
  }

  lemma {:induction false} QualifiersSound(players: seq<Player>, target: int, q: Player)
    requires q in Qualifiers(players, target)
    ensures q in players
  {
    if |players| > 0 {
      if q != players[0] || players[0].points < target {
        QualifiersSound(players[1..], target, q);
      }
    }
  }

  /** The first qualifying player of most points is no worse than any
      qualifying player. */
  lemma QualifierMax(players: seq<Player>, target: int, j: nat)
    requires |Qualifiers(players, target)| > 0 && j < |players| && players[j].points >= target
    ensures var w := Qualifiers(players, target);
            players[j].points <= w[FirstMax(w, PointsOf)].points
  {
    var w := Qualifiers(players, target);
    QualifiersComplete(players, target, j);
    var k :| 0 <= k < |w| && w[k] == players[j];
    assert PointsOf(w[k]) <= PointsOf(w[FirstMax(w, PointsOf)]);
  }

  /** The seat of the first qualifying player of most points. */
  lemma {:induction false} QualifierSeat(players: seq<Player>, target: int) returns (i: nat)
    requires |Qualifiers(players, target)| > 0
    ensures var w := Qualifiers(players, target);
            i < |players| && players[i] == w[FirstMax(w, PointsOf)]
            && (forall j :: 0 <= j < i && players[j].points >= target ==> players[j].points < players[i].points)
  {
    var w := Qualifiers(players, target);
    var m := FirstMax(w, PointsOf);
    var t := players[1..];
    QualifierHead(players, target);
    if players[0].points >= target && m == 0 {
      i := 0;
    } else {
      var wt := Qualifiers(t, target);
      var i' := QualifierSeat(t, target);
      i := i' + 1;
      var best := wt[FirstMax(wt, PointsOf)];
      assert players[i] == t[i'] == best;
      assert players[0].points >= target ==> players[0].points < best.points;
      forall j | 0 < j < i && players[j].points >= target ensures players[j].points < best.points {
        assert players[j] == t[j - 1];
      }
    }
  }

  /** The first qualifying player of most points is either the first
      seat, qualifying, or the best of the qualifiers after it, ahead of a
      qualifying first seat. */
  lemma QualifierHead(players: seq<Player>, target: int)
    requires |Qualifiers(players, target)| > 0
    ensures |players| > 0
    ensures var w := Qualifiers(players, target);
            var wt := Qualifiers(players[1..], target);
            (players[0].points >= target && FirstMax(w, PointsOf) == 0)
            || (|wt| > 0 && w[FirstMax(w, PointsOf)] == wt[FirstMax(wt, PointsOf)]
                && (players[0].points >= target ==> players[0].points < wt[FirstMax(wt, PointsOf)].points))
  {
    var w := Qualifiers(players, target);
    var m := FirstMax(w, PointsOf);
    var h := players[0];
    var wt := Qualifiers(players[1..], target);
    if h.points >= target && m == 0 {
    } else if h.points >= target {
      assert w == [h] + wt;
      ShiftedFirstMax(h, wt, m);
    } else {
      assert w == wt;
    }
  }

  /** When the first maximum of `[h] + wt` is not `h`, it is one place past
      the first maximum of `wt`, and `h` scores less. */
  lemma ShiftedFirstMax(h: Player, wt: seq<Player>, m: nat)
    requires 0 < m < |wt| + 1 && m == FirstMax([h] + wt, PointsOf)
    ensures FirstMax(wt, PointsOf) == m - 1 && h.points < wt[m - 1].points
  {
    var w := [h] + wt;
    assert w[m] == wt[m - 1];
    assert w[0] == h;
    forall j | 0 <= j < |wt| ensures PointsOf(wt[j]) <= PointsOf(wt[m - 1]) {
      assert w[j + 1] == wt[j];
    }
    forall j | 0 <= j < m - 1 ensures PointsOf(wt[j]) < PointsOf(wt[m - 1]) {
      assert w[j + 1] == wt[j];
    }
    FirstMaxUnique(wt, PointsOf, m - 1);
  }

  // ------------------------------------------------- after every action

  /** What every accepted action ends with: the action's log entry, then the
      end of the turn. Tokens, bonuses, reserves, market and decks are as the
      action left them; the entry stays in the history, right after the old
      history; the turn passes to the next seat. */
  lemma FinishKeeps(t: State, kind: LogKind, summary: string, payload: Option<Payload>, now: int)
    requires t.WellFormed()
    ensures var r := EndTurn(Log(t, kind, summary, payload, now), now);
            r.bank == t.bank && r.market == t.market && r.decks == t.decks
            && SameHoldings(r.players, t.players)
            && (forall c :: Supply(r, c) == Supply(t, c))
            && r.currentPlayerIndex == NextPlayerIndex(t.currentPlayerIndex, |t.players|)
            && |r.history| > |t.history| && r.history[..|t.history|] == t.history
            && r.history[|t.history|] == LogEntry(t.turn, t.Current().id, t.Current().name, kind, summary, payload, Some(now))
  {
    var l := Log(t, kind, summary, payload, now);
    EndTurnKeeps(l, now);
    EndTurnOrder(l, now);
    AwardNobleOthers(l, now);
    var r := EndTurn(l, now);
    forall c ensures Supply(r, c) == Supply(t, c) {
      HeldSameHoldings(l.players, t.players, c);
    }
    assert r.history[..|l.history|] == l.history;
    assert l.history[..|t.history|] == t.history;
    assert r.history[..|t.history|] == r.history[..|l.history|][..|t.history|];
  }

  // -------------------------------------------------------- take gems

  /** An accepted `takeGems` moves, per colour, one token per list entry
      from the bank to the acting player and nothing else, and logs one
      `TAKE_GEMS` entry carrying the list. */
  lemma TakeGemsEffect(s: State, g: seq<Gem>, now: int)
    requires s.WellFormed() && !TakeGemsRejected(s, g)
    ensures TakeGemsOutcome(s, g, now).Some?
    ensures var r := TakeGemsOutcome(s, g, now).value;
            var i := s.currentPlayerIndex;
            var m := Multiplicity(g);
            r.bank == s.bank.Minus(m)
            && |r.players| == |s.players|
            && r.players[i].gems == s.players[i].gems.Plus(m)
            && (forall j :: 0 <= j < |s.players| && j != i ==> r.players[j].gems == s.players[j].gems)
            && r.market == s.market && r.decks == s.decks
            && r.currentPlayerIndex == NextPlayerIndex(i, |s.players|)
            && |r.history| > |s.history| && r.history[..|s.history|] == s.history
            && r.history[|s.history|] == LogEntry(s.turn, s.Current().id, s.Current().name, TakeGemsEvent,
                                                  s.Current().name + " took gems", Some(TakePayload(g)), Some(now))
  {
    var t := TakeGemsApply(s, g);
    FinishKeeps(t, TakeGemsEvent, s.Current().name + " took gems", Some(TakePayload(g)), now);
  }

  /** Bank plus hands, per colour, is unchanged by an accepted `takeGems`. */
  lemma TakeGemsConserves(s: State, g: seq<Gem>, now: int, c: Gem)
    requires s.WellFormed() && TakeGemsOutcome(s, g, now).Some?
    ensures Supply(TakeGemsOutcome(s, g, now).value, c) == Supply(s, c)
  {
    var t := TakeGemsApply(s, g);
    FinishKeeps(t, TakeGemsEvent, s.Current().name + " took gems", Some(TakePayload(g)), now);
    HeldUpdate(s.players, s.currentPlayerIndex, t.players[s.currentPlayerIndex], c);
  }

  /** The bank stays non-negative when no colour is asked for more often
      than its pile holds. */
  lemma TakeGemsBankBound(s: State, g: seq<Gem>, now: int)
    requires s.WellFormed() && TakeGemsOutcome(s, g, now).Some? && s.bank.NonNegative()
    requires forall c :: Count(g, c) <= s.bank.Get(c)
    ensures TakeGemsOutcome(s, g, now).value.bank.NonNegative()
  {
    TakeGemsEffect(s, g, now);
  }

  /** The guards check each colour against the pile as it was before the
      move, so three of a colour whose pile holds one are accepted and the
      pile ends at -2. */
  lemma TakeGemsOverdraw(s: State, now: int)
    requires s.WellFormed() && s.bank == Tokens(4, 4, 4, 1, 4, 5) && GetGemCount(s.Current()) == 0
    ensures TakeGemsOutcome(s, [Red, Red, Red], now).Some?
    ensures TakeGemsOutcome(s, [Red, Red, Red], now).value.bank.red == -2
  {
    var g := [Red, Red, Red];
    assert Gold !in g;
    assert !(exists k :: 0 <= k < |g| && s.bank.Get(g[k]) <= 0);
    assert !TakeGemsRejected(s, g);
    assert g[..2] == [Red, Red] && [Red, Red][..1] == [Red] && [Red][..0] == [];
    assert Count([Red], Red) == 1;
    assert Count([Red, Red], Red) == 2;
    var m := Multiplicity(g);
    assert m.red == Count(g, Red) == 3;
    TakeGemsEffect(s, g, now);
    var r := TakeGemsOutcome(s, g, now).value;
    assert r.bank == s.bank.Minus(m);
    assert r.bank.red == s.bank.red - m.red;
  }

  /** The `gemCounts` of the log entry: one key per requested colour, the
      colour's name, holding how often it was requested. */
  lemma GemCountsExact(g: seq<Gem>)
    ensures forall c :: Name(c) in GemCounts(g) <==> c in g
    ensures forall c :: c in g ==> GemCounts(g)[Name(c)] == Num(Count(g, c))
    ensures forall key :: key in GemCounts(g) ==> FromName(key).Some? && FromName(key).value in g
  {
    forall c ensures (Name(c) in GemCounts(g) <==> c in g) && (c in g ==> GemCounts(g)[Name(c)] == Num(Count(g, c))) {
      GemCountsAt(g, c);
    }
    GemCountsKeys(g);
  }

  /** The entry for one colour. */
  lemma {:induction false} GemCountsAt(g: seq<Gem>, c: Gem)
    ensures Name(c) in GemCounts(g) <==> c in g
    ensures c in g ==> GemCounts(g)[Name(c)] == Num(Count(g, c))
  {
    if |g| > 0 {
      var init := g[..|g| - 1];
      var x := g[|g| - 1];
      GemCountsAt(init, c);
      assert g == init + [x];
      NameInjective(c, x);
      CountSnoc(init, x, c);
      CountPositive(init, c);
    }
  }

  /** Every key names a requested colour. */
  lemma {:induction false} GemCountsKeys(g: seq<Gem>)
    ensures forall key :: key in GemCounts(g) ==> FromName(key).Some? && FromName(key).value in g
  {
    if |g| > 0 {
      var init := g[..|g| - 1];
      var x := g[|g| - 1];
      GemCountsKeys(init);
      assert g == init + [x];
      assert FromName(Name(x)) == Some(x);
    }
  }

  // ----------------------------------------------------- reserve a card

  /** An accepted `reserveCard` adds the drawn card to the reserve, which
      stays within `MAX_RESERVED`; one gold moves from the bank to the player
      exactly when the bank has gold and the player holds fewer than ten
      tokens. A blind reserve takes the top of its deck and leaves the market
      alone; a market reserve takes the card with the named id from its row. */
  lemma ReserveEffect(s: State, card: Option<Card>, fromDeckLevel: Option<Level>, now: int)
    requires s.WellFormed() && !ReserveRejected(s, card, fromDeckLevel)
    ensures ReserveOutcome(s, card, fromDeckLevel, now).Some?
    ensures var r := ReserveOutcome(s, card, fromDeckLevel, now).value;
            var selected := ReserveDraw(s, card, fromDeckLevel).1;
            var i := s.currentPlayerIndex;
            var gold := if s.bank.gold > 0 && GetGemCount(s.Current()) < MaxGems then 1 else 0;
            |r.players| == |s.players|
            && r.players[i].reserved == s.players[i].reserved + [selected]
            && |r.players[i].reserved| <= MaxReserved
            && r.players[i].gems == s.players[i].gems.Bump(Gold, gold)
            && r.bank == s.bank.Bump(Gold, -gold)
            && (forall j :: 0 <= j < |s.players| && j != i ==>
                  r.players[j].gems == s.players[j].gems && r.players[j].reserved == s.players[j].reserved)
            && (fromDeckLevel.Some? ==>
                  selected == s.decks.Get(fromDeckLevel.value)[0] && r.market == s.market
                  && r.decks == s.decks.With(fromDeckLevel.value, s.decks.Get(fromDeckLevel.value)[1..]))
            && (fromDeckLevel.None? ==>
                  selected.id == card.value.id && selected in s.market.Get(card.value.level)
                  && selected == s.market.Get(card.value.level)[FindIndex(s.market.Get(card.value.level), card.value.id)])
            && r.currentPlayerIndex == NextPlayerIndex(i, |s.players|)
            && |r.history| > |s.history| && r.history[..|s.history|] == s.history
            && r.history[|s.history|].kind == ReserveEvent
  {
    var (t, selected) := ReserveDraw(s, card, fromDeckLevel);
    var a := ReserveApply(t, selected);
    FinishKeeps(a, ReserveEvent, s.Current().name + " reserved a card", Some(ReservePayload(selected, fromDeckLevel)), now);
  }

  /** Bank plus hands, per colour, is unchanged by an accepted `reserveCard`. */
  lemma ReserveConserves(s: State, card: Option<Card>, fromDeckLevel: Option<Level>, now: int, c: Gem)
    requires s.WellFormed() && ReserveOutcome(s, card, fromDeckLevel, now).Some?
    ensures Supply(ReserveOutcome(s, card, fromDeckLevel, now).value, c) == Supply(s, c)
  {
    var (t, selected) := ReserveDraw(s, card, fromDeckLevel);
    var a := ReserveApply(t, selected);
    FinishKeeps(a, ReserveEvent, s.Current().name + " reserved a card", Some(ReservePayload(selected, fromDeckLevel)), now);
    HeldUpdate(t.players, t.currentPlayerIndex, a.players[t.currentPlayerIndex], c);
  }

  // --------------------------------------------------------- buy a card

  /** With non-negative gems, the gold a colour takes is its shortfall. */
  lemma GoldSpentIsShortfall(p: Player, card: Card, c: Gem)
    requires p.gems.Get(c) >= 0
    ensures GoldSpent(p, card, c) == ColourShortfall(p, card, c)
  {
  }

  lemma {:induction false} GoldOverIsShortfall(p: Player, card: Card, k: nat)
    requires k <= |NonGoldGems| && p.gems.NonNegative()
    ensures GoldOver(p, card, k) == ShortfallOver(p, card, NonGoldGems[..k])
  {
    if k > 0 {
      GoldOverIsShortfall(p, card, k - 1);
      assert NonGoldGems[..k][..k - 1] == NonGoldGems[..k - 1];
      GoldSpentIsShortfall(p, card, NonGoldGems[k - 1]);
    }
  }

  /** What `buyCard` charges: per colour the player's own tokens up to the
      cost left after bonuses, and gold for the rest, which is exactly the
      shortfall `canBuyCard` compares with the player's gold. */
  lemma PaymentMeaning(p: Player, card: Card)
    requires p.gems.NonNegative()
    ensures forall c :: c != Gold && card.cost.Get(c) != 0 ==>
              Payment(p, card).Get(c) == Min(p.gems.Get(c), Max(0, card.cost.Get(c) - p.bonuses.Get(c)))
    ensures Payment(p, card).gold == GoldShortfall(p, card)
    ensures Payment(p, card).NonNegative()
    ensures Affordable(p, card) ==> p.gems.Minus(Payment(p, card)).NonNegative()
  {
    GoldOverIsShortfall(p, card, |NonGoldGems|);
    assert NonGoldGems[..|NonGoldGems|] == NonGoldGems;
    GoldOverNonNegative(p, card, |NonGoldGems|);
  }

  lemma {:induction false} GoldOverNonNegative(p: Player, card: Card, k: nat)
    requires k <= |NonGoldGems|
    ensures GoldOver(p, card, k) >= 0
  {
    if k > 0 {
      GoldOverNonNegative(p, card, k - 1);
    }
  }

  /** An accepted `buyCard` moves the payment from the player to the bank,
      raises the bonus of the card's colour by one, and takes the card from
      its source: a reserved card leaves the reserve, a market card's slot is
      refilled from its deck or removed. */
  lemma BuyEffect(s: State, card: Card, isReserved: bool, now: int)
    requires s.WellFormed() && !BuyRejected(s, card, isReserved)
    ensures BuyOutcome(s, card, isReserved, now).Some?
    ensures var r := BuyOutcome(s, card, isReserved, now).value;
            var p := s.Current();
            var i := s.currentPlayerIndex;
            var pay := Payment(p, card);
            |r.players| == |s.players|
            && r.bank == s.bank.Plus(pay)
            && r.players[i].gems == p.gems.Minus(pay)
            && r.players[i].bonuses == p.bonuses.Bump(card.bonus, 1)
            && (forall j :: 0 <= j < |s.players| && j != i ==>
                  r.players[j].gems == s.players[j].gems && r.players[j].bonuses == s.players[j].bonuses
                  && r.players[j].reserved == s.players[j].reserved)
            && (isReserved ==>
                  r.players[i].reserved == WithoutId(p.reserved, card.id) && !HasId(r.players[i].reserved, card.id)
                  && r.market == s.market && r.decks == s.decks)
            && (!isReserved ==>
                  r.players[i].reserved == p.reserved
                  && (r.market, r.decks) == Replenish(s.market, s.decks, card.level, FindIndex(s.market.Get(card.level), card.id)))
            && r.currentPlayerIndex == NextPlayerIndex(i, |s.players|)
            && |r.history| > |s.history| && r.history[..|s.history|] == s.history
            && r.history[|s.history|].kind == BuyEvent
  {
    var a := BuyApply(s, card, isReserved);
    FinishKeeps(a, BuyEvent, BuyCaption(s.Current(), card), Some(BuyPayload(card, isReserved)), now);
  }

  /** The buyer scores the card's points, plus the points of the noble the
      end of the turn awards, if any. */
  lemma BuyPoints(s: State, card: Card, isReserved: bool, now: int)
    requires s.WellFormed() && !BuyRejected(s, card, isReserved)
    ensures var a := BuyApply(s, card, isReserved);
            var k := HighestQualifyingNoble(a.Current(), s.nobles);
            var r := BuyOutcome(s, card, isReserved, now).value;
            |r.players| == |s.players|
            && r.players[s.currentPlayerIndex].points
              == s.Current().points + card.points + (if k >= 0 then s.nobles[k].points else 0)
  {
    var a := BuyApply(s, card, isReserved);
    BuyApplyCredits(s, card, isReserved);
    var l := Log(a, BuyEvent, BuyCaption(s.Current(), card), Some(BuyPayload(card, isReserved)), now);
    EndTurnPoints(l, now);
    EndTurnKeeps(l, now);
  }

  /** The end of a turn adds to the current player's points only those of
      the noble it awards. */
  lemma EndTurnPoints(s: State, now: int)
    requires s.WellFormed()
    ensures var k := HighestQualifyingNoble(s.Current(), s.nobles);
            |EndTurn(s, now).players| == |s.players|
            && EndTurn(s, now).players[s.currentPlayerIndex].points
              == s.Current().points + (if k >= 0 then s.nobles[k].points else 0)
  {
    AwardNobleKeeps(s, now);
  }

  lemma BuyApplyCredits(s: State, card: Card, isReserved: bool)
    requires s.WellFormed() && !BuyRejected(s, card, isReserved)
    ensures var a := BuyApply(s, card, isReserved);
            a.nobles == s.nobles && a.currentPlayerIndex == s.currentPlayerIndex
            && |a.players| == |s.players| && a.Current().points == s.Current().points + card.points
  {
    var t := BuyPaid(s, card, isReserved);
    assert t.nobles == s.nobles && t.Current().points == s.Current().points + card.points;
  }

  /** A buyer whose gems are non-negative keeps them non-negative, and the
      bank only gains. */
  lemma BuyKeepsNonNegative(s: State, card: Card, isReserved: bool, now: int)
    requires s.WellFormed() && !BuyRejected(s, card, isReserved) && s.Current().gems.NonNegative()
    ensures BuyOutcome(s, card, isReserved, now).value.players[s.currentPlayerIndex].gems.NonNegative()
    ensures forall c :: BuyOutcome(s, card, isReserved, now).value.bank.Get(c) >= s.bank.Get(c)
  {
    BuyEffect(s, card, isReserved, now);
    PaymentMeaning(s.Current(), card);
  }

  /** Bank plus hands, per colour, is unchanged by an accepted `buyCard`. */
  lemma BuyConserves(s: State, card: Card, isReserved: bool, now: int, c: Gem)
    requires s.WellFormed() && !BuyRejected(s, card, isReserved)
    ensures Supply(BuyOutcome(s, card, isReserved, now).value, c) == Supply(s, c)
  {
    var a := BuyApply(s, card, isReserved);
    BuyApplyTokens(s, card, isReserved);
    BuyPaidConserves(s, card, isReserved, c);
    FinishKeeps(a, BuyEvent, BuyCaption(s.Current(), card), Some(BuyPayload(card, isReserved)), now);
  }

  /** Paying moves tokens from the buyer to the bank. */
  lemma BuyPaidConserves(s: State, card: Card, isReserved: bool, c: Gem)
    requires s.WellFormed()
    ensures Supply(BuyPaid(s, card, isReserved), c) == Supply(s, c)
  {
    var t := BuyPaid(s, card, isReserved);
    var i := s.currentPlayerIndex;
    var pay := Payment(s.Current(), card);
    assert t.players == s.players[i := t.players[i]];
    assert t.players[i].gems == s.Current().gems.Minus(pay);
    assert t.bank == s.bank.Plus(pay);
    HeldUpdate(s.players, i, t.players[i], c);
  }

  /** Refilling the market after a purchase moves no token. */
  lemma BuyApplyTokens(s: State, card: Card, isReserved: bool)
    requires s.WellFormed() && !BuyRejected(s, card, isReserved)
    ensures BuyApply(s, card, isReserved).players == BuyPaid(s, card, isReserved).players
    ensures BuyApply(s, card, isReserved).bank == BuyPaid(s, card, isReserved).bank
  {
  }

  // ------------------------------------------------------------ passing

  /** `passTurn` moves no token and no card, and logs one `PASS` entry
      carrying the strategy and the source. */
  lemma PassEffect(s: State, strategy: Option<Strategy>, source: Option<MoveSource>, now: int)
    requires s.WellFormed()
    ensures var r := PassOutcome(s, strategy, source, now);
            r.bank == s.bank && r.market == s.market && r.decks == s.decks
            && SameHoldings(r.players, s.players)
            && (forall c :: Supply(r, c) == Supply(s, c))
            && r.currentPlayerIndex == NextPlayerIndex(s.currentPlayerIndex, |s.players|)
            && |r.history| > |s.history| && r.history[..|s.history|] == s.history
            && r.history[|s.history|].kind == PassEvent
            && r.history[|s.history|].payload == Some(map["strategy" := StrategyValue(strategy), "source" := SourceValue(source)])
  {
    var summary := s.Current().name + " passed";
    var t := s.(lastAction := Some(summary));
    FinishKeeps(t, PassEvent, summary, Some(map["strategy" := StrategyValue(strategy), "source" := SourceValue(source)]), now);
    forall c ensures Held(t.players, c) == Held(s.players, c) { }
  }

  // ------------------------------------------------- applying a decision

  /** Bank plus hands, per colour, is unchanged by every move
      `applyAIDecision` makes. */
  lemma ApplyConserves(s: State, decision: Option<Decision>, now: int, c: Gem)
    requires s.WellFormed() && ApplyOutcome(s, decision, now).Some?
    ensures Supply(ApplyOutcome(s, decision, now).value, c) == Supply(s, c)
  {
    if decision.None? {
      PassEffect(s, None, None, now);
    } else {
      var d := decision.value;
      match d.kind
      case TakeGemsAction =>
        if d.gems.Some? && |d.gems.value| > 0 {
          TakeGemsConserves(s, d.gems.value, now, c);
        } else {
          PassEffect(s, d.strategyUsed, Some(d.source), now);
        }
      case ReserveAction =>
        if d.reserveFromDeckLevel.Some? {
          ReserveConserves(s, None, d.reserveFromDeckLevel, now, c);
        } else if Truthy(d.cardId) && CardInMarket(s.market, d.cardId.value).Some? {
          ReserveConserves(s, CardInMarket(s.market, d.cardId.value), None, now, c);
        } else {
          PassEffect(s, d.strategyUsed, Some(d.source), now);
        }
      case BuyAction =>
        ApplyBuyConserves(s, d, now, c);
      case PassAction =>
        PassEffect(s, d.strategyUsed, Some(d.source), now);
    }
  }

  lemma ApplyBuyConserves(s: State, d: Decision, now: int, c: Gem)
    requires s.WellFormed() && ApplyBuy(s, d, now).Some?
    ensures Supply(ApplyBuy(s, d, now).value, c) == Supply(s, c)
  {
    if !Truthy(d.cardId) {
      PassEffect(s, d.strategyUsed, Some(d.source), now);
    } else {
      var id := d.cardId.value;
      var fromReserve := BuyFromReserve(s.Current(), d);
      var target := if fromReserve then FindById(s.Current().reserved, id) else CardInMarket(s.market, id);
      if target.Some? {
        BuyConserves(s, target.value, fromReserve, now, c);
      } else {
        PassEffect(s, d.strategyUsed, Some(d.source), now);
      }
    }
  }

  /** `applyAIDecision` passes the turn when there is no decision, a gem take
      names no gem, or the card a reservation or purchase names cannot be
      found. */
  lemma ApplyPassCases(s: State, d: Decision, now: int)
    requires s.WellFormed()
    ensures d.kind == PassAction
            || (d.kind == TakeGemsAction && (d.gems.None? || |d.gems.value| == 0))
            || (d.kind == ReserveAction && d.reserveFromDeckLevel.None?
                && (!Truthy(d.cardId) || CardInMarket(s.market, d.cardId.value).None?))
            || (d.kind == BuyAction && (!Truthy(d.cardId)
                || (if BuyFromReserve(s.Current(), d) then FindById(s.Current().reserved, d.cardId.value)
                    else CardInMarket(s.market, d.cardId.value)).None?))
            ==> ApplyOutcome(s, Some(d), now) == Some(PassOutcome(s, d.strategyUsed, Some(d.source), now))
    ensures ApplyOutcome(s, None, now) == Some(PassOutcome(s, None, None, now))
  {
  }

  /** `applyAIDecision` hands back the same state only when the action it
      delegates to rejects the move. */
  lemma ApplyRejectsOnlyByAction(s: State, d: Decision, now: int)
    requires s.WellFormed() && ApplyOutcome(s, Some(d), now).None?
    ensures (d.kind == TakeGemsAction && d.gems.Some? && TakeGemsRejected(s, d.gems.value))
            || (d.kind == ReserveAction && d.reserveFromDeckLevel.Some? && ReserveRejected(s, None, d.reserveFromDeckLevel))
            || (d.kind == ReserveAction && d.reserveFromDeckLevel.None? && Truthy(d.cardId)
                && ReserveRejected(s, CardInMarket(s.market, d.cardId.value), None))
            || (d.kind == BuyAction && Truthy(d.cardId)
                && BuyRejected(s, (if BuyFromReserve(s.Current(), d) then FindById(s.Current().reserved, d.cardId.value)
                                   else CardInMarket(s.market, d.cardId.value)).value, BuyFromReserve(s.Current(), d)))
  {
  }

  // -------------------------------------------- the AI against the guards

  /** Every gem take `chooseGemTake` proposes for the current player passes
      the guards of `takeGems`, so the engine accepts it. */
  lemma ChosenTakeAccepted(s: State, priority: seq<Gem>, now: int)
    requires s.WellFormed() && ChooseGemTake(s, s.Current(), priority).Some?
    ensures !TakeGemsRejected(s, ChooseGemTake(s, s.Current(), priority).value)
    ensures TakeGemsOutcome(s, ChooseGemTake(s, s.Current(), priority).value, now).Some?
  {
    var g := ChooseGemTake(s, s.Current(), priority).value;
    assert Gold !in g by {
      forall k | 0 <= k < |g| ensures g[k] != Gold { }
    }
  }

  /** A gem take decided by any local strategy for the current player is
      carried out by `applyAIDecision`. */
  lemma LocalTakeAccepted(s: State, strategy: Strategy, roll: real, now: int)
    requires s.WellFormed() && 0.0 <= roll < 1.0
    requires LocalChoice(s, s.Current(), strategy, roll).kind == TakeGemsAction
    ensures ApplyOutcome(s, Some(LocalChoice(s, s.Current(), strategy, roll)), now).Some?
  {
    var p := s.Current();
    var d := LocalChoice(s, p, strategy, roll);
    LocalChoiceShape(s, p, strategy, roll);
    var priority := PrioritizeNeededColors(s, p);
    assert d.gems == ChooseGemTake(s, p, priority);
    ChosenTakeAccepted(s, priority, now);
    ApplyTakeOutcome(s, d, now);
  }

  /** A take decision with gems is carried out as that take. */
  lemma ApplyTakeOutcome(s: State, d: Decision, now: int)
    requires s.WellFormed() && d.kind == TakeGemsAction && d.gems.Some? && |d.gems.value| > 0
    ensures ApplyOutcome(s, Some(d), now) == TakeGemsOutcome(s, d.gems.value, now)
  {
  }
}
