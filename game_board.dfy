/** The logic inside components/GameBoard.tsx: the gem-selection state machine
    behind the bank's gem buttons, the formatters that turn a log entry's
    payload into detail lines, and the filter that picks the opponents' recent
    moves. Rendering is not modelled. */
module GameBoard {
  import opened Text
  import opened Gems
  import opened Entities
  import opened Ordering
  import opened GameUtils
  import opened Catalog
  import opened GameEngine
  import opened EngineProperties

  // ------------------------------------------------------ gem selection

  const NoCrystalsLeft := "No crystals left in this cluster."
  const NeedFourForPair := "Need 4+ crystals to take 2 of the same kind."
  const PairCannotCombine := "Cannot combine '2 same' with other colors."
  const CannotAddMore := "Cannot add more crystals."
  const MaxThreePerTurn := "Max 3 crystals per turn."
  const MaxTwoSame := "Max 2 of the same crystal."

  function StorageFull(): string { "Storage full! Limit " + IntToString(MaxGems) + "." }

  predicate IsPair(sel: seq<Gem>) { |sel| == 2 && sel[0] == sel[1] }

  predicate Distinct(sel: seq<Gem>) { forall i, j :: 0 <= i < j < |sel| ==> sel[i] != sel[j] }

  /** What the clicks can build: no gold, and either at most three different
      colours or one same-colour pair. */
  predicate SelectionShape(sel: seq<Gem>) {
    Gold !in sel && ((|sel| <= 3 && Distinct(sel)) || IsPair(sel))
  }

  /** The pile checks a click makes, still true of the bank they were made against. */
  predicate PilesAllow(sel: seq<Gem>, bank: Tokens) {
    (forall k :: 0 <= k < |sel| ==> bank.Get(sel[k]) > 0) && (IsPair(sel) ==> bank.Get(sel[0]) >= 4)
  }

  /** When `handleGemClick` adds the clicked colour to the selection. */
  predicate ClickAdds(sel: seq<Gem>, isMyTurn: bool, bank: Tokens, color: Gem) {
    isMyTurn && color != Gold && bank.Get(color) > 0 &&
    ((Count(sel, color) == 1 && bank.Get(color) >= 4 && |sel| <= 1) ||
     (Count(sel, color) == 0 && !IsPair(sel) && |sel| < 3))
  }

  /** The `selectedGems` and `message` state of the board. */
  class GemSelection {
    var selected: seq<Gem>
    var message: Option<string>

    constructor()
      ensures selected == [] && message == None
    {
      selected := [];
      message := None;
    }

    /** `handleGemClick`: the selection grows by the clicked colour exactly when
        `ClickAdds`; otherwise it is kept and, on the player's own turn and a
        non-gold colour, the reason is shown. */
    method HandleGemClick(isMyTurn: bool, bank: Tokens, color: Gem)
      modifies this
      ensures ClickAdds(old(selected), isMyTurn, bank, color) ==> selected == old(selected) + [color]
      ensures !ClickAdds(old(selected), isMyTurn, bank, color) ==> selected == old(selected)
      ensures !isMyTurn || color == Gold || ClickAdds(old(selected), isMyTurn, bank, color) ==>
        message == old(message)
      ensures isMyTurn && color != Gold && bank.Get(color) <= 0 ==> message == Some(NoCrystalsLeft)
      ensures isMyTurn && color != Gold && bank.Get(color) > 0 && Count(old(selected), color) == 1 ==>
        (bank.Get(color) < 4 ==> message == Some(NeedFourForPair)) &&
        (bank.Get(color) >= 4 && |old(selected)| > 1 ==> message == Some(PairCannotCombine))
      ensures isMyTurn && color != Gold && bank.Get(color) > 0 && Count(old(selected), color) == 0 ==>
        (IsPair(old(selected)) ==> message == Some(CannotAddMore)) &&
        (!IsPair(old(selected)) && |old(selected)| >= 3 ==> message == Some(MaxThreePerTurn))
      ensures isMyTurn && color != Gold && bank.Get(color) > 0 && Count(old(selected), color) >= 2 ==>
        message == Some(MaxTwoSame)
      ensures SelectionShape(old(selected)) ==> SelectionShape(selected)
      ensures PilesAllow(old(selected), bank) ==> PilesAllow(selected, bank)
    {
      if !isMyTurn || color == Gold {
        return;
      }
      if bank.Get(color) <= 0 {
        message := Some(NoCrystalsLeft);
        return;
      }
      var next := selected;
      var countAlready := Count(next, color);
      CountPositive(next, color);
      if countAlready == 1 {
        if bank.Get(color) < 4 {
          message := Some(NeedFourForPair);
          return;
        }
        if |next| > 1 {
          message := Some(PairCannotCombine);
          return;
        }
        assert next == [color];
        next := next + [color];
      } else if countAlready == 0 {
        if |next| == 2 && next[0] == next[1] {
          message := Some(CannotAddMore);
          return;
        }
        if |next| >= 3 {
          message := Some(MaxThreePerTurn);
          return;
        }
        next := next + [color];
      } else {
        message := Some(MaxTwoSame);
        return;
      }
      selected := next;
    }

    /** `confirmGemSelection`: the selection is cleared either way; it is sent
        only if the player's tokens plus the selection stay within the limit. */
    method ConfirmGemSelection(me: Player) returns (sent: Option<seq<Gem>>)
      modifies this
      ensures selected == []
      ensures GetGemCount(me) + |old(selected)| > MaxGems ==> sent.None? && message == Some(StorageFull())
      ensures GetGemCount(me) + |old(selected)| <= MaxGems ==>
        sent == Some(old(selected)) && message == old(message)
    {
      if GetGemCount(me) + |selected| > MaxGems {
        message := Some(StorageFull());
        selected := [];
        return None;
      }
      sent := Some(selected);
      selected := [];
    }
  }

  /** A selection the board sends passes every check of `takeGems`, provided the
      bank is the one the clicks were made against. */
  lemma SentSelectionAccepted(s: State, sel: seq<Gem>)
    requires 0 <= s.currentPlayerIndex < |s.players|
    requires SelectionShape(sel) && PilesAllow(sel, s.bank)
    requires GetGemCount(s.Current()) + |sel| <= MaxGems
    ensures !TakeGemsRejected(s, sel)
  {
  }

  // ------------------------------------------------------ payload readers

  /** `getPayloadString` */
  function PayloadString(p: Option<Payload>, key: string): (r: Option<string>)
    ensures r.Some? <==> p.Some? && Lookup(p.value, key).Str?
  {
    if p.None? then None else match Lookup(p.value, key) case Str(s) => Some(s) case _ => None
  }

  /** `getPayloadNumber` (integers only) */
  function PayloadNumber(p: Option<Payload>, key: string): (r: Option<int>)
    ensures r.Some? <==> p.Some? && Lookup(p.value, key).Num?
  {
    if p.None? then None else match Lookup(p.value, key) case Num(n) => Some(n) case _ => None
  }

  /** `getPayloadBoolean` */
  function PayloadBoolean(p: Option<Payload>, key: string): (r: Option<bool>)
    ensures r.Some? <==> p.Some? && Lookup(p.value, key).Bool?
  {
    if p.None? then None else match Lookup(p.value, key) case Bool(b) => Some(b) case _ => None
  }

  predicate TruthyString(s: Option<string>) { s.Some? && s.value != "" }

  predicate TruthyNumber(n: Option<int>) { n.Some? && n.value != 0 }

  // ------------------------------------------------------ gem counts

  /** `Object.entries` of an array: its elements keyed by their decimal index. */
  function ArrayFields(items: seq<Value>): (r: map<string, Value>)
    ensures forall k :: 0 <= k < |items| ==> IntToString(k) in r
  {
    if |items| == 0 then map[]
    else
      var r := ArrayFields(items[..|items| - 1])[IntToString(|items| - 1) := items[|items| - 1]];
      assert forall k :: 0 <= k < |items| - 1 ==> items[..|items| - 1][k] == items[k];
      r
  }

  /** The entries `Object.entries` lists for an object or an array. */
  function EntriesOf(v: Value): map<string, Value> {
    match v
    case Obj(fields) => fields
    case Arr(items) => ArrayFields(items)
    case _ => map[]
  }

  /** The entries holding a positive number. */
  function PositiveCounts(entries: map<string, Value>): (r: map<string, int>)
    ensures forall k :: k in r <==> k in entries && entries[k].Num? && entries[k].n > 0
    ensures forall k :: k in r ==> r[k] == entries[k].n
  {
    map k | k in entries && entries[k].Num? && entries[k].n > 0 :: entries[k].n
  }

  /** The `gems` reduce: one count per string element. */
  function StringCounts(items: seq<Value>): map<string, int> {
    if |items| == 0 then map[]
    else
      var acc := StringCounts(items[..|items| - 1]);
      match items[|items| - 1]
      case Str(g) => acc[g := (if g in acc then acc[g] else 0) + 1]
      case _ => acc
  }

  /** Each string element is counted as many times as it occurs, and nothing else is. */
  lemma {:induction false} StringCountsMeaning(items: seq<Value>)
    ensures forall k :: k in StringCounts(items) <==> Str(k) in items
    ensures forall k :: k in StringCounts(items) ==> StringCounts(items)[k] == multiset(items)[Str(k)]
  {
    if |items| > 0 {
      var init := items[..|items| - 1];
      var x := items[|items| - 1];
      StringCountsMeaning(init);
      assert items == init + [x];
      assert multiset(items) == multiset(init) + multiset{x};
      forall k ensures Str(k) !in init ==> multiset(init)[Str(k)] == 0 { }
    }
  }

  lemma StringCountsStep(items: seq<Value>, i: nat)
    requires i < |items|
    ensures var acc := StringCounts(items[..i]);
      StringCounts(items[..i + 1]) ==
        if items[i].Str? then acc[items[i].s := (if items[i].s in acc then acc[items[i].s] else 0) + 1] else acc
  {
    assert items[..i + 1][..i] == items[..i];
  }

  /** What `buildGemCountsFromPayload` returns: the positive numbers of
      `gemCounts` if there are any, else the counts of the `gems` strings if
      there are any, else nothing. */
  function GemCountsOf(payload: Option<Payload>): (r: Option<map<string, int>>)
    ensures r.Some? ==> r.value != map[]
  {
    if payload.None? then None
    else
      var raw := Lookup(payload.value, "gemCounts");
      var fromCounts := if raw.Obj? || raw.Arr? then PositiveCounts(EntriesOf(raw)) else map[];
      if fromCounts != map[] then Some(fromCounts)
      else
        var gems := Lookup(payload.value, "gems");
        if gems.Arr? && StringCounts(gems.items) != map[] then Some(StringCounts(gems.items)) else None
  }

  /** The `forEach` over `Object.entries(rawCounts)`: keep the positive numbers. */
  method CollectPositive(entries: map<string, Value>) returns (counts: map<string, int>)
    ensures counts == PositiveCounts(entries)
  {
    counts := map[];
    var pending := entries.Keys;
    while pending != {}
      invariant pending <= entries.Keys
      invariant forall k :: k in counts <==> k in entries && k !in pending && entries[k].Num? && entries[k].n > 0
      invariant forall k :: k in counts ==> counts[k] == entries[k].n
      decreases |pending|
    {
      var key :| key in pending;
      var value := entries[key];
      if value.Num? && value.n > 0 {
        counts := counts[key := value.n];
      }
      pending := pending - {key};
    }
  }

  /** The `reduce` over `rawGems`: one count per string element. */
  method CountStrings(items: seq<Value>) returns (acc: map<string, int>)
    ensures acc == StringCounts(items)
  {
    acc := map[];
    var i := 0;
    while i < |items|
      invariant 0 <= i <= |items|
      invariant acc == StringCounts(items[..i])
    {
      StringCountsStep(items, i);
      if items[i].Str? {
        var g := items[i].s;
        acc := acc[g := (if g in acc then acc[g] else 0) + 1];
      }
      i := i + 1;
    }
    assert items[..i] == items;
  }

  /** `buildGemCountsFromPayload` */
  method BuildGemCountsFromPayload(payload: Option<Payload>) returns (r: Option<map<string, int>>)
    ensures r == GemCountsOf(payload)
  {
    if payload.None? {
      return None;
    }
    var rawCounts := Lookup(payload.value, "gemCounts");
    if rawCounts.Obj? || rawCounts.Arr? {
      var counts := CollectPositive(EntriesOf(rawCounts));
      if counts != map[] {
        return Some(counts);
      }
    }
    var rawGems := Lookup(payload.value, "gems");
    if rawGems.Arr? {
      var counts := CountStrings(rawGems.items);
      if counts != map[] {
        return Some(counts);
      }
    }
    return None;
  }

  /** The count `formatGemCounts` reads for a colour (`counts[color] ?? 0`). */
  function CountOf(counts: map<string, int>, c: Gem): int {
    if Name(c) in counts then counts[Name(c)] else 0
  }

  /** The positive entries of the logged `gemCounts` are the multiplicities of the
      taken colours, keyed by colour name. */
  lemma TakeCountsPositive(g: seq<Gem>)
    ensures forall c :: CountOf(PositiveCounts(GemCounts(g)), c) == Count(g, c)
    ensures forall key :: key in PositiveCounts(GemCounts(g)) ==> FromName(key).Some?
  {
    GemCountsExact(g);
    var m := PositiveCounts(GemCounts(g));
    forall c ensures CountOf(m, c) == Count(g, c) {
      CountPositive(g, c);
    }
  }

  /** For the payload `takeGems` logs, the counts are read from `gemCounts`, and
      an empty take yields nothing. */
  lemma TakePayloadCounts(g: seq<Gem>)
    ensures GemCountsOf(Some(TakePayload(g))) ==
      (if |g| == 0 then None else Some(PositiveCounts(GemCounts(g))))
  {
    var p := TakePayload(g);
    assert Lookup(p, "gemCounts") == Obj(GemCounts(g));
    var m := PositiveCounts(GemCounts(g));
    if |g| == 0 {
      assert GemCounts(g) == map[];
      assert m == map[];
      var items := seq(|g|, k requires 0 <= k < |g| => Str(Name(g[k])));
      assert items == [];
      assert Lookup(p, "gems") == Arr(items);
    } else {
      TakeCountsPositive(g);
      CountPositive(g, g[0]);
      assert CountOf(m, g[0]) > 0;
      assert Name(g[0]) in m;
    }
  }

  // ------------------------------------------------------ formatting counts

  /** One part of `formatGemCounts`: `"<Colour> ×<n>"`. */
  function CountLabel(c: Gem, n: int): string {
    Capitalize(Name(c)) + " \U{00D7}" + IntToString(n)
  }

  predicate RankIncreasing(gs: seq<Gem>) { forall i, j :: 0 <= i < j < |gs| ==> Rank(gs[i]) < Rank(gs[j]) }

  /** The colours of `gs` with a positive count, in the order of `gs`. */
  function ShownColours(counts: map<string, int>, gs: seq<Gem>): (r: seq<Gem>)
    ensures forall c :: c in r <==> c in gs && CountOf(counts, c) > 0
  {
    if |gs| == 0 then []
    else
      var rest := ShownColours(counts, gs[1..]);
      if CountOf(counts, gs[0]) > 0 then [gs[0]] + rest else rest
  }

  /** Filtering keeps the order of the colours. */
  lemma {:induction false} ShownColoursOrdered(counts: map<string, int>, gs: seq<Gem>)
    requires RankIncreasing(gs)
    ensures RankIncreasing(ShownColours(counts, gs))
  {
    if |gs| > 0 {
      var rest := ShownColours(counts, gs[1..]);
      assert RankIncreasing(gs[1..]);
      ShownColoursOrdered(counts, gs[1..]);
      if CountOf(counts, gs[0]) > 0 {
        var r := [gs[0]] + rest;
        forall i, j | 0 <= i < j < |r| ensures Rank(r[i]) < Rank(r[j]) {
          assert r[j] == rest[j - 1];
          if i == 0 {
            HeadBelow(gs, rest[j - 1]);
          } else {
            assert r[i] == rest[i - 1];
          }
        }
      }
    }
  }

  lemma HeadBelow(gs: seq<Gem>, c: Gem)
    requires RankIncreasing(gs) && |gs| > 0 && c in gs[1..]
    ensures Rank(gs[0]) < Rank(c)
  {
    var m :| 0 <= m < |gs[1..]| && gs[1..][m] == c;
    assert gs[m + 1] == c;
  }

  /** `formatGemCounts`: the positive colours, white first and gold last, joined by commas. */
  function FormatGemCounts(counts: map<string, int>): string {
    var shown := ShownColours(counts, AllGems);
    Join(seq(|shown|, k requires 0 <= k < |shown| => CountLabel(shown[k], CountOf(counts, shown[k]))), ", ")
  }

  lemma AllGemsListed()
    ensures forall c :: c in AllGems
    ensures RankIncreasing(AllGems)
  {
    assert AllGems == [White, Blue, Green, Red, Black, Gold];
    forall c ensures c in AllGems {
      assert AllGems[Rank(c)] == c;
    }
  }

  /** The listed colours are exactly the positive ones, in `ALL_GEMS` order. */
  lemma FormatGemCountsOrder(counts: map<string, int>)
    ensures forall c :: c in ShownColours(counts, AllGems) <==> CountOf(counts, c) > 0
    ensures RankIncreasing(ShownColours(counts, AllGems))
  {
    AllGemsListed();
    ShownColoursOrdered(counts, AllGems);
  }

  // ------------------------------------------------------ card descriptor

  function LevelSegment(p: Option<Payload>): seq<string> {
    var level := PayloadNumber(p, "cardLevel");
    if TruthyNumber(level) then ["Lv" + IntToString(level.value)] else []
  }

  function NameSegment(p: Option<Payload>): seq<string> {
    var name := PayloadString(p, "cardName");
    if TruthyString(name) then [name.value] else []
  }

  /** The id, marked `#` when a name precedes it. */
  function IdSegment(p: Option<Payload>): seq<string> {
    var id := PayloadString(p, "cardId");
    if TruthyString(id) then [if TruthyString(PayloadString(p, "cardName")) then "#" + id.value else id.value]
    else []
  }

  function PointsSegment(p: Option<Payload>): seq<string> {
    var points := PayloadNumber(p, "cardPoints");
    if points.Some? then [IntToString(points.value) + " pts"] else []
  }

  /** The descriptor segments in their fixed order: level, name, id, points. */
  function CardSegments(p: Option<Payload>): seq<string> {
    LevelSegment(p) + NameSegment(p) + IdSegment(p) + PointsSegment(p)
  }

  const Dot := " \U{00B7} "

  /** `buildCardDescriptor`: the segments joined by a dot, or nothing when no
      card field is present. */
  method BuildCardDescriptor(payload: Option<Payload>) returns (r: Option<string>)
    ensures r.None? <==> CardSegments(payload) == []
    ensures r.Some? ==> r.value == Join(CardSegments(payload), Dot)
  {
    var cardId := PayloadString(payload, "cardId");
    var cardName := PayloadString(payload, "cardName");
    var cardLevel := PayloadNumber(payload, "cardLevel");
    var cardPoints := PayloadNumber(payload, "cardPoints");
    var segments: seq<string> := [];
    if TruthyNumber(cardLevel) {
      segments := segments + ["Lv" + IntToString(cardLevel.value)];
    }
    if TruthyString(cardName) {
      segments := segments + [cardName.value];
    }
    if TruthyString(cardId) {
      segments := segments + [if TruthyString(cardName) then "#" + cardId.value else cardId.value];
    }
    if cardPoints.Some? {
      segments := segments + [IntToString(cardPoints.value) + " pts"];
    }
    assert segments == CardSegments(payload);
    r := if |segments| > 0 then Some(Join(segments, Dot)) else None;
  }

  /** The descriptor of a card the engine logged: its level first and its points
      last, with the name and the `#`-marked id between when both are non-empty. */
  lemma CardPayloadSegments(card: Card)
    ensures var segs := CardSegments(Some(CardPayload(card)));
      |segs| >= 2 && segs[0] == "Lv" + IntToString(card.level) &&
      segs[|segs| - 1] == IntToString(card.points) + " pts" &&
      (card.name.Some? && card.name.value != "" && card.id != "" ==>
         segs == ["Lv" + IntToString(card.level), card.name.value, "#" + card.id, IntToString(card.points) + " pts"])
  {
  }

  // ------------------------------------------------------ entry details

  /** The detail lines `buildEntryDetails` produces for an entry. */
  function EntryDetails(e: LogEntry): seq<string> {
    var p := e.payload;
    var crystals := if e.kind == TakeGemsEvent && GemCountsOf(p).Some?
                    then ["Crystals: " + FormatGemCounts(GemCountsOf(p).value)] else [];
    var card := if (e.kind == ReserveEvent || e.kind == BuyEvent) && CardSegments(p) != []
                then ["Card: " + Join(CardSegments(p), Dot)] else [];
    var fromDeck := PayloadNumber(p, "fromDeckLevel");
    var source := if e.kind == ReserveEvent
                  then ["Source: " + (if TruthyNumber(fromDeck) then "Deck Lv" + IntToString(fromDeck.value) else "Market")]
                  else if e.kind == BuyEvent
                  then ["Source: " + (if PayloadBoolean(p, "isReserved") == Some(true) then "Reserved hangar" else "Market")]
                  else [];
    crystals + card + source
  }

  /** `buildEntryDetails` */
  method BuildEntryDetails(entry: LogEntry) returns (details: seq<string>)
    ensures details == EntryDetails(entry)
  {
    details := [];
    var payload := entry.payload;
    if entry.kind == TakeGemsEvent {
      var gemCounts := BuildGemCountsFromPayload(payload);
      if gemCounts.Some? {
        details := details + ["Crystals: " + FormatGemCounts(gemCounts.value)];
      }
    }
    if entry.kind == ReserveEvent || entry.kind == BuyEvent {
      var descriptor := BuildCardDescriptor(payload);
      if descriptor.Some? {
        details := details + ["Card: " + descriptor.value];
      }
      if entry.kind == ReserveEvent {
        var fromDeck := PayloadNumber(payload, "fromDeckLevel");
        details := details + ["Source: " + (if TruthyNumber(fromDeck) then "Deck Lv" + IntToString(fromDeck.value) else "Market")];
      }
      if entry.kind == BuyEvent {
        var fromReserve := PayloadBoolean(payload, "isReserved") == Some(true);
        details := details + ["Source: " + (if fromReserve then "Reserved hangar" else "Market")];
      }
    }
  }

  /** Detail lines by kind: a take lists its crystals when it counted any, a
      reserve or buy names its card and source, every other kind has none. */
  lemma EntryDetailsByKind(e: LogEntry)
    ensures e.kind !in {TakeGemsEvent, ReserveEvent, BuyEvent} ==> EntryDetails(e) == []
    ensures e.kind == TakeGemsEvent ==>
      EntryDetails(e) == (if GemCountsOf(e.payload).Some?
                          then ["Crystals: " + FormatGemCounts(GemCountsOf(e.payload).value)] else [])
    ensures e.kind in {ReserveEvent, BuyEvent} ==>
      1 <= |EntryDetails(e)| <= 2 && StartsWith(EntryDetails(e)[|EntryDetails(e)| - 1], "Source: ")
  {
  }

  /** A logged non-empty take reads back as the crystal counts of the colours taken. */
  lemma TakeEntryDetails(e: LogEntry, g: seq<Gem>)
    requires e.kind == TakeGemsEvent && e.payload == Some(TakePayload(g)) && |g| > 0
    ensures EntryDetails(e) == ["Crystals: " + FormatGemCounts(PositiveCounts(GemCounts(g)))]
    ensures forall c :: CountOf(PositiveCounts(GemCounts(g)), c) == Count(g, c)
  {
    EntryDetailsByKind(e);
    TakePayloadCounts(g);
    TakeCountsPositive(g);
  }

  /** A key the descriptor does not read leaves it unchanged. */
  lemma CardSegmentsIgnore(p: Payload, key: string, v: Value)
    requires key != "cardId" && key != "cardName" && key != "cardLevel" && key != "cardPoints"
    ensures CardSegments(Some(p[key := v])) == CardSegments(Some(p))
  {
    var q := p[key := v];
    assert Lookup(q, "cardId") == Lookup(p, "cardId");
    assert Lookup(q, "cardName") == Lookup(p, "cardName");
    assert Lookup(q, "cardLevel") == Lookup(p, "cardLevel");
    assert Lookup(q, "cardPoints") == Lookup(p, "cardPoints");
    assert LevelSegment(Some(q)) == LevelSegment(Some(p));
    assert NameSegment(Some(q)) == NameSegment(Some(p));
    assert IdSegment(Some(q)) == IdSegment(Some(p));
    assert PointsSegment(Some(q)) == PointsSegment(Some(p));
  }

  /** A logged reserve reads back as its card and its source, deck or market. */
  lemma ReserveEntryDetails(e: LogEntry, card: Card, level: Option<Level>)
    requires e.kind == ReserveEvent && e.payload == Some(ReservePayload(card, level))
    ensures EntryDetails(e) == ["Card: " + Join(CardSegments(Some(CardPayload(card))), Dot),
                                "Source: " + (if level.Some? then "Deck Lv" + IntToString(level.value) else "Market")]
  {
    CardSegmentsIgnore(CardPayload(card), "fromDeckLevel", if level.Some? then Num(level.value) else Undefined);
  }

  /** A logged purchase reads back as its card and whether it came from the reserve. */
  lemma BuyEntryDetails(e: LogEntry, card: Card, isReserved: bool)
    requires e.kind == BuyEvent && e.payload == Some(BuyPayload(card, isReserved))
    ensures EntryDetails(e) == ["Card: " + Join(CardSegments(Some(CardPayload(card))), Dot),
                                "Source: " + (if isReserved then "Reserved hangar" else "Market")]
  {
    CardSegmentsIgnore(CardPayload(card), "isReserved", Bool(isReserved));
  }

  // ------------------------------------------------------ opponent history

  /** The entries of other players, in log order. */
  function OpponentEntries(h: seq<LogEntry>, me: string): (r: seq<LogEntry>)
    ensures forall e :: e in r <==> e in h && e.playerId != me
  {
    if |h| == 0 then []
    else (if h[0].playerId != me then [h[0]] else []) + OpponentEntries(h[1..], me)
  }

  /** `Array.from(new Set(entries.map(e => e.turn)))`: each turn once, first occurrence first. */
  function UniqueTurns(es: seq<LogEntry>): (r: seq<int>)
    ensures forall t :: t in r <==> exists e :: e in es && e.turn == t
    ensures forall t :: multiset(r)[t] <= 1
  {
    if |es| == 0 then []
    else
      var init := es[..|es| - 1];
      var u := UniqueTurns(init);
      var t := es[|es| - 1].turn;
      assert es == init + [es[|es| - 1]];
      if t in u then u
      else
        assert multiset(u)[t] == 0;
        u + [t]
  }

  function Identity(t: int): int { t }

  /** The largest two turn numbers (`uniqueTurns.slice(0, 2)` after a descending sort). */
  function AllowedTurns(es: seq<LogEntry>): seq<int> {
    var u := SortDesc(UniqueTurns(es), Identity);
    if |u| <= 2 then u else u[..2]
  }

  function KeepTurns(es: seq<LogEntry>, allowed: seq<int>): (r: seq<LogEntry>)
    ensures forall e :: e in r <==> e in es && e.turn in allowed
  {
    if |es| == 0 then []
    else (if es[0].turn in allowed then [es[0]] else []) + KeepTurns(es[1..], allowed)
  }

  /** `b.timestamp ?? 0` */
  function Stamp(e: LogEntry): int { if e.timestamp.Some? then e.timestamp.value else 0 }

  /** The `opponentHistory` memo. */
  function OpponentHistory(h: seq<LogEntry>, me: string): seq<LogEntry> {
    var opponents := OpponentEntries(h, me);
    SortDesc(KeepTurns(opponents, AllowedTurns(opponents)), Stamp)
  }

  /** A sequence whose multiset has no repeated element has no repeated element. */
  lemma NoRepeats(s: seq<int>, i: int, j: int)
    requires forall t :: multiset(s)[t] <= 1
    requires 0 <= i < j < |s|
    ensures s[i] != s[j]
  {
    assert s == s[..j] + s[j..];
    assert s[..j][i] == s[i];
    assert s[j..][0] == s[j];
    assert multiset(s)[s[j]] == multiset(s[..j])[s[j]] + multiset(s[j..])[s[j]];
  }

  lemma SortedIdentity(u: seq<int>, i: int, j: int)
    requires SortedDesc(u, Identity) && 0 <= i < |u| && 0 <= j < |u|
    ensures i <= j ==> u[i] >= u[j]
  {
    if i < j {
      assert Identity(u[i]) >= Identity(u[j]);
    }
  }

  /** `t` is one of `turns` and at most one distinct turn of `turns` exceeds it. */
  predicate TopTwo(turns: seq<int>, t: int) {
    t in turns && forall a, b :: a in turns && b in turns && a > t && b > t ==> a == b
  }

  /** In a descending list without repeats, the first two elements are exactly
      those that at most one other element exceeds. */
  lemma TopTwoOfSorted(u: seq<int>, t: int)
    requires SortedDesc(u, Identity) && forall x :: multiset(u)[x] <= 1
    ensures t in (if |u| <= 2 then u else u[..2]) <==> TopTwo(u, t)
  {
    var allowed := if |u| <= 2 then u else u[..2];
    if t in allowed {
      var i :| 0 <= i < |allowed| && allowed[i] == t;
      TopTwoFirst(u, i);
    } else if t in u {
      var i :| 0 <= i < |u| && u[i] == t;
      assert forall k :: 0 <= k < |u| && k < 2 ==> u[k] in allowed;
      TopTwoRest(u, i);
    }
  }

  lemma TopTwoFirst(u: seq<int>, i: int)
    requires SortedDesc(u, Identity) && 0 <= i < |u| && i < 2
    ensures TopTwo(u, u[i])
  {
    var t := u[i];
    forall a, b | a in u && b in u && a > t && b > t ensures a == b {
      var ia :| 0 <= ia < |u| && u[ia] == a;
      var ib :| 0 <= ib < |u| && u[ib] == b;
      SortedIdentity(u, i, ia);
      SortedIdentity(u, i, ib);
    }
  }

  lemma TopTwoRest(u: seq<int>, i: int)
    requires SortedDesc(u, Identity) && forall x :: multiset(u)[x] <= 1
    requires 2 <= i < |u|
    ensures !TopTwo(u, u[i])
  {
    NoRepeats(u, 0, 1);
    NoRepeats(u, 0, i);
    NoRepeats(u, 1, i);
    SortedIdentity(u, 0, 1);
    SortedIdentity(u, 1, i);
    assert u[0] in u && u[1] in u && u[0] > u[i] && u[1] > u[i] && u[0] != u[1];
  }

  /** A turn is among the two largest exactly when no two different turns exceed it. */
  lemma AllowedTurnsMeaning(es: seq<LogEntry>, t: int)
    ensures t in AllowedTurns(es) <==> TopTwo(UniqueTurns(es), t)
  {
    var unique := UniqueTurns(es);
    var u := SortDesc(unique, Identity);
    SortDescMembers(unique, Identity);
    assert forall x :: multiset(u)[x] <= 1;
    TopTwoOfSorted(u, t);
    assert TopTwo(u, t) <==> TopTwo(unique, t);
  }

  /** An entry survives the turn filter exactly when its turn is one of the two latest. */
  lemma KeptTurnsMembers(es: seq<LogEntry>)
    ensures forall e :: e in KeepTurns(es, AllowedTurns(es)) <==> e in es && TopTwo(UniqueTurns(es), e.turn)
  {
    forall t ensures t in AllowedTurns(es) <==> TopTwo(UniqueTurns(es), t) {
      AllowedTurnsMeaning(es, t);
    }
  }

  /** `opponentHistory` holds exactly the other players' entries from the two
      latest turns they played. */
  lemma OpponentHistoryMembers(h: seq<LogEntry>, me: string)
    ensures forall e :: e in OpponentHistory(h, me) <==>
      e in h && e.playerId != me && TopTwo(UniqueTurns(OpponentEntries(h, me)), e.turn)
  {
    var opponents := OpponentEntries(h, me);
    var kept := KeepTurns(opponents, AllowedTurns(opponents));
    assert OpponentHistory(h, me) == SortDesc(kept, Stamp);
    SortDescMembers(kept, Stamp);
    KeptTurnsMembers(opponents);
  }

  /** `opponentHistory` lists the kept entries newest timestamp first, equal
      stamps in log order. */
  lemma OpponentHistoryOrder(h: seq<LogEntry>, me: string)
    ensures var opponents := OpponentEntries(h, me);
      var kept := KeepTurns(opponents, AllowedTurns(opponents));
      var r := OpponentHistory(h, me);
      SortedDesc(r, Stamp) && multiset(r) == multiset(kept) &&
      forall k :: WithKey(r, Stamp, k) == WithKey(kept, Stamp, k)
  {
    var opponents := OpponentEntries(h, me);
    var kept := KeepTurns(opponents, AllowedTurns(opponents));
    var r := OpponentHistory(h, me);
    assert r == SortDesc(kept, Stamp);
    forall k ensures WithKey(r, Stamp, k) == WithKey(kept, Stamp, k) {
      SortDescStable(kept, Stamp, k);
    }
  }
}
