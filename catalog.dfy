/** constants.ts: the game's limits, the card catalogue parsed from the
    `cards.txt` text, the initial decks, the nobles, the default AI names and
    strategies. The catalogue text is a parameter: its content is data, not
    logic. */
module Catalog {
  import opened Text
  import opened Gems
  import opened Entities

  const TargetScoreDefault: int := 15
  const MaxGems: int := 10
  const MaxReserved: int := 3

  /** The cost helper `c(w, u, g, r, k)`. */
  function C(w: int, u: int, g: int, r: int, k: int): (cost: Cost)
    ensures cost.Get(White) == w && cost.Get(Blue) == u && cost.Get(Green) == g
    ensures cost.Get(Red) == r && cost.Get(Black) == k && cost.Get(Gold) == 0
  {
    Cost(w, u, g, r, k)
  }

  const Nobles: seq<Noble> := [
    Noble("n1", 3, C(3, 3, 3, 0, 0), Some("Galactic Council")),
    Noble("n2", 3, C(0, 3, 3, 3, 0), Some("Star Fleet Admiral")),
    Noble("n3", 3, C(0, 0, 3, 3, 3), Some("Nebula Merchant")),
    Noble("n4", 3, C(3, 0, 0, 3, 3), Some("Cyber Lord")),
    Noble("n5", 3, C(3, 3, 0, 0, 3), Some("Void Walker")),
    Noble("n6", 3, C(4, 4, 0, 0, 0), Some("Tech Priest")),
    Noble("n7", 3, C(0, 4, 4, 0, 0), Some("Bio Engineer")),
    Noble("n8", 3, C(0, 0, 4, 4, 0), Some("Red Dwarf Miner")),
    Noble("n9", 3, C(0, 0, 0, 4, 4), Some("Black Hole Physicist")),
    Noble("n10", 3, C(4, 0, 0, 0, 4), Some("Quantum Theorist"))
  ]

  /** Every noble is worth 3 points and asks for either three colours at 3
      or two colours at 4, eight cards of bonuses at least. */
  lemma NoblesShape()
    ensures |Nobles| == 10
    ensures forall k :: 0 <= k < |Nobles| ==> Nobles[k].points == 3 && Nobles[k].requirements.Total() >= 8
    ensures forall i, j :: 0 <= i < j < |Nobles| ==> Nobles[i].id != Nobles[j].id
  {
  }

  const AvatarNames: seq<string> := ["Capt. Pixel", "Unit 734", "X-\U{00C3}\U{2020}-12", "Star Gazer",
                                     "Void Runner", "Nebula", "Quasar", "Pulsar"]

  const DefaultAIStrategies: seq<Strategy> := [Aggressive, Defensive, Balanced, RandomPick]

  // ------------------------------------------------------ catalogue text

  /** `colorMap[label]`: the capitalised colour names of the bonus column. */
  function ColorLabel(s: string): (r: Option<Gem>)
    ensures r.Some? ==> r.value != Gold && Capitalize(Name(r.value)) == s
  {
    if s == "Black" then Some(Black)
    else if s == "Blue" then Some(Blue)
    else if s == "Green" then Some(Green)
    else if s == "Red" then Some(Red)
    else if s == "White" then Some(White)
    else None
  }

  /** `Math.max(1, Math.min(3, n))` */
  function ClampLevel(n: int): (l: Level)
    ensures 1 <= n <= 3 ==> l == n
    ensures n < 1 ==> l == 1
    ensures n > 3 ==> l == 3
  {
    if n < 1 then 1 else if n > 3 then 3 else n
  }

  function TrimAll(parts: seq<string>): (r: seq<string>)
    ensures |r| == |parts| && forall k :: 0 <= k < |r| ==> r[k] == Trim(parts[k])
  {
    if |parts| == 0 then [] else [Trim(parts[0])] + TrimAll(parts[1..])
  }

  /** A catalogue line kept by the filter: not blank, not the header. */
  predicate KeptLine(line: string) {
    line != "" && !StartsWith(Lower(line), "color")
  }

  /** `split('\n')`, `trim` each line, drop blank lines and the header. */
  function KeepLines(lines: seq<string>): (r: seq<string>)
    ensures |r| <= |lines|
    ensures forall k :: 0 <= k < |r| ==> KeptLine(r[k]) && r[k] == Trim(r[k])
  {
    if |lines| == 0 then []
    else
      var t := Trim(lines[0]);
      TrimTwice(lines[0]);
      (if KeptLine(t) then [t] else []) + KeepLines(lines[1..])
  }

  /** No line the filter accepts is lost. */
  lemma {:induction false} KeepLinesComplete(lines: seq<string>, k: nat)
    requires k < |lines| && KeptLine(Trim(lines[k]))
    ensures Trim(lines[k]) in KeepLines(lines)
  {
    var t := Trim(lines[0]);
    var rest := KeepLines(lines[1..]);
    assert KeepLines(lines) == (if KeptLine(t) then [t] else []) + rest;
    if k > 0 {
      assert lines[k] == lines[1..][k - 1];
      KeepLinesComplete(lines[1..], k - 1);
    }
  }

  lemma TrimTwice(s: string)
    ensures Trim(Trim(s)) == Trim(s)
  {
    var t := Trim(s);
    assert TrimStart(t) == t;
    assert TrimEnd(t) == t;
  }

  function CardId(idx: nat): string { "card-" + NatToString(idx) }

  /** The catalogue number an id of the form `card-<n>` carries, or -1. */
  function IdNumber(id: string): int {
    if StartsWith(id, "card-") then
      match ParseDecimal(id[5..])
      case Some(n) => if n >= 0 then n else -1
      case None => -1
    else -1
  }

  lemma IdNumberOfCardId(idx: nat)
    ensures IdNumber(CardId(idx)) == idx
  {
    var id := CardId(idx);
    assert id[5..] == NatToString(idx);
    assert StartsWith(id, "card-");
    ParseIntToString(idx);
    assert IntToString(idx) == NatToString(idx);
  }

  /** The card of one kept line, the `idx`-th; `None` for a line with fewer
      than eight fields or an unknown colour label. */
  function ParseLine(line: string, idx: nat): Option<Card> {
    var parts := TrimAll(Split(line, ','));
    if |parts| < 8 then None
    else
      match ColorLabel(parts[0])
      case None => None
      case Some(bonus) =>
        var points := NumberOr(parts[1], 0);
        var level := ClampLevel(NumberOr(parts[7], 1));
        var cost := Cost(white := NumberOr(parts[3], 0), blue := NumberOr(parts[5], 0),
                         green := NumberOr(parts[6], 0), red := NumberOr(parts[4], 0),
                         black := NumberOr(parts[2], 0));
        Some(Card(CardId(idx), level, points, bonus, cost, None, Some(idx % 5)))
  }

  /** A parsed card is named `card-<idx>`, shows image `idx % 5`, has a
      coloured bonus and no name. */
  lemma ParseLineShape(line: string, idx: nat)
    ensures var r := ParseLine(line, idx);
      r.Some? ==> r.value.id == CardId(idx) && r.value.imageIndex == Some(idx % 5) &&
                  r.value.bonus != Gold && r.value.name == None
  {
  }

  /** A line yields a card exactly when it has eight fields and the first
      names a colour. */
  lemma ParseLineAccepts(line: string, idx: nat)
    ensures ParseLine(line, idx).Some? <==> |Split(line, ',')| >= 8 && ColorLabel(Trim(Split(line, ',')[0])).Some?
  {
  }

  /** The label of a colour is read back as that colour. */
  lemma ColorLabelOfName(c: Gem)
    requires c != Gold
    ensures ColorLabel(Capitalize(Name(c))) == Some(c)
  {
  }

  /** The numbers of a card's catalogue line: the points, the black, white,
      red, blue and green costs and the tier. */
  function CardNumbers(points: int, cost: Cost, level: Level): seq<int> {
    [points, cost.black, cost.white, cost.red, cost.blue, cost.green, level]
  }

  /** The fields of a card's catalogue line: the colour label, then the
      numbers. */
  function CardFields(bonus: Gem, points: int, cost: Cost, level: Level): seq<string> {
    var ns := CardNumbers(points, cost, level);
    [Capitalize(Name(bonus))] + seq(|ns|, i requires 0 <= i < |ns| => IntToString(ns[i]))
  }

  /** The catalogue line of a card, comma-separated. */
  function CardLine(bonus: Gem, points: int, cost: Cost, level: Level): string {
    Join(CardFields(bonus, points, cost, level), ",")
  }

  /** A rendered number holds no comma and no surrounding space. */
  lemma NumberFieldPlain(n: int)
    ensures Avoids(IntToString(n), ',') && Trim(IntToString(n)) == IntToString(n)
  {
    IntToStringChars(n);
    TrimUnpadded(IntToString(n));
  }

  /** A colour label holds no comma and no surrounding space. */
  lemma LabelFieldPlain(c: Gem)
    ensures Avoids(Capitalize(Name(c)), ',') && Trim(Capitalize(Name(c))) == Capitalize(Name(c))
  {
    var s := Capitalize(Name(c));
    assert forall i :: 0 <= i < |s| ==> IsLetter(s[i]) by {
      match c {
        case White => assert s == "White";
        case Blue => assert s == "Blue";
        case Green => assert s == "Green";
        case Red => assert s == "Red";
        case Black => assert s == "Black";
        case Gold => assert s == "Gold";
      }
    }
    WordPlain(s, ',');
  }

  /** Splitting a card's line and trimming the pieces gives its fields. */
  lemma SplitCardLine(bonus: Gem, points: int, cost: Cost, level: Level)
    ensures TrimAll(Split(CardLine(bonus, points, cost, level), ',')) == CardFields(bonus, points, cost, level)
  {
    var fields := CardFields(bonus, points, cost, level);
    forall k | 0 <= k < |fields|
      ensures Avoids(fields[k], ',') && Trim(fields[k]) == fields[k]
    {
      CardFieldPlain(bonus, points, cost, level, k);
    }
    SplitJoin(fields, ',');
  }

  lemma CardFieldPlain(bonus: Gem, points: int, cost: Cost, level: Level, k: nat)
    requires k < |CardFields(bonus, points, cost, level)|
    ensures var f := CardFields(bonus, points, cost, level)[k];
      Avoids(f, ',') && Trim(f) == f
  {
    if k == 0 {
      LabelFieldPlain(bonus);
    } else {
      var ns := CardNumbers(points, cost, level);
      assert CardFields(bonus, points, cost, level)[k] == IntToString(ns[k - 1]);
      NumberFieldPlain(ns[k - 1]);
    }
  }

  /** Writing a card's fields as a catalogue line and parsing that line gives
      the card back, numbered by the line's position. */
  lemma ParseCardLine(bonus: Gem, points: int, cost: Cost, level: Level, idx: nat)
    requires bonus != Gold
    ensures ParseLine(CardLine(bonus, points, cost, level), idx) ==
            Some(Card(CardId(idx), level, points, bonus, cost, None, Some(idx % 5)))
  {
    SplitCardLine(bonus, points, cost, level);
    ColorLabelOfName(bonus);
    NumberOrIntToString(points, 0);
    NumberOrIntToString(cost.black, 0);
    NumberOrIntToString(cost.white, 0);
    NumberOrIntToString(cost.red, 0);
    NumberOrIntToString(cost.blue, 0);
    NumberOrIntToString(cost.green, 0);
    NumberOrIntToString(level, 1);
  }

  /** The parse of every kept line, numbered by its position. */
  function ParseAll(lines: seq<string>): seq<Option<Card>> {
    seq(|lines|, k requires 0 <= k < |lines| => ParseLine(lines[k], k))
  }

  /** The present values of `os`, in order. */
  function Somes<T>(os: seq<Option<T>>): (r: seq<T>)
    ensures |r| <= |os|
  {
    if |os| == 0 then []
    else (if os[0].Some? then [os[0].value] else []) + Somes(os[1..])
  }

  /** Every present value is kept. */
  lemma {:induction false} SomesComplete<T>(os: seq<Option<T>>, k: nat)
    requires k < |os| && os[k].Some?
    ensures os[k].value in Somes(os)
  {
    if k > 0 {
      assert os[1..][k - 1] == os[k];
      SomesComplete(os[1..], k - 1);
    }
  }

  /** Every kept value was present somewhere. */
  lemma {:induction false} SomesSound<T>(os: seq<Option<T>>, x: T)
    requires x in Somes(os)
    ensures exists k :: 0 <= k < |os| && os[k] == Some(x)
  {
    if !(os[0].Some? && os[0].value == x) {
      SomesSound(os[1..], x);
      var k :| 0 <= k < |os[1..]| && os[1..][k] == Some(x);
      assert os[k + 1] == Some(x);
    }
  }

  /** The cards of kept lines `lines`, each numbered by its position. */
  function ParseFrom(lines: seq<string>): seq<Card> {
    Somes(ParseAll(lines))
  }

  /** Every line that parses contributes its card. */
  lemma ParseFromComplete(lines: seq<string>, k: nat, card: Card)
    requires k < |lines| && ParseLine(lines[k], k) == Some(card)
    ensures card in ParseFrom(lines)
  {
    var os := ParseAll(lines);
    assert os[k] == Some(card);
    SomesComplete(os, k);
  }

  /** Every card comes from some line. */
  lemma ParseFromSound(lines: seq<string>, card: Card)
    requires card in ParseFrom(lines)
    ensures exists k :: 0 <= k < |lines| && ParseLine(lines[k], k) == Some(card)
  {
    var os := ParseAll(lines);
    SomesSound(os, card);
    var k :| 0 <= k < |os| && os[k] == Some(card);
    assert ParseLine(lines[k], k) == os[k];
  }

  /** Numbers that lie in `[lo, lo + n)` and increase strictly. */
  predicate NumberedFrom(cards: seq<Card>, lo: int, n: int) {
    (forall k :: 0 <= k < |cards| ==> lo <= IdNumber(cards[k].id) < lo + n)
    && (forall i, j :: 0 <= i < j < |cards| ==> IdNumber(cards[i].id) < IdNumber(cards[j].id))
  }

  lemma ConsNumbered(card: Card, rest: seq<Card>, lo: nat, n: nat)
    requires IdNumber(card.id) == lo && NumberedFrom(rest, lo + 1, n)
    ensures NumberedFrom([card] + rest, lo, n + 1)
  {
    var r := [card] + rest;
    assert forall k :: 1 <= k < |r| ==> r[k] == rest[k - 1];
  }

  /** Present cards carrying their position as their number keep their
      order of numbers. */
  lemma {:induction false} SomesNumbered(os: seq<Option<Card>>, lo: nat)
    requires forall k :: 0 <= k < |os| && os[k].Some? ==> IdNumber(os[k].value.id) == lo + k
    ensures NumberedFrom(Somes(os), lo, |os|)
  {
    if |os| > 0 {
      var rest := Somes(os[1..]);
      assert forall k :: 0 <= k < |os[1..]| ==> os[1..][k] == os[k + 1];
      SomesNumbered(os[1..], lo + 1);
      if os[0].Some? {
        assert Somes(os) == [os[0].value] + rest;
        ConsNumbered(os[0].value, rest, lo, |os| - 1);
      } else {
        assert Somes(os) == rest;
      }
    }
  }

  /** Cards are numbered by the position of their line, so their numbers
      increase strictly. */
  lemma ParseFromNumbering(lines: seq<string>)
    ensures NumberedFrom(ParseFrom(lines), 0, |lines|)
  {
    var os := ParseAll(lines);
    forall k | 0 <= k < |os| && os[k].Some?
      ensures IdNumber(os[k].value.id) == k
    {
      ParseLineShape(lines[k], k);
      IdNumberOfCardId(k);
    }
    SomesNumbered(os, 0);
  }

  /** `parseCards()`: the cards of `cardsRaw`, in line order. */
  function ParseCards(cardsRaw: string): seq<Card> {
    ParseFrom(KeepLines(Split(cardsRaw, '\n')))
  }

  /** Catalogue ids are pairwise distinct, which the engine's id lookups rely on. */
  lemma ParseCardsDistinctIds(cardsRaw: string)
    ensures forall i, j :: 0 <= i < j < |ParseCards(cardsRaw)| ==>
              ParseCards(cardsRaw)[i].id != ParseCards(cardsRaw)[j].id
  {
    ParseFromNumbering(KeepLines(Split(cardsRaw, '\n')));
  }

  function OfLevel(cards: seq<Card>, l: Level): (r: seq<Card>)
    ensures forall k :: 0 <= k < |r| ==> r[k].level == l
    ensures forall c :: c in cards && c.level == l ==> c in r
    ensures forall k :: 0 <= k < |r| ==> r[k] in cards
  {
    if |cards| == 0 then []
    else (if cards[0].level == l then [cards[0]] else []) + OfLevel(cards[1..], l)
  }

  /** `INITIAL_DECKS`: the catalogue split by level. */
  function InitialDecks(cards: seq<Card>): (r: Rows)
    ensures r.Consistent()
  {
    Rows(OfLevel(cards, 1), OfLevel(cards, 2), OfLevel(cards, 3))
  }

  /** The three initial decks partition the catalogue. */
  lemma {:induction false} InitialDecksPartition(cards: seq<Card>)
    ensures multiset(InitialDecks(cards).level1) + multiset(InitialDecks(cards).level2)
            + multiset(InitialDecks(cards).level3) == multiset(cards)
  {
    if |cards| > 0 {
      var h := cards[0];
      var t := cards[1..];
      InitialDecksPartition(t);
      assert cards == [h] + t;
      OfLevelCons(h, t, 1);
      OfLevelCons(h, t, 2);
      OfLevelCons(h, t, 3);
    }
  }

  lemma OfLevelCons(h: Card, t: seq<Card>, l: Level)
    ensures multiset(OfLevel([h] + t, l)) == (if h.level == l then multiset{h} else multiset{}) + multiset(OfLevel(t, l))
  {
    assert ([h] + t)[1..] == t;
  }
}
