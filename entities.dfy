/** The entity model of types.ts: cards, nobles, players, the log, the AI's
    decision record, the lobby's player configuration, and the game state.
    `GameState` is a class because the engine clones it and then updates its
    fields in place; `State` is the value of all its fields at one moment. */
module Entities {
  import opened Text
  import opened Gems

  /** A market or deck level, `1 | 2 | 3`. */
  type Level = l: int | 1 <= l <= 3 witness 1

  datatype Card = Card(id: string, level: Level, points: int, bonus: Gem, cost: Cost,
                       name: Option<string>, imageIndex: Option<int>)

  datatype Noble = Noble(id: string, points: int, requirements: Cost, name: Option<string>)

  /** `AIStrategyId` */
  datatype Strategy = Aggressive | Defensive | Balanced | RandomPick | Gemini | Gemma

  function StrategyName(s: Strategy): string {
    match s
    case Aggressive => "aggressive"
    case Defensive => "defensive"
    case Balanced => "balanced"
    case RandomPick => "random"
    case Gemini => "gemini"
    case Gemma => "gemma"
  }

  /** `AIMoveSource` */
  datatype MoveSource = Local | FromGemini | FromGemma

  function SourceName(s: MoveSource): string {
    match s
    case Local => "local"
    case FromGemini => "gemini"
    case FromGemma => "gemma"
  }

  datatype Player = Player(id: string, name: string, isHuman: bool, avatarId: int,
                           strategy: Option<Strategy>, gems: Tokens, bonuses: Tokens,
                           reserved: seq<Card>, points: int, nobles: seq<Noble>,
                           lastAction: Option<string>)

  /** `PlayerConfig`: a seat's occupant, or a seat resolved to a player at start. */
  datatype PlayerConfig = PlayerConfig(id: string, name: string, isHuman: bool,
                                       strategy: Option<Strategy>, avatarId: Option<int>)

  /** The values a log payload (`Record<string, unknown>`) can hold. */
  datatype Value = Undefined | Null | Bool(b: bool) | Num(n: int) | Str(s: string)
                 | Arr(items: seq<Value>) | Obj(fields: map<string, Value>)

  type Payload = map<string, Value>

  /** `payload[key]`: an absent key reads as `undefined`. */
  function Lookup(p: Payload, key: string): Value {
    if key in p then p[key] else Undefined
  }

  /** `LogEventKind` */
  datatype LogKind = TakeGemsEvent | ReserveEvent | BuyEvent | PassEvent | NobleEvent | SystemEvent

  datatype LogEntry = LogEntry(turn: int, playerId: string, playerName: string, kind: LogKind,
                               summary: string, payload: Option<Payload>, timestamp: Option<int>)

  /** The three card rows of the market, or the three decks. */
  datatype Rows = Rows(level1: seq<Card>, level2: seq<Card>, level3: seq<Card>) {
    function Get(l: Level): seq<Card> {
      if l == 1 then level1 else if l == 2 then level2 else level3
    }

    function With(l: Level, row: seq<Card>): (r: Rows)
      ensures r.Get(l) == row
      ensures forall m: Level :: m != l ==> r.Get(m) == Get(m)
    {
      if l == 1 then this.(level1 := row) else if l == 2 then this.(level2 := row) else this.(level3 := row)
    }

    /** Every card sits in the row of its own level. */
    predicate Consistent() {
      (forall k :: 0 <= k < |level1| ==> level1[k].level == 1)
      && (forall k :: 0 <= k < |level2| ==> level2[k].level == 2)
      && (forall k :: 0 <= k < |level3| ==> level3[k].level == 3)
    }
  }

  /** The value of every field of a `GameState`. */
  datatype State = State(players: seq<Player>, currentPlayerIndex: int, market: Rows, decks: Rows,
                         nobles: seq<Noble>, bank: Tokens, winnerId: Option<string>,
                         targetScore: int, turn: int, lastAction: Option<string>,
                         history: seq<LogEntry>) {
    /** What every state the engine produces satisfies: a current player
        exists, and cards lie in the rows and decks of their level. */
    predicate WellFormed() {
      |players| > 0 && 0 <= currentPlayerIndex < |players| && market.Consistent() && decks.Consistent()
    }

    function Current(): Player
      requires 0 <= currentPlayerIndex < |players|
    {
      players[currentPlayerIndex]
    }
  }

  /** `GameState`: the engine clones it and then updates the clone's fields. */
  class GameState {
    var players: seq<Player>
    var currentPlayerIndex: int
    var market: Rows
    var decks: Rows
    var nobles: seq<Noble>
    var gems: Tokens
    var winnerId: Option<string>
    var targetScore: int
    var turn: int
    var lastAction: Option<string>
    var history: seq<LogEntry>

    function Snapshot(): State
      reads this
    {
      State(players, currentPlayerIndex, market, decks, nobles, gems, winnerId, targetScore, turn,
            lastAction, history)
    }

    ghost predicate Valid()
      reads this
    {
      Snapshot().WellFormed()
    }

    /** A new object holding the given field values. */
    constructor FromState(s: State)
      ensures Snapshot() == s
    {
      players := s.players;
      currentPlayerIndex := s.currentPlayerIndex;
      market := s.market;
      decks := s.decks;
      nobles := s.nobles;
      gems := s.bank;
      winnerId := s.winnerId;
      targetScore := s.targetScore;
      turn := s.turn;
      lastAction := s.lastAction;
      history := s.history;
    }

    /** `cloneGameState`: an independent copy with equal field values. */
    method Clone() returns (c: GameState)
      ensures fresh(c) && c.Snapshot() == Snapshot()
    {
      c := new GameState.FromState(Snapshot());
    }
  }

  /** `AIActionKind` */
  datatype ActionKind = BuyAction | ReserveAction | TakeGemsAction | PassAction

  /** `AIActionDecision` */
  datatype Decision = Decision(kind: ActionKind, gems: Option<seq<Gem>>, cardId: Option<string>,
                               fromReserve: Option<bool>, reserveFromDeckLevel: Option<Level>,
                               reasoning: Option<string>, strategyUsed: Option<Strategy>,
                               source: MoveSource)

  /** JavaScript truthiness of an optional string: absent and `""` are falsy. */
  predicate Truthy(s: Option<string>) { s.Some? && s.value != "" }
}
