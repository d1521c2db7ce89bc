# Crystal trading board game: a Dafny model of the rules engine, the AI and the lobby

The repository is a browser version of a Splendor-like game. Players take
coloured crystal tokens from a shared bank, reserve development cards (and
receive a gold token for it), and buy cards with gems plus the permanent
bonuses of the cards they already own. Nobles visit a player whose bonuses meet
their requirements. The game ends at the end of a round in which someone has
reached the target score. Computer seats follow one of four local strategies
(aggressive, defensive, balanced, random) or ask a language model, whose
free-text reply is parsed defensively. A lobby of four seats decides who plays.

This project models that core in Dafny:

- `gems.dfy`, `entities.dfy`: crystal colours, token counts, cards, nobles,
  players, log entries, the game state as a value (`State`), and the mutable
  game object `GameState`. Rule methods clone that object and then update the
  clone in place.
- `catalog.dfy`: the constants and the card catalogue parser.
- `game_utils.dfy`: the helper functions of the engine. These are shuffling,
  drawing cards, gem counts, the affordability test, turn order and market
  refills.
- `game_engine.dfy`: take gems, reserve, buy, the noble visit with the end of
  turn, pass, applying an AI decision, setting up a game, and the AI move.
  - Every rule method has two entry points. One is an `Option<State>`
    function: `None` means the move is rejected and the same state object
    comes back. The other is the method, which returns the same object on
    rejection and a fresh, updated clone otherwise. The method is proved equal
    to the function.
  - `engine_props.dfy` proves what each rule does. Tokens are conserved (in the
    bank plus in the players' hands), payments are correct, turn order holds,
    the winner rule holds, and the local strategies' gem takes are always
    accepted.
- `decision_engine.dfy`: the local AI strategies and their helpers.
- `response_parser.dfy`: the rescue chain that turns a language-model reply
  into a decision.
- `room_state.dfy`: the lobby's seat list as pure functions, with its
  well-formedness invariant (no player holds two seats).
- `game_board.dfy`: the logic of the board component.
  - The gem selection is a class whose click and confirm methods update the
    selection in place.
  - The log payload readers and the formatted history lines.
  - The opponent history filter.

The model keeps the source's own rules where a reader might expect the tabletop
game's rules instead:

- The engine's `takeGems` never checks that the bank holds enough tokens of a
  colour taken several times. It only checks that each named pile is non-empty.
  The board's selection rules are what keep takes legal.
  `EngineProperties.TakeGemsOverdraw` shows the bank going negative when three
  red tokens are taken from a pile of one. `GameBoard.SentSelectionAccepted`
  and `EngineProperties.ChosenTakeAccepted` show that the board and the local
  strategies only send takes the engine accepts. A language-model seat's take
  can still be refused by the engine (see "## Left out").
- A noble is awarded by scanning from the last noble down to the first. Only
  one noble visits per turn.
- The winner is the first of the highest scorers among players at or above the
  target, because the sort is stable. It is fixed only at the wrap to seat 0.

## Model

| member | source | states |
|---|---|---|
| Catalog.C | constants.ts:25-31 | a cost built from five numbers has exactly those white, blue, green, red and black amounts and no gold |
| Catalog.NoblesShape | constants.ts:85-96 | the noble list has ten nobles, each worth 3 points, each needing at least 8 bonuses in total, with distinct ids |
| Catalog.ColorLabel | constants.ts:51-53 | a recognised colour label names a non-gold colour whose capitalised name is the label |
| Catalog.ClampLevel | constants.ts:56 | a level column is clamped into 1..3: kept inside the range, 1 below it, 3 above it |
| Catalog.TrimAll | constants.ts:48-49 | splitting a line keeps every column, each trimmed |
| Catalog.KeepLines | constants.ts:43-46 | every kept line is trimmed, non-empty and does not start (case-insensitively) with the header word |
| Catalog.KeepLinesComplete | constants.ts:43-46 | every trimmed line that is non-empty and is not a header line is kept |
| Catalog.ParseLineAccepts | constants.ts:48-53 | a line yields a card iff it has at least 8 columns and its first names a colour |
| Catalog.ParseLineShape | constants.ts:65-72 | a parsed card gets id `card-<index>`, image index `index % 5`, a non-gold bonus and no name |
| Catalog.ColorLabelOfName | constants.ts:35-41 | each colour's capitalised name is read back as that colour: the inverse of the label check |
| Catalog.ParseCardLine | constants.ts:48-69 | a card written as a catalogue line (label, points, black, white, red, blue, green costs, tier) and parsed again comes back with exactly those fields, the id and image of its line position, and no name |
| Catalog.Somes | constants.ts:74 | filtering out the missing results never yields more values than it was given |
| Catalog.SomesComplete | constants.ts:74 | every present result survives the filter |
| Catalog.SomesSound | constants.ts:74 | every value after the filter was present at some position |
| Catalog.ParseFromComplete | constants.ts:47-74 | every kept line that parses contributes its card, numbered by the line's position |
| Catalog.ParseFromSound | constants.ts:47-74 | every parsed card is the parse of some kept line at its position |
| Catalog.ParseFromNumbering | constants.ts:65 | card numbers increase strictly along the parsed list and stay within the line indices |
| Catalog.ParseCardsDistinctIds | constants.ts:34-75 | the whole catalogue has pairwise distinct card ids |
| Catalog.IdNumberOfCardId | constants.ts:66 | the `card-<n>` id scheme is injective: the number can be read back |
| Catalog.OfLevel | constants.ts:79-83 | a level's deck holds exactly the catalogue cards of that level |
| Catalog.InitialDecks | constants.ts:79-83 | each initial deck holds only cards of its own level |
| Catalog.InitialDecksPartition | constants.ts:79-83 | the three initial decks together are a permutation of the parsed catalogue |
| GameUtils.CreatePlayer | services/gameUtils.ts:39-50 | a new player has the given identity and strategy, no gems, no bonuses, no reserved cards, no points and no nobles |
| Entities.GameState.Clone | services/gameUtils.ts:52-58 | the clone is a fresh object whose state equals the original's |
| GameUtils.Shuffle | services/gameUtils.ts:60-67 | the Fisher-Yates shuffle returns a permutation of its input, driven by the given rolls |
| GameUtils.RollIndexInRange | services/gameUtils.ts:63 | a roll in [0, 1) scaled by n and floored is a valid index below n |
| GameUtils.DrawMany | services/gameUtils.ts:69-73 | the drawn prefix has length count clamped to 0..deck size, and drawn plus rest is the original deck |
| GameUtils.DrawTop | services/gameUtils.ts:75-79 | an empty deck draws nothing; otherwise the top card is drawn and the rest follows it |
| GameUtils.GetGemCount | services/gameUtils.ts:81-83 | a player's gem count is the sum over all six colours including gold |
| GameUtils.GoldShortfallFormula | services/gameUtils.ts:85-102 | the gold a card needs is the sum over the five colours of cost minus bonus minus gems, each floored at zero |
| GameUtils.CanBuyCard | services/gameUtils.ts:85-102 | the affordability loop answers true iff the player's gold covers that shortfall |
| GameUtils.JsRemainder | services/gameUtils.ts:105 | the truncating remainder keeps the sign of the dividend, stays below the divisor in size, and is the identity on small values |
| GameUtils.NextPlayerIndex | services/gameUtils.ts:104-106 | the next seat is the following index, wrapping from the last seat to 0, always a valid seat |
| GameUtils.Replenish | services/gameUtils.ts:108-121 | refilling a slot puts the deck's top card there, and leaves the rest of the deck in order, or removes the slot when the deck is empty; other rows and decks are untouched and no card is lost |
| GameUtils.ReplenishConsistent | services/gameUtils.ts:108-121 | a refill keeps every card in the row and deck of its own level |
| GameUtils.ReplenishMarketSlot | services/gameUtils.ts:108-121 | the in-place refill changes only market and decks, exactly as the refill function says |
| GameEngine.Log | services/gameEngine.ts:93-106 | logging appends one entry with the current turn, the current player's id and name, the kind, summary, payload and timestamp, and changes nothing else |
| GameEngine.LogAction | services/gameEngine.ts:93-106 | the in-place logger leaves the object in the state the logging function describes |
| GameEngine.GemNames | services/gameEngine.ts:188 | the logged gem list names each taken gem in order |
| GameEngine.FindIndex | services/gameEngine.ts:171 | the slot found is the first holding the id, or -1 exactly when no card has it |
| GameEngine.FindById | services/gameEngine.ts:347 | a lookup by id succeeds iff a card with that id is present, and returns such a card |
| GameEngine.WithoutId | services/gameEngine.ts:239 | filtering out an id removes every card with it and keeps every other card |
| GameEngine.CardInMarket | services/gameEngine.ts:304-311 | a market lookup finds the card iff some row holds the id, searching level 3 first, then 2, then 1 |
| GameEngine.FindCardInMarket | services/gameEngine.ts:304-311 | the searching loop returns what the market lookup function returns |
| GameEngine.HighestQualifyingNoble | services/gameEngine.ts:269-278 | the chosen noble is the last one the player qualifies for, or -1 exactly when none qualifies |
| GameEngine.MeetsRequirements | services/gameEngine.ts:271-277 | the requirement loop answers true iff every colour's bonus meets the noble's requirement |
| GameEngine.AwardNoble | services/gameEngine.ts:269-285 | the noble step keeps the state well formed |
| GameEngine.VisitNoble | services/gameEngine.ts:269-285 | the in-place noble scan leaves the object in the state the noble step describes |
| GameEngine.Qualifiers | services/gameEngine.ts:291 | only players at or above the target are candidates for the win |
| GameEngine.EndTurn | services/gameEngine.ts:266-299 | ending a turn keeps the state well formed |
| GameEngine.CheckNoblesAndEndTurn | services/gameEngine.ts:266-299 | the in-place end of turn leaves the object in the state the end-of-turn function describes |
| GameEngine.TakeGemsGuards | services/gameEngine.ts:115-124 | the guard sequence rejects exactly when the take-gems rejection predicate holds |
| GameEngine.MoveTokens | services/gameEngine.ts:129-132 | the transfer loop moves each taken gem's multiplicity from the bank to the player |
| GameEngine.TakeGems | services/gameEngine.ts:112-143 | a rejected take returns the same object; an accepted take returns a fresh object in the state the outcome function describes |
| GameEngine.ReserveGuards | services/gameEngine.ts:147-157 | the guards reject exactly when the reservation rejection predicate holds |
| GameEngine.ReserveDraw | services/gameEngine.ts:163-175 | drawing the reserved card changes only the market and the decks |
| GameEngine.ReserveTake | services/gameEngine.ts:163-175 | the in-place draw from a deck or the market matches the draw function |
| GameEngine.ReserveCredit | services/gameEngine.ts:179-184 | the in-place credit of the card and gold matches the reserve function |
| GameEngine.ReserveCard | services/gameEngine.ts:145-197 | a rejected reservation returns the same object; otherwise a fresh object in the outcome state |
| GameEngine.Payment | services/gameEngine.ts:215-233 | the payment takes each colour's spend from that colour and the accumulated shortfall from gold |
| GameEngine.PayColour | services/gameEngine.ts:216-232 | paying one colour moves that colour's spend and its gold remainder from the player to the bank |
| GameEngine.PayColours | services/gameEngine.ts:215-233 | after the loop over the five colours the player has paid, and the bank received, what those colours take one by one |
| GameEngine.Pay | services/gameEngine.ts:215-233 | the payment loop takes the payment from the player's gems and adds it to the bank |
| GameEngine.PaidBeforeAll | services/gameEngine.ts:215-233 | the colours paid by the loop's prefix add up to the whole payment |
| GameEngine.PaidBeforeGold | services/gameEngine.ts:229-232 | the gold paid by a prefix of the colour loop is that prefix's accumulated shortfall |
| GameEngine.RefillAfterBuy | services/gameEngine.ts:240-245 | refilling after a market purchase changes only market and decks |
| GameEngine.BuyPaid | services/gameEngine.ts:215-239 | the paying part of a purchase leaves market and decks alone |
| GameEngine.PayBuyer | services/gameEngine.ts:215-251 | the buyer pays, gains the card's bonus and points, loses the card from the reserve when it came from there, and records a `Built` last action |
| GameEngine.BuyCredit | services/gameEngine.ts:215-239 | the in-place payment, bonus, points and reserve update matches the paying function |
| GameEngine.RefillBoughtSlot | services/gameEngine.ts:241-245 | the in-place refill after a market purchase matches the refill function |
| GameEngine.BuyCard | services/gameEngine.ts:199-262 | a rejected purchase returns the same object; otherwise a fresh object in the outcome state |
| GameEngine.PassOutcome | services/gameEngine.ts:313-319 | passing keeps the state well formed |
| GameEngine.PassTurn | services/gameEngine.ts:313-319 | passing always returns a fresh object in the state the pass function describes |
| GameEngine.ApplyReserveDecision | services/gameEngine.ts:331-340 | a reserve decision draws from the named deck, or reserves the named market card, or passes |
| GameEngine.ApplyBuyDecision | services/gameEngine.ts:342-353 | a buy decision buys the named reserved or market card, or passes |
| GameEngine.ApplyAIDecision | services/gameEngine.ts:321-359 | applying a decision returns the same object on rejection, otherwise a fresh object in the state the dispatch function describes |
| GameEngine.SeatPlayer | services/gameEngine.ts:53-77 | a missing seat i becomes computer player `ai-<i+1>` with avatar i+5 and the i-th default strategy; a given seat keeps its humanity, strategy and non-empty id; everyone starts empty-handed |
| GameEngine.SeatAll | services/gameEngine.ts:52-77 | the game always seats four players, seat by seat |
| GameEngine.Deal | services/gameEngine.ts:30-36 | a shuffled deck lays out its first four cards (or all if fewer) and the layout plus the rest is a permutation of the deck |
| GameEngine.DealRows | services/gameEngine.ts:30-48 | each level's market and deck together are a permutation of that level's deck, with four cards laid out where possible, all in their own level |
| GameEngine.DealNobles | services/gameEngine.ts:50 | five nobles are drawn, a sub-multiset of the noble list |
| GameEngine.InitializeGame | services/gameEngine.ts:26-92 | a new game has four seated players, market and decks partitioning the catalogue by level, five nobles, a bank of 7 per colour and 5 gold, seat 0 to move on turn 1, no winner, empty history and the given or default target |
| GameEngine.PerformAIMove | services/gameEngine.ts:361-367 | a human seat is returned unchanged; a computer seat applies the chosen decision |
| EngineProperties.InitialSupply | services/gameEngine.ts:26-92 | a new game has 7 tokens of each colour and 5 gold in play |
| EngineProperties.AwardNobleSkips | services/gameEngine.ts:269-272 | when no noble qualifies nothing changes |
| EngineProperties.AwardNobleEffect | services/gameEngine.ts:269-285 | otherwise the last qualifying noble leaves the board for the current player, who gains its points, and one noble entry is logged |
| EngineProperties.AwardNobleOthers | services/gameEngine.ts:269-285 | the noble step keeps the earlier log and every other player |
| EngineProperties.EndTurnKeeps | services/gameEngine.ts:266-299 | ending a turn moves no token and no card |
| EngineProperties.EndTurnOrder | services/gameEngine.ts:287-296 | the seat advances modulo the player count, the turn number grows at the wrap to 0, and only there a qualifying winner replaces the recorded one |
| EngineProperties.WinnerIsEarliestBest | services/gameEngine.ts:291-294 | the winner is a player at or above the target with the highest score, and no earlier seat has an equal score |
| EngineProperties.FinishKeeps | services/gameEngine.ts:93-106 | logging then ending the turn keeps every holding, appends the entry and advances the seat |
| EngineProperties.TakeGemsEffect | services/gameEngine.ts:112-143 | an accepted take moves exactly the taken multiplicities from bank to player, leaves other players and cards alone, advances the seat and logs the take |
| EngineProperties.TakeGemsConserves | services/gameEngine.ts:129-132 | taking gems conserves every colour's tokens in play |
| EngineProperties.TakeGemsBankBound | services/gameEngine.ts:121-123 | the bank stays non-negative when it held enough of each taken colour |
| EngineProperties.TakeGemsOverdraw | services/gameEngine.ts:121-123 | the engine accepts three reds from a pile of one and leaves the bank at -2 reds |
| EngineProperties.GemCountsExact | services/gameEngine.ts:134-137 | the logged counts have a key exactly for each taken colour, holding how often it was taken |
| EngineProperties.ReserveEffect | services/gameEngine.ts:145-197 | an accepted reservation appends the deck top or the market card to the reserve (at most three), pays one gold from the bank if one is left and the hand is under the limit, and otherwise changes no holding |
| EngineProperties.ReserveConserves | services/gameEngine.ts:179-184 | reserving conserves every colour's tokens in play |
| EngineProperties.GoldSpentIsShortfall | services/gameEngine.ts:228-232 | the gold a colour takes in payment is that colour's shortfall in the affordability test |
| EngineProperties.PaymentMeaning | services/gameEngine.ts:215-233 | each owed colour pays the smaller of the gems held and the cost after bonus, gold pays the total shortfall, and an affordable card never drives the player's gems negative |
| EngineProperties.BuyEffect | services/gameEngine.ts:199-262 | an accepted purchase moves the payment into the bank, adds one bonus, drops a reserved card or refills the market slot, advances the seat and logs the purchase |
| EngineProperties.BuyPoints | services/gameEngine.ts:236 | a purchase raises the buyer's score by the card's points plus any visiting noble's points |
| EngineProperties.BuyKeepsNonNegative | services/gameEngine.ts:201 | buying an affordable card leaves the buyer's gems non-negative and never shrinks the bank |
| EngineProperties.BuyConserves | services/gameEngine.ts:215-233 | buying conserves every colour's tokens in play |
| EngineProperties.PassEffect | services/gameEngine.ts:313-319 | passing moves nothing, advances the seat and logs the strategy and source |
| EngineProperties.ApplyConserves | services/gameEngine.ts:321-359 | every accepted AI decision conserves every colour's tokens in play |
| EngineProperties.ApplyPassCases | services/gameEngine.ts:322-357 | a missing decision, a pass, an empty take or an unknown card all become a pass |
| EngineProperties.ApplyRejectsOnlyByAction | services/gameEngine.ts:321-359 | an AI decision is rejected only when the move it names is rejected by take, reserve or buy |
| EngineProperties.ChosenTakeAccepted | services/ai/decisionEngine.ts:465-488 | the gems the AI chooses to take always pass the engine's guards |
| EngineProperties.LocalTakeAccepted | services/ai/decisionEngine.ts:31-48 | a take chosen by any local strategy is applied, never rejected |
| DecisionEngine.Affordables | services/ai/decisionEngine.ts:425-439 | the listed cards are affordable cards of the given list, with the right origin flag |
| DecisionEngine.AffordablesComplete | services/ai/decisionEngine.ts:425-439 | every affordable card of the list is listed |
| DecisionEngine.ListAffordableCards | services/ai/decisionEngine.ts:425-439 | the listing loops return reserved cards first, then the market from level 3 down |
| DecisionEngine.AffordableListExact | services/ai/decisionEngine.ts:425-439 | a card is listed iff it is affordable and reserved or in the market, and reserved entries precede market entries |
| DecisionEngine.BonusNameLength | services/ai/decisionEngine.ts:447-448 | the scores add the length of the bonus colour's name, so white scores two above red and green one above blue |
| DecisionEngine.PickHighestValueMarketCard | services/ai/decisionEngine.ts:441-445 | no card exactly when the market is empty; otherwise the first card with the top aggressive score |
| DecisionEngine.PickHighestIsEarliestBest | services/ai/decisionEngine.ts:441-445 | the picked card scores at least every market card and strictly more than those before it |
| DecisionEngine.PrioritizeNeededColors | services/ai/decisionEngine.ts:452-463 | the priority is a permutation of the five colours, sorted by the need of the best card when there is one, and the plain order otherwise |
| DecisionEngine.PrioritizeStable | services/ai/decisionEngine.ts:452-463 | colours with equal need keep their original order |
| DecisionEngine.ChooseGemTake | services/ai/decisionEngine.ts:465-488 | no take iff the hand is full or the bank is empty; otherwise one to three stocked non-gold gems within capacity, three distinct or a pair from a pile of four or more |
| DecisionEngine.ChooseGemTakeThree | services/ai/decisionEngine.ts:474-478 | with room for three and three stocked colours, three gems are taken |
| DecisionEngine.ChooseGemTakeFollowsPriority | services/ai/decisionEngine.ts:474-478 | those three are the first three stocked colours in priority order |
| DecisionEngine.AvailableEmpty | services/ai/decisionEngine.ts:469-470 | no colour is available exactly when every non-gold pile is empty |
| DecisionEngine.CardMissingCost | services/ai/decisionEngine.ts:512-519 | the missing-cost loop computes the per-colour shortfall summed over the five colours |
| DecisionEngine.MissingIsShortfall | services/ai/decisionEngine.ts:512-519 | for non-negative holdings it equals the gold shortfall of the affordability test and is non-negative |
| DecisionEngine.ThreatScore | services/ai/decisionEngine.ts:505-510 | the threat is between 0 and 4, at least 3 when at most two gems are missing, and 1 exactly for a 3-point card when more than four are missing |
| DecisionEngine.ThreatMonotone | services/ai/decisionEngine.ts:505-510 | an opponent missing fewer gems poses at least the same threat |
| DecisionEngine.Opponents | services/ai/decisionEngine.ts:491 | opponents are exactly the other players |
| DecisionEngine.BlockCandidate | services/ai/decisionEngine.ts:490-503 | no candidate exactly when no market card is under pressure; otherwise the first market card with the highest pressure |
| DecisionEngine.FindBlockCandidate | services/ai/decisionEngine.ts:490-503 | the search loop returns the block candidate |
| DecisionEngine.AggressiveBuysBest | services/ai/decisionEngine.ts:50-88 | with something affordable, the aggressive player buys the first card of top aggressive score |
| DecisionEngine.AggressiveOrder | services/ai/decisionEngine.ts:50-88 | aggressive buys iff it can, otherwise reserves iff it may, otherwise takes gems iff it can, otherwise passes |
| DecisionEngine.DefensiveOrder | services/ai/decisionEngine.ts:90-128 | defensive buys the first affordable card, otherwise reserves the block candidate, otherwise takes gems, otherwise passes |
| DecisionEngine.BalancedBuysBest | services/ai/decisionEngine.ts:130-181 | under a roll of 0.45 with something affordable, balanced buys the first card of top balanced score |
| DecisionEngine.BalancedOrder | services/ai/decisionEngine.ts:130-181 | balanced buys under 0.45, reserves under 0.65 with room, takes gems, falls back to a purchase, or passes, each iff its conditions hold |
| DecisionEngine.BuyOptions | services/ai/decisionEngine.ts:185-186 | every affordable card becomes one buy option, in order |
| DecisionEngine.CollectOptions | services/ai/decisionEngine.ts:184-194 | the option loops collect buys, then the reservation, then the gem take |
| DecisionEngine.PickByRoll | services/ai/decisionEngine.ts:197 | the roll picks one of the options |
| DecisionEngine.RandomAction | services/ai/decisionEngine.ts:183-198 | the random strategy returns the option the roll selects, or a pass |
| DecisionEngine.RandomShape | services/ai/decisionEngine.ts:183-198 | every random choice is a well-formed local move |
| DecisionEngine.PickLocalStrategy | services/ai/decisionEngine.ts:31-48 | dispatch on the strategy name returns that strategy's decision |
| DecisionEngine.LocalChoiceShape | services/ai/decisionEngine.ts:31-48 | every local decision buys an affordable card, reserves a market card with room left, takes the chosen gems, or passes |
| DecisionEngine.ChooseAIMove | services/ai/decisionEngine.ts:18-27 | a model-driven seat uses the remote decision when one came back and the balanced strategy otherwise; other seats use their local strategy, balanced by default |
| ResponseParser.LeadTicks | services/ai/decisionEngine.ts:319 | the count of leading backticks is maximal |
| ResponseParser.DropFencesClean | services/ai/decisionEngine.ts:319 | removing fences leaves no triple backtick and at most two leading ones |
| ResponseParser.DropFencesPlain | services/ai/decisionEngine.ts:319 | text without a backtick passes the fence removal unchanged |
| ResponseParser.ExtractBraceBlock | services/ai/decisionEngine.ts:321-326 | a block exists iff some `{` precedes some `}`; it runs from the first `{` to the last `}` |
| ResponseParser.SalvageByKeyword | services/ai/decisionEngine.ts:360-368 | the keyword rescue yields TAKE, RESERVE, BUY or PASS by the first keyword present in that order, and nothing iff none is present |
| ResponseParser.SalvageByPrefix | services/ai/decisionEngine.ts:370-377 | a reply starting like a kind's JSON yields that kind, and nothing iff no kind's start matches |
| ResponseParser.FirstPresent | services/ai/decisionEngine.ts:379-410 | the chain's answer is the first stage that produced something, or nothing iff every stage failed |
| ResponseParser.ParseReplyIsFirstStage | services/ai/decisionEngine.ts:310-411 | the parser returns the first successful stage of direct parse, brace block, loosened block, loosened text, regex, keyword and prefix rescue |
| ResponseParser.NormalizeActionKind | services/ai/decisionEngine.ts:413-419 | a kind is recognised iff it is non-empty and its upper case is one of the four kind names |
| ResponseParser.NormalizeKindName | services/ai/decisionEngine.ts:413-419 | each kind name, in upper or lower case, normalises back to its kind |
| ResponseParser.GemsOf | services/ai/decisionEngine.ts:249 | a gem list converts iff every name names a colour, keeping order |
| ResponseParser.BuildDecision | services/ai/decisionEngine.ts:244-256 | a decision is built iff the kind is recognised; card id, reserve flag, deck level and reasoning are copied, the gem list is the colours it names (none when absent or when a name is not a colour), and the model is recorded as strategy and source |
| ResponseParser.RemoteDecision | services/ai/decisionEngine.ts:240-256 | a remote decision exists iff the reply parsed and names a recognised kind; whenever the reply parsed, the decision is the one built from the parse |
| ResponseParser.KeywordRescue | services/ai/decisionEngine.ts:360-368 | a reply without JSON that mentions TAKE still becomes a gem-take decision |
| RoomState.Sanitize | services/roomState.ts:11-13 | a given strategy wins, else the fallback, else balanced |
| RoomState.CreateLobbySeats | services/roomState.ts:15-20 | a lobby starts with four empty seats of the given strategy |
| RoomState.CreateLobbySnapshot | services/roomState.ts:22-32 | each override replaces its default, and seats default to a fresh lobby of the effective strategy |
| RoomState.DefaultSnapshot | services/roomState.ts:22-32 | without overrides: four empty balanced seats, no host, target 15 |
| RoomState.RemoveOccupant | services/roomState.ts:34-44 | the occupant's seats are emptied, every other seat and every strategy kept |
| RoomState.FirstOpenSeatIndex | services/roomState.ts:46-48 | the first empty seat, or -1 exactly when all are taken |
| RoomState.AssignOccupantToSeat | services/roomState.ts:55-92 | for any seat list where the source's seat read succeeds, assigning keeps the seat count, the target, the default and every seat's strategy |
| RoomState.AssignPlacement | services/roomState.ts:72-80 | a target inside the table receives the occupant, who then holds no other seat |
| RoomState.AssignOutOfRange | services/roomState.ts:72-76 | an out-of-range target gives index -1, leaves the host and removes the occupant everywhere |
| RoomState.AssignFirstOpen | services/roomState.ts:72-75 | without a preference, on a table of at most four seats, the occupant goes to the first open seat, and -1 means the table is full |
| RoomState.AssignOthersUnchanged | services/roomState.ts:69-80 | seats other than the target are as after removing the occupant |
| RoomState.AssignHost | services/roomState.ts:82-90 | an existing host is kept; without one the seated occupant becomes host |
| RoomState.FirstOccupantId | services/roomState.ts:100 | the id of the first occupied seat, or nothing exactly when all seats are empty |
| RoomState.RemoveOccupantById | services/roomState.ts:94-109 | removal empties the occupant's seats and keeps target and default |
| RoomState.RemoveByIdMeaning | services/roomState.ts:94-109 | the removed player holds no seat; a removed host is replaced by the first remaining occupant, or by none when the table is empty |
| RoomState.SeatOf | services/roomState.ts:115 | the first seat the player holds, or -1 when none |
| RoomState.KeepOnly | services/roomState.ts:118-126 | every seat but the kept one is emptied, strategies kept |
| RoomState.ResetLobbyForHost | services/roomState.ts:111-136 | a reset for an unseated player changes nothing |
| RoomState.ResetMeaning | services/roomState.ts:111-136 | a reset for a seated player makes them host, empties every other seat and keeps theirs, the strategies, target and default |
| RoomState.UpdateSeatStrategy | services/roomState.ts:138-152 | an out-of-range index changes nothing |
| RoomState.UpdateStrategyOnly | services/roomState.ts:138-152 | a valid index changes only that seat's strategy |
| RoomState.Retarget | services/roomState.ts:158-161 | empty seats take the new strategy; occupied seats keep theirs and every occupant stays |
| RoomState.SetDefaultAIStrategy | services/roomState.ts:154-168 | the default becomes the new strategy, host and target are kept, and the seats are retargeted |
| RoomState.AIConfig | services/roomState.ts:175-185 | an empty seat i becomes a computer player `ai-<i+1>` with avatar i+5, the seat's strategy and the i-th avatar name or `AI <i+1>` |
| RoomState.ToPlayerConfigList | services/roomState.ts:170-187 | each occupied seat gives its occupant, each empty seat its computer player |
| RoomState.AIIdsDistinct | services/roomState.ts:170-187 | two computer players of the same list never share an id |
| RoomState.AssignKeepsWellFormed | services/roomState.ts:55-92 | assigning keeps four seats with no player holding two |
| RoomState.RemoveKeepsWellFormed | services/roomState.ts:94-109 | removal keeps the seat invariant |
| RoomState.ResetKeepsWellFormed | services/roomState.ts:111-136 | reset keeps the seat invariant |
| RoomState.StrategyChangesKeepWellFormed | services/roomState.ts:138-168 | strategy changes keep the seat invariant |
| GameBoard.GemSelection.HandleGemClick | components/GameBoard.tsx:1060-1093 | a click adds the colour exactly when the selection rules allow it, otherwise keeps the selection; each of the six rejections (empty pile, pair needs four, pair with others, nothing after a pair, three already, third same colour) shows its own message; a legal, stocked selection stays legal and stocked |
| GameBoard.GemSelection.ConfirmGemSelection | components/GameBoard.tsx:1098-1106 | confirming clears the selection; over the hand limit it sends nothing and warns of full storage, otherwise it sends the selection |
| GameBoard.SentSelectionAccepted | components/GameBoard.tsx:1098-1106 | a selection the board can send always passes the engine's take-gems guards |
| GameBoard.PayloadString | components/GameBoard.tsx:791-795 | a string is read iff the payload holds a string under the key |
| GameBoard.PayloadNumber | components/GameBoard.tsx:797-801 | a number is read iff the payload holds a number under the key |
| GameBoard.PayloadBoolean | components/GameBoard.tsx:803-807 | a boolean is read iff the payload holds a boolean under the key |
| GameBoard.PositiveCounts | components/GameBoard.tsx:813-818 | the counts kept are exactly the positive numeric entries, with their values |
| GameBoard.StringCountsMeaning | components/GameBoard.tsx:826-832 | counting a gem list gives a key for each string present, holding how often it occurs |
| GameBoard.GemCountsOf | components/GameBoard.tsx:809-839 | counts are produced only when non-empty |
| GameBoard.CollectPositive | components/GameBoard.tsx:813-818 | the loop over the entries keeps exactly the positive numeric ones, with their values |
| GameBoard.CountStrings | components/GameBoard.tsx:826-832 | the reduce over the gem list computes the string counts |
| GameBoard.BuildGemCountsFromPayload | components/GameBoard.tsx:809-839 | the method returns the positive `gemCounts` entries when there are any, else the counts of the `gems` strings when there are any, else nothing |
| GameBoard.TakeCountsPositive | components/GameBoard.tsx:813-818 | the kept counts of a logged take give each colour's count in the take |
| GameBoard.TakePayloadCounts | components/GameBoard.tsx:809-839 | a logged take reads back its own counts, and nothing for an empty take |
| GameBoard.ShownColours | components/GameBoard.tsx:842 | the colours shown are exactly those with a positive count |
| GameBoard.ShownColoursOrdered | components/GameBoard.tsx:842 | the colours shown keep the order of the colour list |
| GameBoard.FormatGemCountsOrder | components/GameBoard.tsx:841-844 | the formatted counts list exactly the colours with a positive count, in bank order |
| GameBoard.BuildCardDescriptor | components/GameBoard.tsx:846-857 | no descriptor exactly when no card field is present; otherwise the segments joined by a middle dot |
| GameBoard.CardPayloadSegments | components/GameBoard.tsx:846-857 | a logged card always shows its level first and points last, with name and `#id` between when it is named |
| GameBoard.BuildEntryDetails | components/GameBoard.tsx:859-886 | the detail loop computes the entry-details function |
| GameBoard.EntryDetailsByKind | components/GameBoard.tsx:859-886 | only takes, reservations and purchases have details; a take shows its crystals; a card move ends with its source |
| GameBoard.TakeEntryDetails | components/GameBoard.tsx:863-868 | a logged take shows one crystals line whose counts are the taken counts |
| GameBoard.ReserveEntryDetails | components/GameBoard.tsx:870-878 | a logged reservation shows the card and the deck level, or the market |
| GameBoard.BuyEntryDetails | components/GameBoard.tsx:870-882 | a logged purchase shows the card and the reserved hangar, or the market |
| GameBoard.OpponentEntries | components/GameBoard.tsx:1026 | exactly the entries of other players |
| GameBoard.UniqueTurns | components/GameBoard.tsx:1027 | each turn of an entry appears once |
| GameBoard.KeepTurns | components/GameBoard.tsx:1029-1030 | exactly the entries of allowed turns |
| GameBoard.TopTwoOfSorted | components/GameBoard.tsx:1027-1028 | in a descending list without repeats, the first two elements are exactly those that at most one other element exceeds |
| GameBoard.AllowedTurnsMeaning | components/GameBoard.tsx:1027-1028 | a turn is allowed iff it occurs and at most one distinct turn is later |
| GameBoard.KeptTurnsMembers | components/GameBoard.tsx:1027-1030 | an entry survives the turn filter iff its turn is one of the two latest turns |
| GameBoard.OpponentHistoryMembers | components/GameBoard.tsx:1024-1032 | the history shows exactly the other players' entries from their two latest turns |
| GameBoard.OpponentHistoryOrder | components/GameBoard.tsx:1024-1032 | the history is a permutation of the kept entries sorted newest timestamp first, equal stamps in log order |
| Text.Capitalize | components/GameBoard.tsx:888 | the first character is upper-cased and the rest kept |

## Left out

- Rendering, animation, sound, the remaining board hooks, the lobby screen and
  the room network service are not modelled. Only the logic of the board
  component is.
- Time, randomness and foreign calls are parameters. `Date.now()` is `now`.
  The `Math.random()` draws are rolls in [0, 1). `JSON.parse`, the `loosen`
  rewriter and the regex salvage of the reply parser are function parameters,
  because they rest on the JavaScript runtime's JSON and regular expressions.
- The network request to the language model, its API key, its model choice and
  its prompt are not modelled. The reply text is the input. A remote failure
  is `None`.
- `console.log`, the board's message timeout and the delays between moves are
  not modelled.
- The source sometimes mutates during a cloned step, e.g. the noble scan
  `splice` and the score update. The model keeps these inside the clone
  produced by `Entities.GameState.Clone`. Aliasing between the old and new
  states cannot happen in the model, and the deep copy is a value copy.
- Numbers stand for JavaScript numbers but are integers. `Number()` is read as
  a decimal integer (with a sign) and anything else is `NaN`. Payload numbers
  are integers. Card costs and points are never fractional in the catalogue.
- Upper and lower case map ASCII letters only.
- ResponseParser.BuildDecision drops the whole gem list when a gem string names
  no colour, so the take becomes a pass. The source passes the unknown string on
  to `takeGems`. There `state.gems[color] <= 0` reads `undefined <= 0`, which is
  false, so the pile check lets it through (services/gameEngine.ts:125-127). The
  take is then accepted: the known colours are moved, and `NaN` is written under
  the unknown key in both the bank and the hand (services/gameEngine.ts:132-135).
- ResponseParser.Parsed: the fields of a parsed reply are assumed well-typed. The
  deck level is in 1..3, the card id is a string, and the gem list is a list of
  strings. The source does not check them (services/ai/decisionEngine.ts:248-252).
  A deck level such as 4 makes `reserveCard` read a missing deck and throw
  (services/gameEngine.ts:151-152). The model cannot express that crash.
- RoomState.AssignOccupantToSeat requires that a preferred index does not lie in
  [number of seats, 4). Such an index passes the range guard, and the read
  `nextSeats[seatIndex].aiStrategyId` (services/roomState.ts:78) then throws,
  which the model cannot express. Every snapshot the module builds has four
  seats, so this only concerns hand-made seat lists. Without a preferred index
  any seat list is accepted.
- Catalog.ColorLabel: the label map is read as a plain map of the five colour
  labels. In the source `colorMap[label]` also finds inherited object keys such
  as `constructor` or `toString`, so a line labelled that way yields a card
  whose bonus is a function. The model rejects such lines. The shipped
  catalogue has no such label.
- EngineProperties.LocalTakeAccepted covers the local strategies only. A
  language-model seat's take goes through ResponseParser.BuildDecision and
  GameEngine.ApplyAIDecision to `takeGems`, which can refuse it: a take naming
  gold is refused at services/gameEngine.ts:115, and four gems that overflow
  the hand at services/gameEngine.ts:116. The model then returns the same
  state, as the source does.
- The `Array.isArray(history)` guard of the opponent history is not modelled,
  because the history is always a sequence here.
- The engine's rule functions require a well-formed state: at least one player,
  a valid current seat, and rows and decks holding cards of their own level.
  The source assumes the same of its callers.
- Noble requirements never mention gold, so `Object.keys(requirements)` is read
  as the five colours.
