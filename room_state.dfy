/** The lobby seat algebra of services/roomState.ts: pure snapshot-to-snapshot
    functions over the seat list of a room (`LobbySeatState`, `LobbySnapshot`). */
module RoomState {
  import opened Text
  import opened Entities
  import opened Catalog

  /** `SEAT_COUNT` */
  const SeatCount: int := 4

  /** `LobbySeatState`: an AI strategy and an optional human occupant. */
  datatype Seat = Seat(strategy: Strategy, occupant: Option<PlayerConfig>)

  /** `LobbySnapshot` */
  datatype Snapshot = Snapshot(seats: seq<Seat>, hostId: Option<string>, targetScore: int,
                               defaultStrategy: Strategy)

  /** `Partial<LobbySnapshot>`: every field may be absent (a null host is absent too). */
  datatype Overrides = Overrides(seats: Option<seq<Seat>>, hostId: Option<string>,
                                 targetScore: Option<int>, defaultStrategy: Option<Strategy>)

  const NoOverrides := Overrides(None, None, None, None)

  /** `x ?? fallback` on an optional value. */
  function OrElse<T>(x: Option<T>, fallback: T): (r: T)
    ensures x.Some? ==> r == x.value
    ensures x.None? ==> r == fallback
  {
    if x.Some? then x.value else fallback
  }

  /** `sanitizeStrategy`: the strategy, else the fallback, else balanced. */
  function Sanitize(strategy: Option<Strategy>, fallback: Option<Strategy>): (r: Strategy)
    ensures strategy.Some? ==> r == strategy.value
    ensures strategy.None? && fallback.Some? ==> r == fallback.value
    ensures strategy.None? && fallback.None? ==> r == Balanced
  {
    OrElse(strategy, OrElse(fallback, Balanced))
  }

  predicate HoldsId(seat: Seat, id: string) { seat.occupant.Some? && seat.occupant.value.id == id }

  // ------------------------------------------------------------ snapshots

  /** `createLobbySeats`: four empty seats with the given strategy. */
  function CreateLobbySeats(strategy: Strategy): (seats: seq<Seat>)
    ensures |seats| == SeatCount
    ensures forall i :: 0 <= i < |seats| ==> seats[i] == Seat(strategy, None)
  {
    [Seat(strategy, None), Seat(strategy, None), Seat(strategy, None), Seat(strategy, None)]
  }

  /** `createLobbySnapshot`: the overrides, with every absent field defaulted. */
  function CreateLobbySnapshot(o: Overrides): (r: Snapshot)
    ensures r.defaultStrategy == OrElse(o.defaultStrategy, Balanced)
    ensures o.seats.Some? ==> r.seats == o.seats.value
    ensures o.seats.None? ==> r.seats == CreateLobbySeats(r.defaultStrategy)
    ensures r.hostId == o.hostId
    ensures r.targetScore == OrElse(o.targetScore, TargetScoreDefault)
  {
    var strategy := OrElse(o.defaultStrategy, Balanced);
    Snapshot(if o.seats.Some? then o.seats.value else CreateLobbySeats(strategy),
             o.hostId, OrElse(o.targetScore, TargetScoreDefault), strategy)
  }

  /** With no overrides: four empty balanced seats, no host, target 15, balanced default. */
  lemma DefaultSnapshot()
    ensures var r := CreateLobbySnapshot(NoOverrides);
      |r.seats| == 4 && r.hostId.None? && r.targetScore == 15 && r.defaultStrategy == Balanced &&
      forall i :: 0 <= i < |r.seats| ==> r.seats[i].occupant.None? && r.seats[i].strategy == Balanced
  {
  }

  // ------------------------------------------------------------ occupants

  /** `removeOccupant`: empty every seat whose occupant has the id, keeping strategies. */
  function RemoveOccupant(seats: seq<Seat>, id: string): (r: seq<Seat>)
    ensures |r| == |seats|
    ensures forall i :: 0 <= i < |r| ==> r[i].strategy == seats[i].strategy
    ensures forall i :: 0 <= i < |r| ==>
      r[i].occupant == (if HoldsId(seats[i], id) then None else seats[i].occupant)
  {
    if |seats| == 0 then []
    else [if HoldsId(seats[0], id) then Seat(seats[0].strategy, None) else seats[0]]
         + RemoveOccupant(seats[1..], id)
  }

  /** `firstOpenSeatIndex`: the first empty seat, or -1. */
  function FirstOpenSeatIndex(seats: seq<Seat>): (r: int)
    ensures -1 <= r < |seats|
    ensures r >= 0 ==> seats[r].occupant.None? && forall j :: 0 <= j < r ==> seats[j].occupant.Some?
    ensures r == -1 ==> forall j :: 0 <= j < |seats| ==> seats[j].occupant.Some?
  {
    if |seats| == 0 then -1
    else if seats[0].occupant.None? then 0
    else var k := FirstOpenSeatIndex(seats[1..]); if k == -1 then -1 else k + 1
  }

  /** The seat `assignOccupantToSeat` aims at: the preferred index, else the first empty seat. */
  function TargetSeat(seats: seq<Seat>, preferred: Option<int>): int {
    if preferred.Some? then preferred.value else FirstOpenSeatIndex(seats)
  }

  /** The source reads `nextSeats[seatIndex]` for every target in [0, 4); the read only
      fails for a preferred index past the end of a short seat list. */
  predicate SeatReadable(snap: Snapshot, preferred: Option<int>) {
    preferred.Some? ==> !(|snap.seats| <= preferred.value < SeatCount)
  }

  /** `assignOccupantToSeat`: the occupant leaves every seat, then sits at the target seat
      if it lies in [0, 4); the host is kept, or becomes the occupant when there is none. */
  function AssignOccupantToSeat(snap: Snapshot, occupant: PlayerConfig, preferred: Option<int>)
    : (r: (Snapshot, int))
    requires SeatReadable(snap, preferred)
    ensures |r.0.seats| == |snap.seats|
    ensures r.0.targetScore == snap.targetScore && r.0.defaultStrategy == snap.defaultStrategy
    ensures forall i :: 0 <= i < |snap.seats| ==> r.0.seats[i].strategy == snap.seats[i].strategy
  {
    var next := RemoveOccupant(snap.seats, occupant.id);
    var index := TargetSeat(next, preferred);
    if index < 0 || index >= SeatCount then (snap.(seats := next), -1)
    else
      var seated := next[index := Seat(next[index].strategy, Some(occupant))];
      (snap.(seats := seated, hostId := Some(OrElse(snap.hostId, occupant.id))), index)
  }

  /** The occupant ends in at most one seat, and in exactly the returned one. */
  lemma AssignPlacement(snap: Snapshot, occupant: PlayerConfig, preferred: Option<int>)
    requires SeatReadable(snap, preferred)
    ensures var (r, index) := AssignOccupantToSeat(snap, occupant, preferred);
      var target := TargetSeat(RemoveOccupant(snap.seats, occupant.id), preferred);
      (0 <= target < SeatCount ==> index == target && r.seats[index].occupant == Some(occupant)) &&
      (forall i :: 0 <= i < |r.seats| && HoldsId(r.seats[i], occupant.id) ==> i == index)
  {
  }

  /** A target outside [0, 4) yields -1; the occupant's former seat is emptied and the host kept. */
  lemma AssignOutOfRange(snap: Snapshot, occupant: PlayerConfig, preferred: Option<int>)
    requires SeatReadable(snap, preferred)
    ensures var (r, index) := AssignOccupantToSeat(snap, occupant, preferred);
      var target := TargetSeat(RemoveOccupant(snap.seats, occupant.id), preferred);
      (index == -1 <==> !(0 <= target < SeatCount)) &&
      (index == -1 ==>
         r.hostId == snap.hostId && forall i :: 0 <= i < |r.seats| ==> !HoldsId(r.seats[i], occupant.id))
  {
  }

  /** With no preferred index the occupant takes the first seat that is empty once they
      have left; when every seat is taken the result is -1. */
  lemma AssignFirstOpen(snap: Snapshot, occupant: PlayerConfig)
    requires |snap.seats| <= SeatCount
    ensures var (r, index) := AssignOccupantToSeat(snap, occupant, None);
      var next := RemoveOccupant(snap.seats, occupant.id);
      (index >= 0 ==>
         next[index].occupant.None? &&
         forall j :: 0 <= j < index ==> r.seats[j] == next[j] && next[j].occupant.Some?) &&
      (index == -1 <==> forall j :: 0 <= j < |next| ==> next[j].occupant.Some?)
  {
  }

  /** Only the target seat changes its occupant; every other seat is as after removal. */
  lemma AssignOthersUnchanged(snap: Snapshot, occupant: PlayerConfig, preferred: Option<int>)
    requires SeatReadable(snap, preferred)
    ensures var (r, index) := AssignOccupantToSeat(snap, occupant, preferred);
      var next := RemoveOccupant(snap.seats, occupant.id);
      forall i :: 0 <= i < |r.seats| && i != index ==> r.seats[i] == next[i]
  {
  }

  /** An existing host is kept; the occupant becomes host only when there was none. */
  lemma AssignHost(snap: Snapshot, occupant: PlayerConfig, preferred: Option<int>)
    requires SeatReadable(snap, preferred)
    ensures var (r, index) := AssignOccupantToSeat(snap, occupant, preferred);
      (snap.hostId.Some? ==> r.hostId == snap.hostId) &&
      (snap.hostId.None? ==> r.hostId == (if index == -1 then None else Some(occupant.id)))
  {
  }

  /** The first occupied seat's occupant id, if any (`seats.find(seat => seat.occupant)`). */
  function FirstOccupantId(seats: seq<Seat>): (r: Option<string>)
    ensures r.None? <==> forall i :: 0 <= i < |seats| ==> seats[i].occupant.None?
    ensures r.Some? ==>
      exists i :: 0 <= i < |seats| && HoldsId(seats[i], r.value) &&
        forall j :: 0 <= j < i ==> seats[j].occupant.None?
  {
    if |seats| == 0 then None
    else if seats[0].occupant.Some? then Some(seats[0].occupant.value.id)
    else
      var r := FirstOccupantId(seats[1..]);
      if r.Some? then
        var i :| 0 <= i < |seats[1..]| && HoldsId(seats[1..][i], r.value) &&
          forall j :: 0 <= j < i ==> seats[1..][j].occupant.None?;
        assert HoldsId(seats[i + 1], r.value);
        r
      else r
  }

  /** `removeOccupantById`: vacate the id's seats; a removed host passes to the first
      remaining occupant, or to nobody. */
  function RemoveOccupantById(snap: Snapshot, id: string): (r: Snapshot)
    ensures r.seats == RemoveOccupant(snap.seats, id)
    ensures r.targetScore == snap.targetScore && r.defaultStrategy == snap.defaultStrategy
  {
    var without := RemoveOccupant(snap.seats, id);
    var host := if snap.hostId == Some(id) then FirstOccupantId(without) else snap.hostId;
    CreateLobbySnapshot(Overrides(Some(without), host, Some(snap.targetScore), Some(snap.defaultStrategy)))
  }

  /** After removal no seat holds the id, and the host is either kept or handed to a
      seated occupant other than the removed one. */
  lemma RemoveByIdMeaning(snap: Snapshot, id: string)
    ensures var r := RemoveOccupantById(snap, id);
      (forall i :: 0 <= i < |r.seats| ==> !HoldsId(r.seats[i], id)) &&
      (snap.hostId != Some(id) ==> r.hostId == snap.hostId) &&
      (snap.hostId == Some(id) ==> r.hostId == FirstOccupantId(r.seats) && r.hostId != Some(id)) &&
      (r.hostId.None? && snap.hostId == Some(id) ==>
         forall i :: 0 <= i < |r.seats| ==> r.seats[i].occupant.None?)
  {
    var r := RemoveOccupantById(snap, id);
    if snap.hostId == Some(id) && r.hostId.Some? {
      var i :| 0 <= i < |r.seats| && HoldsId(r.seats[i], r.hostId.value) &&
        forall j :: 0 <= j < i ==> r.seats[j].occupant.None?;
      assert !HoldsId(r.seats[i], id);
    }
  }

  /** The first seat whose occupant has the id, or -1 (`findIndex`). */
  function SeatOf(seats: seq<Seat>, id: string): (r: int)
    ensures -1 <= r < |seats|
    ensures r >= 0 ==> HoldsId(seats[r], id) && forall j :: 0 <= j < r ==> !HoldsId(seats[j], id)
    ensures r == -1 ==> forall j :: 0 <= j < |seats| ==> !HoldsId(seats[j], id)
  {
    if |seats| == 0 then -1
    else if HoldsId(seats[0], id) then 0
    else var k := SeatOf(seats[1..], id); if k == -1 then -1 else k + 1
  }

  /** Every seat but `keep` emptied, strategies kept. */
  function KeepOnly(seats: seq<Seat>, keep: int): (r: seq<Seat>)
    ensures |r| == |seats|
    ensures forall i :: 0 <= i < |r| ==>
      r[i] == (if i == keep then seats[i] else Seat(seats[i].strategy, None))
  {
    seq(|seats|, i requires 0 <= i < |seats| =>
      if i == keep then seats[i] else Seat(seats[i].strategy, None))
  }

  /** `resetLobbyForHost`: with the new host seated, only the host's (first) seat keeps
      its occupant and the host id becomes theirs; otherwise nothing changes. */
  function ResetLobbyForHost(snap: Snapshot, newHostId: string): (r: Snapshot)
    ensures SeatOf(snap.seats, newHostId) == -1 ==> r == snap
  {
    var hostSeat := SeatOf(snap.seats, newHostId);
    if hostSeat == -1 then snap
    else CreateLobbySnapshot(Overrides(Some(KeepOnly(snap.seats, hostSeat)), Some(newHostId),
                                       Some(snap.targetScore), Some(snap.defaultStrategy)))
  }

  lemma ResetMeaning(snap: Snapshot, newHostId: string)
    requires exists i :: 0 <= i < |snap.seats| && HoldsId(snap.seats[i], newHostId)
    ensures var r := ResetLobbyForHost(snap, newHostId);
      r.hostId == Some(newHostId) && r.targetScore == snap.targetScore &&
      r.defaultStrategy == snap.defaultStrategy && |r.seats| == |snap.seats| &&
      (forall i :: 0 <= i < |r.seats| ==> r.seats[i].strategy == snap.seats[i].strategy) &&
      (forall i :: 0 <= i < |r.seats| && r.seats[i].occupant.Some? ==> i == SeatOf(snap.seats, newHostId)) &&
      r.seats[SeatOf(snap.seats, newHostId)] == snap.seats[SeatOf(snap.seats, newHostId)]
  {
  }

  // ------------------------------------------------------------ strategies

  /** `updateSeatStrategy`: a seat index outside the list changes nothing. */
  function UpdateSeatStrategy(snap: Snapshot, index: int, strategy: Strategy): (r: Snapshot)
    ensures !(0 <= index < |snap.seats|) ==> r == snap
  {
    if index < 0 || index >= |snap.seats| then snap
    else
      var seat := snap.seats[index];
      snap.(seats := snap.seats[index := Seat(Sanitize(Some(strategy), Some(snap.defaultStrategy)), seat.occupant)])
  }

  /** In range, only that seat's strategy changes, to the requested one. */
  lemma UpdateStrategyOnly(snap: Snapshot, index: int, strategy: Strategy)
    requires 0 <= index < |snap.seats|
    ensures var r := UpdateSeatStrategy(snap, index, strategy);
      r.hostId == snap.hostId && r.targetScore == snap.targetScore &&
      r.defaultStrategy == snap.defaultStrategy && |r.seats| == |snap.seats| &&
      r.seats[index] == Seat(strategy, snap.seats[index].occupant) &&
      forall i :: 0 <= i < |r.seats| && i != index ==> r.seats[i] == snap.seats[i]
  {
  }

  /** The seats with every empty one retargeted to `strategy`. */
  function Retarget(seats: seq<Seat>, strategy: Strategy): (r: seq<Seat>)
    ensures |r| == |seats|
    ensures forall i :: 0 <= i < |r| ==> r[i].occupant == seats[i].occupant
    ensures forall i :: 0 <= i < |r| ==>
      r[i].strategy == (if seats[i].occupant.Some? then seats[i].strategy else strategy)
  {
    seq(|seats|, i requires 0 <= i < |seats| =>
      Seat(if seats[i].occupant.Some? then seats[i].strategy else strategy, seats[i].occupant))
  }

  /** `setDefaultAIStrategy`: empty seats take the new default; occupied seats keep theirs. */
  function SetDefaultAIStrategy(snap: Snapshot, strategy: Strategy): (r: Snapshot)
    ensures r.defaultStrategy == strategy && r.hostId == snap.hostId && r.targetScore == snap.targetScore
    ensures r.seats == Retarget(snap.seats, strategy)
  {
    snap.(defaultStrategy := strategy, seats := Retarget(snap.seats, strategy))
  }

  // ------------------------------------------------------------ players

  /** The player an empty seat at `index` becomes. */
  function AIConfig(seat: Seat, index: nat): (c: PlayerConfig)
    ensures c.id == "ai-" + IntToString(index + 1) && !c.isHuman
    ensures c.avatarId == Some(index + 5) && c.strategy == Some(seat.strategy)
    ensures c.name == (if index < |AvatarNames| then AvatarNames[index] else "AI " + IntToString(index + 1))
  {
    var fallback := DefaultAIStrategies[index % |DefaultAIStrategies|];
    PlayerConfig("ai-" + IntToString(index + 1),
                 if index < |AvatarNames| then AvatarNames[index] else "AI " + IntToString(index + 1),
                 false, Some(Sanitize(Some(seat.strategy), Some(fallback))), Some(index + 5))
  }

  /** `toPlayerConfigList`: each seat's occupant, or the AI that fills an empty seat. */
  function ToPlayerConfigList(seats: seq<Seat>): (r: seq<PlayerConfig>)
    ensures |r| == |seats|
    ensures forall i :: 0 <= i < |seats| ==>
      r[i] == (if seats[i].occupant.Some? then seats[i].occupant.value else AIConfig(seats[i], i))
  {
    seq(|seats|, i requires 0 <= i < |seats| =>
      if seats[i].occupant.Some? then seats[i].occupant.value else AIConfig(seats[i], i))
  }

  /** The AI players of distinct empty seats have distinct ids. */
  lemma AIIdsDistinct(seats: seq<Seat>, i: nat, j: nat)
    requires i < j < |seats| && seats[i].occupant.None? && seats[j].occupant.None?
    ensures ToPlayerConfigList(seats)[i].id != ToPlayerConfigList(seats)[j].id
  {
    var list := ToPlayerConfigList(seats);
    assert list[i] == AIConfig(seats[i], i);
    assert list[j] == AIConfig(seats[j], j);
    AIIdInjective(i, j);
  }

  /** `ai-<n>` names a single seat index. */
  lemma AIIdInjective(i: nat, j: nat)
    requires i != j
    ensures "ai-" + IntToString(i + 1) != "ai-" + IntToString(j + 1)
  {
    var a := "ai-" + IntToString(i + 1);
    var b := "ai-" + IntToString(j + 1);
    assert a[3..] == IntToString(i + 1);
    assert b[3..] == IntToString(j + 1);
    ParseIntToString(i + 1);
    ParseIntToString(j + 1);
  }

  // ------------------------------------------------------------ invariants

  /** The lobby invariant kept by every operation: four seats, each id seated at most once. */
  predicate WellFormed(snap: Snapshot) {
    |snap.seats| == SeatCount &&
    forall i, j :: 0 <= i < j < |snap.seats| && snap.seats[i].occupant.Some? ==>
      !HoldsId(snap.seats[j], snap.seats[i].occupant.value.id)
  }

  lemma AssignKeepsWellFormed(snap: Snapshot, occupant: PlayerConfig, preferred: Option<int>)
    requires WellFormed(snap)
    ensures WellFormed(AssignOccupantToSeat(snap, occupant, preferred).0)
  {
    var r := AssignOccupantToSeat(snap, occupant, preferred).0;
    var next := RemoveOccupant(snap.seats, occupant.id);
    forall i, j | 0 <= i < j < |r.seats| && r.seats[i].occupant.Some?
      ensures !HoldsId(r.seats[j], r.seats[i].occupant.value.id)
    {
      if r.seats[i].occupant != next[i].occupant || r.seats[j].occupant != next[j].occupant {
        AssignPlacement(snap, occupant, preferred);
      }
    }
  }

  lemma RemoveKeepsWellFormed(snap: Snapshot, id: string)
    requires WellFormed(snap)
    ensures WellFormed(RemoveOccupantById(snap, id))
  {
  }

  lemma ResetKeepsWellFormed(snap: Snapshot, newHostId: string)
    requires WellFormed(snap)
    ensures WellFormed(ResetLobbyForHost(snap, newHostId))
  {
  }

  lemma StrategyChangesKeepWellFormed(snap: Snapshot, index: int, strategy: Strategy)
    requires WellFormed(snap)
    ensures WellFormed(UpdateSeatStrategy(snap, index, strategy))
    ensures WellFormed(SetDefaultAIStrategy(snap, strategy))
  {
  }
}
