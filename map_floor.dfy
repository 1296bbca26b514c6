/**
 * The floor plan: 50 tables of 4 chairs per floor, each chair classified as
 * available, reserved or pending from the room's reservations, or from a
 * deterministic estimate when no query answered; the floor's counts; the
 * grouping by table; the colours and the data-quality label.
 */
module MapFloor {
  import opened Wrappers
  import opened Text
  import opened Lists
  import opened Booking
  import opened Api

  const TablesPerFloor: int := 50
  const ChairsPerTable: int := 4

  /** A chair of the plan. `reservedBy` is None when the source leaves it undefined. */
  datatype Chair = Chair(
    id: string, table: int, index: int, available: bool,
    reservedBy: Option<string>, isPending: bool)

  datatype FloorStats = FloorStats(totalSeats: int, availableSeats: int, reservedSeats: int, pendingSeats: int)

  /** Which of the two queries answered. */
  datatype ApiDataStatus = ApiDataStatus(existingReservations: bool, pendingReservations: bool)

  /**
   * The selected window's end: an end at or before the start means the next
   * day. Start and end come from the same date, so the end is never a whole
   * day or more before the start, and the window then has positive length.
   */
  function SelectedEnd(startMs: int, endMs: int): (r: int)
    ensures endMs > startMs ==> r == endMs
    ensures endMs <= startMs ==> r == endMs + DayMs
    ensures endMs > startMs - DayMs ==> startMs < r <= startMs + DayMs || r == endMs
  {
    if endMs <= startMs then endMs + DayMs else endMs
  }

  /** A desk is named `table-seat`: at least three characters, one of them the `-`. */
  function DeskId(table: nat, seat: nat): (id: string)
    ensures '-' in id && |id| >= 3
  {
    var id := NatToString(table) + "-" + NatToString(seat);
    assert id[|NatToString(table)|] == '-';
    id
  }

  /** A desk id is the table's digits, then its only `-`, then the seat's digits. */
  lemma DeskIdLayout(table: nat, seat: nat)
    ensures var id := DeskId(table, seat);
      var n := |NatToString(table)|;
      && n < |id| && id[..n] == NatToString(table) && id[n + 1..] == NatToString(seat)
      && forall k :: 0 <= k < |id| ==> (id[k] == '-' <==> k == n)
  {
    var id := DeskId(table, seat);
    var ts := NatToString(table);
    var ss := NatToString(seat);
    assert id == ts + "-" + ss;
    assert id[..|ts|] == ts && id[|ts| + 1..] == ss;
    assert forall k :: 0 <= k < |ts| ==> id[k] == ts[k] && IsDigit(ts[k]);
    assert forall k :: |ts| < k < |id| ==> id[k] == ss[k - |ts| - 1] && IsDigit(ss[k - |ts| - 1]);
  }

  /** A single digit renders as one character. */
  lemma SingleDigit(n: nat)
    requires n < 10
    ensures |NatToString(n)| == 1
  {
  }

  /** Two chairs of a plan with the same id are the same table and seat. */
  lemma DeskIdInjective(t1: nat, c1: nat, t2: nat, c2: nat)
    requires c1 < 10 && c2 < 10
    requires DeskId(t1, c1) == DeskId(t2, c2)
    ensures t1 == t2 && c1 == c2
  {
    SingleDigit(c1);
    SingleDigit(c2);
    var a := DeskId(t1, c1);
    var b := DeskId(t2, c2);
    assert |NatToString(t1)| == |NatToString(t2)|;
    assert NatToString(t1) == a[..|a| - 2] == b[..|b| - 2] == NatToString(t2);
    assert NatToString(c1) == a[|a| - 1..] == b[|b| - 1..] == NatToString(c2);
    NatToStringInjective(t1, t2);
    NatToStringInjective(c1, c2);
  }

  /**
   * The `onNext` split of the selected id at `-` into table and seat. Only
   * digit runs are read as numbers here (the empty run reads as 0, as
   * `Number('')` does); anything else has no table/seat.
   */
  function ParseDeskId(id: string): (r: Option<(nat, nat)>)
    ensures (forall k :: 0 <= k < |id| ==> id[k] != '-') ==> r.None?
    ensures r.Some? ==> exists i :: 0 <= i < |id| && id[i] == '-' && (forall k :: 0 <= k < i ==> id[k] != '-')
                          && AllDigits(id[..i]) && r.value.0 == DigitsValue(id[..i])
  {
    var i := FindIndex(id, (ch: char) => ch == '-');
    if i < 0 then None
    else
      var rest := id[i + 1..];
      var j := FindIndex(rest, (ch: char) => ch == '-');
      var seatPart := if j < 0 then rest else rest[..j];
      if AllDigits(id[..i]) && AllDigits(seatPart) then Some((DigitsValue(id[..i]), DigitsValue(seatPart)))
      else None
  }

  /** The selected chair's id splits back into its table and seat. */
  lemma ParseDeskIdRoundTrip(table: nat, seat: nat)
    ensures ParseDeskId(DeskId(table, seat)) == Some((table, seat))
  {
    var id := DeskId(table, seat);
    var ts := NatToString(table);
    var ss := NatToString(seat);
    var isDash := (ch: char) => ch == '-';
    var i := FindIndex(id, isDash);
    DeskIdLayout(table, seat);
    assert id[|ts|] == '-';
    assert i == |ts|;
    assert id[..i] == ts;
    var rest := id[i + 1..];
    assert rest == ss;
    assert FindIndex(rest, isDash) == -1 by {
      assert forall k :: 0 <= k < |ss| ==> IsDigit(ss[k]);
    }
    NatToStringRoundTrip(table);
    NatToStringRoundTrip(seat);
  }

  /** The fallback's time-of-day base occupancy, in hundredths. */
  function BaseOccupancy(hour: int, day: int): (r: int)
    ensures 1 <= day <= 5 && 9 <= hour <= 17 ==> r == 70
    ensures 1 <= day <= 5 && 18 <= hour <= 22 ==> r == 50
    ensures !(1 <= day <= 5) && 10 <= hour <= 20 ==> r == 40
    ensures r in {30, 40, 50, 70}
  {
    if 1 <= day <= 5 then
      if 9 <= hour <= 17 then 70 else if 18 <= hour <= 22 then 50 else 30
    else
      if 10 <= hour <= 20 then 40 else 30
  }

  /** The fallback threshold of one chair, in hundredths: the base, +10 for tables 25 to 30, -5 for seats 1 and 4. */
  function FallbackThreshold(table: int, seat: int, hour: int, day: int): int {
    BaseOccupancy(hour, day) + (if 25 <= table <= 30 then 10 else 0) - (if seat == 1 || seat == 4 then 5 else 0)
  }

  /** The chair's pseudo-random value in hundredths: `(table*7 + seat*13) % 100` (the seed is never negative). */
  function Pseudo(table: nat, seat: nat): (r: int)
    ensures 0 <= r < 100
  {
    (table * 7 + seat * 13) % 100
  }

  /**
   * The classification of one chair: from the reserved and pending desk sets
   * when a query answered (`live`), otherwise from the estimate.
   */
  function ClassifyChair(table: nat, seat: nat, reserved: set<string>, pending: set<string>,
                         live: bool, hour: int, day: int): (r: Chair)
    ensures r.id == DeskId(table, seat) && r.table == table && r.index == seat
    ensures r.isPending ==> !r.available
    ensures live ==> (r.available <==> r.id !in reserved && r.id !in pending)
    ensures live ==> (r.isPending <==> r.id in pending)
    ensures live ==> (r.reservedBy == Some("Reserved") <==> r.id in reserved)
    ensures live ==> (r.reservedBy.None? <==> r.id !in reserved)
    ensures !live ==> !r.isPending
    ensures !live ==> (r.available <==> Pseudo(table, seat) > FallbackThreshold(table, seat, hour, day))
    ensures !live ==> (r.reservedBy.Some? <==> !r.available)
    ensures !live && !r.available ==> r.reservedBy == Some("Reserved (Estimated)")
  {
    var id := DeskId(table, seat);
    if live then
      Chair(id, table, seat, id !in reserved && id !in pending,
            if id in reserved then Some("Reserved") else None, id in pending)
    else
      var base := FallbackThreshold(table, seat, hour, day);
      var pseudo := Pseudo(table, seat);
      var available := pseudo > base;
      var isPending := !available && pseudo > base + 10;
      Chair(id, table, seat, available,
            if !available && !isPending then Some("Reserved (Estimated)") else None, isPending)
  }

  /**
   * The nested loops of `loadChairAvailability`: tables 1 to 50 shifted by
   * the floor's offset, seats 1 to 4, each chair classified in place.
   */
  method GenerateChairs(floor: int, reserved: set<string>, pending: set<string>, live: bool, hour: int, day: int)
    returns (arr: seq<Chair>)
    requires 1 <= floor
    ensures |arr| == TablesPerFloor * ChairsPerTable
    ensures forall k :: 0 <= k < |arr| ==>
      arr[k] == ClassifyChair((floor - 1) * TablesPerFloor + k / 4 + 1, k % 4 + 1, reserved, pending, live, hour, day)
  {
    var floorOffset := (floor - 1) * TablesPerFloor;
    arr := [];
    var t := 1;
    while t <= TablesPerFloor
      invariant 1 <= t <= TablesPerFloor + 1
      invariant |arr| == (t - 1) * ChairsPerTable
      invariant Classified(arr, floorOffset, reserved, pending, live, hour, day)
    {
      var actualTableId := t + floorOffset;
      var c := 1;
      while c <= ChairsPerTable
        invariant 1 <= c <= ChairsPerTable + 1
        invariant |arr| == (t - 1) * ChairsPerTable + c - 1
        invariant Classified(arr, floorOffset, reserved, pending, live, hour, day)
      {
        var deskId := DeskId(actualTableId, c);
        var available := true;
        var reservedBy: Option<string> := None;
        var isPendingFinal := false;
        if live {
          available := deskId !in reserved && deskId !in pending;
          reservedBy := if deskId in reserved then Some("Reserved") else None;
          isPendingFinal := deskId in pending;
        } else {
          var baseOccupancy := BaseOccupancy(hour, day);
          if 25 <= actualTableId <= 30 {
            baseOccupancy := baseOccupancy + 10;
          }
          if c == 1 || c == 4 {
            baseOccupancy := baseOccupancy - 5;
          }
          var pseudoRandom := Pseudo(actualTableId, c);
          available := pseudoRandom > baseOccupancy;
          if !available {
            isPendingFinal := pseudoRandom > baseOccupancy + 10;
            reservedBy := if isPendingFinal then None else Some("Reserved (Estimated)");
          }
        }
        var chair := Chair(deskId, actualTableId, c, available, reservedBy, isPendingFinal);
        assert chair == ClassifyChair(actualTableId, c, reserved, pending, live, hour, day);
        assert |arr| / 4 == t - 1 && |arr| % 4 == c - 1;
        ClassifiedSnoc(arr, floorOffset, chair, reserved, pending, live, hour, day);
        arr := arr + [chair];
        c := c + 1;
      }
      t := t + 1;
    }
  }

  /** Chair `k` of `arr` is seat `k % 4 + 1` of table `offset + k / 4 + 1`, classified. */
  ghost predicate Classified(arr: seq<Chair>, offset: nat, reserved: set<string>, pending: set<string>,
                             live: bool, hour: int, day: int) {
    forall k :: 0 <= k < |arr| ==>
      arr[k] == ClassifyChair(offset + k / 4 + 1, k % 4 + 1, reserved, pending, live, hour, day)
  }

  lemma ClassifiedSnoc(arr: seq<Chair>, offset: nat, chair: Chair, reserved: set<string>, pending: set<string>,
                       live: bool, hour: int, day: int)
    requires Classified(arr, offset, reserved, pending, live, hour, day)
    requires chair == ClassifyChair(offset + |arr| / 4 + 1, |arr| % 4 + 1, reserved, pending, live, hour, day)
    ensures Classified(arr + [chair], offset, reserved, pending, live, hour, day)
  {
  }

  /** Every chair of a generated floor lies on one of its 50 tables, seat 1 to 4. */
  lemma PlanLayout(floor: int, arr: seq<Chair>, reserved: set<string>, pending: set<string>, live: bool, hour: int, day: int)
    requires 1 <= floor
    requires |arr| == TablesPerFloor * ChairsPerTable
    requires forall k :: 0 <= k < |arr| ==>
      arr[k] == ClassifyChair((floor - 1) * TablesPerFloor + k / 4 + 1, k % 4 + 1, reserved, pending, live, hour, day)
    ensures forall k :: 0 <= k < |arr| ==>
      (floor - 1) * TablesPerFloor + 1 <= arr[k].table <= (floor - 1) * TablesPerFloor + TablesPerFloor
      && 1 <= arr[k].index <= ChairsPerTable
    ensures forall i, j :: 0 <= i < j < |arr| ==> arr[i].id != arr[j].id
  {
    var off := (floor - 1) * TablesPerFloor;
    forall k | 0 <= k < |arr|
      ensures off + 1 <= arr[k].table <= off + TablesPerFloor && 1 <= arr[k].index <= ChairsPerTable
    {
      assert arr[k] == ClassifyChair(off + k / 4 + 1, k % 4 + 1, reserved, pending, live, hour, day);
    }
    forall i, j | 0 <= i < j < |arr| ensures arr[i].id != arr[j].id {
      assert arr[i].id == DeskId(off + i / 4 + 1, i % 4 + 1);
      assert arr[j].id == DeskId(off + j / 4 + 1, j % 4 + 1);
      SeatIdsDistinct(off, i, j);
    }
  }

  /** Two different positions of the plan are two different desks. */
  lemma SeatIdsDistinct(off: nat, i: nat, j: nat)
    requires i < j
    ensures DeskId(off + i / 4 + 1, i % 4 + 1) != DeskId(off + j / 4 + 1, j % 4 + 1)
  {
    assert i / 4 != j / 4 || i % 4 != j % 4;
    if DeskId(off + i / 4 + 1, i % 4 + 1) == DeskId(off + j / 4 + 1, j % 4 + 1) {
      DeskIdInjective(off + i / 4 + 1, i % 4 + 1, off + j / 4 + 1, j % 4 + 1);
      assert false;
    }
  }

  /** The catch-all fallback: tables 1 to 50 whatever the floor, base 60 during 9 to 17 and 30 otherwise. */
  function CatchChair(table: nat, seat: nat, hour: int): (r: Chair)
    ensures r.id == DeskId(table, seat) && r.table == table && r.index == seat
    ensures !r.isPending
    ensures r.available <==> Pseudo(table, seat) > (if 9 <= hour <= 17 then 60 else 30)
    ensures r.reservedBy.Some? <==> !r.available
  {
    var base := if 9 <= hour <= 17 then 60 else 30;
    var pseudo := Pseudo(table, seat);
    var available := pseudo > base;
    Chair(DeskId(table, seat), table, seat, available,
          if !available then Some("Reserved (Fallback)") else None,
          !available && pseudo > base + 10)
  }

  /** The `catch` block's nested loops: 200 chairs on tables 1 to 50. */
  method CatchFallbackChairs(hour: int) returns (arr: seq<Chair>)
    ensures |arr| == TablesPerFloor * ChairsPerTable
    ensures forall k :: 0 <= k < |arr| ==> arr[k] == CatchChair(k / 4 + 1, k % 4 + 1, hour)
  {
    var baseOccupancy := if 9 <= hour <= 17 then 60 else 30;
    arr := [];
    var t := 1;
    while t <= 50
      invariant 1 <= t <= 51
      invariant |arr| == (t - 1) * 4
      invariant forall k :: 0 <= k < |arr| ==> arr[k] == CatchChair(k / 4 + 1, k % 4 + 1, hour)
    {
      var c := 1;
      while c <= 4
        invariant 1 <= c <= 5
        invariant |arr| == (t - 1) * 4 + c - 1
        invariant forall k :: 0 <= k < |arr| ==> arr[k] == CatchChair(k / 4 + 1, k % 4 + 1, hour)
      {
        var pseudoRandom := Pseudo(t, c);
        var available := pseudoRandom > baseOccupancy;
        var k := |arr|;
        assert k / 4 == t - 1 && k % 4 == c - 1;
        arr := arr + [Chair(DeskId(t, c), t, c, available,
                            if !available then Some("Reserved (Fallback)") else None,
                            !available && pseudoRandom > baseOccupancy + 10)];
        c := c + 1;
      }
      t := t + 1;
    }
  }

  predicate IsAvailable(c: Chair) { c.available }
  predicate IsReserved(c: Chair) { !c.available && !c.isPending }
  predicate IsPendingChair(c: Chair) { c.isPending }

  /**
   * The floor's counts: every chair, the available ones, the reserved
   * (unavailable, not pending) ones, the pending ones; each count is zero
   * exactly when no chair is in that state.
   */
  function Stats(arr: seq<Chair>): (s: FloorStats)
    ensures s.totalSeats == |arr|
    ensures s.availableSeats <= |arr| && s.reservedSeats <= |arr| && s.pendingSeats <= |arr|
    ensures s.availableSeats == 0 <==> forall i :: 0 <= i < |arr| ==> !IsAvailable(arr[i])
    ensures s.reservedSeats == 0 <==> forall i :: 0 <= i < |arr| ==> !IsReserved(arr[i])
    ensures s.pendingSeats == 0 <==> forall i :: 0 <= i < |arr| ==> !IsPendingChair(arr[i])
  {
    var available := Filter(arr, IsAvailable);
    var reserved := Filter(arr, IsReserved);
    var pending := Filter(arr, IsPendingChair);
    assert available != [] ==> IsAvailable(available[0]);
    assert reserved != [] ==> IsReserved(reserved[0]);
    assert pending != [] ==> IsPendingChair(pending[0]);
    FloorStats(|arr|, |available|, |reserved|, |pending|)
  }

  /** Because a pending chair is never available, the three counts partition the chairs. */
  lemma {:induction false} StatsPartition(arr: seq<Chair>)
    requires forall i :: 0 <= i < |arr| ==> (arr[i].isPending ==> !arr[i].available)
    ensures Stats(arr).availableSeats + Stats(arr).reservedSeats + Stats(arr).pendingSeats == Stats(arr).totalSeats
  {
    if arr != [] {
      StatsPartition(arr[1..]);
    }
  }

  /** The reserved and pending desk-id sets. */
  function DeskIds(rs: seq<Reservation>): (ids: set<string>)
    ensures forall i :: 0 <= i < |rs| ==> rs[i].deskId in ids
    ensures forall d :: d in ids ==> exists i :: 0 <= i < |rs| && rs[i].deskId == d
  {
    set i | 0 <= i < |rs| :: rs[i].deskId
  }

  /** Whether the plan can use real data: at least one of the two queries answered. */
  function Status(existing: Option<seq<Reservation>>, pendingRes: Option<seq<Reservation>>): (s: ApiDataStatus)
    ensures s.existingReservations <==> existing.Some?
    ensures s.pendingReservations <==> pendingRes.Some?
  {
    ApiDataStatus(existing.Some?, pendingRes.Some?)
  }

  /**
   * `loadChairAvailability` for a window `[startMs, endMs)` already rolled
   * over: the room's reservations overlapping it count as reserved, the
   * pending ones as pending; with no answer at all the estimate is used.
   */
  method LoadChairAvailability(floor: int, startMs: int, endMs: int, hour: int, day: int,
                               existing: Option<seq<Reservation>>, pendingRes: Option<seq<Reservation>>)
    returns (chairs: seq<Chair>, stats: FloorStats, apiStatus: ApiDataStatus)
    requires 1 <= floor
    ensures apiStatus == Status(existing, pendingRes)
    ensures |chairs| == 200 && stats == Stats(chairs)
    ensures stats.availableSeats + stats.reservedSeats + stats.pendingSeats == stats.totalSeats == 200
    ensures forall k :: 0 <= k < |chairs| ==>
      chairs[k] == ClassifyChair((floor - 1) * TablesPerFloor + k / 4 + 1, k % 4 + 1,
                                 DeskIds(OverlappingWindow(existing.GetOr([]), startMs, endMs)),
                                 DeskIds(pendingRes.GetOr([])),
                                 existing.Some? || pendingRes.Some?, hour, day)
  {
    apiStatus := ApiDataStatus(false, false);
    var existingReservations: seq<Reservation> := [];
    var pendingReservations: seq<Reservation> := [];
    if existing.Some? {
      existingReservations := existing.value;
      apiStatus := apiStatus.(existingReservations := true);
    }
    if pendingRes.Some? {
      pendingReservations := pendingRes.value;
      apiStatus := apiStatus.(pendingReservations := true);
    }
    var overlapping := OverlappingWindow(existingReservations, startMs, endMs);
    var reservedDeskIds := DeskIds(overlapping);
    var pendingDeskIds := DeskIds(pendingReservations);
    chairs := GenerateChairs(floor, reservedDeskIds, pendingDeskIds,
                             apiStatus.existingReservations || apiStatus.pendingReservations, hour, day);
    stats := Stats(chairs);
    StatsPartition(chairs);
  }

  /** A desk is reserved in the live plan exactly when some overlapping reservation of the room names it. */
  lemma ReservedMeansOverlapping(existing: seq<Reservation>, startMs: int, endMs: int, d: string)
    ensures d in DeskIds(OverlappingWindow(existing, startMs, endMs)) <==>
      exists i :: 0 <= i < |existing| && existing[i].deskId == d
                  && Overlaps(existing[i].startMs, existing[i].endMs, startMs, endMs)
  {
    var ov := OverlappingWindow(existing, startMs, endMs);
    if d in DeskIds(ov) {
      var j :| 0 <= j < |ov| && ov[j].deskId == d;
      assert ov[j] in existing;
      var i :| 0 <= i < |existing| && existing[i] == ov[j];
      assert existing[i].deskId == d && Overlaps(existing[i].startMs, existing[i].endMs, startMs, endMs);
    }
    if exists i :: 0 <= i < |existing| && existing[i].deskId == d
                  && Overlaps(existing[i].startMs, existing[i].endMs, startMs, endMs) {
      var i :| 0 <= i < |existing| && existing[i].deskId == d
               && Overlaps(existing[i].startMs, existing[i].endMs, startMs, endMs);
      assert existing[i] in ov;
      var j :| 0 <= j < |ov| && ov[j] == existing[i];
      assert ov[j].deskId == d;
    }
  }

  /** `chairsByTable`: the chairs of each table, in plan order. */
  function ChairsOfTable(chairs: seq<Chair>, table: int): seq<Chair> {
    Filter(chairs, (c: Chair) => c.table == table)
  }

  /** Appending one chair to the plan adds it to its own table's group only. */
  lemma ChairsOfTableSnoc(chairs: seq<Chair>, n: nat, t: int)
    requires n < |chairs|
    ensures ChairsOfTable(chairs[..n + 1], t)
              == ChairsOfTable(chairs[..n], t) + (if chairs[n].table == t then [chairs[n]] else [])
  {
    assert chairs[..n + 1] == chairs[..n] + [chairs[n]];
    FilterAppend(chairs[..n], [chairs[n]], (c: Chair) => c.table == t);
  }

  /** `acc` holds, for every table with a chair in `chairs`, exactly that table's chairs in order. */
  ghost predicate Grouped(acc: map<int, seq<Chair>>, chairs: seq<Chair>) {
    && (forall t :: t in acc <==> ChairsOfTable(chairs, t) != [])
    && (forall t :: t in acc ==> acc[t] == ChairsOfTable(chairs, t))
  }

  /** One step of the `reduce`: the next chair goes at the end of its table's group. */
  lemma GroupedSnoc(acc: map<int, seq<Chair>>, chairs: seq<Chair>, n: nat)
    requires n < |chairs| && Grouped(acc, chairs[..n])
    ensures var ch := chairs[n];
      Grouped(acc[ch.table := (if ch.table in acc then acc[ch.table] else []) + [ch]], chairs[..n + 1])
  {
    var ch := chairs[n];
    var next := acc[ch.table := (if ch.table in acc then acc[ch.table] else []) + [ch]];
    forall t
      ensures t in next <==> ChairsOfTable(chairs[..n + 1], t) != []
      ensures t in next ==> next[t] == ChairsOfTable(chairs[..n + 1], t)
    {
      ChairsOfTableSnoc(chairs, n, t);
    }
  }

  /** The `reduce` that groups the chairs into a record keyed by table. */
  method GroupByTable(chairs: seq<Chair>) returns (acc: map<int, seq<Chair>>)
    ensures forall t :: t in acc <==> ChairsOfTable(chairs, t) != []
    ensures forall t :: t in acc ==> acc[t] == ChairsOfTable(chairs, t)
  {
    acc := map[];
    var n := 0;
    assert chairs[..0] == [];
    while n < |chairs|
      invariant 0 <= n <= |chairs|
      invariant Grouped(acc, chairs[..n])
    {
      var ch := chairs[n];
      var group := if ch.table in acc then acc[ch.table] else [];
      GroupedSnoc(acc, chairs, n);
      acc := acc[ch.table := group + [ch]];
      n := n + 1;
    }
    assert chairs[..n] == chairs;
  }

  const PendingColor: string := "#FF851B"
  const ReservedColor: string := "#FF4136"
  const AvailableColor: string := "#2ECC40"

  /** `getChairColor`: pending first, then unavailable, else available. */
  function ChairColor(c: Chair): (r: string)
    ensures r == PendingColor <==> c.isPending
    ensures r == ReservedColor <==> IsReserved(c)
    ensures r == AvailableColor <==> !c.isPending && c.available
  {
    if c.isPending then PendingColor else if !c.available then ReservedColor else AvailableColor
  }

  /** With live data, a desk both reserved and pending is counted and coloured as pending, not reserved. */
  lemma ReservedAndPendingShowsPending(table: nat, seat: nat, reserved: set<string>, pending: set<string>, hour: int, day: int)
    requires DeskId(table, seat) in reserved && DeskId(table, seat) in pending
    ensures var c := ClassifyChair(table, seat, reserved, pending, true, hour, day);
      IsPendingChair(c) && !IsReserved(c) && ChairColor(c) == PendingColor && c.reservedBy == Some("Reserved")
  {
  }

  /** How many of the two queries answered. */
  function WorkingApis(s: ApiDataStatus): (n: nat)
    ensures n <= 2
    ensures n == 2 <==> s.existingReservations && s.pendingReservations
    ensures n == 0 <==> !s.existingReservations && !s.pendingReservations
  {
    (if s.existingReservations then 1 else 0) + (if s.pendingReservations then 1 else 0)
  }

  /**
   * The screen's labels as its source file spells them: the Turkish letters
   * of that file are stored UTF-8 encoded twice, so `ı` reaches the screen as
   * the two characters `Ä±`.
   */
  const LiveText: string := "CanlÄ± veriler"
  const PartialText: string := "KÄ±smi veriler"
  const EstimatedText: string := "Tahmini veri"

  /** `getDataStatusText`: live for two working queries, partial for one, estimated otherwise. */
  function DataStatusText(s: ApiDataStatus): (r: string)
    ensures r == LiveText <==> WorkingApis(s) == 2
    ensures r == PartialText <==> WorkingApis(s) == 1
    ensures r == EstimatedText <==> WorkingApis(s) == 0
  {
    var workingApis := WorkingApis(s);
    if workingApis == 2 then LiveText else if workingApis == 1 then PartialText else EstimatedText
  }

  /** The label says "estimated" exactly when the plan was drawn from the estimate. */
  lemma EstimatedLabelIffFallback(existing: Option<seq<Reservation>>, pendingRes: Option<seq<Reservation>>)
    ensures DataStatusText(Status(existing, pendingRes)) == EstimatedText <==> !(existing.Some? || pendingRes.Some?)
  {
  }

  /**
   * With the pending list taken from `fetchRoomPendingReservations`, the
   * plan is drawn from live data and never labelled as estimated, unless that
   * endpoint answered with a body that does not parse.
   */
  lemma PendingQueryKeepsPlanLive(existing: Option<seq<Reservation>>, endpoint: EndpointOutcome,
                                  roomList: Option<seq<Reservation>>, startMs: int, endMs: int)
    requires !endpoint.Unparsable?
    ensures var pendingRes := RoomPendingSettled(endpoint, roomList, startMs, endMs);
      existing.Some? || pendingRes.Some?
    ensures WorkingApis(Status(existing, RoomPendingSettled(endpoint, roomList, startMs, endMs))) >= 1
    ensures DataStatusText(Status(existing, RoomPendingSettled(endpoint, roomList, startMs, endMs))) != EstimatedText
  {
  }

  /**
   * When every request fails, the plan is still drawn as live: every chair
   * is available and not pending, under the partial-data label.
   */
  lemma TotalOutageShowsFreeFloor(table: nat, seat: nat, startMs: int, endMs: int, hour: int, day: int)
    ensures var pendingRes := RoomPendingSettled(Unavailable, None, startMs, endMs);
      && pendingRes == Some([])
      && DataStatusText(Status(None, pendingRes)) == PartialText
      && ClassifyChair(table, seat, DeskIds(OverlappingWindow([], startMs, endMs)), DeskIds(pendingRes.value),
                       true, hour, day).available
      && !ClassifyChair(table, seat, DeskIds(OverlappingWindow([], startMs, endMs)), DeskIds(pendingRes.value),
                        true, hour, day).isPending
  {
    TotalOutageSettlesEmpty(startMs, endMs);
    FilterNone([], (r: Reservation) => Overlaps(r.startMs, r.endMs, startMs, endMs));
    assert DeskIds([]) == {};
  }

  /**
   * With a pending query that reports a total outage as a failure, the plan
   * falls back to the estimate under its own label, and every chair is
   * classified from the estimate.
   */
  lemma TotalOutageShowsEstimate(table: nat, seat: nat, startMs: int, endMs: int, hour: int, day: int)
    ensures var existing: Option<seq<Reservation>> := None;
      var pendingRes := RoomPendingReported(Unavailable, None, startMs, endMs);
      && pendingRes.None?
      && WorkingApis(Status(existing, pendingRes)) == 0
      && DataStatusText(Status(existing, pendingRes)) == EstimatedText
      && ClassifyChair(table, seat, DeskIds(OverlappingWindow(existing.GetOr([]), startMs, endMs)),
                       DeskIds(pendingRes.GetOr([])), existing.Some? || pendingRes.Some?, hour, day)
         == ClassifyChair(table, seat, {}, {}, false, hour, day)
  {
    FilterNone([], (r: Reservation) => Overlaps(r.startMs, r.endMs, startMs, endMs));
    assert DeskIds([]) == {};
  }
}
