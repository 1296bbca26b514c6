/**
 * The "my reservations" screen: the user's reservations split into the
 * active one, the upcoming ones and the past ones, the counts shown above
 * them, and the notification list with its read, read-all and delete
 * handlers.
 */
module MyReservations {
  import opened Wrappers
  import opened Text
  import opened Lists
  import opened Booking
  import opened Api

  predicate IsUpcoming(r: Reservation, now: int) { r.startMs > now }
  predicate IsPast(r: Reservation, now: int) { r.endMs < now }

  /** The reservations that have not started yet, in list order. */
  function Upcoming(all: seq<Reservation>, now: int): (up: seq<Reservation>)
    ensures forall r :: r in up <==> r in all && IsUpcoming(r, now)
  {
    Filter(all, (r: Reservation) => IsUpcoming(r, now))
  }

  /** The reservations that have ended, in list order. */
  function Past(all: seq<Reservation>, now: int): (past: seq<Reservation>)
    ensures forall r :: r in past <==> r in all && IsPast(r, now)
  {
    Filter(all, (r: Reservation) => IsPast(r, now))
  }

  /**
   * Every reservation is upcoming, past or running at `now`; for a
   * reservation that does not end before it starts these are exclusive, so
   * the active one is in neither list.
   */
  lemma ActiveUpcomingPastPartition(all: seq<Reservation>, now: int)
    ensures forall i :: 0 <= i < |all| ==>
      IsUpcoming(all[i], now) || IsPast(all[i], now) || IsActiveAt(all[i], now)
    ensures forall i :: 0 <= i < |all| && all[i].startMs <= all[i].endMs ==>
      (IsUpcoming(all[i], now) ==> !IsPast(all[i], now) && !IsActiveAt(all[i], now))
      && (IsPast(all[i], now) ==> !IsActiveAt(all[i], now))
    ensures (forall i :: 0 <= i < |all| ==> all[i].startMs <= all[i].endMs) ==>
      forall i :: 0 <= i < |Upcoming(all, now)| ==> Upcoming(all, now)[i] !in Past(all, now)
    ensures FirstActive(all, now).Some? ==>
      FirstActive(all, now).value !in Upcoming(all, now) && FirstActive(all, now).value !in Past(all, now)
  {
    var up := Upcoming(all, now);
    var past := Past(all, now);
    assert forall j :: 0 <= j < |up| ==> up[j].startMs > now;
    assert forall j :: 0 <= j < |past| ==> past[j].endMs < now;
    if forall i :: 0 <= i < |all| ==> all[i].startMs <= all[i].endMs {
      forall i | 0 <= i < |up| ensures up[i] !in past {
        assert up[i] in all;
        var k :| 0 <= k < |all| && all[k] == up[i];
        assert up[i].startMs <= up[i].endMs;
      }
    }
  }

  /** The counts shown above the lists. */
  datatype UserStats = UserStats(
    totalReservations: int, completedReservations: int, canceledReservations: int,
    noShowCount: int, currentStreak: int, libraryScore: int)

  /** The profile fields the counts copy. */
  datatype Profile = Profile(id: int, noShowStreak: int, successfulCompletionsStreak: int)

  /** `rs.filter(r => r.status === status)` */
  function WithStatus(rs: seq<Reservation>, status: string): seq<Reservation> {
    Filter(rs, (r: Reservation) => r.status == status)
  }

  /** The number of reservations of the list that ended before `now` and carry `status`, counted one by one. */
  function PastWithStatus(all: seq<Reservation>, now: int, status: string): (n: nat)
    ensures n <= |all|
    ensures n == 0 <==> forall i :: 0 <= i < |all| ==> !(IsPast(all[i], now) && all[i].status == status)
  {
    if all == [] then 0
    else
      var rest := PastWithStatus(all[1..], now, status);
      assert forall i :: 1 <= i < |all| ==> all[i] == all[1..][i - 1];
      (if IsPast(all[0], now) && all[0].status == status then 1 else 0) + rest
  }

  /**
   * The counts shown above the lists: the completed and cancelled counts are
   * the past reservations with those statuses, and together they never
   * exceed the past list.
   */
  function ComputeStats(all: seq<Reservation>, now: int, profile: Profile, score: int): (s: UserStats)
    ensures s.totalReservations == |all|
    ensures s.completedReservations == PastWithStatus(all, now, "COMPLETED")
    ensures s.canceledReservations == PastWithStatus(all, now, "CANCELLED")
    ensures s.completedReservations + s.canceledReservations <= |Past(all, now)| <= |all|
    ensures s.noShowCount == profile.noShowStreak && s.currentStreak == profile.successfulCompletionsStreak
    ensures s.libraryScore == score
  {
    var past := Past(all, now);
    var completed := WithStatus(past, "COMPLETED");
    var canceled := WithStatus(past, "CANCELLED");
    StatusCountsDisjoint(past);
    PastStatusCount(all, now, "COMPLETED");
    PastStatusCount(all, now, "CANCELLED");
    UserStats(|all|, |completed|, |canceled|, profile.noShowStreak, profile.successfulCompletionsStreak, score)
  }

  /** Filtering the past list by status counts exactly the past reservations with that status. */
  lemma {:induction false} PastStatusCount(all: seq<Reservation>, now: int, status: string)
    ensures |WithStatus(Past(all, now), status)| == PastWithStatus(all, now, status)
  {
    if all != [] {
      PastStatusCount(all[1..], now, status);
      var head := if IsPast(all[0], now) then [all[0]] else [];
      assert Past(all, now) == head + Past(all[1..], now);
      FilterAppend(head, Past(all[1..], now), (r: Reservation) => r.status == status);
      if head != [] {
        assert head[1..] == [];
      }
    }
  }

  /** No reservation is both completed and cancelled, so the two counts together never exceed the list. */
  lemma {:induction false} StatusCountsDisjoint(rs: seq<Reservation>)
    ensures |WithStatus(rs, "COMPLETED")| + |WithStatus(rs, "CANCELLED")| <= |rs|
  {
    if rs != [] {
      StatusCountsDisjoint(rs[1..]);
    }
  }

  /** `getStatusColor`: a fixed colour per known status, grey for anything else. */
  function StatusColor(status: string): (c: string)
    ensures status == "ACTIVE" ==> c == "#2ECC40"
    ensures status == "COMPLETED" ==> c == "#0074D9"
    ensures status == "CANCELLED" ==> c == "#FF4136"
    ensures status == "NO_SHOW" ==> c == "#FF851B"
    ensures c == "#666" <==> status !in {"ACTIVE", "COMPLETED", "CANCELLED", "NO_SHOW"}
  {
    if status == "ACTIVE" then "#2ECC40"
    else if status == "COMPLETED" then "#0074D9"
    else if status == "CANCELLED" then "#FF4136"
    else if status == "NO_SHOW" then "#FF851B"
    else "#666"
  }

  /** The past list as shown: its first ten entries. */
  function PastShown(past: seq<Reservation>): (r: seq<Reservation>)
    ensures |r| <= 10 && |r| <= |past| && r == past[..|r|]
    ensures |past| <= 10 ==> r == past
  {
    Take(past, 10)
  }

  predicate IsUnread(n: Notification) { !n.isRead }

  /** The list after one notification id is marked read: exactly the entries with that id change. */
  function MarkRead(items: seq<Notification>, id: int): (r: seq<Notification>)
    ensures |r| == |items|
    ensures forall i :: 0 <= i < |items| ==>
      r[i] == if items[i].id == id then items[i].(isRead := true) else items[i]
  {
    if items == [] then []
    else [if items[0].id == id then items[0].(isRead := true) else items[0]] + MarkRead(items[1..], id)
  }

  /** The list with every notification read, same length and order. */
  function AllRead(items: seq<Notification>): (r: seq<Notification>)
    ensures |r| == |items|
    ensures forall i :: 0 <= i < |items| ==> r[i] == items[i].(isRead := true)
  {
    if items == [] then [] else [items[0].(isRead := true)] + AllRead(items[1..])
  }

  /** The list without the notifications with a given id, the rest in order. */
  function WithoutId(items: seq<Notification>, id: int): (r: seq<Notification>)
    ensures forall i :: 0 <= i < |r| ==> r[i].id != id && r[i] in items
    ensures forall i :: 0 <= i < |items| && items[i].id != id ==> items[i] in r
  {
    Filter(items, (n: Notification) => n.id != id)
  }

  /** The number of unread notifications, counted one by one. */
  function CountUnread(items: seq<Notification>): (n: nat)
    ensures n <= |items|
  {
    if items == [] then 0 else (if items[0].isRead then 0 else 1) + CountUnread(items[1..])
  }

  /** `filteredNotifications`: every notification, or only the unread ones. */
  function Filtered(items: seq<Notification>, onlyUnread: bool): (shown: seq<Notification>)
    ensures !onlyUnread ==> shown == items
    ensures onlyUnread ==> forall n :: n in shown <==> n in items && IsUnread(n)
  {
    if onlyUnread then Filter(items, IsUnread) else items
  }

  /** The badge and the unread-only list agree with the count of unread notifications. */
  lemma {:induction false} UnreadFilterMatchesCount(items: seq<Notification>)
    ensures |Filtered(items, true)| == CountUnread(items)
    ensures forall i :: 0 <= i < |Filtered(items, true)| ==> !Filtered(items, true)[i].isRead
  {
    if items != [] {
      UnreadFilterMatchesCount(items[1..]);
    }
  }

  /** Marking every notification read leaves nothing unread. */
  lemma {:induction false} AllReadLeavesNoneUnread(items: seq<Notification>)
    ensures CountUnread(AllRead(items)) == 0
  {
    if items != [] {
      assert AllRead(items)[1..] == AllRead(items[1..]);
      AllReadLeavesNoneUnread(items[1..]);
    }
  }

  /** Marking one id read never increases the unread count, and leaves nothing with that id unread. */
  lemma {:induction false} MarkReadLowersUnread(items: seq<Notification>, id: int)
    ensures CountUnread(MarkRead(items, id)) <= CountUnread(items)
    ensures forall i :: 0 <= i < |items| && items[i].id == id ==> MarkRead(items, id)[i].isRead
  {
    if items != [] {
      assert MarkRead(items, id)[1..] == MarkRead(items[1..], id);
      MarkReadLowersUnread(items[1..], id);
    }
  }

  /** What pressing a notification shows. */
  datatype Dialog = Dialog(title: string, body: string)

  /**
   * The dialog after a press: the reservation's details when it names a
   * reservation (a non-zero id) whose lookup succeeds, the notification text
   * otherwise.
   */
  function PressDialog(n: Notification, lookup: Option<Reservation>): (d: Dialog)
    ensures d.title == "Rezervasyon Detayları" <==> n.reservationId.Some? && n.reservationId.value != 0 && lookup.Some?
    ensures d.title != "Rezervasyon Detayları" ==> d == Dialog("Bildirim", n.message)
  {
    if n.reservationId.Some? && n.reservationId.value != 0 && lookup.Some? then
      var r := lookup.value;
      Dialog("Rezervasyon Detayları",
             "Rezervasyon #" + IntToString(r.id) + "\nDurum: " + r.status + "\nMasa: " + r.deskId)
    else Dialog("Bildirim", n.message)
  }

  /** The notifications state of the screen. */
  class NotificationList {
    var items: seq<Notification>

    constructor (initial: seq<Notification>)
      ensures items == initial
    {
      items := initial;
    }

    /**
     * `handleNotificationPress`: an unread notification is marked read on the
     * server (whose failure is swallowed) and in the list; a read one makes
     * no call and changes nothing.
     */
    method Press(n: Notification, t: Transport) returns (apiCalled: bool)
      modifies this
      ensures apiCalled <==> !n.isRead
      ensures items == if n.isRead then old(items) else MarkRead(old(items), n.id)
    {
      apiCalled := false;
      if !n.isRead {
        apiCalled := true;
        var outcome := NotificationUpdate(t);
        if outcome.Success? {
          items := MarkRead(items, n.id);
        }
      }
    }

    /**
     * `markAllAsRead`: nothing without a loaded user; otherwise every
     * notification becomes read, and the failure alert never shows because the
     * server call swallows its errors.
     */
    method MarkAllAsRead(userLoaded: bool, t: Transport) returns (failureShown: bool)
      modifies this
      ensures !failureShown
      ensures items == if userLoaded then AllRead(old(items)) else old(items)
    {
      failureShown := false;
      if userLoaded {
        var outcome := NotificationUpdate(t);
        if outcome.Success? {
          items := AllRead(items);
        } else {
          failureShown := true;
        }
      }
    }

    /**
     * `deleteNotificationHandler`: the server delete's failure is swallowed, so
     * the entries always leave the list and the failure alert never shows.
     */
    method Delete(id: int, t: Transport) returns (failureShown: bool)
      modifies this
      ensures !failureShown
      ensures items == WithoutId(old(items), id)
    {
      failureShown := false;
      var outcome := NotificationUpdate(t);
      if outcome.Success? {
        items := WithoutId(items, id);
      } else {
        failureShown := true;
      }
    }

    /** The unread badge. */
    function UnreadBadge(): (n: nat)
      reads this
      ensures n == |Filtered(items, true)|
    {
      UnreadFilterMatchesCount(items);
      CountUnread(items)
    }
  }
}
