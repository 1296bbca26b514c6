/**
 * The tutorial screen: where the app goes at start-up, and the five-page
 * pager with its next, previous, dot and swipe navigation and the skip
 * button, which record in the device store that the tutorial was seen.
 */
module Tutorial {
  import opened Wrappers
  import opened Text
  import opened Storage
  import Booking

  /** The slide titles, one per page. */
  const SlideTitles: seq<string> := ["Hoş Geldiniz!", "Rezervasyon Yap", "Sandalyenizi Seçin", "Onayla", "Takip Edin"]

  const LastPage: int := |SlideTitles| - 1

  /** Where the screen sends the user. */
  datatype Route = LoginRoute | MainRoute | ShowTutorial

  /**
   * `checkAuthAndTutorial`. Each read is None when it threw, otherwise the
   * stored value (None for a missing key).
   */
  function StartupRoute(uidRead: Option<Option<string>>, seenRead: Option<Option<string>>): (r: Route)
    ensures r == LoginRoute <==>
      uidRead.None? || uidRead.value.None? || uidRead.value.value == [] || seenRead.None?
    ensures r == MainRoute <==>
      uidRead.Some? && uidRead.value.Some? && uidRead.value.value != [] && seenRead == Some(Some("true"))
    ensures r == ShowTutorial <==>
      uidRead.Some? && uidRead.value.Some? && uidRead.value.value != []
      && seenRead.Some? && seenRead.value != Some("true")
  {
    if uidRead.None? then LoginRoute
    else if uidRead.value.None? || uidRead.value.value == [] then LoginRoute
    else if seenRead.None? then LoginRoute
    else if seenRead.value == Some("true") then MainRoute
    else ShowTutorial
  }

  /** `getItem` on a snapshot of the store that does not throw. */
  function Read(items: map<string, string>, key: string): Option<Option<string>> {
    Some(if key in items then Some(items[key]) else None)
  }

  /** The page `onNext` moves to when it stays on the screen. */
  function NextPage(page: int): int {
    if page < LastPage then page + 1 else page
  }

  /** The page `onPrevious` moves to. */
  function PreviousPage(page: int): int {
    if page > 0 then page - 1 else page
  }

  /** Next and previous undo each other wherever they move. */
  lemma NextPreviousInverse(page: int)
    ensures 0 <= page < LastPage ==> PreviousPage(NextPage(page)) == page
    ensures 0 < page <= LastPage ==> NextPage(PreviousPage(page)) == page
    ensures 0 <= page <= LastPage ==> 0 <= NextPage(page) <= LastPage && 0 <= PreviousPage(page) <= LastPage
  {
  }

  /** `k` presses of next, none of them on the last page. */
  function Forward(page: int, k: nat): int
    decreases k
  {
    if k == 0 then page else Forward(NextPage(page), k - 1)
  }

  /** From the first page, four presses of next reach the last page; every page on the way is on the screen. */
  lemma {:induction false} ForwardReachesLast(page: int, k: nat)
    requires 0 <= page && page + k <= LastPage
    ensures Forward(page, k) == page + k
    decreases k
  {
    if k > 0 {
      ForwardReachesLast(page + 1, k - 1);
    }
  }

  /** The caption of the next button. */
  function NextButtonCaption(page: int): (r: string)
    ensures r == "Başla" <==> page == LastPage
    ensures r != "Başla" ==> r == "İleri"
  {
    if page == LastPage then "Başla" else "İleri"
  }

  /** The page counter `{page + 1} / {slides}`: the page's digits, then ` / `, then the slide count's digits. */
  function PageCounter(page: nat): (r: string)
    ensures ParseInt(r) == Some(page + 1)
    ensures var k := |NatToString(page + 1)|;
      && k + 3 <= |r| && AllDigits(r[..k]) && r[k..k + 3] == " / " && AllDigits(r[k + 3..])
      && ParseInt(r[..k]) == Some(page + 1) && ParseInt(r[k + 3..]) == Some(|SlideTitles|)
  {
    var r := NatToString(page + 1) + " / " + NatToString(|SlideTitles|);
    CounterLayout(page + 1, |SlideTitles|);
    CounterReadsAsPage(page + 1, |SlideTitles|);
    NatToStringParses(page + 1);
    NatToStringParses(|SlideTitles|);
    r
  }

  /** `{a} / {b}` splits at ` / ` into a's digits and b's. */
  lemma CounterLayout(a: nat, b: nat)
    ensures var r := NatToString(a) + " / " + NatToString(b);
      var k := |NatToString(a)|;
      && k + 3 <= |r| && r[..k] == NatToString(a) && r[k..k + 3] == " / " && r[k + 3..] == NatToString(b)
  {
    var ps := NatToString(a);
    var r := ps + " / " + NatToString(b);
    assert r[..|ps|] == ps && r[|ps|..|ps| + 3] == " / ";
  }

  /** `parseInt` of `{a} / {b}` stops at the space and reads a. */
  lemma CounterReadsAsPage(a: nat, b: nat)
    ensures ParseInt(NatToString(a) + " / " + NatToString(b)) == Some(a)
  {
    var rest := " / " + NatToString(b);
    assert NatToString(a) + " / " + NatToString(b) == NatToString(a) + rest;
    assert rest[0] == ' ';
    ParseIntPrefix(a, rest);
  }

  /** `parseInt` reads a rendered number back. */
  lemma NatToStringParses(n: nat)
    ensures ParseInt(NatToString(n)) == Some(n)
  {
    ParseIntOfDigits(NatToString(n));
    NatToStringRoundTrip(n);
  }

  /** The pager. `page` is the slide shown; the store is the device store the screen writes to. */
  class Pager {
    var page: int

    predicate Valid()
      reads this
    {
      0 <= page <= LastPage
    }

    constructor()
      ensures Valid() && page == 0
    {
      page := 0;
    }

    /**
     * `onNext`: one page on, or on the last page record that the tutorial was
     * seen (when the write succeeds) and go to the main screen either way.
     */
    method OnNext(store: DeviceStorage, writeSucceeds: bool) returns (route: Option<Route>)
      requires Valid()
      modifies this, store
      ensures Valid()
      ensures old(page) < LastPage ==>
        page == old(page) + 1 && route.None? && store.items == old(store.items)
      ensures old(page) == LastPage ==>
        page == old(page) && route == Some(MainRoute)
        && store.items == if writeSucceeds then old(store.items)["tutorialSeen" := "true"] else old(store.items)
    {
      if page < LastPage {
        page := page + 1;
        route := None;
      } else {
        if writeSucceeds {
          store.SetItem("tutorialSeen", "true");
        }
        route := Some(MainRoute);
      }
    }

    /** `onPrevious`: one page back, nothing on the first page. */
    method OnPrevious()
      requires Valid()
      modifies this
      ensures Valid()
      ensures page == PreviousPage(old(page))
      ensures old(page) > 0 ==> page == old(page) - 1
      ensures old(page) == 0 ==> page == 0
    {
      if page > 0 {
        page := page - 1;
      }
    }

    /** `goToPage`, from the dot of slide `index`. */
    method GoToPage(index: int)
      requires 0 <= index <= LastPage
      modifies this
      ensures Valid() && page == index
    {
      page := index;
    }

    /** A swipe that ends at `offset` on a screen `width` wide: the nearest page. */
    method OnScrollEnd(offset: int, width: int)
      requires width > 0 && 0 <= offset <= LastPage * width
      modifies this
      ensures Valid()
      ensures page == Booking.RoundHalfUp(offset, width)
      ensures (page - 1) * width < offset && offset < (page + 1) * width
    {
      Booking.RoundHalfUpWithin(offset, width, LastPage);
      page := Booking.RoundHalfUp(offset, width);
    }

    /** The skip button: only a confirmed skip records the tutorial as seen and goes to the main screen. */
    method OnSkip(store: DeviceStorage, confirmed: bool, writeSucceeds: bool) returns (route: Option<Route>)
      modifies store
      ensures route.Some? <==> confirmed
      ensures route.Some? ==> route.value == MainRoute
      ensures store.items == if confirmed && writeSucceeds then old(store.items)["tutorialSeen" := "true"]
                             else old(store.items)
    {
      route := None;
      if confirmed {
        if writeSucceeds {
          store.SetItem("tutorialSeen", "true");
        }
        route := Some(MainRoute);
      }
    }
  }

  /** Once the tutorial was recorded as seen, a logged-in user starts on the main screen. */
  lemma SeenTutorialGoesToMain(items: map<string, string>)
    requires "userId" in items && items["userId"] != []
    ensures StartupRoute(Read(items["tutorialSeen" := "true"], "userId"),
                         Read(items["tutorialSeen" := "true"], "tutorialSeen")) == MainRoute
  {
  }
}
