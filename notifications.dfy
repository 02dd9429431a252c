/** The notifications screen (components/NotificationsView.tsx): the All / Unread / Deals
    tabs, the Today / Yesterday / Earlier sections, and what a click on a notification
    asks the dashboard to do. */
module Notifications {
  import opened Seqs
  import opened Text
  import opened Entities
  import opened Dashboard

  // ---------------------------------------------------------------------------
  // Filter tabs
  // ---------------------------------------------------------------------------

  /** The tab ids 'all', 'unread' and 'deals'. */
  datatype Tab = AllTab | UnreadTab | DealsTab

  /** Deals are price drops, offers and payments. */
  predicate IsDeal(n: Notification) {
    n.kind == PriceDrop || n.kind == OfferKind || n.kind == Payment
  }

  predicate Shown(tab: Tab, n: Notification) {
    match tab
    case UnreadTab => !n.isRead
    case DealsTab => IsDeal(n)
    case AllTab => true
  }

  function ShownIn(tab: Tab): Notification -> bool { n => Shown(tab, n) }

  /** `filteredNotifications`. */
  function Visible(ns: seq<Notification>, tab: Tab): (r: seq<Notification>)
    ensures |r| <= |ns|
    ensures forall i :: 0 <= i < |r| ==> r[i] in ns && Shown(tab, r[i])
    ensures forall i :: 0 <= i < |ns| && Shown(tab, ns[i]) ==> ns[i] in r
  {
    Filter(ns, ShownIn(tab))
  }

  /** Every tab keeps the list's order; 'all' shows everything, 'unread' shows exactly
      the unread notifications (as many as the badge counts), and 'deals' exactly the
      price drops, offers and payments. */
  lemma VisibleSpec(ns: seq<Notification>, tab: Tab)
    ensures IsSubsequence(Visible(ns, tab), ns)
    ensures tab == AllTab ==> Visible(ns, tab) == ns
    ensures tab == UnreadTab ==> |Visible(ns, tab)| == UnreadCount(ns)
    ensures forall i :: 0 <= i < |Visible(ns, tab)| ==> Shown(tab, Visible(ns, tab)[i])
    ensures forall i :: 0 <= i < |ns| && Shown(tab, ns[i]) ==> ns[i] in Visible(ns, tab)
  {
    FilterIsSubsequence(ns, ShownIn(tab));
    if tab == AllTab {
      FilterAll(ns, ShownIn(tab));
    }
    if tab == UnreadTab {
      FilterExt(ns, ShownIn(tab), IsUnread);
    }
  }

  /** The header's "N NEW" badge appears exactly when something is unread, and the count
      it shows is the length of the unread tab. */
  lemma BadgeMatchesUnreadTab(ns: seq<Notification>)
    ensures UnreadCount(ns) > 0 <==> exists i :: 0 <= i < |ns| && !ns[i].isRead
    ensures UnreadCount(ns) == |Visible(ns, UnreadTab)|
  {
    VisibleSpec(ns, UnreadTab);
    if exists i :: 0 <= i < |ns| && !ns[i].isRead {
      var i :| 0 <= i < |ns| && !ns[i].isRead;
      assert IsUnread(ns[i]);
      assert ns[i] in Filter(ns, IsUnread);
    }
  }

  // ---------------------------------------------------------------------------
  // Time sections
  // ---------------------------------------------------------------------------

  datatype Section = Today | Yesterday | Earlier

  const MinWord: string := "min"
  const HourWord: string := "hour"
  const YesterdayWord: string := "yesterday"

  /** A time that mentions minutes or hours (case-sensitively) is today's; otherwise one
      that mentions "yesterday" in any letter case is yesterday's; all else is earlier. */
  function SectionOf(time: string): (r: Section)
    ensures r == Today <==> Contains(time, MinWord) || Contains(time, HourWord)
    ensures r == Yesterday <==> !Contains(time, MinWord) && !Contains(time, HourWord) && Contains(ToLower(time), YesterdayWord)
    ensures r == Earlier <==> !Contains(time, MinWord) && !Contains(time, HourWord) && !Contains(ToLower(time), YesterdayWord)
  {
    if Contains(time, MinWord) || Contains(time, HourWord) then Today
    else if Contains(ToLower(time), YesterdayWord) then Yesterday
    else Earlier
  }

  function InSection(s: Section): Notification -> bool { (n: Notification) => SectionOf(n.time) == s }

  /** `groupedNotifications`: one pass over the visible notifications pushing each onto
      its section's list. */
  method Group(items: seq<Notification>) returns (today: seq<Notification>, yesterday: seq<Notification>, earlier: seq<Notification>)
    ensures today == Filter(items, InSection(Today))
    ensures yesterday == Filter(items, InSection(Yesterday))
    ensures earlier == Filter(items, InSection(Earlier))
  {
    today, yesterday, earlier := [], [], [];
    var i := 0;
    while i < |items|
      invariant 0 <= i <= |items|
      invariant today == Filter(items[..i], InSection(Today))
      invariant yesterday == Filter(items[..i], InSection(Yesterday))
      invariant earlier == Filter(items[..i], InSection(Earlier))
    {
      var n := items[i];
      assert items[..i + 1] == items[..i] + [n];
      var t := n.time;
      ghost var g := SectionOf(t);
      GroupStep(items[..i], n, Today);
      GroupStep(items[..i], n, Yesterday);
      GroupStep(items[..i], n, Earlier);
      if Contains(t, MinWord) || Contains(t, HourWord) {
        assert g == Today;
        today := today + [n];
      } else if Contains(ToLower(t), YesterdayWord) {
        assert g == Yesterday;
        yesterday := yesterday + [n];
      } else {
        assert g == Earlier;
        earlier := earlier + [n];
      }
      i := i + 1;
    }
    assert items[..i] == items;
  }

  /** Pushing one more notification extends exactly its own section. */
  lemma GroupStep(done: seq<Notification>, n: Notification, s: Section)
    ensures Filter(done + [n], InSection(s)) == Filter(done, InSection(s)) + if SectionOf(n.time) == s then [n] else []
  {
    FilterAppend(done, [n], InSection(s));
    FilterSingleton(n, InSection(s));
  }

  /** The three sections split the visible list: every notification lands in exactly
      one of them, once, and each section keeps the list's order. */
  lemma SectionsPartition(s: seq<Notification>)
    ensures multiset(Filter(s, InSection(Today))) + multiset(Filter(s, InSection(Yesterday)))
      + multiset(Filter(s, InSection(Earlier))) == multiset(s)
  {
    forall i | 0 <= i < |s|
      ensures InSection(Today)(s[i]) || InSection(Yesterday)(s[i]) || InSection(Earlier)(s[i])
    {
      var g := SectionOf(s[i].time);
      assert g == Today || g == Yesterday || g == Earlier;
    }
    FilterPartition3(s, InSection(Today), InSection(Yesterday), InSection(Earlier));
  }

  /** Hence the three section lengths add up to the visible count. */
  lemma SectionsCount(s: seq<Notification>)
    ensures |Filter(s, InSection(Today))| + |Filter(s, InSection(Yesterday))|
      + |Filter(s, InSection(Earlier))| == |s|
  {
    SectionsPartition(s);
    assert |multiset(Filter(s, InSection(Today))) + multiset(Filter(s, InSection(Yesterday)))
      + multiset(Filter(s, InSection(Earlier)))| == |multiset(s)|;
  }


  /** The two notifications a first visit is seeded with ("2 mins ago", "1 hour ago")
      both fall under Today. */
  lemma SeedNotificationsAreToday()
    ensures SectionOf("2 mins ago") == Today
    ensures SectionOf("1 hour ago") == Today
  {
    assert IsPrefix("min", "2 mins ago"[2..]);
    assert "2 mins ago"[1..][1..] == "2 mins ago"[2..];
    assert IsPrefix("hour", "1 hour ago"[2..]);
    assert "1 hour ago"[1..][1..] == "1 hour ago"[2..];
  }

  // ---------------------------------------------------------------------------
  // Clicking a notification
  // ---------------------------------------------------------------------------

  /** What `handleAction` asks of the dashboard: the id to mark read (only for an unread
      notification) and the payload to act on (only when there is one). */
  datatype Response = Response(markRead: Option<string>, action: Option<Action>)

  function Respond(n: Notification): (r: Response)
    ensures r.markRead.Some? <==> !n.isRead
    ensures r.markRead.Some? ==> r.markRead.value == n.id
    ensures r.action == n.actionPayload
  {
    Response(if !n.isRead then Some(n.id) else None, n.actionPayload)
  }

  /** The notifications once the dashboard has handled `onMarkRead`, if it was called. */
  function AfterMarking(ns: seq<Notification>, r: Response): seq<Notification> {
    if r.markRead.Some? then MarkRead(ns, r.markRead.value) else ns
  }

  function UnreadWithId(id: string): Notification -> bool { (n: Notification) => !n.isRead && n.id == id }

  /** Marking an id read lowers the unread count by exactly the number of unread
      notifications with that id. */
  lemma {:induction false} MarkReadCount(ns: seq<Notification>, id: string)
    ensures UnreadCount(MarkRead(ns, id)) + |Filter(ns, UnreadWithId(id))| == UnreadCount(ns)
  {
    if ns != [] {
      MarkReadCount(ns[1..], id);
      assert MarkRead(ns, id) == [MarkRead(ns, id)[0]] + MarkRead(ns[1..], id);
    }
  }

  /** With distinct ids, the only notification that can carry `ns[k]`'s id is `ns[k]`. */
  lemma {:induction false} UnreadWithOwnId(ns: seq<Notification>, k: nat)
    requires k < |ns|
    requires UniqueKeys(ns, NotificationId)
    ensures |Filter(ns, UnreadWithId(ns[k].id))| == if ns[k].isRead then 0 else 1
  {
    var id := ns[k].id;
    assert UniqueKeys(ns[1..], NotificationId) by {
      forall i, j | 0 <= i < j < |ns[1..]|
        ensures NotificationId(ns[1..][i]) != NotificationId(ns[1..][j])
      {
        assert ns[1..][i] == ns[i + 1] && ns[1..][j] == ns[j + 1];
      }
    }
    if k == 0 {
      forall i | 0 <= i < |ns[1..]|
        ensures !UnreadWithId(id)(ns[1..][i])
      {
        assert ns[1..][i] == ns[i + 1];
        assert NotificationId(ns[0]) != NotificationId(ns[i + 1]);
      }
      FilterNone(ns[1..], UnreadWithId(id));
    } else {
      assert NotificationId(ns[0]) != NotificationId(ns[k]);
      assert ns[1..][k - 1] == ns[k];
      UnreadWithOwnId(ns[1..], k - 1);
    }
  }

  /** Clicking a notification of a list with distinct ids leaves it read, lowers the
      unread count by one exactly when it was unread, and passes its payload on. */
  lemma ClickReadsOnce(ns: seq<Notification>, k: nat)
    requires k < |ns|
    requires UniqueKeys(ns, NotificationId)
    ensures AfterMarking(ns, Respond(ns[k]))[k].isRead
    ensures UnreadCount(AfterMarking(ns, Respond(ns[k])))
      == UnreadCount(ns) - (if ns[k].isRead then 0 else 1)
    ensures Respond(ns[k]).action == ns[k].actionPayload
  {
    if !ns[k].isRead {
      MarkReadCount(ns, ns[k].id);
      UnreadWithOwnId(ns, k);
    }
  }

  /** The empty state's "Browse" button asks for the Home tab. */
  const BrowseAction: Action := NavigateTab("Home")

  // ---------------------------------------------------------------------------
  // The screen's own state
  // ---------------------------------------------------------------------------

  /** The view keeps one piece of state, the selected tab, which starts at 'all'. */
  class Panel {
    var tab: Tab

    constructor()
      ensures tab == AllTab
    {
      tab := AllTab;
    }

    method SelectTab(t: Tab)
      modifies this
      ensures tab == t
    {
      tab := t;
    }

    /** The sections the screen shows for `ns` under the selected tab. */
    method Sections(ns: seq<Notification>) returns (today: seq<Notification>, yesterday: seq<Notification>, earlier: seq<Notification>)
      ensures today == Filter(Visible(ns, tab), InSection(Today))
      ensures yesterday == Filter(Visible(ns, tab), InSection(Yesterday))
      ensures earlier == Filter(Visible(ns, tab), InSection(Earlier))
    {
      today, yesterday, earlier := Group(Visible(ns, tab));
    }
  }
}
