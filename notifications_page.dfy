/**
 * The notifications page: the date category read off a relative timestamp,
 * the type and date filters, the unread figure, and the list operations
 * (mark one as read, delete one, mark all as read).
 */
module NotificationsPage {

  import opened Common

  datatype Kind = Security | Marketplace | Tutoring | System

  /** The `type` string a notification carries. */
  function KindName(k: Kind): string {
    match k
    case Security => "security"
    case Marketplace => "marketplace"
    case Tutoring => "tutoring"
    case System => "system"
  }

  datatype Notification = Notification(
    id: string,
    kind: Kind,
    title: string,
    description: string,
    message: string,
    timestamp: string,
    read: bool)

  /** getDateCategory: "hoy" for minutes and hours, "semana" for days,
      yesterday and weeks, "mes" for anything else. */
  function DateCategory(timestamp: string): (r: string)
    ensures r == "hoy" || r == "semana" || r == "mes"
    ensures r == "hoy" <==> Includes(timestamp, "minuto") || Includes(timestamp, "hora")
    ensures r == "semana" <==>
              !(Includes(timestamp, "minuto") || Includes(timestamp, "hora"))
              && (Includes(timestamp, "día") || Includes(timestamp, "Ayer") || Includes(timestamp, "semana"))
  {
    if Includes(timestamp, "minuto") || Includes(timestamp, "hora") then "hoy"
    else if Includes(timestamp, "día") || Includes(timestamp, "Ayer") then "semana"
    else if Includes(timestamp, "semana") then "semana"
    else "mes"
  }

  /** A select left on its "all" entry (null or the empty value). */
  predicate Unset(filter: Option<string>) {
    filter.None? || filter.value == ""
  }

  predicate TypeMatch(selectedType: Option<string>, n: Notification) {
    if Unset(selectedType) then true
    else if selectedType.value == "no-leidas" then !n.read
    else KindName(n.kind) == selectedType.value
  }

  predicate DateMatch(dateFilter: Option<string>, n: Notification) {
    if Unset(dateFilter) then true
    else DateCategory(n.timestamp) == dateFilter.value || dateFilter.value == "hoy"
  }

  function Shown(selectedType: Option<string>, dateFilter: Option<string>): Notification -> bool {
    (n: Notification) => TypeMatch(selectedType, n) && DateMatch(dateFilter, n)
  }

  /** filteredNotifications: the notifications both selects let through, in list order. */
  function FilteredNotifications(ns: seq<Notification>, selectedType: Option<string>, dateFilter: Option<string>)
    : (r: seq<Notification>)
    ensures Unset(selectedType) && Unset(dateFilter) ==> r == ns
    ensures selectedType == Some("no-leidas") ==> forall x :: x in r ==> !x.read
    ensures forall k :: selectedType == Some(KindName(k)) ==> forall x :: x in r ==> x.kind == k
    ensures forall x :: x in r <==> x in ns && TypeMatch(selectedType, x) && DateMatch(dateFilter, x)
    ensures selectedType == Some("no-leidas") && Unset(dateFilter) ==>
              forall x :: x in r <==> x in ns && !x.read
    ensures forall k :: selectedType == Some(KindName(k)) && Unset(dateFilter) ==>
              forall x :: x in r <==> x in ns && x.kind == k
  {
    if Unset(selectedType) && Unset(dateFilter) then
      FilterAll(ns, Shown(selectedType, dateFilter));
      Filter(ns, Shown(selectedType, dateFilter))
    else Filter(ns, Shown(selectedType, dateFilter))
  }

  /** The "hoy" date filter lets every notification through: it shows the same
      list as no date filter at all. */
  lemma TodayFilterMatchesAll(ns: seq<Notification>, selectedType: Option<string>)
    ensures FilteredNotifications(ns, selectedType, Some("hoy")) == FilteredNotifications(ns, selectedType, None)
  {
    var today := Shown(selectedType, Some("hoy"));
    var all := Shown(selectedType, None);
    FilterSame(ns, today, all);
    if Unset(selectedType) {
      FilterAll(ns, today);
    }
  }

  /** Any other date filter keeps a notification iff its category is the one chosen. */
  lemma DateFilterByCategory(ns: seq<Notification>, selectedType: Option<string>, category: string, n: Notification)
    requires category != "" && category != "hoy"
    ensures n in FilteredNotifications(ns, selectedType, Some(category)) <==>
              n in ns && TypeMatch(selectedType, n) && DateCategory(n.timestamp) == category
  {
  }

  function Unread(): Notification -> bool {
    (n: Notification) => !n.read
  }

  function UnreadWithId(id: string): Notification -> bool {
    (n: Notification) => !n.read && n.id == id
  }

  function HasOtherId(id: string): Notification -> bool {
    (n: Notification) => n.id != id
  }

  function HasId(id: string): Notification -> bool {
    (n: Notification) => n.id == id
  }

  /** The notifications with id `id` read, every other field and notification as they were. */
  function MarkRead(ns: seq<Notification>, id: string): (r: seq<Notification>)
    ensures |r| == |ns|
    ensures forall i :: 0 <= i < |ns| ==> r[i] == ns[i].(read := r[i].read)
    ensures forall i :: 0 <= i < |ns| ==> (r[i].read <==> ns[i].read || ns[i].id == id)
  {
    if ns == [] then []
    else [if ns[0].id == id then ns[0].(read := true) else ns[0]] + MarkRead(ns[1..], id)
  }

  /** Marking one id read lowers the unread figure by that id's unread notifications. */
  lemma {:induction false} MarkReadUnreadCount(ns: seq<Notification>, id: string)
    ensures Count(MarkRead(ns, id), Unread()) == Count(ns, Unread()) - Count(ns, UnreadWithId(id))
  {
    if ns != [] {
      MarkReadUnreadCount(ns[1..], id);
      var r := MarkRead(ns, id);
      assert r[1..] == MarkRead(ns[1..], id);
    }
  }

  /** Every notification read, nothing else changed. */
  function MarkAll(ns: seq<Notification>): (r: seq<Notification>)
    ensures |r| == |ns|
    ensures forall i :: 0 <= i < |ns| ==> r[i] == ns[i].(read := true)
  {
    if ns == [] then [] else [ns[0].(read := true)] + MarkAll(ns[1..])
  }

  /** After markAllAsRead nothing is unread, and marking all again changes nothing. */
  lemma MarkAllFacts(ns: seq<Notification>)
    ensures Count(MarkAll(ns), Unread()) == 0
    ensures MarkAll(MarkAll(ns)) == MarkAll(ns)
  {
    var r := MarkAll(ns);
    forall i | 0 <= i < |r| ensures !Unread()(r[i]) {
      assert r[i].read;
    }
    CountNone(r, Unread());
  }

  /** deleteNotification's list: exactly the notifications with another id, in order. */
  lemma DeleteFacts(ns: seq<Notification>, id: string)
    ensures var r := Filter(ns, HasOtherId(id));
            && (forall x :: x in r <==> x in ns && x.id != id)
            && |r| == |ns| - Count(ns, HasId(id))
  {
    DeleteLength(ns, id);
  }

  lemma {:induction false} DeleteLength(ns: seq<Notification>, id: string)
    ensures |Filter(ns, HasOtherId(id))| == |ns| - Count(ns, HasId(id))
  {
    if ns != [] {
      DeleteLength(ns[1..], id);
    }
  }

  /** The page's state: the list and the two selects. */
  class NotificationsPageState {
    var notifications: seq<Notification>
    var selectedType: Option<string>
    var dateFilter: Option<string>

    constructor (initial: seq<Notification>)
      ensures notifications == initial && selectedType == None && dateFilter == None
    {
      notifications := initial;
      selectedType := None;
      dateFilter := None;
    }

    /** unreadCount */
    function UnreadCount(): (n: nat)
      reads this
      ensures n <= |notifications|
    {
      Count(notifications, Unread())
    }

    method MarkAsRead(id: string)
      modifies this
      ensures notifications == MarkRead(old(notifications), id)
      ensures UnreadCount() == old(UnreadCount()) - Count(old(notifications), UnreadWithId(id))
      ensures selectedType == old(selectedType) && dateFilter == old(dateFilter)
    {
      MarkReadUnreadCount(notifications, id);
      notifications := MarkRead(notifications, id);
    }

    method DeleteNotification(id: string)
      modifies this
      ensures notifications == Filter(old(notifications), HasOtherId(id))
      ensures forall x :: x in notifications <==> x in old(notifications) && x.id != id
      ensures selectedType == old(selectedType) && dateFilter == old(dateFilter)
    {
      notifications := Filter(notifications, HasOtherId(id));
    }

    method MarkAllAsRead()
      modifies this
      ensures notifications == MarkAll(old(notifications))
      ensures UnreadCount() == 0
      ensures selectedType == old(selectedType) && dateFilter == old(dateFilter)
    {
      MarkAllFacts(notifications);
      notifications := MarkAll(notifications);
    }

    /** "Limpiar filtros" */
    method ClearFilters()
      modifies this
      ensures selectedType == None && dateFilter == None
      ensures notifications == old(notifications)
    {
      selectedType := None;
      dateFilter := None;
    }
  }
}
