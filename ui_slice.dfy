// The UI slice of the front-end store: the sidebar and theme settings, the
// global loading flag, and the notification list.

module UiSlice {
  import Util

  datatype Theme = Light | Dark

  datatype Kind = Success | Failure | Warning | Info

  /** A notification; its id is the decimal text of its creation time. */
  datatype Notification = Notification(id: string, kind: Kind, message: string, timestamp: nat)

  /** The slice's state. */
  datatype Ui = Ui(sidebarCollapsed: bool, theme: Theme, loading: bool, notifications: seq<Notification>)

  const Initial := Ui(false, Light, false, [])

  /** `n.toString()` for a clock reading: its decimal digits. */
  function Decimal(n: nat): (s: string)
    ensures |s| >= 1
    ensures forall i :: 0 <= i < |s| ==> '0' <= s[i] <= '9'
    ensures n < 10 ==> |s| == 1
  {
    var digit := [('0' as int + n % 10) as char];
    if n < 10 then digit else Decimal(n / 10) + digit
  }

  /** The notification `addNotification` pushes at clock time `now`. */
  function Stamped(kind: Kind, message: string, now: nat): Notification
  {
    Notification(Decimal(now), kind, message, now)
  }

  /** The filter predicate `n => n.id !== id`. */
  function OtherId(id: string): Notification -> bool
  {
    (n: Notification) => n.id != id
  }

  /** `notifications.filter(n => n.id !== id)`. */
  function WithoutId(ns: seq<Notification>, id: string): (r: seq<Notification>)
    ensures |r| <= |ns|
  {
    Util.Filter(ns, OtherId(id))
  }

  /** Removing keeps exactly the notifications with another id, and keeps
    * the length exactly when no notification has the id. */
  lemma WithoutIdMeaning(ns: seq<Notification>, id: string)
    ensures forall n :: n in WithoutId(ns, id) <==> n in ns && n.id != id
    ensures |WithoutId(ns, id)| == |ns| <==> forall i :: 0 <= i < |ns| ==> ns[i].id != id
  {
    Util.FilterMembers(ns, OtherId(id));
    Util.FilterLength(ns, OtherId(id));
  }

  /** Removing distributes over concatenation, so the kept notifications
    * stay in their order. */
  lemma WithoutIdConcat(ns: seq<Notification>, ms: seq<Notification>, id: string)
    ensures WithoutId(ns + ms, id) == WithoutId(ns, id) + WithoutId(ms, id)
  {
    Util.FilterConcat(ns, ms, OtherId(id));
  }

  /** Two notifications added in the same millisecond share an id, so
    * removing one removes both. */
  lemma SameMillisecond(ns: seq<Notification>, k1: Kind, m1: string, k2: Kind, m2: string, now: nat)
    ensures var a := Stamped(k1, m1, now);
      WithoutId(ns + [a, Stamped(k2, m2, now)], a.id) == WithoutId(ns, a.id)
  {
    var a, b := Stamped(k1, m1, now), Stamped(k2, m2, now);
    WithoutIdConcat(ns, [a, b], a.id);
    Util.FilterSnoc([], a, OtherId(a.id));
    Util.FilterSnoc([a], b, OtherId(a.id));
    assert [] + [a] == [a] && [a] + [b] == [a, b];
  }

  // Each reducer as a function of the state.

  function Toggled(s: Ui): Ui { s.(sidebarCollapsed := !s.sidebarCollapsed) }

  function Added(s: Ui, kind: Kind, message: string, now: nat): Ui
  {
    s.(notifications := s.notifications + [Stamped(kind, message, now)])
  }

  function Removed(s: Ui, id: string): Ui { s.(notifications := WithoutId(s.notifications, id)) }

  /** Toggling flips the sidebar and toggling twice restores it; adding
    * pushes one notification carrying the payload's kind and message and
    * the clock time; removing and clearing touch only the notifications. */
  lemma ReducerRules(s: Ui, kind: Kind, message: string, now: nat, id: string)
    ensures Toggled(s).sidebarCollapsed != s.sidebarCollapsed && Toggled(Toggled(s)) == s
    ensures var a := Added(s, kind, message, now);
      |a.notifications| == |s.notifications| + 1
      && a.notifications[..|s.notifications|] == s.notifications
      && a.notifications[|s.notifications|].kind == kind
      && a.notifications[|s.notifications|].message == message
      && a.notifications[|s.notifications|].timestamp == now
      && a.(notifications := s.notifications) == s
    ensures Removed(s, id).(notifications := s.notifications) == s
    ensures forall n :: n in Removed(s, id).notifications <==> n in s.notifications && n.id != id
    ensures Removed(Added(s, kind, message, now), Decimal(now)).notifications == WithoutId(s.notifications, Decimal(now))
  {
    WithoutIdMeaning(s.notifications, id);
    var n := Stamped(kind, message, now);
    WithoutIdConcat(s.notifications, [n], Decimal(now));
    assert [n][..0] == [];
  }

  class UiStore {
    var sidebarCollapsed: bool
    var theme: Theme
    var loading: bool
    var notifications: seq<Notification>

    function State(): Ui
      reads this
    {
      Ui(sidebarCollapsed, theme, loading, notifications)
    }

    constructor()
      ensures State() == Initial
    {
      sidebarCollapsed := false;
      theme := Light;
      loading := false;
      notifications := [];
    }

    /** `toggleSidebar`. */
    method ToggleSidebar()
      modifies this
      ensures State() == Toggled(old(State()))
    {
      sidebarCollapsed := !sidebarCollapsed;
    }

    /** `setSidebarCollapsed`. */
    method SetSidebarCollapsed(collapsed: bool)
      modifies this
      ensures State() == old(State()).(sidebarCollapsed := collapsed)
    {
      sidebarCollapsed := collapsed;
    }

    /** `setTheme`. */
    method SetTheme(t: Theme)
      modifies this
      ensures State() == old(State()).(theme := t)
    {
      theme := t;
    }

    /** `setLoading`. */
    method SetLoading(l: bool)
      modifies this
      ensures State() == old(State()).(loading := l)
    {
      loading := l;
    }

    /** `addNotification` at clock time `now`. */
    method AddNotification(kind: Kind, message: string, now: nat)
      modifies this
      ensures State() == Added(old(State()), kind, message, now)
    {
      notifications := notifications + [Notification(Decimal(now), kind, message, now)];
    }

    /** `removeNotification`. */
    method RemoveNotification(id: string)
      modifies this
      ensures State() == Removed(old(State()), id)
    {
      notifications := WithoutId(notifications, id);
    }

    /** `clearNotifications`. */
    method ClearNotifications()
      modifies this
      ensures State() == old(State()).(notifications := [])
    {
      notifications := [];
    }
  }
}
