/** The alerts side panel: the alerts not yet dismissed, grouped by type, the
    recommendations grouped by priority, the badge and the empty states, and
    nothing at all while the panel is closed. */
module AlertPanel {
  import opened Seqs
  import opened AlertCard

  /** An entry of the recommendations list. */
  datatype Recommendation = Recommendation(id: int, priority: string, title: string)

  /** The two tabs of the panel (`activeTab`). */
  datatype Tab = AlertsTab | RecommendationsTab

  /** What the alerts tab shows: the three type groups (a group that is empty
      renders nothing) and whether the "No active alerts" state is shown. */
  datatype AlertsView = AlertsView(critical: seq<Alert>, warning: seq<Alert>, info: seq<Alert>, noActiveAlerts: bool)

  /** What the recommendations tab shows: the three priority groups and whether
      the "No recommendations available" state is shown. */
  datatype RecommendationsView = RecommendationsView(
    high: seq<Recommendation>, medium: seq<Recommendation>, low: seq<Recommendation>, noRecommendations: bool)

  datatype Content = AlertsContent(alerts: AlertsView) | RecommendationsContent(recommendations: RecommendationsView)

  /** The open panel: the count on the Alerts tab button (absent when zero)
      and the content of the selected tab. */
  datatype View = View(badge: Option<nat>, content: Content)

  /** `activeAlerts`: the alerts whose id is not among the dismissed ids. */
  function ActiveAlerts(alerts: seq<Alert>, dismissed: seq<int>): seq<Alert>
  {
    Filter((a: Alert) => a.id !in dismissed, alerts)
  }

  /** The active alerts whose type is exactly `kind`. */
  function OfType(active: seq<Alert>, kind: string): seq<Alert>
  {
    Filter((a: Alert) => a.kind == kind, active)
  }

  /** The recommendations whose priority is exactly `priority`. */
  function OfPriority(recs: seq<Recommendation>, priority: string): seq<Recommendation>
  {
    Filter((r: Recommendation) => r.priority == priority, recs)
  }

  function AlertsTabView(active: seq<Alert>): AlertsView
  {
    AlertsView(OfType(active, "critical"), OfType(active, "warning"), OfType(active, "info"), |active| == 0)
  }

  function RecommendationsTabView(recs: seq<Recommendation>): RecommendationsView
  {
    RecommendationsView(OfPriority(recs, "high"), OfPriority(recs, "medium"), OfPriority(recs, "low"), |recs| == 0)
  }

  /** The rendered panel: `None` (React's `null`) while the panel is closed. */
  function Panel(open: bool, tab: Tab, alerts: seq<Alert>, dismissed: seq<int>, recs: seq<Recommendation>): (v: Option<View>)
    ensures v.None? <==> !open
    ensures v.Some? ==> (v.value.content.AlertsContent? <==> tab == AlertsTab)
  {
    if !open then None
    else
      var active := ActiveAlerts(alerts, dismissed);
      var badge := if |active| > 0 then Some(|active|) else None;
      match tab
      case AlertsTab => Some(View(badge, AlertsContent(AlertsTabView(active))))
      case RecommendationsTab => Some(View(badge, RecommendationsContent(RecommendationsTabView(recs))))
  }

  /** The active alerts are exactly the alerts with an undismissed id, each
      as often as in the input, in their original order. */
  lemma ActiveAlertsExact(alerts: seq<Alert>, dismissed: seq<int>)
    ensures forall a :: a in ActiveAlerts(alerts, dismissed) <==> a in alerts && a.id !in dismissed
    ensures forall a :: multiset(ActiveAlerts(alerts, dismissed))[a] == (if a.id in dismissed then 0 else multiset(alerts)[a])
    ensures IsSubseq(ActiveAlerts(alerts, dismissed), alerts)
  {
    FilterIsSubseq((a: Alert) => a.id !in dismissed, alerts);
    FilterMultiplicity((a: Alert) => a.id !in dismissed, alerts);
  }

  /** Each type group holds exactly the active alerts of that type, each as
      often as it is active, in order. */
  lemma TypeGroupExact(active: seq<Alert>, kind: string)
    ensures forall a :: a in OfType(active, kind) <==> a in active && a.kind == kind
    ensures forall a :: multiset(OfType(active, kind))[a] == (if a.kind == kind then multiset(active)[a] else 0)
    ensures IsSubseq(OfType(active, kind), active)
  {
    FilterIsSubseq((a: Alert) => a.kind == kind, active);
    FilterMultiplicity((a: Alert) => a.kind == kind, active);
  }

  /** Groups of two different types share no alert. */
  lemma TypeGroupsDisjoint(active: seq<Alert>, k1: string, k2: string)
    requires k1 != k2
    ensures forall a :: a in OfType(active, k1) ==> a !in OfType(active, k2)
  {
  }

  /** The active alerts of any other type are in no group, and the three
      groups together with them account for every active alert. */
  lemma OtherTypesUngrouped(active: seq<Alert>)
    ensures forall a :: a in active && a.kind != "critical" && a.kind != "warning" && a.kind != "info" ==>
      a !in OfType(active, "critical") && a !in OfType(active, "warning") && a !in OfType(active, "info")
    ensures var others := Filter((a: Alert) => a.kind != "critical" && a.kind != "warning" && a.kind != "info", active);
      |OfType(active, "critical")| + |OfType(active, "warning")| + |OfType(active, "info")| + |others| == |active|
  {
    ThreeWaySplit((a: Alert) => a.kind == "critical", (a: Alert) => a.kind == "warning", (a: Alert) => a.kind == "info",
      (a: Alert) => a.kind != "critical" && a.kind != "warning" && a.kind != "info", active);
  }

  /** The badge shows the number of active alerts, and appears exactly when
      there is one; the empty state shows exactly when there is none. */
  lemma BadgeAndEmptyState(tab: Tab, alerts: seq<Alert>, dismissed: seq<int>, recs: seq<Recommendation>)
    ensures var v := Panel(true, tab, alerts, dismissed, recs); var n := |ActiveAlerts(alerts, dismissed)|;
      && v.Some?
      && (v.value.badge.Some? <==> n > 0)
      && (v.value.badge.Some? ==> v.value.badge.value == n)
      && (tab == AlertsTab ==> (v.value.content.alerts.noActiveAlerts <==> ActiveAlerts(alerts, dismissed) == []))
  {
  }

  /** Each priority group holds exactly the recommendations of that priority,
      each as often as in the list, in order; groups of different priorities
      share nothing. */
  lemma PriorityGroupExact(recs: seq<Recommendation>, p: string, q: string)
    ensures forall r :: r in OfPriority(recs, p) <==> r in recs && r.priority == p
    ensures forall r :: multiset(OfPriority(recs, p))[r] == (if r.priority == p then multiset(recs)[r] else 0)
    ensures IsSubseq(OfPriority(recs, p), recs)
    ensures p != q ==> forall r :: r in OfPriority(recs, p) ==> r !in OfPriority(recs, q)
  {
    FilterIsSubseq((r: Recommendation) => r.priority == p, recs);
    FilterMultiplicity((r: Recommendation) => r.priority == p, recs);
  }

  /** Dismissing an alert from its card (adding its id to the dismissed ids)
      removes from the active alerts exactly the alerts with that id and keeps
      the order of the rest. */
  lemma DismissFromCard(alerts: seq<Alert>, dismissed: seq<int>, alert: Alert)
    ensures ActiveAlerts(alerts, dismissed + [HandleDismiss(alert)])
      == Filter((a: Alert) => a.id != alert.id, ActiveAlerts(alerts, dismissed))
    ensures alert !in ActiveAlerts(alerts, dismissed + [HandleDismiss(alert)])
  {
    var d := dismissed + [HandleDismiss(alert)];
    FilterFilter((a: Alert) => a.id !in dismissed, (a: Alert) => a.id != alert.id, (a: Alert) => a.id !in d, alerts);
  }
}
