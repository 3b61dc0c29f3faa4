/** The sidebar (Sidebar.tsx): a fixed table of navigation entries, of which
    a role sees those whose role list names it. */
module Navigation {
  import opened Types
  import Seqs

  /** The view identifiers the application ever selects. */
  datatype View =
    | ProfileView | MapView | StudentLogsView | BusinessDashboardView | BusinessLogsView
    | SlotsView | CoordinatorDashboardView | VerificationsView | ChatView

  /** The string the application uses for each view. */
  function ViewId(v: View): string
  {
    match v
    case ProfileView => "profile"
    case MapView => "map"
    case StudentLogsView => "logs-std"
    case BusinessDashboardView => "dashboard-bus"
    case BusinessLogsView => "logs-bus"
    case SlotsView => "slots"
    case CoordinatorDashboardView => "dashboard-coord"
    case VerificationsView => "verifications"
    case ChatView => "chat"
  }

  /** A table row; the label and the icon are display text only. */
  datatype NavItem = NavItem(id: View, roles: seq<UserRole>)

  /** `navItems`, row by row. */
  const Profile := NavItem(ProfileView, [Student, Business, Coordinator])
  const Discovery := NavItem(MapView, [Student])
  const StudentLogs := NavItem(StudentLogsView, [Student])
  const CompanyHub := NavItem(BusinessDashboardView, [Business])
  const InternLogs := NavItem(BusinessLogsView, [Business])
  const Slots := NavItem(SlotsView, [Business])
  const Oversight := NavItem(CoordinatorDashboardView, [Coordinator])
  const Verifications := NavItem(VerificationsView, [Coordinator])
  const Messages := NavItem(ChatView, [Student, Business])

  /** `navItems`, in table order. */
  const NavItems: seq<NavItem> :=
    [Profile, Discovery, StudentLogs, CompanyHub, InternLogs, Slots, Oversight, Verifications, Messages]

  /** The selection `item.roles.includes(role)`. */
  function Keep(role: UserRole): NavItem -> bool
  {
    (item: NavItem) => role in item.roles
  }

  /** The entries rendered for `role`: exactly the table rows whose roles
      include it, in table order. */
  function VisibleItems(role: UserRole): seq<NavItem>
  {
    Seqs.Filter(NavItems, Keep(role))
  }

  /** A row is shown to `role` exactly when its role list contains `role`,
      and the shown rows keep the table's order. */
  lemma VisibleItemsSelect(role: UserRole)
    ensures forall item :: item in VisibleItems(role) <==> item in NavItems && role in item.roles
    ensures Seqs.IsSubsequence(VisibleItems(role), NavItems)
  {
    Seqs.FilterMembers(NavItems, Keep(role));
    Seqs.FilterSubsequence(NavItems, Keep(role));
  }

  /** The views the given entries lead to, in order. */
  function Ids(items: seq<NavItem>): seq<View>
  {
    seq(|items|, i requires 0 <= i < |items| => items[i].id)
  }

  /** Clicking an entry selects the view the entry names. */
  function ClickTarget(item: NavItem): View
  {
    item.id
  }

  /** An entry is drawn highlighted when its id is the current view. */
  predicate IsHighlighted(item: NavItem, currentView: View)
  {
    currentView == item.id
  }

  /** The filter over the table, three rows at a time. */
  lemma TableInThrees(keep: NavItem -> bool)
    ensures Seqs.Filter(NavItems, keep)
         == Seqs.Filter([Profile, Discovery, StudentLogs], keep)
          + Seqs.Filter([CompanyHub, InternLogs, Slots], keep)
          + Seqs.Filter([Oversight, Verifications, Messages], keep)
  {
    RowsInThrees(Profile, Discovery, StudentLogs, CompanyHub, InternLogs, Slots, Oversight, Verifications, Messages, keep);
  }

  lemma RowsInThrees(a0: NavItem, a1: NavItem, a2: NavItem, a3: NavItem, a4: NavItem, a5: NavItem,
                     a6: NavItem, a7: NavItem, a8: NavItem, keep: NavItem -> bool)
    ensures Seqs.Filter([a0, a1, a2, a3, a4, a5, a6, a7, a8], keep)
         == Seqs.Filter([a0, a1, a2], keep) + Seqs.Filter([a3, a4, a5], keep) + Seqs.Filter([a6, a7, a8], keep)
  {
    assert [a0, a1, a2, a3, a4, a5, a6, a7, a8] == [a0, a1, a2] + [a3, a4, a5] + [a6, a7, a8];
    Seqs.FilterAppend([a0, a1, a2] + [a3, a4, a5], [a6, a7, a8], keep);
    Seqs.FilterAppend([a0, a1, a2], [a3, a4, a5], keep);
  }

  /** Students see their profile, the discovery map, their work logs and
      messages, in table order. */
  lemma StudentMenu()
    ensures Ids(VisibleItems(Student)) == [ProfileView, MapView, StudentLogsView, ChatView]
  {
    TableInThrees(Keep(Student));
    Seqs.FilterThree(Profile, Discovery, StudentLogs, Keep(Student));
    Seqs.FilterThree(CompanyHub, InternLogs, Slots, Keep(Student));
    Seqs.FilterThree(Oversight, Verifications, Messages, Keep(Student));
  }

  /** Businesses see their profile, the company hub, intern logs, slots and
      messages, in table order. */
  lemma BusinessMenu()
    ensures Ids(VisibleItems(Business))
         == [ProfileView, BusinessDashboardView, BusinessLogsView, SlotsView, ChatView]
  {
    TableInThrees(Keep(Business));
    Seqs.FilterThree(Profile, Discovery, StudentLogs, Keep(Business));
    Seqs.FilterThree(CompanyHub, InternLogs, Slots, Keep(Business));
    Seqs.FilterThree(Oversight, Verifications, Messages, Keep(Business));
  }

  /** Coordinators see their profile, oversight and verifications. */
  lemma CoordinatorMenu()
    ensures Ids(VisibleItems(Coordinator)) == [ProfileView, CoordinatorDashboardView, VerificationsView]
  {
    TableInThrees(Keep(Coordinator));
    Seqs.FilterThree(Profile, Discovery, StudentLogs, Keep(Coordinator));
    Seqs.FilterThree(CompanyHub, InternLogs, Slots, Keep(Coordinator));
    Seqs.FilterThree(Oversight, Verifications, Messages, Keep(Coordinator));
  }

  /** 'profile' is offered to every role; 'chat' to students and businesses
      but never to coordinators. */
  lemma SharedEntries(role: UserRole)
    ensures ProfileView in Ids(VisibleItems(role))
    ensures ChatView in Ids(VisibleItems(role)) <==> role != Coordinator
  {
    match role
    case Student => StudentMenu();
    case Business => BusinessMenu();
    case Coordinator => CoordinatorMenu();
  }

  predicate Distinct(ids: seq<View>)
  {
    forall i, j :: 0 <= i < j < |ids| ==> ids[i] != ids[j]
  }

  /** The rows shown to a role name distinct views, so at most one of them
      is highlighted for any current view. */
  lemma AtMostOneHighlighted(role: UserRole, currentView: View)
    ensures forall i, j :: 0 <= i < j < |VisibleItems(role)| ==>
              !(IsHighlighted(VisibleItems(role)[i], currentView) && IsHighlighted(VisibleItems(role)[j], currentView))
  {
    var r := VisibleItems(role);
    MenuDistinct(role);
    assert forall i :: 0 <= i < |r| ==> r[i].id == Ids(r)[i];
  }

  lemma MenuDistinct(role: UserRole)
    ensures Distinct(Ids(VisibleItems(role)))
  {
    match role
    case Student => StudentMenu();
    case Business => BusinessMenu();
    case Coordinator => CoordinatorMenu();
  }
}
