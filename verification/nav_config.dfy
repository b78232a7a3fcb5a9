/** The sidebar navigation: the static main and report menus, each entry
    listing the roles allowed to see it, and the per-role filters over them.
    Icons are presentation only and are not part of the model. */
module NavConfig {
  import opened Wrappers
  import opened Rbac
  import Arrays

  datatype NavItem = NavItem(href: string, caption: string, roles: seq<Role>)

  const EveryRole: seq<Role> := [SuperAdmin, Admin, Manager, Employee]
  const Administrators: seq<Role> := [SuperAdmin, Admin]
  const Supervisors: seq<Role> := [SuperAdmin, Admin, Manager]

  const DashboardItem := NavItem("/dashboard", "Dashboard", EveryRole)
  const UsersItem := NavItem("/users", "Users", Administrators)
  const DepartmentsItem := NavItem("/departments", "Departments", Administrators)
  const PositionsItem := NavItem("/positions", "Job Positions", Administrators)
  const ProcessTemplatesItem := NavItem("/process-templates", "Process Templates", [SuperAdmin])
  const ProcessInstancesItem := NavItem("/process-instances", "Process Instances", EveryRole)
  const MyTasksItem := NavItem("/my-tasks", "My Tasks", EveryRole)
  const MyProcessesItem := NavItem("/my-processes", "My Processes", EveryRole)

  /** The main menu, in display order. */
  const NavItems: seq<NavItem> :=
    [ DashboardItem, UsersItem, DepartmentsItem, PositionsItem,
      ProcessTemplatesItem, ProcessInstancesItem, MyTasksItem, MyProcessesItem ]

  const ByUserItem := NavItem("/reports/by-user", "By User", Supervisors)
  const ByTaskItem := NavItem("/reports/by-task", "By Task", Supervisors)
  const SummaryItem := NavItem("/reports/summary", "Process Summary", Supervisors)

  /** The reports menu, in display order. */
  const ReportNavItems: seq<NavItem> := [ByUserItem, ByTaskItem, SummaryItem]

  /** The entries of `items` whose role list includes `role`; nothing for an
      absent role. The result keeps the menu order, every entry in it is
      visible to the role (soundness) and every visible entry is in it
      (completeness). */
  function ItemsForRole(items: seq<NavItem>, role: Option<Role>): (r: seq<NavItem>)
    ensures role.None? ==> r == []
    ensures Arrays.IsSubsequence(r, items)
    ensures forall item :: item in r <==> role.Some? && item in items && role.value in item.roles
  {
    if role.None? then []
    else
      var who := role.value;
      Arrays.Filter(items, (item: NavItem) => Arrays.Includes(item.roles, who))
  }

  /** `getNavItemsForRole(role)`. */
  function NavItemsForRole(role: Option<Role>): (r: seq<NavItem>)
    ensures role.None? ==> r == []
    ensures Arrays.IsSubsequence(r, NavItems)
    ensures forall item :: item in r <==> role.Some? && item in NavItems && role.value in item.roles
  {
    ItemsForRole(NavItems, role)
  }

  /** `getReportNavItemsForRole(role)`. */
  function ReportNavItemsForRole(role: Option<Role>): (r: seq<NavItem>)
    ensures role.None? ==> r == []
    ensures Arrays.IsSubsequence(r, ReportNavItems)
    ensures forall item :: item in r <==> role.Some? && item in ReportNavItems && role.value in item.roles
  {
    ItemsForRole(ReportNavItems, role)
  }

  /** Process Templates is shown to SUPER_ADMIN alone, while Dashboard,
      Process Instances, My Tasks and My Processes are shown to every
      signed-in role. */
  lemma MainMenuByRole(role: Option<Role>)
    ensures ProcessTemplatesItem in NavItemsForRole(role) <==> role == Some(SuperAdmin)
    ensures role.Some? ==>
      && DashboardItem in NavItemsForRole(role)
      && ProcessInstancesItem in NavItemsForRole(role)
      && MyTasksItem in NavItemsForRole(role)
      && MyProcessesItem in NavItemsForRole(role)
  {
    assert NavItems[0] == DashboardItem && NavItems[4] == ProcessTemplatesItem;
    assert NavItems[5] == ProcessInstancesItem && NavItems[6] == MyTasksItem && NavItems[7] == MyProcessesItem;
    if role.Some? {
      assert role.value in EveryRole by {
        match role.value
        case SuperAdmin => assert EveryRole[0] == SuperAdmin;
        case Admin => assert EveryRole[1] == Admin;
        case Manager => assert EveryRole[2] == Manager;
        case Employee => assert EveryRole[3] == Employee;
      }
    }
  }

  /** The administration pages (users, departments, positions) are shown
      exactly to SUPER_ADMIN and ADMIN. */
  lemma AdministrationMenuByRole(role: Option<Role>)
    ensures UsersItem in NavItemsForRole(role) <==> role == Some(SuperAdmin) || role == Some(Admin)
    ensures DepartmentsItem in NavItemsForRole(role) <==> role == Some(SuperAdmin) || role == Some(Admin)
    ensures PositionsItem in NavItemsForRole(role) <==> role == Some(SuperAdmin) || role == Some(Admin)
  {
  }

  /** An EMPLOYEE sees no report, every other role sees all three in menu
      order. */
  lemma ReportsByRole(role: Role)
    ensures role == Employee ==> ReportNavItemsForRole(Some(role)) == []
    ensures role != Employee ==> ReportNavItemsForRole(Some(role)) == ReportNavItems
  {
    if role != Employee {
      var keep := (item: NavItem) => Arrays.Includes(item.roles, role);
      Arrays.FilterAll(ReportNavItems, keep);
    }
  }
}
