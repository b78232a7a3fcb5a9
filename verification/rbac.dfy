/** Role-based access control: the four user roles, the nineteen
    permissions, the fixed table that grants permissions to roles, the
    permission lookup and the role guard that throws "Forbidden". */
module Rbac {
  import opened Wrappers
  import Arrays

  datatype Role = SuperAdmin | Admin | Manager | Employee

  datatype Permission =
    | UsersRead | UsersCreate | UsersUpdate | UsersDelete
    | DepartmentsRead | DepartmentsCreate | DepartmentsUpdate | DepartmentsDelete
    | PositionsRead | PositionsCreate | PositionsUpdate | PositionsDelete
    | ProcessTemplatesRead | ProcessTemplatesCreate | ProcessTemplatesUpdate | ProcessTemplatesDelete
    | ProcessInstancesCreate | ProcessInstancesRead
    | TasksUpdateStatus

  /** The permission table, one list per role, in the order the application lists them. */
  function RolePermissions(role: Role): seq<Permission> {
    match role
    case SuperAdmin =>
      [ UsersRead, UsersCreate, UsersUpdate, UsersDelete,
        DepartmentsRead, DepartmentsCreate, DepartmentsUpdate, DepartmentsDelete,
        PositionsRead, PositionsCreate, PositionsUpdate, PositionsDelete,
        ProcessTemplatesRead, ProcessTemplatesCreate, ProcessTemplatesUpdate, ProcessTemplatesDelete,
        ProcessInstancesCreate, ProcessInstancesRead,
        TasksUpdateStatus ]
    case Admin =>
      [ UsersRead, UsersCreate, UsersUpdate, UsersDelete,
        DepartmentsRead, DepartmentsCreate, DepartmentsUpdate, DepartmentsDelete,
        PositionsRead, PositionsCreate, PositionsUpdate, PositionsDelete,
        ProcessTemplatesRead, ProcessTemplatesCreate, ProcessTemplatesUpdate, ProcessTemplatesDelete,
        ProcessInstancesCreate, ProcessInstancesRead,
        TasksUpdateStatus ]
    case Manager =>
      [ UsersRead, ProcessTemplatesRead, ProcessInstancesRead, ProcessInstancesCreate, TasksUpdateStatus ]
    case Employee =>
      [ ProcessInstancesRead, ProcessInstancesCreate, TasksUpdateStatus ]
  }

  /** The table row of a role, read as a set. */
  function PermissionSet(role: Role): set<Permission> {
    set p | p in RolePermissions(role)
  }

  /** `hasPermission(role, permission)`: an absent role holds nothing;
      otherwise the role's table row is searched. */
  function HasPermission(role: Option<Role>, p: Permission): (r: bool)
    ensures role.None? ==> !r
    ensures role.Some? ==> (r <==> p in PermissionSet(role.value))
  {
    if role.None? then false else Arrays.Includes(RolePermissions(role.value), p)
  }

  /** `requireRole(role, allowed)`: passes exactly when a role is given and
      is listed in `allowed`; otherwise it fails with "Forbidden". */
  function RequireRole(role: Option<Role>, allowed: seq<Role>): (r: Outcome<string>)
    ensures r.Pass? <==> role.Some? && role.value in allowed
    ensures r.Fail? ==> r.error == "Forbidden"
  {
    if role.None? || !Arrays.Includes(allowed, role.value) then Fail("Forbidden") else Pass
  }

  /** Taking part in processes: starting instances, reading them and
      acting on tasks. */
  predicate IsParticipation(p: Permission) {
    p == ProcessInstancesCreate || p == ProcessInstancesRead || p == TasksUpdateStatus
  }

  /** The access policy the table encodes, stated as rules per role:
      administrators may do everything, managers may take part in processes
      and read users and templates, employees may only take part. */
  predicate Grants(role: Role, p: Permission) {
    match role
    case SuperAdmin => true
    case Admin => true
    case Manager => IsParticipation(p) || p == UsersRead || p == ProcessTemplatesRead
    case Employee => IsParticipation(p)
  }

  /** Where each permission sits in the administrators' rows. */
  function AdminRowIndex(p: Permission): (i: nat)
    ensures i < |RolePermissions(SuperAdmin)| && i < |RolePermissions(Admin)|
  {
    match p
    case UsersRead => 0
    case UsersCreate => 1
    case UsersUpdate => 2
    case UsersDelete => 3
    case DepartmentsRead => 4
    case DepartmentsCreate => 5
    case DepartmentsUpdate => 6
    case DepartmentsDelete => 7
    case PositionsRead => 8
    case PositionsCreate => 9
    case PositionsUpdate => 10
    case PositionsDelete => 11
    case ProcessTemplatesRead => 12
    case ProcessTemplatesCreate => 13
    case ProcessTemplatesUpdate => 14
    case ProcessTemplatesDelete => 15
    case ProcessInstancesCreate => 16
    case ProcessInstancesRead => 17
    case TasksUpdateStatus => 18
  }

  /** Both administrator rows list every permission. */
  lemma AdminRowsAreComplete(p: Permission)
    ensures RolePermissions(SuperAdmin)[AdminRowIndex(p)] == p
    ensures RolePermissions(Admin)[AdminRowIndex(p)] == p
  {
  }

  /** The lookup agrees with the rule-based policy for every role and
      permission, including the absent role. */
  lemma HasPermissionFollowsPolicy(role: Option<Role>, p: Permission)
    ensures HasPermission(role, p) <==> role.Some? && Grants(role.value, p)
  {
    match role
    case None =>
    case Some(SuperAdmin) => AdminRowsAreComplete(p);
    case Some(Admin) => AdminRowsAreComplete(p);
    case Some(Manager) => ManagerRowFollowsPolicy(p);
    case Some(Employee) => EmployeeRowFollowsPolicy(p);
  }

  lemma ManagerRowFollowsPolicy(p: Permission)
    ensures p in RolePermissions(Manager) <==> Grants(Manager, p)
  {
    var row := RolePermissions(Manager);
    if Grants(Manager, p) {
      match p
      case UsersRead => assert row[0] == p;
      case ProcessTemplatesRead => assert row[1] == p;
      case ProcessInstancesRead => assert row[2] == p;
      case ProcessInstancesCreate => assert row[3] == p;
      case TasksUpdateStatus => assert row[4] == p;
    }
  }

  lemma EmployeeRowFollowsPolicy(p: Permission)
    ensures p in RolePermissions(Employee) <==> Grants(Employee, p)
  {
    var row := RolePermissions(Employee);
    if Grants(Employee, p) {
      match p
      case ProcessInstancesRead => assert row[0] == p;
      case ProcessInstancesCreate => assert row[1] == p;
      case TasksUpdateStatus => assert row[2] == p;
    }
  }

  /** SUPER_ADMIN and ADMIN hold identical rows, and each holds every
      permission, template creation among them. */
  lemma AdminsHoldEveryPermission()
    ensures PermissionSet(SuperAdmin) == PermissionSet(Admin)
    ensures forall p: Permission :: HasPermission(Some(SuperAdmin), p) && HasPermission(Some(Admin), p)
  {
    forall p: Permission
      ensures HasPermission(Some(SuperAdmin), p) && HasPermission(Some(Admin), p)
    {
      HasPermissionFollowsPolicy(Some(SuperAdmin), p);
      HasPermissionFollowsPolicy(Some(Admin), p);
    }
  }

  /** Every role holds strictly fewer permissions than the next one up:
      EMPLOYEE below MANAGER below ADMIN. */
  lemma RolesAreNested()
    ensures PermissionSet(Employee) < PermissionSet(Manager)
    ensures PermissionSet(Manager) < PermissionSet(Admin)
  {
    assert UsersRead in PermissionSet(Manager) && UsersRead !in PermissionSet(Employee);
    assert UsersCreate in PermissionSet(Admin) && UsersCreate !in PermissionSet(Manager);
  }

  /** Every role may start instances, read them and act on tasks. */
  lemma EveryRoleParticipates(role: Role)
    ensures HasPermission(Some(role), ProcessInstancesCreate)
    ensures HasPermission(Some(role), ProcessInstancesRead)
    ensures HasPermission(Some(role), TasksUpdateStatus)
  {
    HasPermissionFollowsPolicy(Some(role), ProcessInstancesCreate);
    HasPermissionFollowsPolicy(Some(role), ProcessInstancesRead);
    HasPermissionFollowsPolicy(Some(role), TasksUpdateStatus);
  }

  /** Template authoring (create, update, delete) is an administrator
      permission only. */
  lemma OnlyAdminsAuthorTemplates(role: Option<Role>)
    ensures HasPermission(role, ProcessTemplatesCreate) <==> role == Some(SuperAdmin) || role == Some(Admin)
    ensures HasPermission(role, ProcessTemplatesUpdate) <==> role == Some(SuperAdmin) || role == Some(Admin)
    ensures HasPermission(role, ProcessTemplatesDelete) <==> role == Some(SuperAdmin) || role == Some(Admin)
  {
    HasPermissionFollowsPolicy(role, ProcessTemplatesCreate);
    HasPermissionFollowsPolicy(role, ProcessTemplatesUpdate);
    HasPermissionFollowsPolicy(role, ProcessTemplatesDelete);
  }
}
