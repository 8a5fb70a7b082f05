/** Role-based access predicates (app/lib/auth/roles.ts): flat string
    comparisons of the employee's role name against fixed markers. */
module Roles {
  import opened Common

  const ADMIN := "ADMIN"
  const STAFF_HOTEL := "Staff Hotel"
  const STAFF_RESTAURANTE := "Staff Restaurante"
  const CONTADOR := "Contador"

  /** `string | undefined`: `None` is the undefined role. */
  type RoleName = Option<string>

  /** The part of an employee record the role is read from. */
  datatype EmployeeType = EmployeeType(name: Option<string>)
  datatype Employee = Employee(employeeType: Option<EmployeeType>)

  /** `employee?.employeeType?.name`. */
  function RoleNameFromEmployee(employee: Option<Employee>): (r: RoleName)
    ensures (employee.Some? && employee.value.employeeType.Some?
             && employee.value.employeeType.value.name.Some?)
            ==> r == employee.value.employeeType.value.name
    ensures (employee.None? || employee.value.employeeType.None?
             || employee.value.employeeType.value.name.None?)
            ==> r.None?
  {
    match employee
    case None => None
    case Some(e) =>
      match e.employeeType
      case None => None
      case Some(t) => t.name
  }

  /** `role === AppRoles.ADMIN`: the same answer as `hasAnyRole` with the
      list `[ADMIN]`. */
  predicate IsAdmin(role: RoleName)
    ensures IsAdmin(role) <==> HasAnyRole(role, [NameEntry(ADMIN)])
    ensures IsAdmin(role) ==> Truthy(role)
  {
    role == Some(ADMIN)
  }

  /** One entry of the allow-list given to `hasAnyRole`: the array may hold
      `null`, `undefined` or role strings. */
  datatype AllowedEntry = NullEntry | UndefinedEntry | NameEntry(name: string)

  /** `hasAnyRole(role, allowed)`: a falsy role (absent, null or empty)
      passes only when the list contains `null`; a non-empty role passes
      when the list contains it. */
  function HasAnyRole(role: Option<string>, allowed: seq<AllowedEntry>): (r: bool)
    ensures Truthy(role) ==> (r <==> NameEntry(role.value) in allowed)
    ensures !Truthy(role) ==> (r <==> NullEntry in allowed)
  {
    if !Truthy(role) && NullEntry in allowed then true
    else Truthy(role) && NameEntry(role.value) in allowed
  }

  /** The four route groups the guard protects. */
  datatype RouteGroup = AdminGroup | ReservacionesGroup | OrdenesGroup | ReportesGroup

  /** Reference table: the role names each group admits. */
  function AllowedRoles(g: RouteGroup): set<string> {
    match g
    case AdminGroup => {ADMIN}
    case ReservacionesGroup => {ADMIN, STAFF_HOTEL}
    case OrdenesGroup => {ADMIN, STAFF_RESTAURANTE}
    case ReportesGroup => {ADMIN, CONTADOR}
  }

  function CanAccessAdmin(role: RoleName): (r: bool)
    ensures r <==> role.Some? && role.value in AllowedRoles(AdminGroup)
  {
    IsAdmin(role)
  }

  function CanAccessReservaciones(role: RoleName): (r: bool)
    ensures r <==> role.Some? && role.value in AllowedRoles(ReservacionesGroup)
  {
    IsAdmin(role) || role == Some(STAFF_HOTEL)
  }

  function CanAccessOrdenes(role: RoleName): (r: bool)
    ensures r <==> role.Some? && role.value in AllowedRoles(OrdenesGroup)
  {
    IsAdmin(role) || role == Some(STAFF_RESTAURANTE)
  }

  function CanAccessReportes(role: RoleName): (r: bool)
    ensures r <==> role.Some? && role.value in AllowedRoles(ReportesGroup)
  {
    IsAdmin(role) || role == Some(CONTADOR)
  }

  /** The predicate that guards a group. */
  function CanAccess(g: RouteGroup, role: RoleName): bool {
    match g
    case AdminGroup => CanAccessAdmin(role)
    case ReservacionesGroup => CanAccessReservaciones(role)
    case OrdenesGroup => CanAccessOrdenes(role)
    case ReportesGroup => CanAccessReportes(role)
  }

  /** Every group is decided by its table row, through the membership of a
      present role; an undefined role is refused everywhere. */
  lemma CanAccessMatchesTable(g: RouteGroup, role: RoleName)
    ensures CanAccess(g, role) <==> role.Some? && role.value in AllowedRoles(g)
    ensures role.None? ==> !CanAccess(g, role)
  {
  }

  /** "ADMIN" passes all four predicates. */
  lemma AdminPassesAll(g: RouteGroup)
    ensures CanAccess(g, Some(ADMIN))
  {
  }

  /** A department role opens exactly its own group. */
  lemma DepartmentRolesAreExclusive(g: RouteGroup)
    ensures CanAccess(g, Some(STAFF_HOTEL)) <==> g == ReservacionesGroup
    ensures CanAccess(g, Some(STAFF_RESTAURANTE)) <==> g == OrdenesGroup
    ensures CanAccess(g, Some(CONTADOR)) <==> g == ReportesGroup
  {
  }

  /** Any role other than the four markers is refused by every group. */
  lemma OtherRolesRefused(g: RouteGroup, name: string)
    requires name !in {ADMIN, STAFF_HOTEL, STAFF_RESTAURANTE, CONTADOR}
    ensures !CanAccess(g, Some(name))
  {
  }
}
