/**
 * Users, the nine permissions and the fixed permission set of each role.
 */
module UserTypes {
  import opened Wrappers

  datatype Permission = Permission(id: string, name: string, description: string)

  datatype Role = Admin | Manager | Operator | CustomerRole

  datatype User = User(
    id: string,
    username: string,
    password: string,
    role: Role,
    permissions: seq<Permission>,
    createdAt: string,
    lastLogin: Option<string>,
    isActive: bool)

  /** No two accounts share an id. */
  predicate UniqueUserIds(users: seq<User>) {
    forall i, j :: 0 <= i < j < |users| ==> users[i].id != users[j].id
  }

  const CustomerManagement := Permission("customer_management", "客户管理", "管理客户信息")
  const TruckManagement := Permission("truck_management", "货车管理", "管理货车信息")
  const AccountManagement := Permission("account_management", "账户管理", "管理用户账户")
  const EmergencyShipment := Permission("emergency_shipment", "紧急送出", "使用紧急送出功能")
  const WarehouseAccess := Permission("warehouse_access", "仓库访问", "访问仓库页面")
  const InputCargo := Permission("input_cargo", "录入货物", "录入货物信息")
  const ViewHistory := Permission("view_history", "查看历史", "查看历史记录")
  const ViewTrucks := Permission("view_trucks", "查看装车", "查看装车详情")
  const HomeAccess := Permission("home_access", "首页访问", "访问首页")

  /** `Object.values(PERMISSIONS)`: all nine permissions in declaration order. */
  const AllPermissions: seq<Permission> := [
    CustomerManagement, TruckManagement, AccountManagement, EmergencyShipment,
    WarehouseAccess, InputCargo, ViewHistory, ViewTrucks, HomeAccess]

  /** The permission list granted to each role. */
  function RolePermissions(role: Role): (r: seq<Permission>)
    ensures forall p :: p in r ==> p in AllPermissions
    ensures HomeAccess in r && InputCargo in r
  {
    match role
    case Admin => AllPermissions
    case Manager => [CustomerManagement, TruckManagement, EmergencyShipment, WarehouseAccess,
                     InputCargo, ViewHistory, ViewTrucks, HomeAccess]
    case Operator => [EmergencyShipment, TruckManagement, WarehouseAccess, InputCargo,
                      ViewHistory, ViewTrucks, HomeAccess]
    case CustomerRole => [InputCargo, HomeAccess]
  }

  /** The ids of a permission list. */
  function Ids(ps: seq<Permission>): (r: set<string>)
    ensures forall p :: p in ps ==> p.id in r
    ensures forall id :: id in r ==> exists p :: p in ps && p.id == id
  {
    if ps == [] then {} else {ps[0].id} + Ids(ps[1..])
  }

  /** The nine permissions have nine distinct ids. */
  lemma PermissionIdsDistinct()
    ensures forall i, j :: 0 <= i < j < |AllPermissions| ==> AllPermissions[i].id != AllPermissions[j].id
    ensures |AllPermissions| == 9
  {
  }

  /** The admin role holds every permission; the manager role holds every one but account management. */
  lemma AdminAndManagerPermissions()
    ensures (set p | p in RolePermissions(Admin)) == (set p | p in AllPermissions)
    ensures (set p | p in RolePermissions(Manager)) == (set p | p in AllPermissions) - {AccountManagement}
  {
  }

  /** Customer permissions are operator permissions, and operator permissions are manager permissions. */
  lemma RolesNested()
    ensures forall p :: p in RolePermissions(CustomerRole) ==> p in RolePermissions(Operator)
    ensures forall p :: p in RolePermissions(Operator) ==> p in RolePermissions(Manager)
    ensures forall p :: p in RolePermissions(Manager) ==> p in RolePermissions(Admin)
  {
  }

  /** Only the admin role holds account management, by permission or by id. */
  lemma OnlyAdminManagesAccounts(role: Role)
    ensures AccountManagement in RolePermissions(role) <==> role == Admin
    ensures AccountManagement.id in Ids(RolePermissions(role)) <==> role == Admin
  {
    if role != Admin {
      var ps := RolePermissions(role);
      forall p | p in ps ensures p.id != AccountManagement.id {
      }
    }
  }

  /** The name shown for each role. */
  function GetRoleDisplayName(role: Role): (name: string)
    ensures name != ""
  {
    match role
    case Admin => "超级管理员"
    case Manager => "管理员"
    case Operator => "操作员"
    case CustomerRole => "客户"
  }

  /** Each role is shown under its own name. */
  lemma RoleDisplayNamesDistinct(r1: Role, r2: Role)
    ensures GetRoleDisplayName(r1) == GetRoleDisplayName(r2) <==> r1 == r2
  {
  }
}
