// Who is asking.

module Users {
  import opened Wrappers

  datatype Role = Superadmin | Tenant | Customer

  datatype User = User(id: int, role: Role, tenantID: Option<int>)
}
