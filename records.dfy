/** The application's records: tickets and their line items, expenses, users and
    permissions, inventory items. Money is in whole pesos; dates are local date-times as
    in module Calendar. */
module Records {
  import opened Seqs

  datatype PaymentMethod = Cash | Debit | MercadoPago | CuentaDni

  /** The six wash-care preferences of a ticket, in the order the ticket object lists them. */
  datatype LaundryOptions = LaundryOptions(
    separateByColor: bool,
    delicateDry: bool,
    stainRemoval: bool,
    bleach: bool,
    noFragrance: bool,
    noDry: bool)

  /** A dry-cleaning line: a named service with its unit price and quantity. */
  datatype DryCleaningItem = DryCleaningItem(name: string, price: int, quantity: int)

  /** A wash ticket (the `Customer` record the storage layer keeps). */
  datatype Ticket = Ticket(
    name: string,
    phone: string,
    ticketNumber: Option<string>,
    valetQuantity: int,
    laundryOptions: LaundryOptions,
    paymentMethod: Option<PaymentMethod>,
    total: int,
    date: int,
    dryCleaningItems: Option<seq<DryCleaningItem>>)

  /** The tickets of one client, who is known by phone number. */
  function HasPhone(phone: string): Ticket -> bool
  {
    (t: Ticket) => t.phone == phone
  }

  datatype Expense = Expense(description: string, amount: int, date: int)

  datatype Permission =
    | TicketsView | TicketsCreate | TicketsEdit | MetricsView
    | InventoryView | InventoryEdit | OrdersView | UsersManage

  /** Every permission, in the order the application lists them. */
  const AllPermissions: seq<Permission> :=
    [TicketsView, TicketsCreate, TicketsEdit, MetricsView, InventoryView, InventoryEdit, OrdersView, UsersManage]

  /** The list holds each of the eight permissions exactly once. */
  lemma {:induction false} AllPermissionsComplete(p: Permission)
    ensures p in AllPermissions && |AllPermissions| == 8
    ensures forall i, j :: 0 <= i < j < |AllPermissions| ==> AllPermissions[i] != AllPermissions[j]
  {
    match p
    case TicketsView => assert AllPermissions[0] == p;
    case TicketsCreate => assert AllPermissions[1] == p;
    case TicketsEdit => assert AllPermissions[2] == p;
    case MetricsView => assert AllPermissions[3] == p;
    case InventoryView => assert AllPermissions[4] == p;
    case InventoryEdit => assert AllPermissions[5] == p;
    case OrdersView => assert AllPermissions[6] == p;
    case UsersManage => assert AllPermissions[7] == p;
  }

  datatype Role = Admin | Staff

  datatype User = User(id: string, username: string, password: string, role: Role, permissions: seq<Permission>)

  datatype InventoryItem = InventoryItem(id: string, name: string, quantity: int, minQuantity: int, unit: string, lastUpdated: int)
}
