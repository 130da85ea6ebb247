// The shop's data model (app "loja", models.py): the enumerated choice
// fields with the codes the database stores, and the records the stock
// ledger, the access gate and the dashboard work on.

module Models {

  datatype Option<T> = None | Some(value: T)

  /** Primary keys of the stored records. */
  type InstrumentId = nat
  type MovementId = nat
  type AccountId = nat
  type SupplierId = nat
  type CustomerId = nat

  // ---------------------------------------------------------------------
  // Choice fields. Each is stored as its code string; Parse is the inverse
  // of Code and rejects every string that is not one of the choices.
  // ---------------------------------------------------------------------

  /** Usuario.funcao */
  datatype Role = Admin | Gerente | Vendedor | Caixa

  function RoleCode(r: Role): string {
    match r
    case Admin => "admin"
    case Gerente => "gerente"
    case Vendedor => "vendedor"
    case Caixa => "caixa"
  }

  function ParseRole(s: string): (r: Option<Role>)
    ensures r.Some? ==> RoleCode(r.value) == s
    ensures r.None? ==> forall x: Role :: RoleCode(x) != s
  {
    if s == "admin" then Some(Admin)
    else if s == "gerente" then Some(Gerente)
    else if s == "vendedor" then Some(Vendedor)
    else if s == "caixa" then Some(Caixa)
    else None
  }

  /** Every role's code parses back to that role. */
  lemma RoleCodeParses(x: Role)
    ensures ParseRole(RoleCode(x)) == Some(x)
  {
    match x
    case Admin =>
    case Gerente =>
    case Vendedor =>
    case Caixa =>
  }

  /** Role a new account gets when none is chosen. */
  const DefaultRole: Role := Vendedor

  /** Instrumento.categoria */
  datatype Category = Cordas | Sopro | Percussao | Teclados | Acessorios

  function CategoryCode(c: Category): string {
    match c
    case Cordas => "cordas"
    case Sopro => "sopro"
    case Percussao => "percussao"
    case Teclados => "teclados"
    case Acessorios => "acessorios"
  }

  function ParseCategory(s: string): (r: Option<Category>)
    ensures r.Some? ==> CategoryCode(r.value) == s
    ensures r.None? ==> forall x: Category :: CategoryCode(x) != s
  {
    if s == "cordas" then Some(Cordas)
    else if s == "sopro" then Some(Sopro)
    else if s == "percussao" then Some(Percussao)
    else if s == "teclados" then Some(Teclados)
    else if s == "acessorios" then Some(Acessorios)
    else None
  }

  /** Every category's code parses back to that category. */
  lemma CategoryCodeParses(x: Category)
    ensures ParseCategory(CategoryCode(x)) == Some(x)
  {
    match x
    case Cordas =>
    case Sopro =>
    case Percussao =>
    case Teclados =>
    case Acessorios =>
  }

  /** Movimentacao.tipo: inbound, outbound (a sale) or maintenance. */
  datatype MovementType = Entrada | Saida | Manutencao

  function MovementTypeCode(t: MovementType): string {
    match t
    case Entrada => "entrada"
    case Saida => "saida"
    case Manutencao => "manutencao"
  }

  function ParseMovementType(s: string): (r: Option<MovementType>)
    ensures r.Some? ==> MovementTypeCode(r.value) == s
    ensures r.None? ==> forall x: MovementType :: MovementTypeCode(x) != s
  {
    if s == "entrada" then Some(Entrada)
    else if s == "saida" then Some(Saida)
    else if s == "manutencao" then Some(Manutencao)
    else None
  }

  /** Every movement kind's code parses back to that kind. */
  lemma MovementTypeCodeParses(x: MovementType)
    ensures ParseMovementType(MovementTypeCode(x)) == Some(x)
  {
    match x
    case Entrada =>
    case Saida =>
    case Manutencao =>
  }

  /** Manutencao.status */
  datatype MaintenanceStatus = Pendente | EmProgresso | Concluida | Cancelada

  function StatusCode(st: MaintenanceStatus): string {
    match st
    case Pendente => "pendente"
    case EmProgresso => "em_progresso"
    case Concluida => "concluida"
    case Cancelada => "cancelada"
  }

  function ParseStatus(s: string): (r: Option<MaintenanceStatus>)
    ensures r.Some? ==> StatusCode(r.value) == s
    ensures r.None? ==> forall x: MaintenanceStatus :: StatusCode(x) != s
  {
    if s == "pendente" then Some(Pendente)
    else if s == "em_progresso" then Some(EmProgresso)
    else if s == "concluida" then Some(Concluida)
    else if s == "cancelada" then Some(Cancelada)
    else None
  }

  /** Every status's code parses back to that status. */
  lemma StatusCodeParses(x: MaintenanceStatus)
    ensures ParseStatus(StatusCode(x)) == Some(x)
  {
    match x
    case Pendente =>
    case EmProgresso =>
    case Concluida =>
    case Cancelada =>
  }

  // ---------------------------------------------------------------------
  // Records. Decimal money fields are integer cents; timestamps and the
  // free-text fields that no rule reads are not modelled.
  // ---------------------------------------------------------------------

  /** A user account (Usuario): its role and the superuser flag. */
  datatype Account = Account(id: AccountId, role: Role, isSuperuser: bool)

  /** An inventory item (Instrumento). The quantity is a non-negative integer column. */
  datatype Instrument = Instrument(
    id: InstrumentId,
    name: string,
    category: Category,
    priceCents: int,
    quantity: nat,
    supplier: Option<SupplierId>)

  /** A stock movement (Movimentacao). */
  datatype Movement = Movement(
    kind: MovementType,
    quantity: nat,
    instrument: InstrumentId,
    recordedBy: Option<AccountId>,
    customer: Option<CustomerId>,
    note: Option<string>)

  /** A maintenance work order (Manutencao). */
  datatype MaintenanceOrder = MaintenanceOrder(
    instrument: InstrumentId,
    movement: Option<MovementId>,
    description: string,
    technician: Option<string>,
    status: MaintenanceStatus,
    customer: Option<CustomerId>,
    recordedBy: Option<AccountId>,
    serviceValueCents: int)

  /** A new account whose role was left at the field's default. */
  function NewAccount(id: AccountId): (a: Account)
    ensures a.id == id && a.role == Vendedor && !a.isSuperuser
  {
    Account(id, DefaultRole, false)
  }

  /** A new instrument whose quantity was left at the field's default. */
  function NewInstrument(id: InstrumentId, name: string, category: Category,
                         priceCents: int, supplier: Option<SupplierId>): (i: Instrument)
    ensures i.quantity == 0
    ensures i.id == id && i.name == name && i.category == category
    ensures i.priceCents == priceCents && i.supplier == supplier
  {
    Instrument(id, name, category, priceCents, 0, supplier)
  }

  /** A new maintenance order whose status and service value were left at their defaults. */
  function NewMaintenanceOrder(instrument: InstrumentId, description: string): (o: MaintenanceOrder)
    ensures o.status == Pendente && StatusCode(o.status) == "pendente"
    ensures o.serviceValueCents == 0
    ensures o.instrument == instrument && o.description == description
    ensures o.movement.None? && o.technician.None? && o.customer.None? && o.recordedBy.None?
  {
    MaintenanceOrder(instrument, None, description, None, Pendente, None, None, 0)
  }
}
