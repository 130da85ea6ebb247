// The request handlers of views.py that hold logic: the role gate in front
// of the instrument editing views, and the movement form's stock check
// that runs before a movement is saved.

module Views {
  import opened Models
  import opened Ledger

  // ---------------------------------------------------------------------
  // Access gate
  // ---------------------------------------------------------------------

  /** The user attached to a request: nobody logged in, or an account. */
  datatype RequestUser = Anonymous | Authenticated(account: Account)

  /** RoleRequiredMixin.test_func: a logged-in user passes when their role is
      one of the view's allowed roles or when they are a superuser. */
  function TestFunc(user: RequestUser, allowedRoles: seq<Role>): (r: bool)
    ensures r <==>
      && user.Authenticated?
      && (user.account.isSuperuser
          || exists k :: 0 <= k < |allowedRoles| && allowedRoles[k] == user.account.role)
    ensures user.Anonymous? ==> !r
  {
    user.Authenticated? && (user.account.role in allowedRoles || user.account.isSuperuser)
  }

  /** The role-gated views of the instrument catalogue. */
  datatype InstrumentView = InstrumentCreate | InstrumentUpdate | InstrumentDelete

  /** allowed_roles of each instrument view. */
  function AllowedRoles(v: InstrumentView): seq<Role> {
    match v
    case InstrumentCreate => [Admin, Gerente]
    case InstrumentUpdate => [Admin, Gerente]
    case InstrumentDelete => [Admin, Gerente]
  }

  /** Creating, editing and deleting instruments is open to administrators,
      managers and superusers, and to nobody else. */
  lemma InstrumentViewGate(v: InstrumentView, user: RequestUser)
    ensures TestFunc(user, AllowedRoles(v)) <==>
      && user.Authenticated?
      && (user.account.role == Admin || user.account.role == Gerente || user.account.isSuperuser)
  {
    var roles := AllowedRoles(v);
    assert roles[0] == Admin && roles[1] == Gerente;
  }

  /** The movement and maintenance create views only ask for a login. */
  predicate MovementCreatePermits(user: RequestUser) {
    user.Authenticated?
  }

  /** The login-only gate is the role gate with every role allowed. */
  lemma LoginGateAllowsEveryRole(user: RequestUser)
    ensures MovementCreatePermits(user) <==> TestFunc(user, [Admin, Gerente, Vendedor, Caixa])
  {
    if user.Authenticated? {
      var roles := [Admin, Gerente, Vendedor, Caixa];
      match user.account.role
      case Admin => assert roles[0] == Admin;
      case Gerente => assert roles[1] == Gerente;
      case Vendedor => assert roles[2] == Vendedor;
      case Caixa => assert roles[3] == Caixa;
    }
  }

  /** The asymmetry between the two gates: a salesperson or cashier who is not
      a superuser may record stock movements but may not edit instruments. */
  lemma StaffRecordsButCannotEdit(v: InstrumentView, a: Account)
    requires a.role == Vendedor || a.role == Caixa
    requires !a.isSuperuser
    ensures MovementCreatePermits(Authenticated(a))
    ensures !TestFunc(Authenticated(a), AllowedRoles(v))
  {
    InstrumentViewGate(v, Authenticated(a));
  }

  // ---------------------------------------------------------------------
  // Movement form
  // ---------------------------------------------------------------------

  /** The stock check of the movement form: an outbound movement may not take
      more than the instrument has; other kinds are not checked. */
  predicate Admissible(s: Stock, m: Movement)
    requires m.instrument in s
  {
    !(m.kind == Saida && m.quantity > s[m.instrument])
  }

  /** Stock after one movement submitted through the form: refused
      submissions change nothing, accepted ones are created. */
  function Submit(s: Stock, m: Movement): (r: Stock)
    requires m.instrument in s
    ensures r.Keys == s.Keys
    ensures NonNegative(s) ==> NonNegative(r)
    ensures !Admissible(s, m) ==> r == s
  {
    if Admissible(s, m) then ApplyCreate(s, m) else s
  }

  predicate InstrumentsExist(s: Stock, ms: seq<Movement>) {
    forall k :: 0 <= k < |ms| ==> ms[k].instrument in s
  }

  /** Stock after a sequence of form submissions, one after another. */
  function SubmitAll(s: Stock, ms: seq<Movement>): (r: Stock)
    requires InstrumentsExist(s, ms)
    ensures r.Keys == s.Keys
    decreases |ms|
  {
    if ms == [] then s else SubmitAll(Submit(s, ms[0]), ms[1..])
  }

  /** No sequence of movements recorded through the form can drive any
      instrument's quantity below zero. */
  lemma {:induction false} SubmissionsKeepNonNegative(s: Stock, ms: seq<Movement>)
    requires InstrumentsExist(s, ms)
    requires NonNegative(s)
    ensures NonNegative(SubmitAll(s, ms))
    decreases |ms|
  {
    if ms != [] {
      SubmissionsKeepNonNegative(Submit(s, ms[0]), ms[1..]);
    }
  }

  /** What the create view answers: the form shown again with an error on
      the named field, a redirect after the movement was saved, or the
      save's own failure. */
  datatype FormResponse = Rerender(field: string) | Redirect(pk: MovementId) | SaveFailed(error: SaveError)

  /** MovimentacaoCreateView.form_valid. The form has already checked the
      fields, so the chosen instrument exists. The logged-in user is
      recorded on the movement; an outbound movement larger than the stock
      is refused before anything is written; otherwise the movement is
      created, which applies its effect. */
  method FormValid(inv: Inventory, m: Movement, user: Account) returns (resp: FormResponse)
    requires inv.Valid()
    requires m.instrument in inv.stock
    modifies inv
    ensures inv.Valid()
    ensures !resp.SaveFailed?
    ensures resp.Rerender? <==> !Admissible(old(inv.stock), m)
    ensures inv.stock == Submit(old(inv.stock), m)
    ensures resp.Rerender? ==>
      && resp.field == "quantidade"
      && inv.movements == old(inv.movements) && inv.nextId == old(inv.nextId)
      && inv.applied == old(inv.applied)
    ensures resp.Redirect? ==>
      var recorded := m.(recordedBy := Some(user.id));
      && resp.pk == old(inv.nextId) && inv.nextId == old(inv.nextId) + 1
      && inv.movements == old(inv.movements)[resp.pk := recorded]
      && inv.applied == old(inv.applied) + [recorded]
  {
    var recorded := m.(recordedBy := Some(user.id));
    if recorded.kind == Saida && recorded.quantity > inv.stock[recorded.instrument] {
      return Rerender("quantidade");
    }
    var r := inv.Save(recorded, None);
    match r
    case Saved(pk) => resp := Redirect(pk);
    case Failed(e) => resp := SaveFailed(e);
  }

  /** A guitar that starts at 10 units: 5 come in, a sale of 20 is refused,
      a sale of 15 empties the shelf. */
  method GuitarScenario(seller: Account) {
    var guitar: InstrumentId := 1;
    var inv := new Inventory(map[guitar := 10]);
    var r := FormValid(inv, Movement(Entrada, 5, guitar, None, None, None), seller);
    assert inv.stock[guitar] == 15;
    r := FormValid(inv, Movement(Saida, 20, guitar, None, None, None), seller);
    assert r.Rerender? && inv.stock[guitar] == 15;
    r := FormValid(inv, Movement(Saida, 15, guitar, None, None, None), seller);
    assert r.Redirect? && inv.stock[guitar] == 0;
  }
}
