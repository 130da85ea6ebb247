# Instrument shop stock ledger, in Dafny

A model of the logic in the "loja" app of a small Django backend for a
musical-instrument shop. The shop keeps instruments (with a quantity on
hand), stock movements (`entrada` inbound, `saida` outbound, `manutencao`
maintenance), maintenance work orders and user accounts with a role. The
model covers the three pieces of real logic in the app:

- **The stock-movement ledger** (`Movimentacao.save`). Creating a movement
  changes its instrument's quantity: inbound adds, outbound subtracts,
  maintenance leaves it alone. Saving an existing movement again rewrites
  the row and never touches stock. `Ledger.Inventory` holds the instrument
  quantities and the movement rows and updates them in place. A pure rule,
  `Ledger.ApplyCreate`, states the effect on a map from instrument id to
  quantity. A ghost history of applied movements gives the conservation law:
  quantity = starting quantity + inbound − outbound.
- **The movement form's guard and the role gate** (`MovimentacaoCreateView.form_valid`,
  `RoleRequiredMixin.test_func`). An outbound movement larger than the
  stock is refused before anything is written. The model proves that any
  sequence of movements recorded through the form keeps every quantity
  non-negative, and that the save's own failure path is then unreachable.
  Instrument create, update and delete are open to `admin` and `gerente`
  and to superusers. Recording a movement only needs a login.
- **The dashboard** (`DashboardView.get_context_data`): item count, units in
  stock, stock value, open maintenance orders, and the ten best sellers by
  outbound quantity.

Files: `models.dfy` (module `Models`: choice fields and records),
`ledger.dfy` (module `Ledger`), `views.dfy` (module `Views`: gate and form),
`dashboard.dfy` (module `Dashboard`).

Modelling decisions:

- Money is integer cents. Prices have no lower bound in the code (a
  `DecimalField` with no validator), so the stock value is proved
  non-negative only when every price is.
- The save writes the movement row first and the instrument second, with no
  transaction. An instrument quantity column is a positive-integer column,
  which the database refuses to set below zero. So a creation that would
  drive a quantity negative leaves the movement row written, leaves the
  quantity unchanged and fails (`SaveError.QuantityWouldBeNegative`). The
  form's guard makes this path unreachable (`Views.FormValid` ensures
  `!resp.SaveFailed?`).
- A movement whose instrument does not exist is refused by the foreign key
  and writes nothing.
- Saving a movement with a primary key that has no row inserts it under that
  key (Django's update-or-insert). As a modelling choice, the model's row-id
  counter then moves past that key. Whether a real id sequence advances
  depends on the database; PostgreSQL's, for one, does not.
- Roles are the `Role` enumeration rather than free strings. `ParseRole` and
  `RoleCode` are mutually inverse (`ParseRole`'s contract and
  `RoleCodeParses`), so comparing codes and comparing roles agree. The same
  holds for the other three choice fields.
- Movement quantity is a non-negative integer: the `PositiveIntegerField`
  column accepts 0 (models.py:73), so a movement of 0 units is allowed.
- Superusers pass the role gate through the separate `is_superuser` flag
  (views.py:14), which `TestFunc` models; there is no superuser role.

## Model

| member | source | states |
|---|---|---|
| Models.ParseRole | models.py:11-17 | a stored role code parses to the role whose code it is, and any other string is rejected |
| Models.ParseCategory | models.py:35-43 | a category code parses to the category whose code it is, and any other string is rejected |
| Models.ParseMovementType | models.py:66-71 | `entrada`/`saida`/`manutencao` parse to their movement kind, and any other string is rejected |
| Models.ParseStatus | models.py:106-117 | the four status codes parse to their status, and any other string is rejected |
| Models.RoleCodeParses | models.py:11-17 | every role's stored code parses back to that role |
| Models.CategoryCodeParses | models.py:35-43 | every category's stored code parses back to that category |
| Models.MovementTypeCodeParses | models.py:66-71 | every movement kind's stored code parses back to that kind |
| Models.StatusCodeParses | models.py:106-117 | every status's stored code parses back to that status |
| Models.NewAccount | models.py:17 | a new account's role defaults to `vendedor` |
| Models.NewInstrument | models.py:42-46 | a new instrument's quantity defaults to 0; the other fields are as given |
| Models.NewMaintenanceOrder | models.py:112-123 | a new work order starts `pendente` with service value 0 and no optional links |
| Ledger.ApplyCreate | models.py:92-98 | creating a movement changes only its own instrument's quantity and keeps the set of instruments |
| Ledger.ReplayIsNetFlow | models.py:92-97 | after any history of creations, an instrument's quantity is its starting quantity plus inbound minus outbound of that instrument |
| Ledger.ReplayAppend | models.py:92-97 | applying two histories in turn is applying their concatenation |
| Ledger.EntradaThenSaidaRestores | models.py:93-96 | an outbound movement of the quantity an inbound one added restores the stock exactly |
| Ledger.Inventory.constructor | models.py:45 | an inventory opens with the given non-negative quantities and no movements |
| Ledger.Inventory.Save | models.py:78-98 | unknown instrument: nothing written. Update: the row is rewritten, the row-id counter moves past its key if needed, and no quantity changes (the fetched previous row has no effect). Create: a fresh row, then entrada adds q, saida subtracts q, manutencao changes nothing; a negative result is refused with the row kept. Other instruments never change, and the quantities stay non-negative and equal to the replay of the applied history |
| Views.TestFunc | views.py:12-14 | true iff the user is logged in and (their role is among the allowed roles or they are a superuser); anonymous users always fail |
| Views.InstrumentViewGate | views.py:42-60 | instrument create, update and delete pass exactly for logged-in admins, managers and superusers |
| Views.LoginGateAllowsEveryRole | views.py:69 | the movement create view's login-only gate equals the role gate with every role allowed |
| Views.StaffRecordsButCannotEdit | views.py:42-75 | a non-superuser salesperson or cashier may record movements but may not create, edit or delete instruments |
| Views.Submit | views.py:79-84 | one form submission keeps the set of instruments, keeps quantities non-negative, and a refused outbound submission changes nothing |
| Views.SubmitAll | views.py:79-84 | a sequence of submissions keeps the set of instruments |
| Views.SubmissionsKeepNonNegative | views.py:79-84 | any sequence of movements recorded through the form keeps every quantity at or above zero |
| Views.FormValid | views.py:75-84 | refused (re-rendered with an error on `quantidade`) iff outbound and larger than the stock, writing nothing. Otherwise the movement is created under the next id, which the counter then moves past, with the logged-in user recorded, the stock becomes the form rule's result, and the save never fails |
| Dashboard.TotalStock | views.py:24 | `total_estoque` is 0 exactly when every quantity is 0 (so 0 for no instruments) and is at least each instrument's quantity |
| Dashboard.TotalStockUpdate | views.py:24 | changing one instrument's quantity changes `total_estoque` by exactly the difference |
| Dashboard.StockValue | views.py:25 | `valor_estoque` is 0 when no instrument has stock (so 0 for no instruments) and non-negative when all prices are |
| Dashboard.StockValueUpdate | views.py:25 | changing one instrument's quantity changes `valor_estoque` by the difference times its price |
| Dashboard.PendingMaintenance | views.py:26 | `manutencoes_pendentes` is at most the number of orders; it is 0 iff no order is pending or in progress, and equals the number of orders iff all are (so one order counts 1 exactly when it is open) |
| Dashboard.PendingMaintenanceAppend | views.py:26 | the count of a concatenation is the sum of the counts; with the one-order case, the count is exactly the number of `pendente`/`em_progresso` orders |
| Dashboard.PendingMaintenanceUpdate | views.py:26 | changing one order's status changes the count by −1 if it was open and +1 if it is now open |
| Dashboard.SaleIds | views.py:29-31 | the groups of the ranking are exactly the instruments with an outbound movement, each once |
| Dashboard.NoSaleNoTotal | views.py:29-31 | an instrument without outbound movements has an outbound total of 0 |
| Dashboard.SoldTotalSnoc | views.py:29-31 | recording a movement adds its quantity to its instrument's outbound total when it is a sale and changes no total otherwise |
| Dashboard.TopSold | views.py:29-33 | `top_vendidos` has at most 10 entries, one per instrument, each an instrument with a sale and its outbound total, in non-increasing order of total. No unlisted instrument with a sale sold more than a listed one, and with fewer than 10 entries every such instrument is listed |
| Dashboard.GetContextData | views.py:20-34 | the item count is the number of instruments, the stock figures are 0 for no instruments, open orders are at most all orders, and at most 10 best sellers are listed |

## Left out

- forms.py and admin.py: field lists and admin display settings, with no logic beyond the framework's own validation.
- The list views, the instrument create/update forms themselves, `ManutencaoCreateView` and the `_handle_form` / `_handle_delete` helpers: request, redirect, render and pagination plumbing.
- Editing an instrument's quantity directly through the instrument form, and adding or deleting instruments: the ledger's set of instruments is fixed when an `Inventory` is opened.
- Delete semantics of the foreign keys (PROTECT, SET_NULL, CASCADE): these belong to the database.
- Timestamps (`data`, `created_at`, `updated_at`) and the `__str__` methods: clock and presentation.
- The read-modify-write race between concurrent movements on one instrument: movements are modelled as strictly sequential.
- The upper bound of the quantity column: it depends on the database backend, so quantities are unbounded here.
- The instrument name column of `top_vendidos`: the name is determined by the instrument id, so a ranking entry holds the id and the total.
- Dashboard.TopSold: the order among instruments with equal totals is left unspecified, because the query imposes none.
