/** The HTTP back end of script.js: three module-level arrays extended in place
    by the POST routes, role authorisation, the per-route validation with its
    fixed precedence, the GET listings and the `/dashboard` sums. Responses are
    values (`Ok`, `BadRequest` for 400, `Forbidden` for 403), not HTTP. */
module Server {
  import opened Seqs
  import opened Ledger

  /** `req.user`: the role and home base from the users table; the base is
      `null` for the Admin and the Logistics Officer there. */
  datatype User = User(role: Role, base: Option<Base>)

  datatype Response<T> = Ok(value: T) | BadRequest | Forbidden

  /** Request bodies. A field that is missing, `null` or `""` is `None`; a
      `quantity` of 0 stands for a missing one too, as `!quantity` treats both alike. */
  datatype PurchaseBody = PurchaseBody(base: Option<Base>, kind: Option<Equipment>, quantity: int, date: Option<Date>)
  datatype TransferBody = TransferBody(fromBase: Option<Base>, toBase: Option<Base>, kind: Option<Equipment>,
                                       quantity: int, date: Option<Date>)
  datatype AssignmentBody = AssignmentBody(base: Option<Base>, kind: Option<Equipment>, quantity: int, date: Option<Date>,
                                           personnel: Option<string>, status: Option<string>)

  /** The role lists handed to `authorize` by the routes. */
  const AllRoles: seq<Role> := [Admin, BaseCommander, LogisticsOfficer]
  const CommandRoles: seq<Role> := [Admin, BaseCommander]

  /** `authorize(allowedRoles)`: `includes` finds the caller's role at some
      position of the list, or the request is refused with 403. */
  predicate Authorize(allowed: seq<Role>, u: User)
    ensures Authorize(allowed, u) <==> exists i :: 0 <= i < |allowed| && allowed[i] == u.role
  {
    u.role in allowed
  }

  /** Every role may reach the routes that list all three roles; the Logistics
      Officer alone is kept out of the routes that list Admin and Base Commander. */
  lemma AuthorizeRoutes(u: User)
    ensures Authorize(AllRoles, u)
    ensures Authorize(CommandRoles, u) <==> u.role != LogisticsOfficer
  {
    match u.role
    case Admin => assert AllRoles[0] == Admin && CommandRoles[0] == Admin;
    case BaseCommander => assert AllRoles[1] == BaseCommander && CommandRoles[1] == BaseCommander;
    case LogisticsOfficer => assert AllRoles[2] == LogisticsOfficer;
  }

  /** Each array starts with one placeholder number that is not a record, so
      the first record stored in it gets id 2. */
  const Placeholders: nat := 1

  // ---------------------------------------------------------------------------
  // POST outcomes, as functions of the caller, the body and the array length

  predicate PurchaseComplete(b: PurchaseBody) {
    b.base.Some? && b.kind.Some? && b.quantity != 0 && b.date.Some?
  }

  predicate TransferComplete(b: TransferBody) {
    b.fromBase.Some? && b.toBase.Some? && b.kind.Some? && b.quantity != 0 && b.date.Some?
  }

  predicate AssignmentComplete(b: AssignmentBody) {
    b.base.Some? && b.kind.Some? && b.quantity != 0 && b.date.Some? && b.status.Some?
  }

  /** POST /purchases, for an array whose `length` is `length`. */
  function PurchaseOutcome(u: User, b: PurchaseBody, length: nat): (r: Response<Purchase>)
    ensures r.BadRequest? <==> !PurchaseComplete(b)
    ensures r.Forbidden? <==> PurchaseComplete(b) && u.role == BaseCommander && u.base != b.base
    ensures r.Ok? ==> r.value == Purchase(length + 1, b.date.value, b.base.value, b.kind.value, b.quantity)
  {
    AuthorizeRoutes(u);
    if !Authorize(AllRoles, u) then Forbidden
    else if !PurchaseComplete(b) then BadRequest
    else if u.role == BaseCommander && u.base != b.base then Forbidden
    else Ok(Purchase(length + 1, b.date.value, b.base.value, b.kind.value, b.quantity))
  }

  /** POST /transfers. A Base Commander may only send from their own base;
      nothing compares `fromBase` with `toBase`. */
  function TransferOutcome(u: User, b: TransferBody, length: nat): (r: Response<Transfer>)
    ensures u.role == LogisticsOfficer ==> r.Forbidden?
    ensures r.BadRequest? <==> u.role != LogisticsOfficer && !TransferComplete(b)
    ensures r.Ok? <==> u.role != LogisticsOfficer && TransferComplete(b) && (u.role == BaseCommander ==> u.base == b.fromBase)
    ensures r.Ok? ==> r.value == Transfer(length + 1, b.date.value, b.fromBase.value, b.toBase.value, b.kind.value, b.quantity)
  {
    AuthorizeRoutes(u);
    if !Authorize(CommandRoles, u) then Forbidden
    else if !TransferComplete(b) then BadRequest
    else if u.role == BaseCommander && u.base != b.fromBase then Forbidden
    else Ok(Transfer(length + 1, b.date.value, b.fromBase.value, b.toBase.value, b.kind.value, b.quantity))
  }

  /** POST /assignments. The personnel check (400) runs before the base
      ownership check (403); absent personnel is stored as `null`. */
  function AssignmentOutcome(u: User, b: AssignmentBody, length: nat): (r: Response<Assignment>)
    ensures u.role == LogisticsOfficer ==> r.Forbidden?
    ensures r.BadRequest? <==> u.role != LogisticsOfficer &&
                               (!AssignmentComplete(b) || (b.status == Some(Assigned) && b.personnel.None?))
    ensures r.Ok? <==> u.role != LogisticsOfficer && AssignmentComplete(b) &&
                       (b.status == Some(Assigned) ==> b.personnel.Some?) && (u.role == BaseCommander ==> u.base == b.base)
    ensures r.Ok? ==> r.value == Assignment(length + 1, b.date.value, b.base.value, b.kind.value, b.quantity,
                                            b.personnel, b.status.value)
  {
    AuthorizeRoutes(u);
    if !Authorize(CommandRoles, u) then Forbidden
    else if !AssignmentComplete(b) then BadRequest
    else if b.status == Some(Assigned) && b.personnel.None? then BadRequest
    else if u.role == BaseCommander && u.base != b.base then Forbidden
    else Ok(Assignment(length + 1, b.date.value, b.base.value, b.kind.value, b.quantity, b.personnel, b.status.value))
  }

  /** The checks run in a fixed order: a Logistics Officer is refused a transfer
      or assignment before any field is looked at, and a Base Commander of
      another base gets 400, not 403, for an incomplete body or for an
      assignment without personnel. */
  lemma ValidationPrecedence(u: User, pb: PurchaseBody, tb: TransferBody, ab: AssignmentBody, n: nat)
    ensures u.role == LogisticsOfficer ==> TransferOutcome(u, tb, n) == Forbidden && AssignmentOutcome(u, ab, n) == Forbidden
    ensures !PurchaseComplete(pb) ==> PurchaseOutcome(u, pb, n) == BadRequest
    ensures u.role != LogisticsOfficer && !TransferComplete(tb) ==> TransferOutcome(u, tb, n) == BadRequest
    ensures u.role != LogisticsOfficer && ab.status == Some(Assigned) && ab.personnel.None? ==>
              AssignmentOutcome(u, ab, n) == BadRequest
  {
  }

  /** Unlike the browser form, the server stores a transfer whose two bases are
      the same when an Admin (or the commander of that base) sends one. */
  lemma SameBaseTransferAccepted(u: User, b: TransferBody, n: nat)
    requires TransferComplete(b) && b.fromBase == b.toBase
    requires u.role == Admin || (u.role == BaseCommander && u.base == b.fromBase)
    ensures TransferOutcome(u, b, n).Ok?
    ensures TransferOutcome(u, b, n).value.fromBase == TransferOutcome(u, b, n).value.toBase
  {
  }

  // ---------------------------------------------------------------------------
  // GET listings

  /** GET /purchases: a Base Commander's own base only, everyone else all. */
  function ListPurchases(u: User, ps: seq<Purchase>): (r: Response<seq<Purchase>>)
    ensures r.Ok?
    ensures forall p :: p in r.value <==> p in ps && (u.role == BaseCommander ==> u.base == Some(p.base))
    ensures u.role != BaseCommander ==> r.value == ps
  {
    if u.role == BaseCommander then Ok(Filter(ps, (p: Purchase) => u.base == Some(p.base)))
    else Ok(ps)
  }

  /** GET /transfers: a Base Commander sees transfers leaving or reaching their base. */
  function ListTransfers(u: User, ts: seq<Transfer>): (r: Response<seq<Transfer>>)
    ensures r.Ok?
    ensures forall t :: t in r.value <==>
              t in ts && (u.role == BaseCommander ==> u.base == Some(t.fromBase) || u.base == Some(t.toBase))
    ensures u.role != BaseCommander ==> r.value == ts
  {
    if u.role == BaseCommander then Ok(Filter(ts, (t: Transfer) => u.base == Some(t.fromBase) || u.base == Some(t.toBase)))
    else Ok(ts)
  }

  /** GET /assignments: closed to the Logistics Officer. */
  function ListAssignments(u: User, xs: seq<Assignment>): (r: Response<seq<Assignment>>)
    ensures r.Ok? <==> u.role != LogisticsOfficer
    ensures r.Ok? ==> forall a :: a in r.value <==> a in xs && (u.role == BaseCommander ==> u.base == Some(a.base))
    ensures u.role == Admin ==> r == Ok(xs)
  {
    AuthorizeRoutes(u);
    if !Authorize(CommandRoles, u) then Forbidden
    else if u.role == BaseCommander then Ok(Filter(xs, (a: Assignment) => u.base == Some(a.base)))
    else Ok(xs)
  }

  /** Listings keep store order: a record stored later is listed after the
      earlier ones, and only if the caller may see it. */
  lemma ListingAppend(u: User, ts: seq<Transfer>, t: Transfer)
    ensures ListTransfers(u, ts + [t]).value == ListTransfers(u, ts).value +
              (if u.role != BaseCommander || u.base == Some(t.fromBase) || u.base == Some(t.toBase) then [t] else [])
  {
    if u.role == BaseCommander {
      var touches := (x: Transfer) => u.base == Some(x.fromBase) || u.base == Some(x.toBase);
      FilterAppend(ts, [t], touches);
      assert Filter([t], touches) == if touches(t) then [t] else [];
    }
  }

  // ---------------------------------------------------------------------------
  // GET /dashboard

  datatype Summary = Summary(openingBalance: int, closingBalance: int, netMovement: int,
                             purchases: int, transfersIn: int, transfersOut: int,
                             assignedTotal: int, expendedTotal: int)

  /** `baseFilter`: the caller's base for a Base Commander, `null` otherwise. */
  function BaseFilter(u: User): Option<Base> {
    if u.role == BaseCommander then u.base else None
  }

  /** `filterByBase` on each array. A purchase or an assignment has only
      `base`; a transfer has only `fromBase` and `toBase`; the fields a record
      lacks are `undefined` and never equal the filter. */
  function PurchasesByBase(bf: Option<Base>, ps: seq<Purchase>): (r: seq<Purchase>)
    ensures forall p :: p in r <==> p in ps && (bf.None? || p.base == bf.value)
    ensures bf.None? ==> r == ps
  {
    if bf.None? then ps else Filter(ps, (p: Purchase) => bf == Some(p.base))
  }

  function TransfersByBase(bf: Option<Base>, ts: seq<Transfer>): (r: seq<Transfer>)
    ensures forall t :: t in r <==> t in ts && (bf.None? || t.toBase == bf.value || t.fromBase == bf.value)
    ensures bf.None? ==> r == ts
  {
    if bf.None? then ts else Filter(ts, (t: Transfer) => bf == Some(t.toBase) || bf == Some(t.fromBase))
  }

  function AssignmentsByBase(bf: Option<Base>, xs: seq<Assignment>): (r: seq<Assignment>)
    ensures forall a :: a in r <==> a in xs && (bf.None? || a.base == bf.value)
    ensures bf.None? ==> r == xs
  {
    if bf.None? then xs else Filter(xs, (a: Assignment) => bf == Some(a.base))
  }

  function HasStatus(s: string): Assignment -> bool {
    (a: Assignment) => a.status == s
  }

  /** The summary sent by `/dashboard`: the opening balance is the constant 0
      and the closing balance is computed from the other figures. */
  function Dashboard(u: User, ps: seq<Purchase>, ts: seq<Transfer>, xs: seq<Assignment>): (d: Summary)
    ensures d.openingBalance == 0
    ensures d.netMovement == d.purchases + d.transfersIn - d.transfersOut
    ensures d.closingBalance == d.openingBalance + d.netMovement - d.expendedTotal
  {
    var bf := BaseFilter(u);
    var purchasesSum := Sum(PurchasesByBase(bf, ps), (p: Purchase) => true, PurchaseQty);
    var transfersIn := Sum(TransfersByBase(bf, ts), (t: Transfer) => Some(t.toBase) == bf, TransferQty);
    var transfersOut := Sum(TransfersByBase(bf, ts), (t: Transfer) => Some(t.fromBase) == bf, TransferQty);
    var assignedSum := Sum(Filter(AssignmentsByBase(bf, xs), HasStatus(Assigned)), (a: Assignment) => true, AssignmentQty);
    var expendedSum := Sum(Filter(AssignmentsByBase(bf, xs), HasStatus(Expended)), (a: Assignment) => true, AssignmentQty);
    var openingBalance := 0;
    var netMovement := purchasesSum + transfersIn - transfersOut;
    Summary(openingBalance, openingBalance + netMovement - expendedSum, netMovement,
            purchasesSum, transfersIn, transfersOut, assignedSum, expendedSum)
  }

  /** For a caller that is not a Base Commander the base filter is `null`: every
      record is summed, but no transfer's base equals `null`, so both transfer
      figures are 0 and the closing balance is all purchases less all expenditure. */
  lemma UnscopedDashboard(u: User, ps: seq<Purchase>, ts: seq<Transfer>, xs: seq<Assignment>)
    requires u.role != BaseCommander
    ensures var d := Dashboard(u, ps, ts, xs);
      && d.openingBalance == 0
      && d.transfersIn == 0 && d.transfersOut == 0
      && d.purchases == Sum(ps, (p: Purchase) => true, PurchaseQty)
      && d.expendedTotal == Sum(xs, HasStatus(Expended), AssignmentQty)
      && d.assignedTotal == Sum(xs, HasStatus(Assigned), AssignmentQty)
      && d.netMovement == d.purchases
      && d.closingBalance == d.purchases - d.expendedTotal
  {
    SumNone(ts, (t: Transfer) => Some(t.toBase) == None, TransferQty);
    SumNone(ts, (t: Transfer) => Some(t.fromBase) == None, TransferQty);
    SumOfFilter(xs, HasStatus(Expended), (a: Assignment) => true, HasStatus(Expended), AssignmentQty);
    SumOfFilter(xs, HasStatus(Assigned), (a: Assignment) => true, HasStatus(Assigned), AssignmentQty);
  }

  /** For a Base Commander of base `b` every figure is a sum over the records
      of `b` alone: own-base purchases and assignments, transfers arriving at
      `b` for the inflow and leaving `b` for the outflow. */
  lemma CommanderDashboard(u: User, ps: seq<Purchase>, ts: seq<Transfer>, xs: seq<Assignment>, b: Base)
    requires u.role == BaseCommander && u.base == Some(b)
    ensures var d := Dashboard(u, ps, ts, xs);
      && d.openingBalance == 0
      && d.purchases == Sum(ps, (p: Purchase) => p.base == b, PurchaseQty)
      && d.transfersIn == Sum(ts, (t: Transfer) => t.toBase == b, TransferQty)
      && d.transfersOut == Sum(ts, (t: Transfer) => t.fromBase == b, TransferQty)
      && d.expendedTotal == Sum(xs, (a: Assignment) => a.base == b && a.status == Expended, AssignmentQty)
      && d.assignedTotal == Sum(xs, (a: Assignment) => a.base == b && a.status == Assigned, AssignmentQty)
      && d.closingBalance == d.purchases + d.transfersIn - d.transfersOut - d.expendedTotal
  {
    var bf := Some(b);
    var mine := (p: Purchase) => bf == Some(p.base);
    SumOfFilter(ps, mine, (p: Purchase) => true, (p: Purchase) => p.base == b, PurchaseQty);
    var touches := (t: Transfer) => bf == Some(t.toBase) || bf == Some(t.fromBase);
    SumOfFilter(ts, touches, (t: Transfer) => Some(t.toBase) == bf, (t: Transfer) => t.toBase == b, TransferQty);
    SumOfFilter(ts, touches, (t: Transfer) => Some(t.fromBase) == bf, (t: Transfer) => t.fromBase == b, TransferQty);
    var own := (a: Assignment) => bf == Some(a.base);
    var ownXs := Filter(xs, own);
    SumOfFilter(ownXs, HasStatus(Expended), (a: Assignment) => true, HasStatus(Expended), AssignmentQty);
    SumOfFilter(xs, own, HasStatus(Expended), (a: Assignment) => a.base == b && a.status == Expended, AssignmentQty);
    SumOfFilter(ownXs, HasStatus(Assigned), (a: Assignment) => true, HasStatus(Assigned), AssignmentQty);
    SumOfFilter(xs, own, HasStatus(Assigned), (a: Assignment) => a.base == b && a.status == Assigned, AssignmentQty);
  }

  // ---------------------------------------------------------------------------
  // The store

  /** The three module-level arrays, less their placeholder numbers. */
  class Store {
    var purchases: seq<Purchase>
    var transfers: seq<Transfer>
    var assignments: seq<Assignment>

    /** What the POST routes guarantee of every stored record: ids follow the
        array position, quantities are non-zero, an "Assigned" record names its
        personnel. */
    ghost predicate Valid()
      reads this
      ensures Valid() ==> forall i, j :: 0 <= i < j < |purchases| ==> purchases[i].id != purchases[j].id
      ensures Valid() ==> forall i, j :: 0 <= i < j < |transfers| ==> transfers[i].id != transfers[j].id
      ensures Valid() ==> forall i, j :: 0 <= i < j < |assignments| ==> assignments[i].id != assignments[j].id
    {
      && NumberedFrom(purchases, (p: Purchase) => p.id, Placeholders + 1)
      && NumberedFrom(transfers, (t: Transfer) => t.id, Placeholders + 1)
      && NumberedFrom(assignments, (a: Assignment) => a.id, Placeholders + 1)
      && (forall p :: p in purchases ==> p.quantity != 0)
      && (forall t :: t in transfers ==> t.quantity != 0)
      && (forall a :: a in assignments ==> a.quantity != 0 && (a.status == Assigned ==> a.personnel.Some?))
    }

    constructor ()
      ensures Valid()
      ensures purchases == [] && transfers == [] && assignments == []
    {
      purchases, transfers, assignments := [], [], [];
    }

    /** POST /purchases. */
    method PostPurchase(u: User, b: PurchaseBody) returns (r: Response<Purchase>)
      requires Valid()
      modifies this
      ensures Valid()
      ensures r == PurchaseOutcome(u, b, Placeholders + |old(purchases)|)
      ensures purchases == if r.Ok? then old(purchases) + [r.value] else old(purchases)
      ensures transfers == old(transfers) && assignments == old(assignments)
    {
      if !Authorize(AllRoles, u) {
        return Forbidden;
      }
      if b.base.None? || b.kind.None? || b.quantity == 0 || b.date.None? {
        return BadRequest;
      }
      if u.role == BaseCommander && u.base != b.base {
        return Forbidden;
      }
      var purchase := Purchase(Placeholders + |purchases| + 1, b.date.value, b.base.value, b.kind.value, b.quantity);
      NumberedAppend(purchases, purchase, (p: Purchase) => p.id, Placeholders + 1);
      purchases := purchases + [purchase];
      return Ok(purchase);
    }

    /** POST /transfers. */
    method PostTransfer(u: User, b: TransferBody) returns (r: Response<Transfer>)
      requires Valid()
      modifies this
      ensures Valid()
      ensures r == TransferOutcome(u, b, Placeholders + |old(transfers)|)
      ensures transfers == if r.Ok? then old(transfers) + [r.value] else old(transfers)
      ensures purchases == old(purchases) && assignments == old(assignments)
    {
      if !Authorize(CommandRoles, u) {
        return Forbidden;
      }
      if b.fromBase.None? || b.toBase.None? || b.kind.None? || b.quantity == 0 || b.date.None? {
        return BadRequest;
      }
      if u.role == BaseCommander && u.base != b.fromBase {
        return Forbidden;
      }
      var transfer := Transfer(Placeholders + |transfers| + 1, b.date.value, b.fromBase.value, b.toBase.value,
                               b.kind.value, b.quantity);
      NumberedAppend(transfers, transfer, (t: Transfer) => t.id, Placeholders + 1);
      transfers := transfers + [transfer];
      return Ok(transfer);
    }

    /** POST /assignments. */
    method PostAssignment(u: User, b: AssignmentBody) returns (r: Response<Assignment>)
      requires Valid()
      modifies this
      ensures Valid()
      ensures r == AssignmentOutcome(u, b, Placeholders + |old(assignments)|)
      ensures assignments == if r.Ok? then old(assignments) + [r.value] else old(assignments)
      ensures purchases == old(purchases) && transfers == old(transfers)
    {
      if !Authorize(CommandRoles, u) {
        return Forbidden;
      }
      if b.base.None? || b.kind.None? || b.quantity == 0 || b.date.None? || b.status.None? {
        return BadRequest;
      }
      if b.status == Some(Assigned) && b.personnel.None? {
        return BadRequest;
      }
      if u.role == BaseCommander && u.base != b.base {
        return Forbidden;
      }
      var assignment := Assignment(Placeholders + |assignments| + 1, b.date.value, b.base.value, b.kind.value,
                                   b.quantity, b.personnel, b.status.value);
      NumberedAppend(assignments, assignment, (a: Assignment) => a.id, Placeholders + 1);
      assignments := assignments + [assignment];
      return Ok(assignment);
    }

    /** GET /purchases, GET /transfers, GET /assignments and GET /dashboard read the arrays. */
    method GetPurchases(u: User) returns (r: Response<seq<Purchase>>)
      ensures r == ListPurchases(u, purchases)
    {
      r := ListPurchases(u, purchases);
    }

    method GetTransfers(u: User) returns (r: Response<seq<Transfer>>)
      ensures r == ListTransfers(u, transfers)
    {
      r := ListTransfers(u, transfers);
    }

    method GetAssignments(u: User) returns (r: Response<seq<Assignment>>)
      ensures r == ListAssignments(u, assignments)
    {
      r := ListAssignments(u, assignments);
    }

    method GetDashboard(u: User) returns (d: Summary)
      ensures d == Dashboard(u, purchases, transfers, assignments)
    {
      d := Dashboard(u, purchases, transfers, assignments);
    }
  }
}
