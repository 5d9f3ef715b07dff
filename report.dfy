/** The browser-side report engine of code.jsx: the `filterBy` helper, the
    dashboard metrics, the `add*` handlers, the form-acceptance tests of the
    three entry forms, role-based page gating and the per-page listings.
    Every piece of it is a `filter` or `reduce` expression over immutable
    arrays, so it is modelled with functions and lemmas. */
module Report {
  import opened Seqs
  import opened Ledger

  /** The dashboard filter bar; `None` is the empty string "All" / no date. */
  datatype Filters = Filters(date: Option<Date>, base: Option<Base>, kind: Option<Equipment>)

  /** The state after "Clear Filters". */
  const NoFilters: Filters := Filters(None, None, None)

  /** `currentUser`: a role and the home base used when the role is Base Commander. */
  datatype Viewer = Viewer(role: Role, base: Base)

  /** The three record arrays held in the application's state. */
  datatype State = State(purchases: seq<Purchase>, transfers: seq<Transfer>, assignments: seq<Assignment>)

  // ---------------------------------------------------------------------------
  // Filters and role scoping

  /** An unset filter field admits every value; a set one admits only itself. */
  predicate FieldMatches<T(==)>(want: Option<T>, have: T) {
    want.None? || have == want.value
  }

  /** The per-item test of `filterBy`; the date is compared for equality. */
  predicate Matches(p: Purchase, f: Filters) {
    FieldMatches(f.date, p.date) && FieldMatches(f.base, p.base) && FieldMatches(f.kind, p.kind)
  }

  /** `filterBy(items, filters)`: the conjunctive field filter. */
  function FilterBy(ps: seq<Purchase>, f: Filters): (r: seq<Purchase>)
    ensures forall p :: p in r <==> p in ps && Matches(p, f)
    ensures f == NoFilters ==> r == ps
  {
    var keep := (p: Purchase) => Matches(p, f);
    if f == NoFilters then FilterKeepsAll(ps, keep); Filter(ps, keep)
    else Filter(ps, keep)
  }

  /** The role guard repeated through the file: anyone but a Base Commander
      sees every base, a Base Commander only their own. */
  predicate Sees(u: Viewer, base: Base) {
    u.role != BaseCommander || base == u.base
  }

  // ---------------------------------------------------------------------------
  // Dashboard metrics

  /** The guard of `openingBalance`: dated strictly before the cutoff, visible,
      and nothing about the base or equipment-type filters. */
  predicate OpensBefore(f: Filters, u: Viewer, p: Purchase) {
    f.date.Some? && p.date < f.date.value && Sees(u, p.base)
  }

  /** `openingBalance`: with no cutoff it is 0, and it is never negative over
      non-negative quantities. */
  function OpeningBalance(ps: seq<Purchase>, f: Filters, u: Viewer): (r: int)
    ensures f.date.None? ==> r == 0
    ensures (forall p :: p in ps ==> p.quantity >= 0) ==> r >= 0
  {
    var keep := (p: Purchase) => OpensBefore(f, u, p);
    SumNone(ps, keep, PurchaseQty);
    SumNonNegative(ps, keep, PurchaseQty);
    Sum(ps, keep, PurchaseQty)
  }

  /** `filteredPurchases`: `filterBy` then the role guard; the purchases page
      lists the same expression. */
  function FilteredPurchases(ps: seq<Purchase>, f: Filters, u: Viewer): (r: seq<Purchase>)
    ensures forall p :: p in r <==> p in ps && Matches(p, f) && Sees(u, p.base)
  {
    Filter(FilterBy(ps, f), (p: Purchase) => Sees(u, p.base))
  }

  /** `filteredPurchases.reduce((acc, p) => acc + p.quantity, 0)`. As `filterBy`
      compares dates by equality, a cutoff on which no purchase is dated gives 0. */
  function PurchasesTotal(ps: seq<Purchase>, f: Filters, u: Viewer): (r: int)
    ensures f.date.Some? && (forall p :: p in ps ==> p.date != f.date.value) ==> r == 0
    ensures (forall p :: p in ps ==> p.quantity >= 0) ==> r >= 0
  {
    var fp := FilteredPurchases(ps, f, u);
    var all := (p: Purchase) => true;
    SumNone(fp, all, PurchaseQty);
    SumNonNegative(fp, all, PurchaseQty);
    Sum(fp, all, PurchaseQty)
  }

  /** The guard of `transferIn`: dated on or before the cutoff, the base
      filter compared with `toBase`, and a Base Commander sees only inbound. */
  predicate CountsIn(f: Filters, u: Viewer, t: Transfer) {
    f.date.Some? && t.date <= f.date.value && FieldMatches(f.base, t.toBase) && Sees(u, t.toBase)
  }

  /** The guard of `transferOut`, the same with `fromBase`. */
  predicate CountsOut(f: Filters, u: Viewer, t: Transfer) {
    f.date.Some? && t.date <= f.date.value && FieldMatches(f.base, t.fromBase) && Sees(u, t.fromBase)
  }

  /** `transferIn`: 0 with no cutoff, never negative over non-negative quantities. */
  function TransferIn(ts: seq<Transfer>, f: Filters, u: Viewer): (r: int)
    ensures f.date.None? ==> r == 0
    ensures (forall t :: t in ts ==> t.quantity >= 0) ==> r >= 0
  {
    var keep := (t: Transfer) => CountsIn(f, u, t);
    SumNone(ts, keep, TransferQty);
    SumNonNegative(ts, keep, TransferQty);
    Sum(ts, keep, TransferQty)
  }

  /** `transferOut`: the same. */
  function TransferOut(ts: seq<Transfer>, f: Filters, u: Viewer): (r: int)
    ensures f.date.None? ==> r == 0
    ensures (forall t :: t in ts ==> t.quantity >= 0) ==> r >= 0
  {
    var keep := (t: Transfer) => CountsOut(f, u, t);
    SumNone(ts, keep, TransferQty);
    SumNonNegative(ts, keep, TransferQty);
    Sum(ts, keep, TransferQty)
  }

  /** The guard of `expended` (status "Expended") and of `assigned` (status "Assigned"). */
  predicate CountsStatus(f: Filters, u: Viewer, status: string, a: Assignment) {
    f.date.Some? && a.date <= f.date.value && a.status == status &&
    FieldMatches(f.base, a.base) && Sees(u, a.base)
  }

  /** `expended` and `assigned`: 0 with no cutoff, never negative over
      non-negative quantities. */
  function StatusTotal(xs: seq<Assignment>, f: Filters, u: Viewer, status: string): (r: int)
    ensures f.date.None? ==> r == 0
    ensures (forall a :: a in xs ==> a.quantity >= 0) ==> r >= 0
  {
    var keep := (a: Assignment) => CountsStatus(f, u, status, a);
    SumNone(xs, keep, AssignmentQty);
    SumNonNegative(xs, keep, AssignmentQty);
    Sum(xs, keep, AssignmentQty)
  }

  /** `netMovement`: the filtered purchases plus transfers in less transfers
      out. Without a cutoff only the purchases are left; with a cutoff on which
      no purchase is dated, only the transfers. */
  function NetMovement(st: State, f: Filters, u: Viewer): (r: int)
    ensures f.date.None? ==> r == PurchasesTotal(st.purchases, f, u)
    ensures f.date.Some? && (forall p :: p in st.purchases ==> p.date != f.date.value) ==>
              r == TransferIn(st.transfers, f, u) - TransferOut(st.transfers, f, u)
  {
    PurchasesTotal(st.purchases, f, u) + TransferIn(st.transfers, f, u) - TransferOut(st.transfers, f, u)
  }

  /** The five figures shown on the dashboard and the three behind the
      "Net Movement" detail popup. */
  datatype Summary = Summary(openingBalance: int, closingBalance: int, netMovement: int,
                             purchases: int, transferIn: int, transferOut: int,
                             assignedTotal: int, expendedTotal: int)

  /** The dashboard's figures; the closing balance is the one the "Closing
      Balance" card computes from the others. */
  function Dashboard(st: State, f: Filters, u: Viewer): (d: Summary)
    ensures d.openingBalance == OpeningBalance(st.purchases, f, u)
    ensures d.purchases == PurchasesTotal(st.purchases, f, u)
    ensures d.transferIn == TransferIn(st.transfers, f, u) && d.transferOut == TransferOut(st.transfers, f, u)
    ensures d.expendedTotal == StatusTotal(st.assignments, f, u, Expended)
    ensures d.assignedTotal == StatusTotal(st.assignments, f, u, Assigned)
    ensures d.netMovement == d.purchases + d.transferIn - d.transferOut
    ensures d.closingBalance == d.openingBalance + d.netMovement - d.expendedTotal
  {
    var opening := OpeningBalance(st.purchases, f, u);
    var net := NetMovement(st, f, u);
    var expended := StatusTotal(st.assignments, f, u, Expended);
    Summary(opening, opening + net - expended, net,
            PurchasesTotal(st.purchases, f, u), TransferIn(st.transfers, f, u), TransferOut(st.transfers, f, u),
            StatusTotal(st.assignments, f, u, Assigned), expended)
  }

  /** The purchase total is one guarded sum over the whole array: the purchases
      that match the filter and that the viewer may see. */
  lemma PurchasesTotalIsGuardedSum(ps: seq<Purchase>, f: Filters, u: Viewer)
    ensures PurchasesTotal(ps, f, u) == Sum(ps, (p: Purchase) => Matches(p, f) && Sees(u, p.base), PurchaseQty)
  {
    var visible := (p: Purchase) => Sees(u, p.base);
    var both := (p: Purchase) => Matches(p, f) && Sees(u, p.base);
    SumOfFilter(FilterBy(ps, f), visible, p => true, visible, PurchaseQty);
    SumOfFilter(ps, p => Matches(p, f), visible, both, PurchaseQty);
  }

  /** With no date cutoff every date-gated figure is 0, but the net movement is
      not: it is then the visible purchases that match the base and type filters. */
  lemma NoCutoff(st: State, f: Filters, u: Viewer)
    requires f.date.None?
    ensures OpeningBalance(st.purchases, f, u) == 0
    ensures TransferIn(st.transfers, f, u) == 0 && TransferOut(st.transfers, f, u) == 0
    ensures StatusTotal(st.assignments, f, u, Expended) == 0 && StatusTotal(st.assignments, f, u, Assigned) == 0
    ensures NetMovement(st, f, u) ==
            Sum(st.purchases, (p: Purchase) => FieldMatches(f.base, p.base) && FieldMatches(f.kind, p.kind) && Sees(u, p.base), PurchaseQty)
    ensures Dashboard(st, f, u).closingBalance == NetMovement(st, f, u)
  {
    PurchasesTotalIsGuardedSum(st.purchases, f, u);
    SumCongruent(st.purchases, (p: Purchase) => Matches(p, f) && Sees(u, p.base),
                 (p: Purchase) => FieldMatches(f.base, p.base) && FieldMatches(f.kind, p.kind) && Sees(u, p.base),
                 PurchaseQty, PurchaseQty);
  }

  /** The opening balance ignores the base and equipment-type filters: only the
      cutoff and the viewer's role decide it. */
  lemma OpeningIgnoresBaseAndType(ps: seq<Purchase>, f: Filters, u: Viewer, base: Option<Base>, kind: Option<Equipment>)
    ensures OpeningBalance(ps, f, u) == OpeningBalance(ps, Filters(f.date, base, kind), u)
  {
    var g := Filters(f.date, base, kind);
    SumCongruent(ps, p => OpensBefore(f, u, p), p => OpensBefore(g, u, p), PurchaseQty, PurchaseQty);
  }

  /** The transfer and assignment figures ignore the equipment-type filter. */
  lemma MovementsIgnoreType(st: State, f: Filters, u: Viewer, kind: Option<Equipment>)
    ensures TransferIn(st.transfers, f, u) == TransferIn(st.transfers, f.(kind := kind), u)
    ensures TransferOut(st.transfers, f, u) == TransferOut(st.transfers, f.(kind := kind), u)
    ensures StatusTotal(st.assignments, f, u, Expended) == StatusTotal(st.assignments, f.(kind := kind), u, Expended)
    ensures StatusTotal(st.assignments, f, u, Assigned) == StatusTotal(st.assignments, f.(kind := kind), u, Assigned)
  {
    var g := f.(kind := kind);
    SumCongruent(st.transfers, t => CountsIn(f, u, t), t => CountsIn(g, u, t), TransferQty, TransferQty);
    SumCongruent(st.transfers, t => CountsOut(f, u, t), t => CountsOut(g, u, t), TransferQty, TransferQty);
    SumCongruent(st.assignments, a => CountsStatus(f, u, Expended, a), a => CountsStatus(g, u, Expended, a),
                 AssignmentQty, AssignmentQty);
    SumCongruent(st.assignments, a => CountsStatus(f, u, Assigned, a), a => CountsStatus(g, u, Assigned, a),
                 AssignmentQty, AssignmentQty);
  }

  /** A Base Commander's figures are the figures an Admin would compute from
      only the records at the commander's base: own-base purchases and
      assignments, inbound transfers for `transferIn`, outbound for `transferOut`.
      Records elsewhere never contribute. */
  lemma CommanderScope(st: State, f: Filters, u: Viewer)
    requires u.role == BaseCommander
    ensures var admin := Viewer(Admin, u.base);
      && OpeningBalance(st.purchases, f, u) == OpeningBalance(Filter(st.purchases, (p: Purchase) => p.base == u.base), f, admin)
      && PurchasesTotal(st.purchases, f, u) == PurchasesTotal(Filter(st.purchases, (p: Purchase) => p.base == u.base), f, admin)
      && TransferIn(st.transfers, f, u) == TransferIn(Filter(st.transfers, (t: Transfer) => t.toBase == u.base), f, admin)
      && TransferOut(st.transfers, f, u) == TransferOut(Filter(st.transfers, (t: Transfer) => t.fromBase == u.base), f, admin)
      && StatusTotal(st.assignments, f, u, Expended) == StatusTotal(Filter(st.assignments, (a: Assignment) => a.base == u.base), f, admin, Expended)
      && StatusTotal(st.assignments, f, u, Assigned) == StatusTotal(Filter(st.assignments, (a: Assignment) => a.base == u.base), f, admin, Assigned)
  {
    var admin := Viewer(Admin, u.base);
    var own := (p: Purchase) => p.base == u.base;
    SumOfFilter(st.purchases, own, p => OpensBefore(f, admin, p), p => OpensBefore(f, u, p), PurchaseQty);
    var ownPs := Filter(st.purchases, own);
    PurchasesTotalIsGuardedSum(st.purchases, f, u);
    PurchasesTotalIsGuardedSum(ownPs, f, admin);
    SumOfFilter(st.purchases, own, (p: Purchase) => Matches(p, f) && Sees(admin, p.base),
                (p: Purchase) => Matches(p, f) && Sees(u, p.base), PurchaseQty);
    SumOfFilter(st.transfers, (t: Transfer) => t.toBase == u.base, t => CountsIn(f, admin, t), t => CountsIn(f, u, t), TransferQty);
    SumOfFilter(st.transfers, (t: Transfer) => t.fromBase == u.base, t => CountsOut(f, admin, t), t => CountsOut(f, u, t), TransferQty);
    var ownAs := (a: Assignment) => a.base == u.base;
    SumOfFilter(st.assignments, ownAs, a => CountsStatus(f, admin, Expended, a), a => CountsStatus(f, u, Expended, a), AssignmentQty);
    SumOfFilter(st.assignments, ownAs, a => CountsStatus(f, admin, Assigned, a), a => CountsStatus(f, u, Assigned, a), AssignmentQty);
  }

  // ---------------------------------------------------------------------------
  // Adding records

  /** `addPurchase`: a new array with one more record, numbered `length + 1`. */
  function AddPurchase(ps: seq<Purchase>, date: Date, base: Base, kind: Equipment, quantity: int): (r: seq<Purchase>)
    ensures |r| == |ps| + 1 && r[..|ps|] == ps
    ensures r[|ps|] == Purchase(|ps| + 1, date, base, kind, quantity)
  {
    ps + [Purchase(|ps| + 1, date, base, kind, quantity)]
  }

  /** `addTransfer`. */
  function AddTransfer(ts: seq<Transfer>, date: Date, fromBase: Base, toBase: Base, kind: Equipment, quantity: int): (r: seq<Transfer>)
    ensures |r| == |ts| + 1 && r[..|ts|] == ts
    ensures r[|ts|] == Transfer(|ts| + 1, date, fromBase, toBase, kind, quantity)
  {
    ts + [Transfer(|ts| + 1, date, fromBase, toBase, kind, quantity)]
  }

  /** `addAssignment`; the stored record keeps the form's personnel and status as they are. */
  function AddAssignment(xs: seq<Assignment>, date: Date, base: Base, kind: Equipment, quantity: int,
                         personnel: Option<string>, status: string): (r: seq<Assignment>)
    ensures |r| == |xs| + 1 && r[..|xs|] == xs
    ensures r[|xs|] == Assignment(|xs| + 1, date, base, kind, quantity, personnel, status)
  {
    xs + [Assignment(|xs| + 1, date, base, kind, quantity, personnel, status)]
  }

  /** A new purchase moves the opening balance and the purchase total by its
      quantity exactly when it passes their guards, and leaves the rest alone:
      one dated on the cutoff enters the purchase total, only an earlier one
      enters the opening balance. */
  lemma AddPurchaseReport(ps: seq<Purchase>, f: Filters, u: Viewer, date: Date, base: Base, kind: Equipment, quantity: int)
    ensures var p := Purchase(|ps| + 1, date, base, kind, quantity);
      && OpeningBalance(AddPurchase(ps, date, base, kind, quantity), f, u)
         == OpeningBalance(ps, f, u) + (if f.date.Some? && date < f.date.value && Sees(u, base) then quantity else 0)
      && PurchasesTotal(AddPurchase(ps, date, base, kind, quantity), f, u)
         == PurchasesTotal(ps, f, u) + (if Matches(p, f) && Sees(u, base) then quantity else 0)
  {
    var p := Purchase(|ps| + 1, date, base, kind, quantity);
    SumAppend(ps, [p], q => OpensBefore(f, u, q), PurchaseQty);
    var ps' := AddPurchase(ps, date, base, kind, quantity);
    PurchasesTotalIsGuardedSum(ps, f, u);
    PurchasesTotalIsGuardedSum(ps', f, u);
    SumAppend(ps, [p], (q: Purchase) => Matches(q, f) && Sees(u, q.base), PurchaseQty);
  }

  // ---------------------------------------------------------------------------
  // Entry forms

  /** The state of each entry form; `quantity` is the number input's value. */
  datatype PurchaseForm = PurchaseForm(date: Option<Date>, base: Option<Base>, kind: Option<Equipment>, quantity: int)
  datatype TransferForm = TransferForm(date: Option<Date>, fromBase: Option<Base>, toBase: Option<Base>,
                                       kind: Option<Equipment>, quantity: int)
  datatype AssignmentForm = AssignmentForm(date: Option<Date>, base: Option<Base>, kind: Option<Equipment>,
                                           quantity: int, personnel: Option<string>, status: string)

  /** Which roles are shown each entry form. */
  predicate ShowsPurchaseForm(r: Role) { r == Admin || r == BaseCommander || r == LogisticsOfficer }
  predicate ShowsTransferForm(r: Role) { r == Admin || r == BaseCommander }
  predicate ShowsAssignmentForm(r: Role) { r == Admin || r == BaseCommander }

  /** What the forms guarantee of each record they admit; the id plays no part. */
  predicate PurchaseOk(p: Purchase) { p.quantity > 0 }
  predicate TransferOk(t: Transfer) { t.quantity > 0 && t.fromBase != t.toBase }
  predicate AssignmentOk(a: Assignment) {
    a.quantity > 0 && (a.status == Expended || (a.status == Assigned && a.personnel.Some?))
  }

  /** The purchase form is accepted iff every field is filled in and the record
      it would add satisfies `PurchaseOk`. */
  predicate PurchaseFormAccepted(form: PurchaseForm)
    ensures PurchaseFormAccepted(form) <==>
      form.date.Some? && form.base.Some? && form.kind.Some? &&
      PurchaseOk(Purchase(0, form.date.value, form.base.value, form.kind.value, form.quantity))
  {
    form.date.Some? && form.base.Some? && form.kind.Some? && form.quantity > 0
  }

  /** A complete transfer form is still refused when both bases are the same:
      it is accepted iff the record it would add satisfies `TransferOk`. */
  predicate TransferFormAccepted(form: TransferForm)
    ensures TransferFormAccepted(form) <==>
      form.date.Some? && form.fromBase.Some? && form.toBase.Some? && form.kind.Some? &&
      TransferOk(Transfer(0, form.date.value, form.fromBase.value, form.toBase.value, form.kind.value, form.quantity))
  {
    if form.date.Some? && form.fromBase.Some? && form.toBase.Some? && form.kind.Some? && form.quantity > 0 then
      form.fromBase.value != form.toBase.value
    else false
  }

  /** An expenditure needs no personnel; an assignment does. Accepted iff the
      record it would add satisfies `AssignmentOk`. */
  predicate AssignmentFormAccepted(form: AssignmentForm)
    ensures AssignmentFormAccepted(form) <==>
      form.date.Some? && form.base.Some? && form.kind.Some? &&
      AssignmentOk(Assignment(0, form.date.value, form.base.value, form.kind.value, form.quantity,
                              form.personnel, form.status))
  {
    form.date.Some? && form.base.Some? && form.kind.Some? && form.quantity > 0 &&
    (form.status == Expended || (form.status == Assigned && form.personnel.Some?))
  }

  /** Submitting the purchase form: an accepted form is appended, anything else
      leaves the purchases as they were. */
  function SubmitPurchase(u: Viewer, ps: seq<Purchase>, form: PurchaseForm): (r: seq<Purchase>)
    ensures |ps| <= |r| && r[..|ps|] == ps
    ensures |r| == |ps| + 1 <==> ShowsPurchaseForm(u.role) && PurchaseFormAccepted(form)
    ensures |r| != |ps| + 1 ==> r == ps
    ensures |r| == |ps| + 1 ==>
      r[|ps|] == Purchase(|ps| + 1, form.date.value, form.base.value, form.kind.value, form.quantity)
  {
    if ShowsPurchaseForm(u.role) && PurchaseFormAccepted(form) then
      AddPurchase(ps, form.date.value, form.base.value, form.kind.value, form.quantity)
    else ps
  }

  /** Submitting the transfer form; only Admin and Base Commander have one. */
  function SubmitTransfer(u: Viewer, ts: seq<Transfer>, form: TransferForm): (r: seq<Transfer>)
    ensures |ts| <= |r| && r[..|ts|] == ts
    ensures |r| == |ts| + 1 <==> ShowsTransferForm(u.role) && TransferFormAccepted(form)
    ensures |r| != |ts| + 1 ==> r == ts
    ensures |r| == |ts| + 1 ==>
      r[|ts|] == Transfer(|ts| + 1, form.date.value, form.fromBase.value, form.toBase.value, form.kind.value, form.quantity)
  {
    if ShowsTransferForm(u.role) && TransferFormAccepted(form) then
      AddTransfer(ts, form.date.value, form.fromBase.value, form.toBase.value, form.kind.value, form.quantity)
    else ts
  }

  /** Submitting the assignment form; only Admin and Base Commander have one. */
  function SubmitAssignment(u: Viewer, xs: seq<Assignment>, form: AssignmentForm): (r: seq<Assignment>)
    ensures |xs| <= |r| && r[..|xs|] == xs
    ensures |r| == |xs| + 1 <==> ShowsAssignmentForm(u.role) && AssignmentFormAccepted(form)
    ensures |r| != |xs| + 1 ==> r == xs
    ensures |r| == |xs| + 1 ==>
      r[|xs|] == Assignment(|xs| + 1, form.date.value, form.base.value, form.kind.value, form.quantity,
                            form.personnel, form.status)
  {
    if ShowsAssignmentForm(u.role) && AssignmentFormAccepted(form) then
      AddAssignment(xs, form.date.value, form.base.value, form.kind.value, form.quantity, form.personnel, form.status)
    else xs
  }

  /** What the forms guarantee of every record they admit: ids numbered from 1
      in order, positive quantities, transfers between two different bases, and
      an assignment either expended or carrying personnel. */
  predicate WellFormed(st: State) {
    && NumberedFrom(st.purchases, (p: Purchase) => p.id, 1)
    && NumberedFrom(st.transfers, (t: Transfer) => t.id, 1)
    && NumberedFrom(st.assignments, (a: Assignment) => a.id, 1)
    && (forall p :: p in st.purchases ==> PurchaseOk(p))
    && (forall t :: t in st.transfers ==> TransferOk(t))
    && (forall a :: a in st.assignments ==> AssignmentOk(a))
  }

  /** Every submission, accepted or not, keeps the state well formed. */
  lemma SubmitKeepsWellFormed(u: Viewer, st: State, pf: PurchaseForm, tf: TransferForm, af: AssignmentForm)
    requires WellFormed(st)
    ensures WellFormed(st.(purchases := SubmitPurchase(u, st.purchases, pf)))
    ensures WellFormed(st.(transfers := SubmitTransfer(u, st.transfers, tf)))
    ensures WellFormed(st.(assignments := SubmitAssignment(u, st.assignments, af)))
  {
  }

  /** In a well-formed state none of the sums behind the figures is negative,
      and each is positive iff some record counts towards it. Net movement and
      the closing balance are differences and can be negative
      (`NetMovementCanBeNegative`). */
  lemma WellFormedFiguresNonNegative(st: State, f: Filters, u: Viewer)
    requires WellFormed(st)
    ensures OpeningBalance(st.purchases, f, u) >= 0 && PurchasesTotal(st.purchases, f, u) >= 0
    ensures TransferIn(st.transfers, f, u) >= 0 && TransferOut(st.transfers, f, u) >= 0
    ensures StatusTotal(st.assignments, f, u, Expended) >= 0 && StatusTotal(st.assignments, f, u, Assigned) >= 0
    ensures OpeningBalance(st.purchases, f, u) > 0 <==> exists p :: p in st.purchases && OpensBefore(f, u, p)
    ensures PurchasesTotal(st.purchases, f, u) > 0 <==>
              exists p :: p in st.purchases && Matches(p, f) && Sees(u, p.base)
    ensures TransferIn(st.transfers, f, u) > 0 <==> exists t :: t in st.transfers && CountsIn(f, u, t)
    ensures TransferOut(st.transfers, f, u) > 0 <==> exists t :: t in st.transfers && CountsOut(f, u, t)
    ensures StatusTotal(st.assignments, f, u, Expended) > 0 <==>
              exists a :: a in st.assignments && CountsStatus(f, u, Expended, a)
    ensures StatusTotal(st.assignments, f, u, Assigned) > 0 <==>
              exists a :: a in st.assignments && CountsStatus(f, u, Assigned, a)
  {
    SumPositive(st.purchases, (p: Purchase) => OpensBefore(f, u, p), PurchaseQty);
    SumPositive(FilteredPurchases(st.purchases, f, u), (p: Purchase) => true, PurchaseQty);
    SumPositive(st.transfers, (t: Transfer) => CountsIn(f, u, t), TransferQty);
    SumPositive(st.transfers, (t: Transfer) => CountsOut(f, u, t), TransferQty);
    SumPositive(st.assignments, (a: Assignment) => CountsStatus(f, u, Expended, a), AssignmentQty);
    SumPositive(st.assignments, (a: Assignment) => CountsStatus(f, u, Assigned, a), AssignmentQty);
  }

  /** A Base Commander of Alpha with the cutoff 2024-06-05 and a single
      well-formed transfer of 3 from Alpha to Bravo on 2024-06-04: only the
      outflow counts, so net movement and closing balance are both -3. */
  lemma NetMovementCanBeNegative()
    ensures var st := State([], [Transfer(1, 20240604, "Base Alpha", "Base Bravo", "Weapons", 3)], []);
            var d := Dashboard(st, Filters(Some(20240605), None, None), Viewer(BaseCommander, "Base Alpha"));
      WellFormed(st) && d.netMovement == -3 && d.closingBalance == -3
  {
  }

  // ---------------------------------------------------------------------------
  // Pages and listings

  datatype Page = DashboardPage | PurchasesPage | TransfersPage | AssignmentsPage

  /** The navigation bar's pages, in order. */
  const AllPages: seq<Page> := [DashboardPage, PurchasesPage, TransfersPage, AssignmentsPage]

  /** `canViewPurchases`, `canViewTransfers`, `canViewAssignments`; the dashboard
      is always accessible. */
  predicate CanView(r: Role, page: Page)
    ensures CanView(r, page) <==> page != AssignmentsPage || r != LogisticsOfficer
  {
    match page
    case DashboardPage => true
    case PurchasesPage => r == Admin || r == BaseCommander || r == LogisticsOfficer
    case TransfersPage => r == Admin || r == BaseCommander || r == LogisticsOfficer
    case AssignmentsPage => r == Admin || r == BaseCommander
  }

  /** `accessiblePages`: the navigation bar shown to a role. */
  function AccessiblePages(r: Role): (pages: seq<Page>)
    ensures pages == if r == LogisticsOfficer then [DashboardPage, PurchasesPage, TransfersPage] else AllPages
  {
    var canView := (page: Page) => CanView(r, page);
    var front := [DashboardPage, PurchasesPage, TransfersPage];
    assert AllPages == front + [AssignmentsPage];
    FilterAppend(front, [AssignmentsPage], canView);
    FilterKeepsAll(front, canView);
    assert Filter([AssignmentsPage], canView) == if r != LogisticsOfficer then [AssignmentsPage] else [];
    Filter(AllPages, canView)
  }

  /** A Logistics Officer cannot open the assignments page; every role reaches
      the dashboard, purchases and transfers. */
  lemma PageGating(r: Role)
    ensures DashboardPage in AccessiblePages(r) && PurchasesPage in AccessiblePages(r) && TransfersPage in AccessiblePages(r)
    ensures AssignmentsPage in AccessiblePages(r) <==> r != LogisticsOfficer
  {
  }

  /** The transfers page's role guard: a Base Commander sees transfers that
      leave from or arrive at their base. */
  predicate Touches(u: Viewer, t: Transfer) {
    u.role != BaseCommander || t.fromBase == u.base || t.toBase == u.base
  }

  /** The transfers page's filter: its base filter matches either end. */
  predicate TransferMatches(t: Transfer, f: Filters) {
    && FieldMatches(f.date, t.date)
    && (f.base.None? || t.fromBase == f.base.value || t.toBase == f.base.value)
    && FieldMatches(f.kind, t.kind)
  }

  function TransferListing(ts: seq<Transfer>, f: Filters, u: Viewer): (r: seq<Transfer>)
    ensures forall t :: t in r <==> t in ts && Touches(u, t) && TransferMatches(t, f)
  {
    Filter(Filter(ts, t => Touches(u, t)), t => TransferMatches(t, f))
  }

  /** A transfer recorded later is listed after all earlier ones, and only if it passes both guards. */
  lemma TransferListingAppend(ts: seq<Transfer>, t: Transfer, f: Filters, u: Viewer)
    ensures TransferListing(ts + [t], f, u)
         == TransferListing(ts, f, u) + (if Touches(u, t) && TransferMatches(t, f) then [t] else [])
  {
    var touches := (x: Transfer) => Touches(u, x);
    var matches := (x: Transfer) => TransferMatches(x, f);
    FilterAppend(ts, [t], touches);
    var single := Filter([t], touches);
    assert single == if Touches(u, t) then [t] else [];
    FilterAppend(Filter(ts, touches), single, matches);
    assert Filter(single, matches) == if Touches(u, t) && TransferMatches(t, f) then [t] else [];
  }

  /** The assignments page's single filter: `filterBy`'s three fields and the role guard. */
  predicate AssignmentListed(f: Filters, u: Viewer, a: Assignment) {
    FieldMatches(f.date, a.date) && FieldMatches(f.base, a.base) && FieldMatches(f.kind, a.kind) && Sees(u, a.base)
  }

  function AssignmentListing(xs: seq<Assignment>, f: Filters, u: Viewer): (r: seq<Assignment>)
    ensures forall a :: a in r <==> a in xs && AssignmentListed(f, u, a)
    ensures u.role == BaseCommander ==> forall a :: a in r ==> a.base == u.base
  {
    Filter(xs, a => AssignmentListed(f, u, a))
  }

  // ---------------------------------------------------------------------------
  // The initial state and a worked example

  /** The records the application starts with; the second assignment has no
      `personnel` field. */
  const Seed: State := State(
    [Purchase(1, 20240601, "Base Alpha", "Weapons", 10), Purchase(2, 20240603, "Base Bravo", "Vehicles", 5)],
    [Transfer(1, 20240604, "Base Alpha", "Base Bravo", "Weapons", 3)],
    [Assignment(1, 20240605, "Base Bravo", "Weapons", 2, Some("Captain Smith"), Assigned),
     Assignment(2, 20240606, "Base Bravo", "Weapons", 1, None, Expended)])

  /** The initial records satisfy what the forms guarantee of later ones. */
  lemma SeedWellFormed()
    ensures WellFormed(Seed)
  {
  }

  /** One purchase of 10 at Base Alpha on 2024-06-01 and one transfer of 3 from
      Alpha to Bravo on 2024-06-04, seen by an Admin with the cutoff 2024-06-05
      and no other filter. The transfer counts both in and out, because with an
      empty base filter both of its ends match, and the purchase is not in the
      net movement, because `filterBy` wants its date to equal the cutoff. */
  lemma AdminExample()
    ensures var st := State([Purchase(1, 20240601, "Base Alpha", "Weapons", 10)],
                            [Transfer(1, 20240604, "Base Alpha", "Base Bravo", "Weapons", 3)], []);
      Dashboard(st, Filters(Some(20240605), None, None), Viewer(Admin, "Base Alpha"))
        == Summary(10, 10, 0, 0, 3, 3, 0, 0)
  {
  }
}
