/** How the two dashboards relate. The server sums every record it holds and
    has no filters; the browser sums up to a date cutoff. For a Base Commander,
    with a cutoff past every record and no other filter, they agree on the
    movement figures, and the server's purchase total is the browser's opening
    balance (which counts purchases strictly before the cutoff). The closing
    balances then agree too: no purchase is dated on the cutoff, so the
    browser's net movement holds only the transfers, and its opening balance
    makes up the server's purchase total. */
module Agreement {
  import opened Seqs
  import opened Ledger
  import Report
  import Server

  lemma CommanderDashboardsAgree(ps: seq<Purchase>, ts: seq<Transfer>, xs: seq<Assignment>, b: Base, cutoff: Date)
    requires forall p :: p in ps ==> p.date < cutoff
    requires forall t :: t in ts ==> t.date <= cutoff
    requires forall a :: a in xs ==> a.date <= cutoff
    ensures var server := Server.Dashboard(Server.User(BaseCommander, Some(b)), ps, ts, xs);
            var f := Report.Filters(Some(cutoff), None, None);
            var v := Report.Viewer(BaseCommander, b);
      && server.purchases == Report.OpeningBalance(ps, f, v)
      && server.transfersIn == Report.TransferIn(ts, f, v)
      && server.transfersOut == Report.TransferOut(ts, f, v)
      && server.expendedTotal == Report.StatusTotal(xs, f, v, Expended)
      && server.assignedTotal == Report.StatusTotal(xs, f, v, Assigned)
      && server.closingBalance == Report.Dashboard(Report.State(ps, ts, xs), f, v).closingBalance
  {
    var u := Server.User(BaseCommander, Some(b));
    var f := Report.Filters(Some(cutoff), None, None);
    var v := Report.Viewer(BaseCommander, b);
    Server.CommanderDashboard(u, ps, ts, xs, b);
    SumCongruent(ps, (p: Purchase) => p.base == b, p => Report.OpensBefore(f, v, p), PurchaseQty, PurchaseQty);
    SumCongruent(ts, (t: Transfer) => t.toBase == b, t => Report.CountsIn(f, v, t), TransferQty, TransferQty);
    SumCongruent(ts, (t: Transfer) => t.fromBase == b, t => Report.CountsOut(f, v, t), TransferQty, TransferQty);
    SumCongruent(xs, (a: Assignment) => a.base == b && a.status == Expended,
                 a => Report.CountsStatus(f, v, Expended, a), AssignmentQty, AssignmentQty);
    SumCongruent(xs, (a: Assignment) => a.base == b && a.status == Assigned,
                 a => Report.CountsStatus(f, v, Assigned, a), AssignmentQty, AssignmentQty);
  }
}
