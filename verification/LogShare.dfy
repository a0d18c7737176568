/** File writes against log space: what FileBlocks promises about an operation's
    log_writes is what Journal needs of it. */
module LogShare {
  import opened Basics
  import Journal
  import FileBlocks

  /** The k-th log_write of a filewrite operation that has so far logged its first k
      never meets the panic, in any run and with any other operations open. */
  lemma FilewriteNeverPanics(run: seq<Journal.State>, steps: seq<Journal.Step>, t: Journal.Tid, op: seq<nat>, k: nat)
    requires Journal.IsRun(run, steps) && FileBlocks.FitsLog(op) && k < |op|
    requires t in run[|run| - 1].ops.open
    requires run[|run| - 1].ops.open[t].logged == Elements(op[..k])
    ensures !Journal.LogWritePanics(run[|run| - 1])
    ensures |run[|run| - 1].ops.open[t].logged| < Journal.MAXOPBLOCKS
  {
    SubsetSize(Elements(op[..k]), Elements(op[..|op| - 1]));
    Journal.NoOverflow(run, steps, |run| - 1, t);
  }
}
