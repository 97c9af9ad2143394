/** A periodic task in the running system. */
module Periodic {
  import opened Scheduler
  import opened Runs
  import opened RealTime
  import Runner

  /** Release jitter: after its n-th job a periodic task sleeps until its n-th release, and goes to some
      position of the time queue. If it and all ahead of it are to wake by M, nobody kills it or gets
      ahead of it, and systicks are prompt by P, it is selected for the next job later than 1000 us
      before that release, and within P times its place of M - 1000 us or of the latest systick. The
      window does not depend on when the earlier jobs ran. */
  lemma ReleaseJitter(ws: seq<World>, es: seq<Event>, i: nat, a: nat, b: nat, start: nat,
                      frequency: nat, n: nat, pos: nat, M: nat, P: nat)
    requires IsRun(ws, es) && Inv(ws[0]) && a == i + 1 < b < |ws| && WellFormed(ws[a].k)
    requires frequency > 0 && es[i].CallSleep? && es[i].wake == Runner.Release(start, frequency, n) != 0
    requires pos < |ws[a].k.timeQ| && ws[a].k.timeQ[pos] == ws[i].k.running
    requires forall q :: 0 <= q <= pos ==> ws[a].k.tasks[ws[a].k.timeQ[q]].nextRun <= M
    requires forall m :: i < m < b ==> LeftToWait(ws[m], es[m], ws[i].k.running, P)
    requires ws[b].clock > LineStart(ws[a], M) + (pos + 1) * P
    ensures exists j :: i < j < b && Picks(ws[j], es[j], ws[i].k.running)
              && Runner.Release(start, frequency, n) < LastRead(ws[j], es[j]) + TICK_US
              && LastRead(ws[j], es[j]) <= LineStart(ws[a], M) + (pos + 1) * P
  {
    hide Inv, Enabled, Next, Picks, LeftToWait, Runner.Release;
    SleeperBound(ws, es, a, b, pos, M, P);
    var j :| a <= j < b && Picks(ws[j], es[j], ws[i].k.running)
             && LastRead(ws[j], es[j]) <= LineStart(ws[a], M) + (pos + 1) * P;
    NoEarlyWake(ws, es, i, j);
  }
}
