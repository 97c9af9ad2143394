/** No starvation in whole runs: how many selections a task of the ring waits for. */
module Fairness {
  import opened Sequences
  import opened Runs
  import opened Boot
  import opened RealTime

  /** An event that creates, kills or puts to sleep changes who competes. */
  predicate SameRivals(e: Event)
  {
    !e.CallCreate? && !e.CallSleep? && !e.CallKill?
  }

  /** The selecting events from a to b. */
  ghost function Selections(ws: seq<World>, es: seq<Event>, a: nat, b: nat): nat
    requires IsRun(ws, es) && a <= b < |ws|
    decreases b - a
  {
    if a == b then 0 else (if Selects(ws[a], es[a]) then 1 else 0) + Selections(ws, es, a + 1, b)
  }

  /** A selection either lengthens the ring by a task from the time queue, or moves it on by one and
      picks its new head; no other event between rivals touches the queues. */
  lemma QueueStep(w: World, e: Event)
    requires Inv(w) && Enabled(w, e) && SameRivals(e)
    ensures var (k, k') := (w.k, Next(w, e).k);
      if !Selects(w, e) then k'.ring == k.ring && k'.timeQ == k.timeQ
      else
        || (k'.ring == k.ring + [Selected(w, e)] && |k'.timeQ| == |k.timeQ| - 1)
        || (k'.ring == Rotated(k.ring) && k'.timeQ == k.timeQ && Selected(w, e) == k'.ring[0])
  {
  }

  ghost predicate PickedIn(ws: seq<World>, es: seq<Event>, a: nat, b: nat, p: nat)
    requires IsRun(ws, es) && b < |ws|
  {
    exists j: nat :: a <= j < b && Picks(ws[j], es[j], p)
  }

  /** Over any run between creations, sleeps and kills, and whatever the clock does, a task d places
      behind the ring's head is picked within d selections plus one for each sleeping task. */
  lemma {:induction false} RunBehindHead(ws: seq<World>, es: seq<Event>, a: nat, b: nat, d: nat)
    requires IsRun(ws, es) && Inv(ws[0]) && a <= b < |ws|
    requires forall i :: a <= i < b ==> SameRivals(es[i])
    requires 1 <= d < |ws[a].k.ring| && Selections(ws, es, a, b) >= d + |ws[a].k.timeQ|
    ensures PickedIn(ws, es, a, b, ws[a].k.ring[d])
    decreases b - a
  {
    hide Inv, Enabled, Next, Selects, Selected;
    ReachableInv(ws, es, a);
    QueueStep(ws[a], es[a]);
    var p, c := ws[a].k.ring[d], a + 1;
    assert ws[c] == Next(ws[a], es[a]);
    if !Picks(ws[a], es[a], p) {
      if !Selects(ws[a], es[a]) || |ws[c].k.timeQ| < |ws[a].k.timeQ| {
        assert ws[c].k.ring[d] == p;
        RunBehindHead(ws, es, c, b, d);
      } else {
        assert ws[c].k.ring[d - 1] == p;
        RunBehindHead(ws, es, c, b, d - 1);
      }
      PickedEarlier(ws, es, a, b, p);
    }
  }

  lemma PickedEarlier(ws: seq<World>, es: seq<Event>, a: nat, b: nat, p: nat)
    requires IsRun(ws, es) && a < b < |ws| && PickedIn(ws, es, a + 1, b, p)
    ensures PickedIn(ws, es, a, b, p)
  {
  }

  /** The head itself waits for a full round of the ring, which every sleeping task lengthens by the
      place it takes and by the selection it uses up. */
  lemma {:induction false} RunOfHead(ws: seq<World>, es: seq<Event>, a: nat, b: nat)
    requires IsRun(ws, es) && Inv(ws[0]) && a <= b < |ws|
    requires forall i :: a <= i < b ==> SameRivals(es[i])
    requires ws[a].k.ring != [] && Selections(ws, es, a, b) >= |ws[a].k.ring| + 2 * |ws[a].k.timeQ|
    ensures PickedIn(ws, es, a, b, ws[a].k.ring[0])
    decreases b - a
  {
    hide Inv, Enabled, Next, Selects, Selected;
    ReachableInv(ws, es, a);
    QueueStep(ws[a], es[a]);
    var p, c, n := ws[a].k.ring[0], a + 1, |ws[a].k.ring|;
    assert ws[c] == Next(ws[a], es[a]);
    if !Picks(ws[a], es[a], p) {
      if !Selects(ws[a], es[a]) || |ws[c].k.timeQ| < |ws[a].k.timeQ| {
        RunOfHead(ws, es, c, b);
      } else {
        assert ws[c].k.ring[n - 1] == p;
        RunBehindHead(ws, es, c, b, n - 1);
      }
      PickedEarlier(ws, es, a, b, p);
    }
  }
}
