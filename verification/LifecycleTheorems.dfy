/**
  What holds of whole orderly runs of concurrent runtime commands.

  A run is orderly when the world was quiet (the directory there, no create in flight, no launched
  monitor that has yet to fork init) as each delete that removes the directory went on to destroy, and
  nobody removed it in between. `LifecycleDelete` says when that may be relaxed, `LifecycleEveryRun`
  and `LifecycleCalm` what holds of more runs.
 */
module LifecycleTheorems {
  import opened Options
  import opened Lifecycle
  import opened LifecycleFiles
  import opened LifecycleInvariant
  import opened LifecycleSafety
  import opened LifecycleEveryRun

  // ---------------------------------------------------------------- runs

  lemma {:induction false} RunKeepsInv(ws: seq<World>, es: seq<Event>, k: nat)
    requires Orderly(ws, es) && k < |ws|
    ensures Inv(ws[k])
  {
    if k > 0 {
      RunKeepsInv(ws, es, k - 1);
      assert Leads(ws, es, k - 1) && OrderlyAt(ws, es, k - 1);
      EventKeepsInv(ws[k - 1], es[k - 1]);
    }
  }

  // The part of one generation that only grows.
  predicate Grows(s: Sys, t: Sys) {
    && t.gen >= s.gen
    && (t.gen == s.gen ==> Settled(s, t) && Progress(s) <= Progress(t))
  }

  lemma EventGrows(w: World, e: Event)
    requires Inv(w) && OrderlyStep(w, e)
    ensures Grows(w.sys, Next(w, e).sys)
  {
    match e
    case Step(p) =>
      if Removes(w, e) { RemovalIsRemove(w, p); }
      else if p in w.procs { EffectKeeps(w, p, Does(w, p)); }
    case Abort(p) =>
    case Invoke(p, cmd) =>
    case _ => SystemLater(w, e, Next(w, e).sys, 0);
  }

  lemma GrowsOn(s: Sys, t: Sys, u: Sys)
    requires Grows(s, t) && Grows(t, u)
    ensures Grows(s, u)
  {
  }

  lemma RunStepGrows(ws: seq<World>, es: seq<Event>, i: nat)
    requires Orderly(ws, es) && i < |es|
    ensures Grows(ws[i].sys, ws[i + 1].sys)
  {
    RunKeepsInv(ws, es, i);
    assert Leads(ws, es, i) && OrderlyAt(ws, es, i);
    EventGrows(ws[i], es[i]);
  }

  lemma {:induction false} RunGrows(ws: seq<World>, es: seq<Event>, i: nat, j: nat)
    requires Orderly(ws, es) && i <= j < |ws|
    ensures Grows(ws[i].sys, ws[j].sys)
  {
    if i < j {
      RunGrows(ws, es, i, j - 1);
      RunStepGrows(ws, es, j - 1);
      GrowsOn(ws[i].sys, ws[j - 1].sys, ws[j].sys);
    }
  }

  // ---------------------------------------------------------------- create

  // A create that returned nil left its config, its pid file with its monitor's pid, and a container
  // whose init had been crio-lxc-init.
  lemma CreateReturnsCreated(ws: seq<World>, es: seq<Event>, k: nat, p: Pid)
    requires Orderly(ws, es) && k < |ws| && p in ws[k].procs
    requires var q := ws[k].procs[p]; q.cmd.Create? && q.pc == Done(true) && q.gen == ws[k].sys.gen
    ensures var s := ws[k].sys;
            && s.config.Some? && s.config.value.data == Full(p)
            && p in s.pidFile && s.pidFile[p] == Full(p)
            && s.mon.launcher == p && Booted(s.mon) && SawCreated in ws[k].procs[p].marks
  {
    RunKeepsInv(ws, es, k);
    assert ProcOk(ws[k].sys, p, ws[k].procs[p]) && CreatorOk(ws[k].sys, p, ws[k].procs[p]) && TypeOk(ws[k].procs[p]);
  }

  // ---------------------------------------------------------------- start

  // Among any number of starts at most one reads the message of a FIFO.
  lemma OneStartReadsFifo(ws: seq<World>, es: seq<Event>, k: nat, p: Pid, q: Pid)
    requires Orderly(ws, es) && k < |ws| && p in ws[k].procs && q in ws[k].procs
    requires Got in ws[k].procs[p].marks && Got in ws[k].procs[q].marks
    requires ws[k].procs[p].fifoGen == ws[k].procs[q].fifoGen
    ensures p == q
  {
    RunKeepsInv(ws, es, k);
  }

  // A start that returned nil read the message, and init had left the created state.
  lemma StartReturnsStarted(ws: seq<World>, es: seq<Event>, k: nat, p: Pid)
    requires Orderly(ws, es) && k < |ws| && p in ws[k].procs
    requires var q := ws[k].procs[p]; q.cmd.Start? && q.pc == Done(true) && q.fifoGen == ws[k].sys.gen
    ensures Got in ws[k].procs[p].marks && Progress(ws[k].sys) >= 1
  {
    RunKeepsInv(ws, es, k);
    assert ProcOk(ws[k].sys, p, ws[k].procs[p]);
  }

  // The "created" that a create observed was that of its own container.
  lemma CreateObservesItsOwn(ws: seq<World>, es: seq<Event>, j: nat, p: Pid)
    requires Orderly(ws, es) && Observes(ws, es, j, p) && ws[j].procs[p].cmd.Create?
    ensures ws[j].sys.mon.launcher == p
  {
    RunKeepsInv(ws, es, j);
    assert CreatorOk(ws[j].sys, p, ws[j].procs[p]);
  }

  lemma CommandKept(w: World, e: Event, p: Pid)
    requires Inv(w) && p in w.procs
    ensures p in Next(w, e).procs && Next(w, e).procs[p].cmd == w.procs[p].cmd
  {
    if e == Step(p) {
      if Removes(w, e) { RemovalIsRemove(w, p); } else { CommandStays(w, p, Does(w, p)); }
    }
  }

  // ---------------------------------------------------------------- state

  // A state call that found the runtime directory and is still asking, or has its answer.
  predicate Looked(w: World, p: Pid) {
    p in w.procs && w.procs[p].cmd.State? && !w.procs[p].pc.LoadStat?
    && (w.procs[p].pc.Done? ==> w.procs[p].report.Some?)
  }

  lemma LoadLooks(s: Sys, p: Pid, q: Proc, quiet: bool)
    requires q.cmd.State? && q.report.None?
    ensures var r := StepLoad(s, p, q, quiet).proc;
            r.report.None? && (if q.pc.LoadStat? then r.pc.Done? || (r.since == Progress(s) && r.gen == s.gen)
                               else r.since == q.since && r.gen == q.gen)
  {
  }

  lemma QueryLooks(s: Sys, p: Pid, q: Proc)
    ensures var r := StepQuery(s, p, q).proc; r.since == q.since && r.gen == q.gen
  {
  }

  // A state call that looks for the first time does so by its stat of the directory.
  lemma StepLooks(w: World, p: Pid)
    requires Inv(w) && p in w.procs && w.procs[p].cmd.State?
    ensures var q, r := w.procs[p], Does(w, p).proc;
            if q.pc.LoadStat? then (r.pc.Done? && r.report.None?) || (r.since == Progress(w.sys) && r.gen == w.sys.gen)
            else r.since == q.since && r.gen == q.gen && (q.pc.Done? ==> r == q)
  {
    var q := w.procs[p];
    assert ProcOk(w.sys, p, q) && TypeOk(q);
    var pc := q.pc;
    if pc.LoadStat? || pc.LoadInfo? || pc.LoadCfgStat? || pc.LoadCfgRead? { LoadLooks(w.sys, p, q, IsQuiet(w)); }
    else if pc.TPid? || pc.QState? || pc.QPid? || pc.QCmd? { QueryLooks(w.sys, p, q); }
  }

  lemma LooksByStat(w: World, e: Event, p: Pid)
    requires Inv(w) && Looked(Next(w, e), p)
    ensures p in w.procs
    ensures var q, r := w.procs[p], Next(w, e).procs[p];
            if Looked(w, p) then r.since == q.since && r.gen == q.gen
            else q.pc.LoadStat? && r.since == Progress(w.sys) && r.gen == w.sys.gen
  {
    if e == Step(p) && p in w.procs {
      CommandKept(w, e, p);
      StepLooks(w, p);
    }
  }

  lemma LookedStep(ws: seq<World>, es: seq<Event>, k: nat, p: Pid)
    requires Orderly(ws, es) && 0 < k < |ws| && Looked(ws[k], p)
    ensures p in ws[k - 1].procs
    ensures var q, r := ws[k - 1].procs[p], ws[k].procs[p];
            if Looked(ws[k - 1], p) then r.since == q.since && r.gen == q.gen
            else r.since == Progress(ws[k - 1].sys) && r.gen == ws[k - 1].sys.gen
  {
    RunKeepsInv(ws, es, k - 1);
    assert Leads(ws, es, k - 1);
    LooksByStat(ws[k - 1], es[k - 1], p);
  }

  // One step of the argument: q looked in world v already, or it looks in the step from v to w.
  lemma SinceStep(u: World, v: World, w: World, p: Pid)
    requires Grows(u.sys, v.sys) && Grows(v.sys, w.sys) && p in v.procs && p in w.procs
    requires w.procs[p].gen == w.sys.gen == u.sys.gen
    requires if Looked(v, p) then w.procs[p].since == v.procs[p].since && w.procs[p].gen == v.procs[p].gen
             else w.procs[p].since == Progress(v.sys)
    requires Looked(v, p) && v.procs[p].gen == v.sys.gen ==> Progress(u.sys) <= v.procs[p].since
    ensures Progress(u.sys) <= w.procs[p].since
  {
  }

  // What it takes as the least possible answer is the progress of a moment after i.
  lemma {:induction false} LookedSince(ws: seq<World>, es: seq<Event>, i: nat, k: nat, p: Pid)
    requires Orderly(ws, es) && i <= k < |ws| && Looked(ws[k], p) && !Looked(ws[i], p)
    requires ws[k].procs[p].gen == ws[k].sys.gen == ws[i].sys.gen
    ensures Progress(ws[i].sys) <= ws[k].procs[p].since
  {
    LookedStep(ws, es, k, p);
    RunGrows(ws, es, i, k - 1);
    RunStepGrows(ws, es, k - 1);
    if Looked(ws[k - 1], p) && ws[k - 1].procs[p].gen == ws[k - 1].sys.gen { LookedSince(ws, es, i, k - 1, p); }
    SinceStep(ws[i], ws[k - 1], ws[k], p);
  }

  predicate Reports(w: World, p: Pid) {
    p in w.procs && w.procs[p].report.Some?
  }

  // A successful state call never reports creating.
  lemma NeverReportsCreating(ws: seq<World>, es: seq<Event>, k: nat, p: Pid)
    requires Orderly(ws, es) && k < |ws| && Reports(ws[k], p) && ws[k].procs[p].gen == ws[k].sys.gen
    ensures ws[k].procs[p].pc == Done(true) && !ws[k].procs[p].report.value.Creating?
    ensures Order(ws[k].procs[p].report.value) <= Progress(ws[k].sys)
  {
    RunKeepsInv(ws, es, k);
    assert ProcOk(ws[k].sys, p, ws[k].procs[p]);
  }

  // When one call has its report before another looks, the second never reports an earlier status.
  lemma StatesNeverGoBack(ws: seq<World>, es: seq<Event>, i: nat, k: nat, p: Pid, q: Pid)
    requires Orderly(ws, es) && i <= k < |ws| && Reports(ws[i], p) && Reports(ws[k], q) && !Looked(ws[i], q)
    requires ws[i].procs[p].gen == ws[k].procs[q].gen == ws[k].sys.gen
    ensures Order(ws[i].procs[p].report.value) <= Order(ws[k].procs[q].report.value)
  {
    RunKeepsInv(ws, es, i);
    RunKeepsInv(ws, es, k);
    RunGrows(ws, es, i, k);
    assert CreatorOk(ws[i].sys, p, ws[i].procs[p]) && ProcOk(ws[i].sys, p, ws[i].procs[p]);
    assert ProcOk(ws[k].sys, q, ws[k].procs[q]);
    LookedSince(ws, es, i, k, q);
  }

  // ---------------------------------------------------------------- delete

  // At every removal no create is in flight and no init process is alive; on the drained path the
  // container's cgroup is empty.
  lemma RemovalIsSafe(ws: seq<World>, es: seq<Event>, k: nat)
    requires Orderly(ws, es) && k < |es| && Removes(ws[k], es[k])
    ensures forall p | p in ws[k].procs :: !InFlight(ws[k].procs[p])
    ensures !Alive(ws[k].sys.mon.init)
    ensures Drained in ws[k].procs[es[k].p].marks ==> !Populated(ws[k].sys)
  {
    RunKeepsInv(ws, es, k);
    assert OrderlyAt(ws, es, k);
    var p := es[k].p;
    RemoveAdvances(ws[k], p, StepRemove(ws[k].sys, p, ws[k].procs[p]));
    assert DeleteOk(ws[k], ws[k].procs[p]) && ProcOk(ws[k].sys, p, ws[k].procs[p]);
  }
}
