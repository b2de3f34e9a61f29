/**
  The files of the runtime directory in calm runs: no delete removes it while a create is between making
  container.json and the rename in saveConfig.

  Nothing is asked about creates before or after that, about when the monitor was launched or what init
  does, and every command may crash after any step. `LifecycleLimits` shows that no less will do.
 */
module LifecycleCalm {
  import opened Options
  import opened Lifecycle
  import opened LifecycleEveryRun
  import opened LifecycleFiles
  import opened LifecycleInvariant

  // A removal of the directory finds a create that has made container.json and not saved its config.
  ghost predicate FindsUnsaved(w: World, e: Event) {
    Removes(w, e) && exists p | p in w.procs :: w.procs[p].cmd.Create? && Unsaved(w.procs[p].pc)
  }

  ghost predicate Calm(ws: seq<World>, es: seq<Event>) {
    IsRun(ws, es) && forall i | 0 <= i < |es| :: !FindsUnsaved(ws[i], es[i])
  }

  // What such a create holds: container.json from its exclusive creation on, and .config from the open
  // in SaveConfigFile to the rename.
  predicate SaverOk(s: Sys, p: Pid, q: Proc) {
    && q.gen <= s.gen
    && (q.cmd.Create? ==>
      && (Saved in q.marks ==> Won in q.marks)
      && match q.pc
         case CStat | CStatAgain | CMkdir | CTmp | CInfo => Won !in q.marks && Saved !in q.marks
         case CInfoWrite => Won !in q.marks && HoldsInfo(s, p)
         case CFifo | CSaveTmp | CSaveCfg | CSaveOpen => Won in q.marks && Saved !in q.marks && HoldsInfo(s, p)
         case CSaveWrite => Won in q.marks && Saved !in q.marks && HoldsInfo(s, p) && HoldsTmp(s, q.handle)
         case CRename =>
           Won in q.marks && Saved !in q.marks && HoldsInfo(s, p) && s.tmp.Some? && s.tmp.value.data == Full(p)
         case _ => true)
  }

  ghost predicate CalmInv(w: World) {
    && Typed(w) && FilesOk(w.sys, w.procs)
    && (forall p | p in w.procs :: SaverOk(w.sys, p, w.procs[p]))
    && (forall p | p in w.procs :: LoaderOk(w.sys, w.procs[p]))
  }

  // ---------------------------------------------------------------- one step and the files

  // What another process's step may do to the files without disturbing a create that holds container.json.
  predicate SparesHolder(s: Sys, t: Sys, r: Pid) {
    t.gen == s.gen && (HoldsInfo(s, r) ==> HoldsInfo(t, r) && (s.tmp.Some? ==> t.tmp == s.tmp))
  }

  ghost predicate KeepsFiles(w: World, p: Pid, e: Effect) {
    && SaverOk(e.sys, p, e.proc)
    && FilesOk(e.sys, w.procs[p := e.proc])
    && (forall r | r != p :: SparesHolder(w.sys, e.sys, r))
    && Settled(w.sys, e.sys)
  }

  ghost predicate SaverIn(w: World, p: Pid) {
    FilesOk(w.sys, w.procs) && p in w.procs && w.procs[p].cmd.Create? && SaverOk(w.sys, p, w.procs[p])
  }

  // A step that touches no file.
  lemma LeavesFiles(w: World, p: Pid, e: Effect)
    requires FilesOk(w.sys, w.procs) && p in w.procs && SameFiles(w.sys, e.sys) && SaverOk(e.sys, p, e.proc)
    requires e.proc.cmd == w.procs[p].cmd && SameClaims(w.procs[p], e.proc)
    ensures KeepsFiles(w, p, e)
  {
  }

  lemma EndLeavesFiles(w: World, p: Pid, ok: bool)
    requires FilesOk(w.sys, w.procs) && p in w.procs && SaverOk(w.sys, p, w.procs[p])
    ensures KeepsFiles(w, p, End(w.sys, p, w.procs[p], ok))
  {
    CloseTouchesNoFile(w.sys, p, w.procs[p].fifoGen);
    LeavesFiles(w, p, End(w.sys, p, w.procs[p], ok));
  }

  lemma CheckKeepsFiles(w: World, p: Pid)
    requires SaverIn(w, p) && !Unsaved(w.procs[p].pc) && !w.procs[p].pc.CSpawn? && !LateCall(w.procs[p].pc)
    requires !w.procs[p].pc.CTmp? && !w.procs[p].pc.CInfo?
    ensures KeepsFiles(w, p, StepCheck(w.sys, p, w.procs[p]))
  {
    EndLeavesFiles(w, p, false);
  }

  lemma TmpKeepsFiles(w: World, p: Pid)
    requires SaverIn(w, p) && w.procs[p].pc.CTmp?
    ensures KeepsFiles(w, p, StepTmp(w.sys, p, w.procs[p]))
  {
    EndLeavesFiles(w, p, false);
  }

  lemma InfoKeepsFiles(w: World, p: Pid)
    requires SaverIn(w, p) && (w.procs[p].pc.CInfo? || w.procs[p].pc.CInfoWrite?)
    ensures KeepsFiles(w, p, StepInfo(w.sys, p, w.procs[p]))
  {
    EndLeavesFiles(w, p, false);
  }

  lemma MkfifoKeepsFiles(w: World, p: Pid)
    requires SaverIn(w, p) && w.procs[p].pc.CFifo?
    ensures KeepsFiles(w, p, StepMkfifo(w.sys, p, w.procs[p]))
  {
    EndLeavesFiles(w, p, false);
  }

  lemma SaveKeepsFiles(w: World, p: Pid)
    requires SaverIn(w, p)
    requires var pc := w.procs[p].pc; pc.CSaveTmp? || pc.CSaveCfg? || pc.CSaveOpen? || pc.CSaveWrite?
    ensures KeepsFiles(w, p, StepSave(w.sys, p, w.procs[p]))
  {
    EndLeavesFiles(w, p, false);
  }

  lemma RenameKeepsFiles(w: World, p: Pid)
    requires SaverIn(w, p) && w.procs[p].pc.CRename?
    ensures KeepsFiles(w, p, StepRename(w.sys, p, w.procs[p]))
  {
    EndLeavesFiles(w, p, false);
  }

  lemma SpawnKeepsFiles(w: World, p: Pid)
    requires SaverIn(w, p) && w.procs[p].pc.CSpawn?
    ensures KeepsFiles(w, p, StepSpawn(w.sys, p, w.procs[p]))
  {
    LateTouchesNoFile(w.sys, p, w.procs[p]);
    LeavesFiles(w, p, StepSpawn(w.sys, p, w.procs[p]));
  }

  lemma WaitKeepsFiles(w: World, p: Pid)
    requires SaverIn(w, p) && (w.procs[p].pc.QState? || w.procs[p].pc.QPid? || w.procs[p].pc.QCmd?)
    ensures KeepsFiles(w, p, StepWait(w.sys, p, w.procs[p]))
  {
    LateTouchesNoFile(w.sys, p, w.procs[p]);
    LeavesFiles(w, p, StepWait(w.sys, p, w.procs[p]));
  }

  lemma PidFileKeepsFiles(w: World, p: Pid)
    requires SaverIn(w, p) && (w.procs[p].pc.CPidTmp? || w.procs[p].pc.CPidWrite? || w.procs[p].pc.CPidRename?)
    ensures KeepsFiles(w, p, StepPidFile(w.sys, p, w.procs[p]))
  {
    LateTouchesNoFile(w.sys, p, w.procs[p]);
    LeavesFiles(w, p, StepPidFile(w.sys, p, w.procs[p]));
  }

  lemma CreateKeepsFiles(w: World, p: Pid)
    requires SaverIn(w, p)
    ensures KeepsFiles(w, p, StepCreate(w.sys, p, w.procs[p]))
  {
    var pc := w.procs[p].pc;
    if pc.CTmp? { TmpKeepsFiles(w, p); }
    else if pc.CInfo? || pc.CInfoWrite? { InfoKeepsFiles(w, p); }
    else if pc.CFifo? { MkfifoKeepsFiles(w, p); }
    else if pc.CRename? { RenameKeepsFiles(w, p); }
    else if Unsaved(pc) { SaveKeepsFiles(w, p); }
    else if pc.CSpawn? { SpawnKeepsFiles(w, p); }
    else if pc.QState? || pc.QPid? || pc.QCmd? { WaitKeepsFiles(w, p); }
    else if LateCall(pc) { PidFileKeepsFiles(w, p); }
    else { CheckKeepsFiles(w, p); }
  }

  lemma StepKeepsFiles(w: World, p: Pid, quiet: bool)
    requires CalmInv(w) && p in w.procs && !Removes(w, Step(p))
    ensures KeepsFiles(w, p, StepProc(w.sys, p, w.procs[p], quiet))
  {
    var q := w.procs[p];
    if q.cmd.Create? {
      CreateKeepsFiles(w, p);
    } else if q.pc.Remove? {
      EndLeavesFiles(w, p, true);
    } else {
      OthersPlain(w.sys, p, q, quiet);
      LeavesFiles(w, p, StepProc(w.sys, p, q, quiet));
    }
  }

  // ---------------------------------------------------------------- one step and the loaders

  lemma LoadLoads(w: World, p: Pid, quiet: bool)
    requires CalmInv(w) && p in w.procs && !w.procs[p].cmd.Create?
    requires var pc := w.procs[p].pc; pc.LoadStat? || pc.LoadInfo? || pc.LoadCfgStat? || pc.LoadCfgRead?
    ensures var e := StepLoad(w.sys, p, w.procs[p], quiet); LoaderOk(e.sys, e.proc)
  {
  }

  // What loadContainer read is kept, and nothing is loaded again.
  predicate Remembers(q: Proc, r: Proc) {
    && r.info == q.info && r.cfg == q.cfg && r.gen == q.gen && r.cmd == q.cmd
    && (Loaded in r.marks <==> Loaded in q.marks)
    && (r.report == q.report || (r.cmd.State? && r.pc.Done?)) && (r.pc.Done? || q.pc.Done? ==> r.pc.Done?)
    && (r == q || !(r.pc.LoadStat? || r.pc.LoadInfo? || r.pc.LoadCfgStat? || r.pc.LoadCfgRead? || r.pc.TPid?))
    && (r.pc.QState? || r.pc.QPid? || r.pc.QCmd? ==> r == q || q.pc.TPid? || q.pc.QState? || q.pc.QPid?)
  }

  lemma QueryRemembers(s: Sys, p: Pid, q: Proc)
    requires q.pc.TPid? || q.pc.QState? || q.pc.QPid? || q.pc.QCmd?
    ensures Remembers(q, StepQuery(s, p, q).proc)
  {
  }

  lemma FifoRemembers(s: Sys, p: Pid, q: Proc)
    requires q.pc.FOpen? || q.pc.FWait? || q.pc.FRead? || q.pc.WPid? || q.pc.WCmd?
    ensures Remembers(q, StepFifo(s, p, q).proc)
  {
  }

  lemma KillRemembers(s: Sys, p: Pid, q: Proc, quiet: bool)
    ensures Remembers(q, StepKill(s, p, q, quiet).proc)
  {
  }

  lemma RemembersLoad(s: Sys, t: Sys, q: Proc, r: Proc)
    requires LoaderOk(s, q) && Remembers(q, r) && SameFiles(s, t) && !q.cmd.Create?
    requires q.pc.LoadStat? || q.pc.Done? ==> r == q
    ensures LoaderOk(t, r)
  {
  }

  lemma OthersLoad(w: World, p: Pid, quiet: bool)
    requires CalmInv(w) && p in w.procs && !w.procs[p].cmd.Create? && !w.procs[p].pc.Remove?
    requires var pc := w.procs[p].pc; !pc.LoadStat? && !pc.LoadInfo? && !pc.LoadCfgStat? && !pc.LoadCfgRead?
    ensures var e := StepProc(w.sys, p, w.procs[p], quiet); LoaderOk(e.sys, e.proc)
  {
    var s, q := w.sys, w.procs[p];
    var pc := q.pc;
    assert TypeOk(q) && LoaderOk(s, q);
    if pc.TPid? || pc.QState? || pc.QPid? || pc.QCmd? { QueryRemembers(s, p, q); }
    else if pc.FOpen? || pc.FWait? || pc.FRead? || pc.WPid? || pc.WCmd? { FifoRemembers(s, p, q); }
    else { KillRemembers(s, p, q, quiet); }
    OthersPlain(s, p, q, quiet);
    var e := StepProc(s, p, q, quiet);
    RemembersLoad(s, e.sys, q, e.proc);
  }

  lemma StepLoads(w: World, p: Pid, quiet: bool)
    requires CalmInv(w) && p in w.procs && !Removes(w, Step(p))
    ensures var e := StepProc(w.sys, p, w.procs[p], quiet); LoaderOk(e.sys, e.proc)
  {
    var q := w.procs[p];
    var pc := q.pc;
    assert LoaderOk(w.sys, q);
    if q.cmd.Create? { CreateRecords(w.sys, p, q); }
    else if pc.LoadStat? || pc.LoadInfo? || pc.LoadCfgStat? || pc.LoadCfgRead? { LoadLoads(w, p, quiet); }
    else if !pc.Remove? { OthersLoad(w, p, quiet); }
  }

  lemma LoaderSettled(s: Sys, t: Sys, q: Proc)
    requires LoaderOk(s, q) && Settled(s, t)
    ensures LoaderOk(t, q)
  {
  }

  // ---------------------------------------------------------------- every event

  lemma EffectKeepsCalm(w: World, p: Pid, e: Effect)
    requires CalmInv(w) && KeepsFiles(w, p, e) && LoaderOk(e.sys, e.proc) && Typed(Put(w, p, e))
    ensures CalmInv(Put(w, p, e))
  {
    forall r | r in w.procs && r != p ensures SaverOk(e.sys, r, w.procs[r]) && LoaderOk(e.sys, w.procs[r]) {
      assert SaverOk(w.sys, r, w.procs[r]) && LoaderOk(w.sys, w.procs[r]) && SparesHolder(w.sys, e.sys, r);
      LoaderSettled(w.sys, e.sys, w.procs[r]);
    }
  }

  lemma RemoveKeepsCalm(w: World, p: Pid)
    requires CalmInv(w) && Removes(w, Step(p)) && !FindsUnsaved(w, Step(p))
    ensures CalmInv(Next(w, Step(p)))
  {
    EventKeepsTypes(w, Step(p));
    var q := w.procs[p];
    assert TypeOk(q);
    var e := StepRemove(w.sys, p, q);
    assert Next(w, Step(p)) == Put(w, p, e);
    forall r | r in w.procs && r != p ensures SaverOk(e.sys, r, w.procs[r]) && LoaderOk(e.sys, w.procs[r]) {
      assert SaverOk(w.sys, r, w.procs[r]) && LoaderOk(w.sys, w.procs[r]);
    }
  }

  lemma StepKeepsCalm(w: World, p: Pid)
    requires CalmInv(w) && p in w.procs && !Removes(w, Step(p)) && Typed(Next(w, Step(p)))
    ensures CalmInv(Next(w, Step(p)))
  {
    StepKeepsFiles(w, p, IsQuiet(w));
    StepLoads(w, p, IsQuiet(w));
    EffectKeepsCalm(w, p, StepProc(w.sys, p, w.procs[p], IsQuiet(w)));
  }

  lemma AbortKeepsCalm(w: World, p: Pid)
    requires CalmInv(w) && p in w.procs && !w.procs[p].pc.Done? && Typed(Next(w, Abort(p)))
    ensures CalmInv(Next(w, Abort(p)))
  {
    EndLeavesFiles(w, p, false);
    EffectKeepsCalm(w, p, End(w.sys, p, w.procs[p], false));
  }

  lemma EventKeepsCalm(w: World, e: Event)
    requires CalmInv(w) && !FindsUnsaved(w, e)
    ensures CalmInv(Next(w, e))
  {
    EventKeepsTypes(w, e);
    match e
    case Step(p) =>
      if Removes(w, e) { RemoveKeepsCalm(w, p); }
      else if p in w.procs { StepKeepsCalm(w, p); }
    case Abort(p) => if p in w.procs && !w.procs[p].pc.Done? { AbortKeepsCalm(w, p); }
    case Invoke(p, cmd) =>
      if p !in w.procs { EffectKeepsCalm(w, p, Effect(w.sys, Fresh(cmd))); }
    case _ =>
      SystemEvent(w, e);
      SystemKeepsCalm(w, Next(w, e).sys);
  }

  lemma SystemKeepsCalm(w: World, t: Sys)
    requires CalmInv(w) && SameFiles(w.sys, t) && Typed(World(t, w.procs))
    ensures CalmInv(World(t, w.procs))
  {
    forall r | r in w.procs ensures SaverOk(t, r, w.procs[r]) && LoaderOk(t, w.procs[r]) {
      assert SaverOk(w.sys, r, w.procs[r]) && LoaderOk(w.sys, w.procs[r]);
      LoaderSettled(w.sys, t, w.procs[r]);
    }
  }

  // ---------------------------------------------------------------- whole runs

  lemma {:induction false} RunKeepsCalm(ws: seq<World>, es: seq<Event>, k: nat)
    requires Calm(ws, es) && k < |ws|
    ensures CalmInv(ws[k])
  {
    if k > 0 {
      RunKeepsCalm(ws, es, k - 1);
      assert Leads(ws, es, k - 1);
      EventKeepsCalm(ws[k - 1], es[k - 1]);
    }
  }

  // Process p loaded the container of the current generation, and all it read was written by the one
  // create that won, which saved its config.
  ghost predicate LoadedOneCreate(w: World, p: Pid)
    requires p in w.procs
  {
    var q := w.procs[p];
    && q.info.Full? && q.cfg == q.info && q.info.owner in w.procs
    && Won in w.procs[q.info.owner].marks && Saved in w.procs[q.info.owner].marks
    && w.sys.info == Some(File(q.info.owner, q.info))
    && w.sys.config.Some? && w.sys.config.value.data == q.info
  }

  // What loadContainer read was complete, and all of it was written by the one create that won.
  lemma LoadedFilesAreTheWinners(ws: seq<World>, es: seq<Event>, k: nat, p: Pid)
    requires Calm(ws, es) && k < |ws| && p in ws[k].procs && Loaded in ws[k].procs[p].marks
    requires ws[k].procs[p].gen == ws[k].sys.gen
    ensures LoadedOneCreate(ws[k], p)
  {
    RunKeepsCalm(ws, es, k);
    assert LoaderOk(ws[k].sys, ws[k].procs[p]);
  }

  predicate SettledOrRemoved(s: Sys, t: Sys) {
    t.gen >= s.gen && (t.gen == s.gen ==> Settled(s, t))
  }

  lemma RemovalGrows(w: World, p: Pid)
    requires Typed(w) && Removes(w, Step(p))
    ensures Next(w, Step(p)).sys.gen > w.sys.gen
  {
    assert TypeOk(w.procs[p]);
  }

  lemma EventSettles(w: World, e: Event)
    requires CalmInv(w)
    ensures SettledOrRemoved(w.sys, Next(w, e).sys)
  {
    match e
    case Step(p) =>
      if Removes(w, e) { RemovalGrows(w, p); }
      else if p in w.procs { StepKeepsFiles(w, p, IsQuiet(w)); }
    case Abort(p) => if p in w.procs { CloseTouchesNoFile(w.sys, p, w.procs[p].fifoGen); }
    case Invoke(p, cmd) =>
    case _ => SystemEvent(w, e);
  }

  lemma StepSettles(ws: seq<World>, es: seq<Event>, i: nat)
    requires Calm(ws, es) && i < |es|
    ensures SettledOrRemoved(ws[i].sys, ws[i + 1].sys)
  {
    RunKeepsCalm(ws, es, i);
    assert Leads(ws, es, i);
    EventSettles(ws[i], es[i]);
  }

  // Once written, container.json and config stay as they are until the directory is removed.
  lemma {:induction false} FilesStayUntilRemoval(ws: seq<World>, es: seq<Event>, i: nat, j: nat)
    requires Calm(ws, es) && i <= j < |ws|
    ensures SettledOrRemoved(ws[i].sys, ws[j].sys)
  {
    if i < j {
      FilesStayUntilRemoval(ws, es, i, j - 1);
      StepSettles(ws, es, j - 1);
    }
  }

  // ---------------------------------------------------------------- why a delete destroys

  // It saw STOPPED, saw the cgroup empty, or could not load the container because its config was
  // never saved.
  predicate MayDestroy(w: World, p: Pid) {
    p in w.procs &&
    var pc := w.procs[p].pc;
    || (pc.DState? && Shown(w.sys.mon) == STOPPED)
    || (pc.KDrain? && !Populated(w.sys))
    || ((pc.LoadInfo? || pc.LoadCfgStat? || pc.LoadCfgRead?) && w.sys.config.None?)
  }

  predicate Destroys(w: World, p: Pid) {
    p in w.procs && Destroying(w.procs[p])
  }

  lemma LoadDestroys(w: World, p: Pid, quiet: bool)
    requires CalmInv(w) && p in w.procs && Destroying(StepLoad(w.sys, p, w.procs[p], quiet).proc)
    ensures Destroys(w, p) || MayDestroy(w, p)
  {
    if w.sys.info.Some? { assert SaverOk(w.sys, w.sys.info.value.ino, w.procs[w.sys.info.value.ino]); }
  }

  lemma KillDestroys(w: World, p: Pid, quiet: bool)
    requires p in w.procs && Destroying(StepKill(w.sys, p, w.procs[p], quiet).proc)
    ensures Destroys(w, p) || MayDestroy(w, p)
  {
  }

  lemma OthersDestroyNothing(s: Sys, p: Pid, q: Proc)
    ensures Destroying(StepQuery(s, p, q).proc) ==> Destroying(q)
    ensures Destroying(StepFifo(s, p, q).proc) ==> Destroying(q)
    ensures Destroying(StepRemove(s, p, q).proc) ==> Destroying(q)
    ensures Destroying(StepCreate(s, p, q).proc) ==> Destroying(q)
  {
  }

  lemma DestroysByStep(w: World, p: Pid, quiet: bool)
    requires CalmInv(w) && p in w.procs && !Destroys(w, p) && Destroying(StepProc(w.sys, p, w.procs[p], quiet).proc)
    ensures MayDestroy(w, p)
  {
    var s, q := w.sys, w.procs[p];
    OthersDestroyNothing(s, p, q);
    if StepProc(s, p, q, quiet) == StepLoad(s, p, q, quiet) { LoadDestroys(w, p, quiet); }
    else if StepProc(s, p, q, quiet) == StepKill(s, p, q, quiet) { KillDestroys(w, p, quiet); }
  }

  lemma DestroysStep(ws: seq<World>, es: seq<Event>, i: nat, p: Pid)
    requires Calm(ws, es) && i < |es| && Destroys(ws[i + 1], p) && !Destroys(ws[i], p)
    ensures es[i] == Step(p) && MayDestroy(ws[i], p)
  {
    RunKeepsCalm(ws, es, i);
    assert Leads(ws, es, i);
    if es[i] == Step(p) && p in ws[i].procs { DestroysByStep(ws[i], p, IsQuiet(ws[i])); }
  }

  // Every delete on its way to the removal has had such a cause.
  lemma {:induction false} RemovalHasCause(ws: seq<World>, es: seq<Event>, k: nat, p: Pid) returns (i: nat)
    requires Calm(ws, es) && k < |ws| && Destroys(ws[k], p)
    ensures i < k && es[i] == Step(p) && MayDestroy(ws[i], p)
  {
    if k > 0 {
      if Destroys(ws[k - 1], p) {
        i := RemovalHasCause(ws, es, k - 1, p);
      } else {
        DestroysStep(ws, es, k - 1, p);
        i := k - 1;
      }
    }
  }
}
