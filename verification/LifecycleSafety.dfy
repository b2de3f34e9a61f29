/**
  The invariant of all orderly runs is inductive: every event of every process keeps it.
 */
module LifecycleSafety {
  import opened Options
  import opened Lifecycle
  import opened LifecycleEveryRun
  import opened LifecycleFiles
  import opened LifecycleInvariant

  // ---------------------------------------------------------------- system events

  // What is shared is in order after an event of the system.
  ghost predicate SystemOk(w: World, t: Sys, p: Pid) {
    Later(w.sys, t, p) && MonitorOk(t, w.procs) && FifoOk(t) && PidFilesOk(t, w.procs)
  }

  lemma MonitorMovesOn(s: Sys, procs: map<Pid, Proc>, m: Monitor, e: Event, p: Pid)
    requires MonitorOk(s, procs) && m == StepMonitor(s.mon, e, s.config.Some?)
    ensures LaterMonitor(s, s.(mon := m), p) && Progress(s) <= Progress(s.(mon := m))
    ensures m.launcher == s.mon.launcher && m.fifo == s.mon.fifo
    ensures (Announced(s.mon.init) ==> Announced(m.init))
            && (!Announced(m.init) ==> m.init == s.mon.init || m.init.Forked?)
  {
  }

  lemma MonitorStaysOk(w: World, m: Monitor, e: Event)
    requires CreatorsOk(w) && MonitorOk(w.sys, w.procs) && m == StepMonitor(w.sys.mon, e, w.sys.config.Some?)
    ensures MonitorOk(w.sys.(mon := m), w.procs)
  {
  }

  lemma MonitorEvent(w: World, m: Monitor, e: Event, p: Pid)
    requires CreatorsOk(w) && MonitorOk(w.sys, w.procs) && FifoOk(w.sys) && PidFilesOk(w.sys, w.procs)
    requires m == StepMonitor(w.sys.mon, e, w.sys.config.Some?)
    ensures SystemOk(w, w.sys.(mon := m), p)
  {
    MonitorMovesOn(w.sys, w.procs, m, e, p);
    MonitorStaysOk(w, m, e);
  }

  lemma InitFifosLater(s: Sys)
    requires FifoOk(s)
    ensures FifosLater(s, StepInit(s))
  {
  }

  lemma InitKeepsFifos(w: World)
    requires CreatorsOk(w) && MonitorOk(w.sys, w.procs) && FifoOk(w.sys)
    ensures FifoOk(StepInit(w.sys))
  {
  }

  lemma InitKeepsMonitor(w: World)
    requires MonitorOk(w.sys, w.procs) && PidFilesOk(w.sys, w.procs)
    ensures MonitorOk(StepInit(w.sys), w.procs) && PidFilesOk(StepInit(w.sys), w.procs)
  {
    InitTouchesNoFile(w.sys);
  }

  lemma InitMonitorLater(s: Sys, p: Pid)
    ensures LaterMonitor(s, StepInit(s), p) && Progress(s) <= Progress(StepInit(s))
    ensures StepInit(s).pidFile == s.pidFile && StepInit(s).pidTmp == s.pidTmp
  {
  }

  lemma InitEvent(w: World, p: Pid)
    requires CreatorsOk(w) && MonitorOk(w.sys, w.procs) && FifoOk(w.sys) && PidFilesOk(w.sys, w.procs)
    ensures SystemOk(w, StepInit(w.sys), p)
  {
    InitTouchesNoFile(w.sys);
    InitFifosLater(w.sys);
    InitMonitorLater(w.sys, p);
    InitKeepsFifos(w);
    InitKeepsMonitor(w);
  }

  // ---------------------------------------------------------------- quiet worlds stay quiet

  // From t on, init is not alive again and an empty cgroup stays empty.
  predicate Subsides(s: Sys, t: Sys) {
    && (Alive(t.mon.init) ==> Alive(s.mon.init)) && (Populated(t) ==> Populated(s))
    && !MayBoot(t.mon)
  }

  lemma QuietCommand(w: World, p: Pid)
    requires CreatorsOk(w) && IsQuiet(w) && p in w.procs
    ensures var e := StepProc(w.sys, p, w.procs[p], true);
            !InFlight(e.proc) && e.sys.mon == w.sys.mon && e.sys.kids == w.sys.kids
                && (e.sys.gen == w.sys.gen ==> e.sys.dir)
  {
    var s, q := w.sys, w.procs[p];
    assert CreatorOk(s, p, q);
    if q.cmd.Create? {
      assert q.pc.CStat? || q.pc.Done?;
    } else if !q.pc.Remove? {
      OthersPlain(s, p, q, true);
    }
  }

  lemma SystemSubsides(w: World, e: Event)
    requires MonitorOk(w.sys, w.procs) && !MayBoot(w.sys.mon) && !e.Step? && !e.Abort? && !e.Invoke?
    ensures Next(w, e).procs == w.procs && Subsides(w.sys, Next(w, e).sys) && Next(w, e).sys.dir == w.sys.dir
  {
  }

  lemma QuietStays(w: World, e: Event)
    requires CreatorsOk(w) && MonitorOk(w.sys, w.procs) && IsQuiet(w) && Next(w, e).sys.gen == w.sys.gen
    ensures IsQuiet(Next(w, e)) && Subsides(w.sys, Next(w, e).sys)
  {
    match e
    case Step(p) => if p in w.procs { QuietCommand(w, p); }
    case Abort(p) =>
    case Invoke(p, cmd) =>
    case _ => SystemSubsides(w, e);
  }

  // ---------------------------------------------------------------- one step

  ghost function Does(w: World, p: Pid): Effect
    requires p in w.procs
  {
    StepProc(w.sys, p, w.procs[p], IsQuiet(w))
  }

  lemma CheckAdvances(w: World, p: Pid)
    requires Good(w, p) && w.procs[p].cmd.Create?
    requires var pc := w.procs[p].pc; pc.CStat? || pc.CStatAgain? || pc.CMkdir? || pc.Done?
    ensures Advances(w, p, Does(w, p))
  {
    CheckSelf(w, p);
    CheckShared(w, p);
  }

  lemma TmpAdvances(w: World, p: Pid)
    requires Good(w, p) && w.procs[p].cmd.Create?
    requires w.procs[p].pc.CTmp?
    ensures Advances(w, p, Does(w, p))
  {
    TmpSelf(w, p);
    TmpShared(w, p);
  }

  lemma InfoAdvances(w: World, p: Pid)
    requires Good(w, p) && w.procs[p].cmd.Create?
    requires var pc := w.procs[p].pc; pc.CInfo? || pc.CInfoWrite?
    ensures Advances(w, p, Does(w, p))
  {
    InfoSelf(w, p);
    InfoShared(w, p);
  }

  lemma MkfifoAdvances(w: World, p: Pid)
    requires Good(w, p) && w.procs[p].cmd.Create?
    requires w.procs[p].pc.CFifo?
    ensures Advances(w, p, Does(w, p))
  {
    MkfifoSelf(w, p);
    MkfifoShared(w, p);
  }

  lemma SaveAdvances(w: World, p: Pid)
    requires Good(w, p) && w.procs[p].cmd.Create?
    requires var pc := w.procs[p].pc; pc.CSaveTmp? || pc.CSaveCfg? || pc.CSaveOpen? || pc.CSaveWrite?
    ensures Advances(w, p, Does(w, p))
  {
    SaveSelf(w, p);
    SaveShared(w, p);
  }

  lemma RenameAdvances(w: World, p: Pid)
    requires Good(w, p) && w.procs[p].cmd.Create?
    requires w.procs[p].pc.CRename?
    ensures Advances(w, p, Does(w, p))
  {
    RenameSelf(w, p);
    RenameShared(w, p);
  }

  lemma SpawnAdvances(w: World, p: Pid)
    requires Good(w, p) && w.procs[p].cmd.Create?
    requires w.procs[p].pc.CSpawn?
    ensures Advances(w, p, Does(w, p))
  {
    SpawnSelf(w, p);
    SpawnShared(w, p);
  }

  lemma WaitAdvances(w: World, p: Pid)
    requires Good(w, p) && w.procs[p].cmd.Create?
    requires var pc := w.procs[p].pc; pc.QState? || pc.QPid? || pc.QCmd?
    ensures Advances(w, p, Does(w, p))
  {
    WaitSelf(w, p);
    WaitShared(w, p);
  }

  lemma PidFileAdvances(w: World, p: Pid)
    requires Good(w, p) && w.procs[p].cmd.Create?
    requires var pc := w.procs[p].pc; pc.CPidTmp? || pc.CPidWrite? || pc.CPidRename?
    ensures Advances(w, p, Does(w, p))
  {
    PidFileSelf(w, p);
    PidFileShared(w, p);
  }

  lemma LoadAdvances(w: World, p: Pid)
    requires Good(w, p) && !w.procs[p].cmd.Create?
    requires var pc := w.procs[p].pc; pc.LoadStat? || pc.LoadInfo? || pc.LoadCfgStat? || pc.LoadCfgRead?
    ensures Advances(w, p, Does(w, p))
  {
    LoadSelf(w, p, IsQuiet(w));
    LoadShared(w, p, IsQuiet(w));
  }

  lemma QueryAdvances(w: World, p: Pid)
    requires Good(w, p) && (w.procs[p].cmd.Start? || w.procs[p].cmd.State?)
    requires var pc := w.procs[p].pc; pc.TPid? || pc.QState? || pc.QPid? || pc.QCmd?
    ensures Advances(w, p, Does(w, p))
  {
    QuerySelf(w, p);
    QueryShared(w, p);
  }

  lemma FifoOpenAdvances(w: World, p: Pid)
    requires Good(w, p) && w.procs[p].cmd.Start?
    requires w.procs[p].pc.FOpen?
    ensures Advances(w, p, Does(w, p))
  {
    FifoOpenSelf(w, p);
    FifoOpenShared(w, p);
  }

  lemma FifoReadAdvances(w: World, p: Pid)
    requires Good(w, p) && w.procs[p].cmd.Start?
    requires w.procs[p].pc.FRead?
    ensures Advances(w, p, Does(w, p))
  {
    FifoReadSelf(w, p);
    FifoReadShared(w, p);
  }

  lemma WaitNotAdvances(w: World, p: Pid)
    requires Good(w, p) && w.procs[p].cmd.Start?
    requires var pc := w.procs[p].pc; pc.FWait? || pc.WPid? || pc.WCmd?
    ensures Advances(w, p, Does(w, p))
  {
    WaitNotSelf(w, p);
    WaitNotShared(w, p);
  }

  lemma KillAdvances(w: World, p: Pid)
    requires Good(w, p) && (w.procs[p].cmd.Kill? || w.procs[p].cmd.Delete?)
    requires var pc := w.procs[p].pc; pc.KState? || pc.KStop? || pc.KDrain? || pc.DState? || pc.Destroy?
    ensures Advances(w, p, Does(w, p))
  {
    KillSelf(w, p, IsQuiet(w));
    KillShared(w, p, IsQuiet(w));
  }

  lemma NoRemovalAdvances(w: World, p: Pid)
    requires Good(w, p) && w.procs[p].cmd.Delete? && w.procs[p].pc.Remove? && !w.sys.dir
    ensures Advances(w, p, Does(w, p))
  {
    OnwardSelf(w, p, w.procs[p].(pc := Done(true)), Close(w.sys, p, w.procs[p].fifoGen));
    StillAdvances(w, p, End(w.sys, p, w.procs[p], true));
  }

  lemma IdleAdvances(w: World, p: Pid)
    requires Good(w, p) && !w.procs[p].cmd.Create? && Does(w, p) == Effect(w.sys, w.procs[p])
    ensures Advances(w, p, Does(w, p))
  {
    StillAdvances(w, p, Effect(w.sys, w.procs[p]));
  }

  lemma CreateAdvances(w: World, p: Pid)
    requires Good(w, p) && w.procs[p].cmd.Create?
    ensures Advances(w, p, Does(w, p))
  {
    var pc := w.procs[p].pc;
    if pc.CTmp? { TmpAdvances(w, p); }
    else if pc.CInfo? || pc.CInfoWrite? { InfoAdvances(w, p); }
    else if pc.CFifo? { MkfifoAdvances(w, p); }
    else if pc.CSaveTmp? || pc.CSaveCfg? || pc.CSaveOpen? || pc.CSaveWrite? { SaveAdvances(w, p); }
    else if pc.CRename? { RenameAdvances(w, p); }
    else if pc.CSpawn? { SpawnAdvances(w, p); }
    else if pc.QState? || pc.QPid? || pc.QCmd? { WaitAdvances(w, p); }
    else if pc.CPidTmp? || pc.CPidWrite? || pc.CPidRename? { PidFileAdvances(w, p); }
    else { CheckAdvances(w, p); }
  }

  lemma OtherAdvances(w: World, p: Pid)
    requires Good(w, p) && !w.procs[p].cmd.Create? && !Removes(w, Step(p))
    ensures Advances(w, p, Does(w, p))
  {
    var pc := w.procs[p].pc;
    if pc.LoadStat? || pc.LoadInfo? || pc.LoadCfgStat? || pc.LoadCfgRead? { LoadAdvances(w, p); }
    else if pc.TPid? || pc.QState? || pc.QPid? || pc.QCmd? { QueryAdvances(w, p); }
    else if pc.FOpen? { FifoOpenAdvances(w, p); }
    else if pc.FRead? { FifoReadAdvances(w, p); }
    else if pc.FWait? || pc.WPid? || pc.WCmd? { WaitNotAdvances(w, p); }
    else if pc.KState? || pc.KStop? || pc.KDrain? || pc.DState? || pc.Destroy? { KillAdvances(w, p); }
    else if pc.Remove? { NoRemovalAdvances(w, p); }
    else { IdleAdvances(w, p); }
  }

  lemma AbortAdvances(w: World, p: Pid)
    requires Good(w, p) && !w.procs[p].pc.Done?
    ensures Advances(w, p, End(w.sys, p, w.procs[p], false))
  {
    StillAdvances(w, p, End(w.sys, p, w.procs[p], false));
  }

  // ---------------------------------------------------------------- the invariant

  lemma PidFileMeansBooted(w: World)
    requires Inv(w)
    ensures PidMeansBooted(w.sys)
  {
    var s := w.sys;
    if s.info.Some? && s.info.value.ino in s.pidFile {
      assert ProcOk(s, s.info.value.ino, w.procs[s.info.value.ino]);
    }
  }

  // readFifo succeeds only by taking the one message.
  predicate TakesAtMostOne(s: Sys, q: Proc, r: Proc) {
    Got in r.marks ==> if Got in q.marks then r.fifoGen == q.fifoGen
        else HasMessage(s, q.fifoGen) && r.fifoGen == q.fifoGen
  }

  lemma GotKeeps(w: World, p: Pid)
    requires p in w.procs && TypeOk(w.procs[p]) && StartOk(w.sys, w.procs[p]) && !w.procs[p].cmd.Create?
    ensures TakesAtMostOne(w.sys, w.procs[p], Does(w, p).proc)
  {
    if Got !in w.procs[p].marks { GotByReading(w.sys, p, w.procs[p], IsQuiet(w)); }
  }

  lemma OneReaderKept(w: World, p: Pid, e: Effect)
    requires Inv(w) && p in w.procs && TakesAtMostOne(w.sys, w.procs[p], e.proc)
    ensures OneReader(w.procs[p := e.proc])
  {
    forall r | r in w.procs && r != p && Got in e.proc.marks && Got in w.procs[r].marks
      ensures w.procs[r].fifoGen != e.proc.fifoGen
    {
      assert ProcOk(w.sys, r, w.procs[r]);
    }
  }

  // While init may live, a load finds both files.
  lemma LiveMeansSaved(w: World)
    requires CreatorsOk(w) && MonitorOk(w.sys, w.procs) && Live(w.sys.mon)
    ensures Complete(w.sys) && w.sys.config.Some?
  {
    assert CreatorOk(w.sys, w.sys.mon.launcher, w.procs[w.sys.mon.launcher]);
  }

  lemma LoadReady(w: World, p: Pid, quiet: bool)
    requires CreatorsOk(w) && MonitorOk(w.sys, w.procs)
    requires p in w.procs && TypeOk(w.procs[p]) && ProcOk(w.sys, p, w.procs[p])
    requires var pc := w.procs[p].pc; pc.LoadStat? || pc.LoadInfo? || pc.LoadCfgStat? || pc.LoadCfgRead?
    ensures var q := StepLoad(w.sys, p, w.procs[p], quiet).proc;
            Destroying(q) ==> Ready(w.sys, q) && q.decided == if quiet then Some(w.sys.gen) else None
  {
    if Alive(w.sys.mon.init) { LiveMeansSaved(w); }
  }

  lemma KillReady(w: World, p: Pid, quiet: bool)
    requires MonitorOk(w.sys, w.procs) && p in w.procs && !Destroying(w.procs[p])
    requires TypeOk(w.procs[p]) && ProcOk(w.sys, p, w.procs[p])
    ensures var q := StepKill(w.sys, p, w.procs[p], quiet).proc;
            Destroying(q) ==> Ready(w.sys, q) && q.decided == if quiet then Some(w.sys.gen) else None
  {
  }

  lemma DeleteLoads(w: World, p: Pid, quiet: bool)
    requires Inv(w) && p in w.procs && w.procs[p].cmd.Delete? && (quiet <==> IsQuiet(w))
    requires var pc := w.procs[p].pc; pc.LoadStat? || pc.LoadInfo? || pc.LoadCfgStat? || pc.LoadCfgRead?
    ensures var e := StepLoad(w.sys, p, w.procs[p], quiet); DeleteOk(Put(w, p, e), e.proc)
  {
    var q := w.procs[p];
    assert ProcOk(w.sys, p, q);
    LoadIsPlain(w.sys, p, q, quiet);
    LoadReady(w, p, quiet);
  }

  lemma DeleteKills(w: World, p: Pid, quiet: bool)
    requires Inv(w) && p in w.procs && w.procs[p].cmd.Delete? && !w.procs[p].pc.LoadStat? && (quiet <==> IsQuiet(w))
    ensures var e := StepKill(w.sys, p, w.procs[p], quiet); DeleteOk(Put(w, p, e), e.proc)
  {
    var q := w.procs[p];
    assert ProcOk(w.sys, p, q) && DeleteOk(w, q);
    KillIsPlain(w.sys, p, q, quiet);
    if !Destroying(q) { KillReady(w, p, quiet); }
  }

  lemma DeleteSelf(w: World, p: Pid, e: Effect)
    requires Inv(w) && p in w.procs && w.procs[p].cmd.Delete? && !w.procs[p].pc.Remove?
    requires e == StepProc(w.sys, p, w.procs[p], IsQuiet(w))
    ensures DeleteOk(Put(w, p, e), e.proc)
  {
    var pc := w.procs[p].pc;
    if pc.LoadStat? || pc.LoadInfo? || pc.LoadCfgStat? || pc.LoadCfgRead? {
      DeleteLoads(w, p, IsQuiet(w));
    } else {
      assert ProcOk(w.sys, p, w.procs[p]);
      DeleteKills(w, p, IsQuiet(w));
    }
  }

  lemma DeleteSteps(w: World, p: Pid, e: Effect)
    requires Inv(w) && p in w.procs && !Removes(w, Step(p))
    requires e == StepProc(w.sys, p, w.procs[p], IsQuiet(w)) && e.proc.cmd == w.procs[p].cmd
    ensures DeleteOk(Put(w, p, e), e.proc)
  {
    if w.procs[p].cmd.Delete? && !w.procs[p].pc.Remove? { DeleteSelf(w, p, e); }
  }

  lemma DeleteStable(w: World, e: Event, r: Pid)
    requires Inv(w) && r in w.procs && Next(w, e).sys.gen == w.sys.gen
    ensures DeleteOk(Next(w, e), w.procs[r])
  {
    var q := w.procs[r];
    assert ProcOk(w.sys, r, q) && DeleteOk(w, q);
    if Armed(w.sys, q) { QuietStays(w, e); }
  }

  lemma ProcsStable(w: World, v: World, p: Pid)
    requires Inv(w) && Later(w.sys, v.sys, p)
    ensures forall r | r in w.procs && r != p :: ProcOk(v.sys, r, w.procs[r])
  {
    PidFileMeansBooted(w);
    forall r | r in w.procs && r != p ensures ProcOk(v.sys, r, w.procs[r]) {
      ProcStable(w.sys, v.sys, p, r, w.procs[r]);
    }
  }

  // One effect keeps the invariant if it keeps the files, advances the shared state and leaves
  // every delete and reader in order.
  lemma Assemble(w: World, p: Pid, e: Effect)
    requires Inv(w) && Keeps(w, p, e) && Advances(w, p, e)
    requires Typed(Put(w, p, e)) && OneReader(w.procs[p := e.proc])
    requires forall r | r in w.procs && r != p :: DeleteOk(Put(w, p, e), w.procs[r])
    requires DeleteOk(Put(w, p, e), e.proc)
    ensures Inv(Put(w, p, e))
  {
    CreatorsKept(w, p, e);
    ProcsStable(w, Put(w, p, e), p);
  }

  lemma OthersStable(w: World, e: Event, v: World)
    requires Inv(w) && v == Next(w, e) && v.sys.gen == w.sys.gen
    ensures forall r | r in w.procs :: DeleteOk(v, w.procs[r])
  {
    forall r | r in w.procs ensures DeleteOk(v, w.procs[r]) {
      DeleteStable(w, e, r);
    }
  }

  lemma EffectKeeps(w: World, p: Pid, e: Effect)
    requires Inv(w) && p in w.procs && !Removes(w, Step(p))
    requires e == Does(w, p)
    ensures Keeps(w, p, e) && Advances(w, p, e)
  {
    PidFileMeansBooted(w);
    StepKeeps(w, p, IsQuiet(w));
    if w.procs[p].cmd.Create? { CreateAdvances(w, p); } else { OtherAdvances(w, p); }
  }

  lemma ReaderKept(w: World, p: Pid, e: Effect)
    requires Inv(w) && p in w.procs && e == Does(w, p) && ProcOk(e.sys, p, e.proc) && e.proc.cmd == w.procs[p].cmd
    ensures OneReader(w.procs[p := e.proc])
  {
    assert ProcOk(w.sys, p, w.procs[p]);
    if w.procs[p].cmd.Create? { CreateRecords(w.sys, p, w.procs[p]); } else { GotKeeps(w, p); }
    OneReaderKept(w, p, e);
  }

  lemma StepKeepsInv(w: World, p: Pid, e: Effect)
    requires Inv(w) && p in w.procs && !Removes(w, Step(p)) && e == Does(w, p)
    ensures Inv(Put(w, p, e))
  {
    EffectKeeps(w, p, e);
    CommandStays(w, p, e);
    StepKeepsTypes(w, p, e);
    ReaderKept(w, p, e);
    DeleteSteps(w, p, e);
    OthersStable(w, Step(p), Put(w, p, e));
    Assemble(w, p, e);
  }

  lemma CommandStays(w: World, p: Pid, e: Effect)
    requires Inv(w) && p in w.procs && !Removes(w, Step(p)) && e == Does(w, p)
    ensures e.proc.cmd == w.procs[p].cmd
  {
    if w.procs[p].cmd.Create? { CreateRecords(w.sys, p, w.procs[p]); }
    else if !w.procs[p].pc.Remove? { OthersPlain(w.sys, p, w.procs[p], IsQuiet(w)); }
  }

  lemma AbortKeepsInv(w: World, p: Pid)
    requires Inv(w) && p in w.procs && !w.procs[p].pc.Done?
    ensures Inv(Next(w, Abort(p)))
  {
    var e := End(w.sys, p, w.procs[p], false);
    assert ProcOk(w.sys, p, w.procs[p]) && CreatorOk(w.sys, p, w.procs[p]);
    PidFileMeansBooted(w);
    EndKeeps(w, p, w.procs[p], false);
    AbortAdvances(w, p);
    EventKeepsTypes(w, Abort(p));
    OneReaderKept(w, p, e);
    OthersStable(w, Abort(p), Put(w, p, e));
    Assemble(w, p, e);
  }

  lemma InvokeAdvances(w: World, p: Pid, e: Effect)
    requires CreatorsOk(w) && MonitorOk(w.sys, w.procs) && FifoOk(w.sys) && PidFilesOk(w.sys, w.procs)
    requires p !in w.procs && e == Effect(w.sys, Fresh(e.proc.cmd))
    ensures Keeps(w, p, e) && Advances(w, p, e)
  {
  }

  lemma InvokeKeepsInv(w: World, p: Pid, cmd: Command)
    requires Inv(w) && p !in w.procs
    ensures Inv(Next(w, Invoke(p, cmd)))
  {
    var e := Effect(w.sys, Fresh(cmd));
    InvokeAdvances(w, p, e);
    EventKeepsTypes(w, Invoke(p, cmd));
    OthersStable(w, Invoke(p, cmd), Put(w, p, e));
    Assemble(w, p, e);
  }

  // Monitor, init and the other processes of the cgroup.
  lemma SystemKeepsInv(w: World, e: Event, t: Sys)
    requires Inv(w) && !e.Step? && !e.Abort? && !e.Invoke? && t == Next(w, e).sys
    ensures Inv(World(t, w.procs))
  {
    SystemEvent(w, e);
    SysKeepsCreators(w, t);
    EventKeepsTypes(w, e);
    OthersStable(w, e, World(t, w.procs));
    forall r | r in w.procs ensures ProcOk(t, r, w.procs[r]) {
      SystemLater(w, e, t, r + 1);
      ProcsStable(w, World(t, w.procs), r + 1);
    }
    SystemLater(w, e, t, 0);
  }

  predicate OfMonitor(e: Event) {
    e.MonLoad? || e.MonFork? || e.MonRun? || e.MonShow? || e.MonEnd? || e.MonGone? || e.MonKilled? || e.InitDie?
        || e.InitReap?
  }

  lemma SystemNext(w: World, e: Event)
    ensures OfMonitor(e) ==> Next(w, e).sys == w.sys.(mon := StepMonitor(w.sys.mon, e, w.sys.config.Some?))
    ensures e.InitNext? ==> Next(w, e).sys == StepInit(w.sys)
    ensures e.KidFork? || e.KidExit? ==> Next(w, e).sys == w.sys.(kids := Next(w, e).sys.kids)
  {
  }

  lemma SystemLater(w: World, e: Event, t: Sys, p: Pid)
    requires Inv(w) && !e.Step? && !e.Abort? && !e.Invoke? && t == Next(w, e).sys
    ensures SystemOk(w, t, p)
  {
    SystemNext(w, e);
    if e.InitNext? { InitEvent(w, p); }
    else if OfMonitor(e) { MonitorEvent(w, StepMonitor(w.sys.mon, e, w.sys.config.Some?), e, p); }
    else { KidEvent(w, t, p); }
  }

  lemma KidEvent(w: World, t: Sys, p: Pid)
    requires MonitorOk(w.sys, w.procs) && FifoOk(w.sys) && PidFilesOk(w.sys, w.procs) && t == w.sys.(kids := t.kids)
    ensures SystemOk(w, t, p)
  {
  }

  // An orderly removal closes the generation: nothing of it is in flight or alive.
  lemma ProcPast(s: Sys, t: Sys, r: Pid, q: Proc)
    requires ProcOk(s, r, q) && CreatorOk(s, r, q) && t.gen > s.gen && FifosLater(s, t)
    ensures ProcOk(t, r, q)
  {
  }

  lemma RemoveAdvances(w: World, p: Pid, e: Effect)
    requires Inv(w) && Removes(w, Step(p)) && OrderlyStep(w, Step(p)) && e == StepRemove(w.sys, p, w.procs[p])
    ensures IsQuiet(w) && !Alive(w.sys.mon.init)
    ensures MonitorOk(e.sys, w.procs[p := e.proc]) && FifoOk(e.sys)
    ensures PidFilesOk(e.sys, w.procs[p := e.proc]) && ProcOk(e.sys, p, e.proc)
  {
    var q := w.procs[p];
    assert ProcOk(w.sys, p, q) && CreatorOk(w.sys, p, q) && DeleteOk(w, q);
  }

  lemma RemovalKeepsFifos(s: Sys, p: Pid, q: Proc)
    ensures FifosLater(s, StepRemove(s, p, q).sys)
  {
  }

  lemma RemovalPast(w: World, p: Pid, e: Effect)
    requires Inv(w) && p in w.procs && w.sys.dir && e == StepRemove(w.sys, p, w.procs[p])
    ensures forall r | r in w.procs && r != p :: ProcOk(e.sys, r, w.procs[r])
  {
    RemovalKeepsFifos(w.sys, p, w.procs[p]);
    assert e.sys.gen > w.sys.gen;
    forall r | r in w.procs && r != p ensures ProcOk(e.sys, r, w.procs[r]) {
      assert ProcOk(w.sys, r, w.procs[r]) && CreatorOk(w.sys, r, w.procs[r]);
      ProcPast(w.sys, e.sys, r, w.procs[r]);
    }
  }

  // No other delete that decided before is armed in the new generation.
  lemma RemovalDisarms(w: World, p: Pid, e: Effect)
    requires Inv(w) && p in w.procs && w.procs[p].pc.Remove? && w.sys.dir && e == StepRemove(w.sys, p, w.procs[p])
    ensures forall r | r in w.procs && r != p :: DeleteOk(Put(w, p, e), w.procs[r])
  {
    forall r | r in w.procs ensures !Armed(e.sys, w.procs[r]) { assert ProcOk(w.sys, r, w.procs[r]); }
  }

  lemma RemovalKeepsReaders(w: World, p: Pid, e: Effect)
    requires Inv(w) && p in w.procs && w.sys.dir && e == StepRemove(w.sys, p, w.procs[p])
    ensures OneReader(w.procs[p := e.proc])
  {
    OneReaderKept(w, p, e);
  }

  lemma RemoveKeepsInv(w: World, p: Pid, e: Effect)
    requires Inv(w) && Removes(w, Step(p)) && OrderlyStep(w, Step(p)) && e == StepRemove(w.sys, p, w.procs[p])
    ensures Inv(Put(w, p, e))
  {
    RemovalIsRemove(w, p);
    RemoveAdvances(w, p, e);
    EventKeepsTypes(w, Step(p));
    RemoveKeeps(w, p);
    RemovalPast(w, p, e);
    RemovalDisarms(w, p, e);
    assert DeleteOk(Put(w, p, e), e.proc);
    RemovalKeepsReaders(w, p, e);
  }

  lemma RemovalIsRemove(w: World, p: Pid)
    requires Inv(w) && Removes(w, Step(p))
    ensures Next(w, Step(p)) == Put(w, p, StepRemove(w.sys, p, w.procs[p]))
  {
    assert TypeOk(w.procs[p]);
  }

  lemma EventKeepsInv(w: World, e: Event)
    requires Inv(w) && OrderlyStep(w, e)
    ensures Inv(Next(w, e))
  {
    match e
    case Step(p) =>
      if Removes(w, e) { RemovalIsRemove(w, p); RemoveKeepsInv(w, p, StepRemove(w.sys, p, w.procs[p])); }
      else if p in w.procs { StepKeepsInv(w, p, Does(w, p)); }
    case Abort(p) => if p in w.procs && !w.procs[p].pc.Done? { AbortKeepsInv(w, p); }
    case Invoke(p, cmd) => if p !in w.procs { InvokeKeepsInv(w, p, cmd); }
    case _ =>
      SystemEvent(w, e);
      SystemKeepsInv(w, e, Next(w, e).sys);
  }
}
