/**
  Monitor, init, pid file and FIFO: what every step keeps besides the files.
 */
module LifecycleInvariant {
  import opened Options
  import opened Lifecycle
  import opened LifecycleFiles
  import opened LifecycleEveryRun

  // The monitor may still bring init forward, or init is alive.
  predicate Live(m: Monitor) {
    MayBoot(m) || Alive(m.init)
  }

  // Past STARTING: liblxc can never again report it for this container.
  predicate Up(m: Monitor) {
    m.phase.Active? || m.phase.Ending? || m.phase.Gone?
  }

  predicate Booted(m: Monitor) {
    Up(m) && !m.init.Unforked? && !m.init.Forked?
  }

  // The monitor was launched by the create that owns the runtime directory.
  predicate Ours(s: Sys) {
    s.info.Some? && s.mon.launcher == s.info.value.ino && !s.mon.phase.Never?
  }

  ghost predicate MonitorOk(s: Sys, procs: map<Pid, Proc>) {
    var m := s.mon;
    && (m.phase.Never? || m.phase.Launched? ==> m.init.Unforked?)
    && (m.phase.Gone? ==> m.init.Unforked? || m.init.Reaped?)
    && (m.phase.Active? ==> !m.init.Unforked? && m.phase.lxc in {RUNNING, FREEZING, FROZEN, THAWED})
    && (m.phase.Ending? ==> m.phase.lxc in {STOPPING, ABORTING})
    && (!m.phase.Never? ==>
          m.launcher in procs && procs[m.launcher].cmd.Create? && Saved in procs[m.launcher].marks
          && !procs[m.launcher].pc.CSpawn?)
    && (Live(m) ==> Ours(s))
  }

  ghost predicate PidFilesOk(s: Sys, procs: map<Pid, Proc>) {
    && (forall c | c in s.pidFile ::
          s.pidFile[c] == Full(c) && c in procs && procs[c].cmd.Create? && procs[c].pc == Done(true))
  }

  // One message per FIFO, from the init of its generation.
  ghost predicate FifoOk(s: Sys) {
    && (forall g | g in s.fifos && Buffered in s.fifos[g].marks :: Sent in s.fifos[g].marks)
    && (HasFifo(s) && Sent in s.fifos[s.gen].marks ==> Ours(s) && Announced(s.mon.init))
    && (s.mon.init.Opening? || s.mon.init.Opened? || s.mon.init.Wrote? ==> s.mon.fifo == s.gen)
  }

  // crio-lxc-init has written the ID to the FIFO, or is gone.
  predicate Announced(i: Init) {
    i.Wrote? || i.Closed? || i.User? || i.Zombie? || i.Reaped?
  }

  // ---------------------------------------------------------------- per process

  // A create that passed waitCreated.
  predicate WaiterOk(s: Sys, p: Pid, q: Proc) {
    q.cmd.Create? && q.gen == s.gen ==>
      && ((q.pc.QPid? || q.pc.QCmd?) && Ours(s) ==> Up(s.mon))
      && (q.pc.CPidTmp? || q.pc.CPidWrite? || q.pc.CPidRename? || q.pc == Done(true) ==>
            s.mon.launcher == p && Booted(s.mon))
      && (q.pc.CPidRename? ==> p in s.pidTmp && s.pidTmp[p] == Full(p))
      && (q.pc == Done(true) ==> p in s.pidFile)
  }

  // What loadContainer found, as long as nothing was removed since.
  predicate LoaderOk(s: Sys, q: Proc) {
    && (q.cmd.Create? ==> Loaded !in q.marks)
    && (q.pc.LoadStat? ==> q.marks == {})
    && (q.report.Some? ==> q.cmd.State? && q.pc.Done?)
    && (!q.cmd.Create? && q.gen == s.gen ==>
      && (!q.pc.LoadStat? && !q.pc.Done? ==> s.dir)
      && (q.pc.LoadCfgStat? || q.pc.LoadCfgRead? || Loaded in q.marks ==>
            Complete(s) && q.info == Full(s.info.value.ino))
      && (Loaded in q.marks ==> s.config.Some? && q.cfg == Full(s.info.value.ino))
      && (q.pc.TPid? || q.pc.QState? || q.pc.QPid? || q.pc.QCmd? ==> Loaded in q.marks))
  }

  predicate StateOk(s: Sys, q: Proc) {
    q.cmd.State? && q.gen == s.gen ==>
      && (!q.pc.LoadStat? && !q.pc.Done? ==> q.since <= Progress(s))
      && (q.pc.QState? || q.pc.QPid? || q.pc.QCmd? || q.report.Some? ==>
            Complete(s) && s.info.value.ino in s.pidFile)
      && (q.pc.QCmd? ==> q.ipid == s.mon.launcher)
      && (q.report.Some? ==> !q.report.value.Creating? && q.since <= Order(q.report.value) <= Progress(s))
      && (q.pc.Done? ==> (q.pc.ok <==> q.report.Some?))
  }

  // The message of the FIFO of generation g was sent and read.
  predicate Taken(s: Sys, g: nat) {
    g in s.fifos && Sent in s.fifos[g].marks && Buffered !in s.fifos[g].marks
  }

  predicate StartOk(s: Sys, q: Proc) {
    && q.fifoGen <= s.gen
    && (Got in q.marks ==> q.cmd.Start? && (q.pc.WPid? || q.pc.WCmd? || q.pc.Done?) && Taken(s, q.fifoGen))
    && (Got in q.marks && q.fifoGen == s.gen ==>
          && (q.pc.WCmd? ==> q.ipid == s.mon.launcher)
          && (q.pc == Done(true) ==> Progress(s) >= 1))
  }

  predicate ProcOk(s: Sys, p: Pid, q: Proc) {
    && WaiterOk(s, p, q) && LoaderOk(s, q) && StateOk(s, q) && StartOk(s, q)
    && (Drained in q.marks ==> q.pc.Destroy? || q.pc.Remove? || q.pc.Done?)
    && (q.decided.Some? ==> q.decided.value <= s.gen)
  }

  predicate Destroying(q: Proc) {
    q.pc.Destroy? || q.pc.Remove?
  }

  // A delete that went on to destroy in a quiet world, as long as nothing was removed since.
  predicate Armed(s: Sys, q: Proc) {
    q.cmd.Delete? && Destroying(q) && q.decided == Some(s.gen)
  }

  predicate Ready(s: Sys, q: Proc) {
    !Alive(s.mon.init) && (Drained in q.marks ==> !Populated(s))
  }

  ghost predicate DeleteOk(w: World, q: Proc) {
    Armed(w.sys, q) ==> IsQuiet(w) && Ready(w.sys, q)
  }

  ghost predicate OneReader(procs: map<Pid, Proc>) {
    forall p, q | p in procs && q in procs && Got in procs[p].marks && Got in procs[q].marks
      && procs[p].fifoGen == procs[q].fifoGen :: p == q
  }

  ghost predicate Inv(w: World) {
    && Typed(w) && CreatorsOk(w)
    && MonitorOk(w.sys, w.procs) && PidFilesOk(w.sys, w.procs) && FifoOk(w.sys)
    && (forall p | p in w.procs :: ProcOk(w.sys, p, w.procs[p]))
    && (forall p | p in w.procs :: DeleteOk(w, w.procs[p]))
    && OneReader(w.procs)
  }

  // ---------------------------------------------------------------- what later states keep

  // What holds of a later state t of the same generation, after a step of p or of the system.
  ghost predicate Later(s: Sys, t: Sys, p: Pid) {
    && Settled(s, t)
    && (s.info.Some? ==> t.info.Some? && t.info.value.ino == s.info.value.ino)
    && (forall c | c in s.pidFile :: c in t.pidFile)
    && (forall c | c in s.pidTmp && c != p :: c in t.pidTmp && t.pidTmp[c] == s.pidTmp[c])
    && FifosLater(s, t)
    && LaterMonitor(s, t, p)
    && Progress(s) <= Progress(t)
  }

  // What was sent or read stays so.
  ghost predicate FifosLater(s: Sys, t: Sys) {
    forall g | g in s.fifos && Sent in s.fifos[g].marks ::
      && g in t.fifos && Sent in t.fifos[g].marks
      && (Buffered !in s.fifos[g].marks ==> Buffered !in t.fifos[g].marks)
  }

  // The monitor moves on, or p launches the first one of this generation.
  predicate LaterMonitor(s: Sys, t: Sys, p: Pid) {
    || (&& t.mon.launcher == s.mon.launcher && t.mon.phase.Never? == s.mon.phase.Never?
        && (Up(s.mon) ==> Up(t.mon)) && (Booted(s.mon) ==> Booted(t.mon)))
    || (t.mon.launcher == p && !Ours(s))
  }

  // A pid file exists only for a container that was up.
  predicate PidMeansBooted(s: Sys) {
    s.info.Some? && s.info.value.ino in s.pidFile ==> Ours(s) && Booted(s.mon)
  }

  lemma ProcStable(s: Sys, t: Sys, p: Pid, r: Pid, q: Proc)
    requires CreatorOk(s, r, q) && ProcOk(s, r, q) && PidMeansBooted(s) && Later(s, t, p) && r != p
    requires Got in q.marks && q.fifoGen == s.gen ==> Ours(s)
    ensures ProcOk(t, r, q)
  {
  }

  ghost predicate Good(w: World, p: Pid) {
    && InOrder(w, p) && TypeOk(w.procs[p]) && ProcOk(w.sys, p, w.procs[p])
    && MonitorOk(w.sys, w.procs) && FifoOk(w.sys) && PidFilesOk(w.sys, w.procs) && PidMeansBooted(w.sys)
  }

  ghost predicate SharedOk(w: World, p: Pid, e: Effect) {
    && Later(w.sys, e.sys, p)
    && MonitorOk(e.sys, w.procs[p := e.proc]) && FifoOk(e.sys)
    && PidFilesOk(e.sys, w.procs[p := e.proc])
  }

  ghost predicate Advances(w: World, p: Pid, e: Effect) {
    SharedOk(w, p, e) && ProcOk(e.sys, p, e.proc)
  }

  // What the other processes' records rely on: p remains what it was, and gains at most marks.
  predicate Remains(q: Proc, r: Proc) {
    && r.cmd == q.cmd && q.marks <= r.marks && (q.cmd.Create? ==> !r.pc.CSpawn?)
    && (q.pc == Done(true) ==> r.pc == Done(true))
  }

  // A step that leaves monitor, init and pid file alone.
  lemma OwnersKept(w: World, p: Pid, e: Effect)
    requires Good(w, p) && Remains(w.procs[p], e.proc)
    requires e.sys.mon == w.sys.mon && e.sys.pidFile == w.sys.pidFile && (Ours(w.sys) ==> Ours(e.sys))
    ensures MonitorOk(e.sys, w.procs[p := e.proc]) && PidFilesOk(e.sys, w.procs[p := e.proc])
  {
  }

  // And at most closes p's end of the FIFO.
  lemma PeersKept(w: World, p: Pid, e: Effect)
    requires Good(w, p) && Remains(w.procs[p], e.proc)
    requires e.sys.mon == w.sys.mon && e.sys.pidFile == w.sys.pidFile && (Ours(w.sys) ==> Ours(e.sys))
    requires e.sys.gen == w.sys.gen
    requires e.sys.fifos == w.sys.fifos || e.sys.fifos == Close(w.sys, p, w.procs[p].fifoGen).fifos
    ensures MonitorOk(e.sys, w.procs[p := e.proc]) && FifoOk(e.sys)
    ensures PidFilesOk(e.sys, w.procs[p := e.proc])
  {
    OwnersKept(w, p, e);
  }

  // A step that changes the shared state at most by closing p's end of the FIFO.
  lemma StillAdvances(w: World, p: Pid, e: Effect)
    requires Good(w, p) && AtMostCloses(w.sys, p, w.procs[p], e.sys) && Remains(w.procs[p], e.proc)
    ensures SharedOk(w, p, e)
  {
    PeersKept(w, p, e);
  }

  lemma CheckSelf(w: World, p: Pid)
    requires Good(w, p) && w.procs[p].cmd.Create?
    requires var pc := w.procs[p].pc; pc.CStat? || pc.CStatAgain? || pc.CMkdir? || pc.Done?
    ensures var e := StepCheck(w.sys, p, w.procs[p]); ProcOk(e.sys, p, e.proc)
  {
  }

  lemma CheckShared(w: World, p: Pid)
    requires Good(w, p) && w.procs[p].cmd.Create?
    requires var pc := w.procs[p].pc; pc.CStat? || pc.CStatAgain? || pc.CMkdir? || pc.Done?
    ensures SharedOk(w, p, StepCheck(w.sys, p, w.procs[p]))
  {
    PeersKept(w, p, StepCheck(w.sys, p, w.procs[p]));
  }

  lemma TmpSelf(w: World, p: Pid)
    requires Good(w, p) && w.procs[p].cmd.Create?
    requires w.procs[p].pc.CTmp?
    ensures var e := StepTmp(w.sys, p, w.procs[p]); ProcOk(e.sys, p, e.proc)
  {
  }

  lemma TmpShared(w: World, p: Pid)
    requires Good(w, p) && w.procs[p].cmd.Create?
    requires w.procs[p].pc.CTmp?
    ensures SharedOk(w, p, StepTmp(w.sys, p, w.procs[p]))
  {
    PeersKept(w, p, StepTmp(w.sys, p, w.procs[p]));
  }

  lemma InfoSelf(w: World, p: Pid)
    requires Good(w, p) && w.procs[p].cmd.Create?
    requires var pc := w.procs[p].pc; pc.CInfo? || pc.CInfoWrite?
    ensures var e := StepInfo(w.sys, p, w.procs[p]); ProcOk(e.sys, p, e.proc)
  {
  }

  lemma InfoShared(w: World, p: Pid)
    requires Good(w, p) && w.procs[p].cmd.Create?
    requires var pc := w.procs[p].pc; pc.CInfo? || pc.CInfoWrite?
    ensures SharedOk(w, p, StepInfo(w.sys, p, w.procs[p]))
  {
    PeersKept(w, p, StepInfo(w.sys, p, w.procs[p]));
  }

  lemma MkfifoSelf(w: World, p: Pid)
    requires Good(w, p) && w.procs[p].cmd.Create?
    requires w.procs[p].pc.CFifo?
    ensures var e := StepMkfifo(w.sys, p, w.procs[p]); ProcOk(e.sys, p, e.proc)
  {
  }

  lemma MkfifoShared(w: World, p: Pid)
    requires Good(w, p) && w.procs[p].cmd.Create?
    requires w.procs[p].pc.CFifo?
    ensures SharedOk(w, p, StepMkfifo(w.sys, p, w.procs[p]))
  {
    OwnersKept(w, p, StepMkfifo(w.sys, p, w.procs[p]));
  }

  lemma SaveSelf(w: World, p: Pid)
    requires Good(w, p) && w.procs[p].cmd.Create?
    requires var pc := w.procs[p].pc; pc.CSaveTmp? || pc.CSaveCfg? || pc.CSaveOpen? || pc.CSaveWrite?
    ensures var e := StepSave(w.sys, p, w.procs[p]); ProcOk(e.sys, p, e.proc)
  {
  }

  lemma SaveShared(w: World, p: Pid)
    requires Good(w, p) && w.procs[p].cmd.Create?
    requires var pc := w.procs[p].pc; pc.CSaveTmp? || pc.CSaveCfg? || pc.CSaveOpen? || pc.CSaveWrite?
    ensures SharedOk(w, p, StepSave(w.sys, p, w.procs[p]))
  {
    PeersKept(w, p, StepSave(w.sys, p, w.procs[p]));
  }

  lemma RenameSelf(w: World, p: Pid)
    requires Good(w, p) && w.procs[p].cmd.Create?
    requires w.procs[p].pc.CRename?
    ensures var e := StepRename(w.sys, p, w.procs[p]); ProcOk(e.sys, p, e.proc)
  {
  }

  // The launcher is another create: this one has not saved yet.
  lemma RenameKeepsMonitor(w: World, p: Pid)
    requires Good(w, p) && w.procs[p].cmd.Create? && w.procs[p].pc.CRename?
    ensures var e := StepRename(w.sys, p, w.procs[p]);
            MonitorOk(e.sys, w.procs[p := e.proc]) && PidFilesOk(e.sys, w.procs[p := e.proc]) && FifoOk(e.sys)
  {
  }

  lemma RenameShared(w: World, p: Pid)
    requires Good(w, p) && w.procs[p].cmd.Create?
    requires w.procs[p].pc.CRename?
    ensures SharedOk(w, p, StepRename(w.sys, p, w.procs[p]))
  {
    RenameKeepsMonitor(w, p);
  }

  lemma SpawnSelf(w: World, p: Pid)
    requires Good(w, p) && w.procs[p].cmd.Create?
    requires w.procs[p].pc.CSpawn?
    ensures var e := StepSpawn(w.sys, p, w.procs[p]); ProcOk(e.sys, p, e.proc)
  {
  }

  lemma SpawnKeepsMonitor(w: World, p: Pid)
    requires Good(w, p) && w.procs[p].cmd.Create? && w.procs[p].pc.CSpawn?
    ensures var e := StepSpawn(w.sys, p, w.procs[p]);
            MonitorOk(e.sys, w.procs[p := e.proc]) && PidFilesOk(e.sys, w.procs[p := e.proc]) && FifoOk(e.sys)
  {
  }

  lemma SpawnShared(w: World, p: Pid)
    requires Good(w, p) && w.procs[p].cmd.Create?
    requires w.procs[p].pc.CSpawn?
    ensures SharedOk(w, p, StepSpawn(w.sys, p, w.procs[p]))
  {
    SpawnKeepsMonitor(w, p);
  }

  lemma WaitSelf(w: World, p: Pid)
    requires Good(w, p) && w.procs[p].cmd.Create?
    requires var pc := w.procs[p].pc; pc.QState? || pc.QPid? || pc.QCmd?
    ensures var e := StepWait(w.sys, p, w.procs[p]); ProcOk(e.sys, p, e.proc)
  {
  }

  lemma WaitShared(w: World, p: Pid)
    requires Good(w, p) && w.procs[p].cmd.Create?
    requires var pc := w.procs[p].pc; pc.QState? || pc.QPid? || pc.QCmd?
    ensures SharedOk(w, p, StepWait(w.sys, p, w.procs[p]))
  {
    StillAdvances(w, p, StepWait(w.sys, p, w.procs[p]));
  }

  lemma PidFileSelf(w: World, p: Pid)
    requires Good(w, p) && w.procs[p].cmd.Create?
    requires var pc := w.procs[p].pc; pc.CPidTmp? || pc.CPidWrite? || pc.CPidRename?
    ensures var e := StepPidFile(w.sys, p, w.procs[p]); ProcOk(e.sys, p, e.proc)
  {
  }

  lemma PidRenameKeepsMonitor(w: World, p: Pid)
    requires Good(w, p) && w.procs[p].cmd.Create? && w.procs[p].pc.CPidRename?
    ensures var e := StepPidFile(w.sys, p, w.procs[p]); MonitorOk(e.sys, w.procs[p := e.proc]) && FifoOk(e.sys)
  {
  }

  lemma PidRenameKeeps(w: World, p: Pid)
    requires Good(w, p) && w.procs[p].cmd.Create? && w.procs[p].pc.CPidRename?
    ensures var e := StepPidFile(w.sys, p, w.procs[p]); PidFilesOk(e.sys, w.procs[p := e.proc])
  {
  }

  lemma PidWriteShared(w: World, p: Pid)
    requires Good(w, p) && w.procs[p].cmd.Create? && (w.procs[p].pc.CPidTmp? || w.procs[p].pc.CPidWrite?)
    ensures SharedOk(w, p, StepPidFile(w.sys, p, w.procs[p]))
  {
    PeersKept(w, p, StepPidFile(w.sys, p, w.procs[p]));
  }

  lemma PidRenameLater(w: World, p: Pid)
    requires Good(w, p) && w.procs[p].cmd.Create? && w.procs[p].pc.CPidRename?
    ensures Later(w.sys, StepPidFile(w.sys, p, w.procs[p]).sys, p)
  {
  }

  lemma PidRenameShared(w: World, p: Pid)
    requires Good(w, p) && w.procs[p].cmd.Create? && w.procs[p].pc.CPidRename?
    ensures SharedOk(w, p, StepPidFile(w.sys, p, w.procs[p]))
  {
    PidRenameKeeps(w, p);
    PidRenameKeepsMonitor(w, p);
    PidRenameLater(w, p);
  }

  lemma PidFileShared(w: World, p: Pid)
    requires Good(w, p) && w.procs[p].cmd.Create?
    requires var pc := w.procs[p].pc; pc.CPidTmp? || pc.CPidWrite? || pc.CPidRename?
    ensures SharedOk(w, p, StepPidFile(w.sys, p, w.procs[p]))
  {
    if w.procs[p].pc.CPidRename? { PidRenameShared(w, p); } else { PidWriteShared(w, p); }
  }

  lemma LoadFailedSelf(w: World, p: Pid, quiet: bool)
    requires Good(w, p) && !w.procs[p].cmd.Create?
    requires var pc := w.procs[p].pc; pc.LoadInfo? || pc.LoadCfgStat? || pc.LoadCfgRead?
    ensures var e := LoadFailed(w.sys, p, w.procs[p], quiet); ProcOk(e.sys, p, e.proc)
  {
  }

  lemma LoadStatSelf(w: World, p: Pid, quiet: bool)
    requires Good(w, p) && !w.procs[p].cmd.Create? && w.procs[p].pc.LoadStat?
    ensures var e := StepLoad(w.sys, p, w.procs[p], quiet); ProcOk(e.sys, p, e.proc)
  {
  }

  lemma LoadCfgReadSelf(w: World, p: Pid, quiet: bool)
    requires Good(w, p) && !w.procs[p].cmd.Create? && w.procs[p].pc.LoadCfgRead?
    ensures var e := StepLoad(w.sys, p, w.procs[p], quiet); ProcOk(e.sys, p, e.proc)
  {
    LoadFailedSelf(w, p, quiet);
  }

  lemma LoadSelf(w: World, p: Pid, quiet: bool)
    requires Good(w, p) && !w.procs[p].cmd.Create?
    requires var pc := w.procs[p].pc; pc.LoadStat? || pc.LoadInfo? || pc.LoadCfgStat? || pc.LoadCfgRead?
    ensures var e := StepLoad(w.sys, p, w.procs[p], quiet); ProcOk(e.sys, p, e.proc)
  {
    if w.procs[p].pc.LoadStat? { LoadStatSelf(w, p, quiet); }
    else if w.procs[p].pc.LoadCfgRead? { LoadCfgReadSelf(w, p, quiet); }
    else { LoadFailedSelf(w, p, quiet); }
  }

  lemma LoadShared(w: World, p: Pid, quiet: bool)
    requires Good(w, p) && !w.procs[p].cmd.Create?
    requires var pc := w.procs[p].pc; pc.LoadStat? || pc.LoadInfo? || pc.LoadCfgStat? || pc.LoadCfgRead?
    ensures SharedOk(w, p, StepLoad(w.sys, p, w.procs[p], quiet))
  {
    StillAdvances(w, p, StepLoad(w.sys, p, w.procs[p], quiet));
  }

  lemma AnswerSelf(w: World, p: Pid, status: Status)
    requires Good(w, p) && (w.procs[p].cmd.Start? || w.procs[p].cmd.State?)
    requires var pc := w.procs[p].pc; pc.QState? || pc.QPid? || pc.QCmd?
    requires w.procs[p].cmd.State? && w.procs[p].gen == w.sys.gen ==>
               !status.Creating? && Order(status) == Progress(w.sys)
    ensures var e := Answer(w.sys, p, w.procs[p], status); ProcOk(e.sys, p, e.proc)
  {
  }

  lemma PidFileReadSelf(w: World, p: Pid)
    requires Good(w, p) && w.procs[p].cmd.State? && w.procs[p].pc.TPid?
    ensures var e := StepQuery(w.sys, p, w.procs[p]); ProcOk(e.sys, p, e.proc)
  {
  }

  lemma AskStateSelf(w: World, p: Pid)
    requires Good(w, p) && (w.procs[p].cmd.Start? || w.procs[p].cmd.State?) && w.procs[p].pc.QState?
    ensures var e := StepQuery(w.sys, p, w.procs[p]); ProcOk(e.sys, p, e.proc)
  {
    var s := w.sys;
    if Shown(s.mon) == STOPPED { AnswerSelf(w, p, Stopped); }
    else if Shown(s.mon) == STARTING { AnswerSelf(w, p, Creating); }
  }

  lemma QuerySelf(w: World, p: Pid)
    requires Good(w, p) && (w.procs[p].cmd.Start? || w.procs[p].cmd.State?)
    requires var pc := w.procs[p].pc; pc.TPid? || pc.QState? || pc.QPid? || pc.QCmd?
    ensures var e := StepQuery(w.sys, p, w.procs[p]); ProcOk(e.sys, p, e.proc)
  {
    var s, q := w.sys, w.procs[p];
    if q.pc.TPid? { PidFileReadSelf(w, p); }
    else if q.pc.QState? { AskStateSelf(w, p); }
    else if q.pc.QCmd? { AnswerSelf(w, p, InitState(s.mon, q.ipid)); }
    else if !HasInitPid(s.mon) { AnswerSelf(w, p, Stopped); }
  }

  lemma QueryShared(w: World, p: Pid)
    requires Good(w, p) && (w.procs[p].cmd.Start? || w.procs[p].cmd.State?)
    requires var pc := w.procs[p].pc; pc.TPid? || pc.QState? || pc.QPid? || pc.QCmd?
    ensures SharedOk(w, p, StepQuery(w.sys, p, w.procs[p]))
  {
    StillAdvances(w, p, StepQuery(w.sys, p, w.procs[p]));
  }

  // Kill and delete only move on.
  lemma OnwardSelf(w: World, p: Pid, q: Proc, t: Sys)
    requires Good(w, p) && (w.procs[p].cmd.Kill? || w.procs[p].cmd.Delete?)
    requires !w.procs[p].pc.LoadStat? && !w.procs[p].pc.Done? && AtMostCloses(w.sys, p, w.procs[p], t)
    requires var pc := q.pc; pc.KStop? || pc.KDrain? || pc.Destroy? || pc.Remove? || pc.Done?
    requires q.marks == w.procs[p].marks || (q.marks == w.procs[p].marks + {Drained} && (q.pc.Destroy? || q.pc.Done?))
    requires q == w.procs[p].(pc := q.pc, marks := q.marks, decided := q.decided)
             && (q.decided.Some? ==> q.decided.value <= t.gen)
    requires (w.procs[p].pc.Destroy? || w.procs[p].pc.Remove? || Drained !in w.procs[p].marks)
    requires q.pc.Remove? || q.pc.Done? || !(w.procs[p].pc.Destroy? || w.procs[p].pc.Remove?)
    ensures ProcOk(t, p, q)
  {
  }

  lemma StopSelf(w: World, p: Pid, quiet: bool)
    requires Good(w, p) && (w.procs[p].cmd.Kill? || w.procs[p].cmd.Delete?)
    requires var pc := w.procs[p].pc; pc.KState? || pc.KStop? || pc.KDrain?
    ensures var e := StepKill(w.sys, p, w.procs[p], quiet); ProcOk(e.sys, p, e.proc)
  {
    var e := StepKill(w.sys, p, w.procs[p], quiet);
    if !w.procs[p].pc.KDrain? || !Populated(w.sys) { OnwardSelf(w, p, e.proc, e.sys); }
  }

  lemma KillSelf(w: World, p: Pid, quiet: bool)
    requires Good(w, p) && (w.procs[p].cmd.Kill? || w.procs[p].cmd.Delete?)
    ensures var e := StepKill(w.sys, p, w.procs[p], quiet); ProcOk(e.sys, p, e.proc)
  {
    var pc := w.procs[p].pc;
    var e := StepKill(w.sys, p, w.procs[p], quiet);
    if pc.KState? || pc.KStop? || pc.KDrain? { StopSelf(w, p, quiet); }
    else if pc.DState? || pc.Destroy? { OnwardSelf(w, p, e.proc, e.sys); }
  }

  lemma KillShared(w: World, p: Pid, quiet: bool)
    requires Good(w, p) && (w.procs[p].cmd.Kill? || w.procs[p].cmd.Delete?)
    ensures SharedOk(w, p, StepKill(w.sys, p, w.procs[p], quiet))
  {
    StillAdvances(w, p, StepKill(w.sys, p, w.procs[p], quiet));
  }

  lemma FifoOpenSelf(w: World, p: Pid)
    requires Good(w, p) && w.procs[p].cmd.Start?
    requires w.procs[p].pc.FOpen?
    ensures var e := StepFifo(w.sys, p, w.procs[p]); ProcOk(e.sys, p, e.proc)
  {
  }

  lemma FifoOpenKeepsFifo(w: World, p: Pid)
    requires Good(w, p) && w.procs[p].cmd.Start? && w.procs[p].pc.FOpen?
    ensures var e := StepFifo(w.sys, p, w.procs[p]); FifoOk(e.sys)
  {
  }

  lemma FifoOpenShared(w: World, p: Pid)
    requires Good(w, p) && w.procs[p].cmd.Start?
    requires w.procs[p].pc.FOpen?
    ensures SharedOk(w, p, StepFifo(w.sys, p, w.procs[p]))
  {
    FifoOpenKeepsFifo(w, p);
    OwnersKept(w, p, StepFifo(w.sys, p, w.procs[p]));
  }

  lemma FifoReadSelf(w: World, p: Pid)
    requires Good(w, p) && w.procs[p].cmd.Start?
    requires w.procs[p].pc.FRead?
    ensures var e := StepFifo(w.sys, p, w.procs[p]); ProcOk(e.sys, p, e.proc)
  {
  }

  lemma FifoReadKeepsFifo(w: World, p: Pid)
    requires Good(w, p) && w.procs[p].cmd.Start? && w.procs[p].pc.FRead?
    ensures var e := StepFifo(w.sys, p, w.procs[p]); FifoOk(e.sys)
  {
  }

  lemma FifoReadShared(w: World, p: Pid)
    requires Good(w, p) && w.procs[p].cmd.Start?
    requires w.procs[p].pc.FRead?
    ensures SharedOk(w, p, StepFifo(w.sys, p, w.procs[p]))
  {
    FifoReadKeepsFifo(w, p);
    OwnersKept(w, p, StepFifo(w.sys, p, w.procs[p]));
  }

  // Init has left the created state when the wait is over.
  lemma WaitNotEnds(w: World, p: Pid)
    requires Good(w, p) && w.procs[p].cmd.Start? && w.procs[p].fifoGen == w.sys.gen
    requires w.procs[p].pc.WPid? || w.procs[p].pc.WCmd?
    ensures StepFifo(w.sys, p, w.procs[p]).proc.pc.Done? ==> Progress(w.sys) >= 1
  {
  }

  lemma WaitNotSelf(w: World, p: Pid)
    requires Good(w, p) && w.procs[p].cmd.Start?
    requires var pc := w.procs[p].pc; pc.FWait? || pc.WPid? || pc.WCmd?
    ensures var e := StepFifo(w.sys, p, w.procs[p]); ProcOk(e.sys, p, e.proc)
  {
    if !w.procs[p].pc.FWait? && w.procs[p].fifoGen == w.sys.gen { WaitNotEnds(w, p); }
  }

  lemma WaitNotShared(w: World, p: Pid)
    requires Good(w, p) && w.procs[p].cmd.Start?
    requires var pc := w.procs[p].pc; pc.FWait? || pc.WPid? || pc.WCmd?
    ensures SharedOk(w, p, StepFifo(w.sys, p, w.procs[p]))
  {
    StillAdvances(w, p, StepFifo(w.sys, p, w.procs[p]));
  }

}
