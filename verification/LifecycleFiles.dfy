/**
  The runtime directory: what the guards of create keep, whoever else is running.
 */
module LifecycleFiles {
  import opened Options
  import opened Lifecycle

  // Between the exclusive creation of container.json and the rename of .config.
  predicate Unsaved(pc: Pc) {
    pc.CInfoWrite? || pc.CFifo? || pc.CSaveTmp? || pc.CSaveCfg? || pc.CSaveOpen? || pc.CSaveWrite? || pc.CRename?
  }

  predicate HoldsTmp(s: Sys, p: Pid) {
    s.tmp.Some? && s.tmp.value.ino == p
  }

  predicate HoldsInfo(s: Sys, p: Pid) {
    s.info.Some? && s.info.value.ino == p
  }

  // Every file belongs to one create: the one that made container.json.
  ghost predicate FilesOk(s: Sys, procs: map<Pid, Proc>) {
    && (!s.dir ==> s.tmp.None? && s.config.None? && s.info.None? && !HasFifo(s))
    && (forall g | g in s.fifos :: g <= s.gen)
    && (s.info.Some? ==>
          var c := s.info.value.ino;
          && c in procs && procs[c].cmd.Create? && procs[c].made == Some(s.gen)
          && s.info.value.data == (if Won in procs[c].marks then Full(c) else Empty)
          && (s.config.Some? ==> Saved in procs[c].marks && s.config.value.data == Full(c))
          && (HasFifo(s) ==> Won in procs[c].marks))
    && (s.info.None? ==> s.config.None? && !HasFifo(s))
  }

  // A create that has not made container.json.
  predicate Unmade(s: Sys, p: Pid, q: Proc) {
    Won !in q.marks && Saved !in q.marks && q.made.None? && !HoldsInfo(s, p)
  }

  // The guards of create: .config is held from its exclusive creation to its rename, and
  // container.json from its exclusive creation to removal.
  predicate GuardOk(s: Sys, p: Pid, q: Proc) {
    match q.pc
    case CStat | CStatAgain | CMkdir => Unmade(s, p, q)
    case CTmp => Unmade(s, p, q) && s.dir
    case CInfo => Unmade(s, p, q) && HoldsTmp(s, p)
    case CInfoWrite => Won !in q.marks && Saved !in q.marks && HoldsInfo(s, p) && HoldsTmp(s, p)
    case CFifo => Won in q.marks && Saved !in q.marks && HoldsTmp(s, p)
    case CSaveTmp | CSaveCfg | CSaveOpen => Won in q.marks && Saved !in q.marks && HoldsTmp(s, p) && HasFifo(s)
    case CSaveWrite => Won in q.marks && Saved !in q.marks && HoldsTmp(s, p) && HasFifo(s) && q.handle == p
    case CRename => Won in q.marks && Saved !in q.marks && HoldsTmp(s, p) && HasFifo(s) && s.tmp.value.data == Full(p)
    case CSpawn | QState | QPid | QCmd | CPidTmp | CPidWrite | CPidRename => Won in q.marks && Saved in q.marks
    case Done(ok) => ok || Saved in q.marks ==> Won in q.marks
    case _ => false
  }

  predicate CreatorOk(s: Sys, p: Pid, q: Proc) {
    && q.gen <= s.gen
    && if !q.cmd.Create? then Won !in q.marks && Saved !in q.marks else
       && (InFlight(q) ==> q.gen == s.gen)
       && (Won in q.marks && q.gen == s.gen ==> HoldsInfo(s, p))
       && (Saved in q.marks && q.gen == s.gen ==> s.config.Some? && HasFifo(s))
       && (q.made.Some? ==> q.made == Some(q.gen))
       && GuardOk(s, p, q)
  }

  ghost predicate CreatorsOk(w: World) {
    && FilesOk(w.sys, w.procs)
    && (forall p | p in w.procs :: CreatorOk(w.sys, p, w.procs[p]))
  }

  ghost predicate InOrder(w: World, p: Pid) {
    FilesOk(w.sys, w.procs) && p in w.procs && CreatorOk(w.sys, p, w.procs[p])
  }

  // What another process's step may do to the files without disturbing creator r.
  predicate Spares(s: Sys, t: Sys, r: Pid) {
    && t.gen == s.gen && (s.dir ==> t.dir)
    && (HoldsTmp(s, r) ==> t.tmp == s.tmp)
    && (HoldsInfo(s, r) <==> HoldsInfo(t, r))
    && (s.config.Some? ==> t.config.Some?) && (HasFifo(s) ==> HasFifo(t))
  }

  lemma CreatorSpared(s: Sys, t: Sys, r: Pid, q: Proc)
    requires CreatorOk(s, r, q) && Spares(s, t, r)
    ensures CreatorOk(t, r, q)
  {
  }

  predicate Complete(s: Sys) {
    s.info.Some? && s.info.value.data == Full(s.info.value.ino)
  }

  // Written files stay as they are.
  predicate Settled(s: Sys, t: Sys) {
    && t.gen == s.gen && (s.dir ==> t.dir)
    && (Complete(s) ==> t.info == s.info)
    && (s.config.Some? ==> t.config == s.config)
  }

  ghost predicate Keeps(w: World, p: Pid, e: Effect) {
    && CreatorOk(e.sys, p, e.proc)
    && FilesOk(e.sys, w.procs[p := e.proc])
    && (forall r | r != p :: Spares(w.sys, e.sys, r))
    && Settled(w.sys, e.sys)
  }

  predicate SameClaims(q: Proc, r: Proc) {
    (Won in q.marks <==> Won in r.marks) && (Saved in q.marks <==> Saved in r.marks) && q.made == r.made
  }

  ghost predicate SameFiles(s: Sys, t: Sys) {
    && t.gen == s.gen && t.dir == s.dir && t.tmp == s.tmp && t.config == s.config && t.info == s.info
    && t.fifos.Keys == s.fifos.Keys
  }

  // A step that touches no file keeps them if it leaves the process's own record in order.
  lemma Untouched(w: World, p: Pid, e: Effect)
    requires FilesOk(w.sys, w.procs) && p in w.procs && SameFiles(w.sys, e.sys)
    requires var q := w.procs[p]; e.proc.cmd == q.cmd && SameClaims(q, e.proc)
                                  && (e.proc.gen == q.gen || (e.proc.gen == w.sys.gen && !HoldsInfo(w.sys, p)))
    requires CreatorOk(e.sys, p, e.proc)
    ensures Keeps(w, p, e)
  {
  }

  lemma EndKeeps(w: World, p: Pid, q: Proc, ok: bool)
    requires InOrder(w, p)
    requires q.cmd == w.procs[p].cmd && SameClaims(w.procs[p], q) && q.gen == w.procs[p].gen
    requires ok && q.cmd.Create? ==> Won in q.marks
    ensures Keeps(w, p, End(w.sys, p, q, ok))
  {
  }

  lemma CheckKeeps(w: World, p: Pid)
    requires InOrder(w, p) && w.procs[p].cmd.Create?
    requires var pc := w.procs[p].pc; pc.CStat? || pc.CStatAgain? || pc.CMkdir? || pc.Done?
    ensures Keeps(w, p, StepCheck(w.sys, p, w.procs[p]))
  {
  }

  lemma TmpKeeps(w: World, p: Pid)
    requires InOrder(w, p) && w.procs[p].cmd.Create?
    requires w.procs[p].pc.CTmp?
    ensures Keeps(w, p, StepTmp(w.sys, p, w.procs[p]))
  {
  }

  lemma InfoKeeps(w: World, p: Pid)
    requires InOrder(w, p) && w.procs[p].cmd.Create?
    requires var pc := w.procs[p].pc; pc.CInfo? || pc.CInfoWrite?
    ensures Keeps(w, p, StepInfo(w.sys, p, w.procs[p]))
  {
  }

  lemma MkfifoKeeps(w: World, p: Pid)
    requires InOrder(w, p) && w.procs[p].cmd.Create?
    requires w.procs[p].pc.CFifo?
    ensures Keeps(w, p, StepMkfifo(w.sys, p, w.procs[p]))
  {
  }

  lemma SaveKeeps(w: World, p: Pid)
    requires InOrder(w, p) && w.procs[p].cmd.Create?
    requires var pc := w.procs[p].pc; pc.CSaveTmp? || pc.CSaveCfg? || pc.CSaveOpen? || pc.CSaveWrite?
    ensures Keeps(w, p, StepSave(w.sys, p, w.procs[p]))
  {
  }

  lemma RenameKeeps(w: World, p: Pid)
    requires InOrder(w, p) && w.procs[p].cmd.Create?
    requires w.procs[p].pc.CRename?
    ensures Keeps(w, p, StepRename(w.sys, p, w.procs[p]))
  {
  }

  lemma CloseTouchesNoFile(s: Sys, p: Pid, g: nat)
    ensures SameFiles(s, Close(s, p, g))
  {
  }

  // After the rename a create touches no file of the runtime directory.
  lemma LateTouchesNoFile(s: Sys, p: Pid, q: Proc)
    ensures SameFiles(s, StepSpawn(s, p, q).sys) && SameFiles(s, StepWait(s, p, q).sys)
    ensures SameFiles(s, StepPidFile(s, p, q).sys)
  {
    CloseTouchesNoFile(s, p, q.fifoGen);
  }

  lemma SpawnKeeps(w: World, p: Pid)
    requires InOrder(w, p) && w.procs[p].cmd.Create?
    requires w.procs[p].pc.CSpawn?
    ensures Keeps(w, p, StepSpawn(w.sys, p, w.procs[p]))
  {
    LateTouchesNoFile(w.sys, p, w.procs[p]);
    Untouched(w, p, StepSpawn(w.sys, p, w.procs[p]));
  }

  lemma WaitKeeps(w: World, p: Pid)
    requires InOrder(w, p) && w.procs[p].cmd.Create?
    requires var pc := w.procs[p].pc; pc.QState? || pc.QPid? || pc.QCmd?
    ensures Keeps(w, p, StepWait(w.sys, p, w.procs[p]))
  {
    LateTouchesNoFile(w.sys, p, w.procs[p]);
    Untouched(w, p, StepWait(w.sys, p, w.procs[p]));
  }

  lemma PidFileKeeps(w: World, p: Pid)
    requires InOrder(w, p) && w.procs[p].cmd.Create?
    requires var pc := w.procs[p].pc; pc.CPidTmp? || pc.CPidWrite? || pc.CPidRename?
    ensures Keeps(w, p, StepPidFile(w.sys, p, w.procs[p]))
  {
    LateTouchesNoFile(w.sys, p, w.procs[p]);
    Untouched(w, p, StepPidFile(w.sys, p, w.procs[p]));
  }

  lemma CreateKeeps(w: World, p: Pid)
    requires InOrder(w, p) && w.procs[p].cmd.Create?
    ensures Keeps(w, p, StepCreate(w.sys, p, w.procs[p]))
  {
    var pc := w.procs[p].pc;
    if pc.CTmp? { TmpKeeps(w, p); }
    else if pc.CInfo? || pc.CInfoWrite? { InfoKeeps(w, p); }
    else if pc.CFifo? { MkfifoKeeps(w, p); }
    else if pc.CSaveTmp? || pc.CSaveCfg? || pc.CSaveOpen? || pc.CSaveWrite? { SaveKeeps(w, p); }
    else if pc.CRename? { RenameKeeps(w, p); }
    else if pc.CSpawn? { SpawnKeeps(w, p); }
    else if pc.QState? || pc.QPid? || pc.QCmd? { WaitKeeps(w, p); }
    else if pc.CPidTmp? || pc.CPidWrite? || pc.CPidRename? { PidFileKeeps(w, p); }
    else { CheckKeeps(w, p); }
  }

  // What a create leaves of its own record.
  predicate Records(q: Proc, r: Proc) {
    && r.cmd == q.cmd && r.info == q.info && r.cfg == q.cfg && r.fifoGen == q.fifoGen && r.report == q.report
    && q.marks <= r.marks && r.marks <= q.marks + {Won, Saved, SawCreated}
    && (r.pc.LoadStat? ==> r == q)
  }

  lemma MakingRecords(s: Sys, p: Pid, q: Proc)
    ensures Records(q, StepCheck(s, p, q).proc) && Records(q, StepTmp(s, p, q).proc)
    ensures Records(q, StepInfo(s, p, q).proc) && Records(q, StepMkfifo(s, p, q).proc)
  {
  }

  lemma SavingRecords(s: Sys, p: Pid, q: Proc)
    ensures Records(q, StepSave(s, p, q).proc) && Records(q, StepRename(s, p, q).proc)
  {
  }

  lemma WaitingRecords(s: Sys, p: Pid, q: Proc)
    ensures Records(q, StepSpawn(s, p, q).proc) && Records(q, StepWait(s, p, q).proc)
    ensures Records(q, StepPidFile(s, p, q).proc)
  {
  }

  lemma CreateRecords(s: Sys, p: Pid, q: Proc)
    ensures Records(q, StepCreate(s, p, q).proc)
  {
    MakingRecords(s, p, q);
    SavingRecords(s, p, q);
    WaitingRecords(s, p, q);
  }

  // What a create does to FIFOs and monitor.
  predicate FifosChange(s: Sys, p: Pid, q: Proc, t: Sys) {
    t.fifos == s.fifos || t.fifos == Close(s, p, q.fifoGen).fifos || t.fifos == s.fifos[s.gen := Fifo({}, {}, {})]
  }

  predicate Affects(s: Sys, p: Pid, q: Proc, t: Sys) {
    FifosChange(s, p, q, t) && (t.mon == s.mon || t.mon == Monitor(p, Launched, Unforked, 0)) && t.gen == s.gen
  }

  lemma MakingAffects(s: Sys, p: Pid, q: Proc)
    ensures Affects(s, p, q, StepCheck(s, p, q).sys) && Affects(s, p, q, StepTmp(s, p, q).sys)
    ensures Affects(s, p, q, StepInfo(s, p, q).sys) && Affects(s, p, q, StepMkfifo(s, p, q).sys)
  {
  }

  lemma SavingAffects(s: Sys, p: Pid, q: Proc)
    ensures Affects(s, p, q, StepSave(s, p, q).sys) && Affects(s, p, q, StepRename(s, p, q).sys)
  {
  }

  lemma WaitingAffects(s: Sys, p: Pid, q: Proc)
    ensures Affects(s, p, q, StepSpawn(s, p, q).sys) && Affects(s, p, q, StepWait(s, p, q).sys)
    ensures Affects(s, p, q, StepPidFile(s, p, q).sys)
  {
  }

  lemma CreateAffects(s: Sys, p: Pid, q: Proc)
    ensures Affects(s, p, q, StepCreate(s, p, q).sys)
  {
    MakingAffects(s, p, q);
    SavingAffects(s, p, q);
    WaitingAffects(s, p, q);
  }

  // Load, query and kill change at most their own end of a FIFO.
  predicate AtMostCloses(s: Sys, p: Pid, q: Proc, t: Sys) {
    t == s || t == Close(s, p, q.fifoGen)
  }

  lemma LoadCloses(s: Sys, p: Pid, q: Proc, quiet: bool)
    ensures AtMostCloses(s, p, q, StepLoad(s, p, q, quiet).sys)
  {
  }

  lemma QueryCloses(s: Sys, p: Pid, q: Proc)
    ensures AtMostCloses(s, p, q, StepQuery(s, p, q).sys)
  {
  }

  lemma KillCloses(s: Sys, p: Pid, q: Proc, quiet: bool)
    ensures AtMostCloses(s, p, q, StepKill(s, p, q, quiet).sys)
  {
  }

  // Start, state, kill and delete (before RemoveAll) change no file but the FIFO's contents.
  ghost predicate PlainStep(s: Sys, q: Proc, e: Effect) {
    SameFiles(s, e.sys) && e.sys.mon == s.mon && e.sys.kids == s.kids
    && e.proc.cmd == q.cmd && SameClaims(q, e.proc)
    && (e.proc.gen == q.gen || e.proc.gen == s.gen)
  }

  lemma LoadIsPlain(s: Sys, p: Pid, q: Proc, quiet: bool)
    ensures PlainStep(s, q, StepLoad(s, p, q, quiet))
  {
    LoadCloses(s, p, q, quiet);
    CloseTouchesNoFile(s, p, q.fifoGen);
  }

  lemma QueryIsPlain(s: Sys, p: Pid, q: Proc)
    ensures PlainStep(s, q, StepQuery(s, p, q))
  {
    QueryCloses(s, p, q);
    CloseTouchesNoFile(s, p, q.fifoGen);
  }

  lemma OpenIsPlain(s: Sys, p: Pid, q: Proc)
    requires q.pc.FOpen?
    ensures PlainStep(s, q, StepFifo(s, p, q))
  {
  }

  lemma ReadIsPlain(s: Sys, p: Pid, q: Proc)
    requires q.pc.FRead?
    ensures PlainStep(s, q, StepFifo(s, p, q))
  {
    CloseTouchesNoFile(s, p, q.fifoGen);
    var g := q.fifoGen;
    if g in s.fifos { CloseTouchesNoFile(Marked(s, g, s.fifos[g].marks - {Buffered}), p, g); }
  }

  lemma FifoIsPlain(s: Sys, p: Pid, q: Proc)
    ensures PlainStep(s, q, StepFifo(s, p, q))
  {
    if q.pc.FOpen? { OpenIsPlain(s, p, q); }
    else if q.pc.FRead? { ReadIsPlain(s, p, q); }
    else { CloseTouchesNoFile(s, p, q.fifoGen); }
  }

  lemma KillIsPlain(s: Sys, p: Pid, q: Proc, quiet: bool)
    ensures PlainStep(s, q, StepKill(s, p, q, quiet))
  {
    KillCloses(s, p, q, quiet);
    CloseTouchesNoFile(s, p, q.fifoGen);
  }

  lemma OthersPlain(s: Sys, p: Pid, q: Proc, quiet: bool)
    requires !q.cmd.Create? && !q.pc.Remove?
    ensures PlainStep(s, q, StepProc(s, p, q, quiet))
  {
    LoadIsPlain(s, p, q, quiet);
    QueryIsPlain(s, p, q);
    FifoIsPlain(s, p, q);
    KillIsPlain(s, p, q, quiet);
  }

  lemma OthersKeep(w: World, p: Pid, quiet: bool)
    requires InOrder(w, p) && !w.procs[p].cmd.Create? && !w.procs[p].pc.Remove?
    ensures Keeps(w, p, StepProc(w.sys, p, w.procs[p], quiet))
  {
    OthersPlain(w.sys, p, w.procs[p], quiet);
    Untouched(w, p, StepProc(w.sys, p, w.procs[p], quiet));
  }

  lemma RemoveKeeps(w: World, p: Pid)
    requires CreatorsOk(w) && p in w.procs && w.procs[p].pc.Remove? && !w.procs[p].cmd.Create? && w.sys.dir
    requires forall r | r in w.procs :: !InFlight(w.procs[r])
    ensures CreatorsOk(Put(w, p, StepRemove(w.sys, p, w.procs[p])))
  {
    var v := Put(w, p, StepRemove(w.sys, p, w.procs[p]));
    forall r | r in v.procs ensures CreatorOk(v.sys, r, v.procs[r]) {
      assert CreatorOk(w.sys, r, w.procs[r]);
    }
  }

  lemma CreatorsKept(w: World, p: Pid, e: Effect)
    requires CreatorsOk(w) && Keeps(w, p, e)
    ensures CreatorsOk(Put(w, p, e))
  {
    forall r | r in w.procs && r != p ensures CreatorOk(e.sys, r, w.procs[r]) {
      CreatorSpared(w.sys, e.sys, r, w.procs[r]);
    }
  }

  lemma StepKeeps(w: World, p: Pid, quiet: bool)
    requires InOrder(w, p) && !Removes(w, Step(p))
    ensures Keeps(w, p, StepProc(w.sys, p, w.procs[p], quiet))
  {
    if w.procs[p].cmd.Create? {
      CreateKeeps(w, p);
    } else if w.procs[p].pc.Remove? {
      EndKeeps(w, p, w.procs[p], true);
    } else {
      OthersKeep(w, p, quiet);
    }
  }

  lemma SysKeepsCreators(w: World, t: Sys)
    requires CreatorsOk(w) && SameFiles(w.sys, t)
    ensures CreatorsOk(World(t, w.procs))
  {
    forall r | r in w.procs ensures CreatorOk(t, r, w.procs[r]) {
      CreatorSpared(w.sys, t, r, w.procs[r]);
    }
  }

  lemma MarkedTouchesNoFile(s: Sys, g: nat, marks: set<FifoMark>)
    requires g in s.fifos
    ensures SameFiles(s, Marked(s, g, marks))
  {
  }

  lemma InitTouchesNoFile(s: Sys)
    ensures SameFiles(s, StepInit(s))
  {
    var i, g := s.mon.init, s.mon.fifo;
    if i.Booting? && HasFifo(s) {
      var f := s.fifos[s.gen];
      MarkedTouchesNoFile(s, s.gen, f.marks + {WriterCame, Rendezvous});
      MarkedTouchesNoFile(s, s.gen, f.marks + {WriterCame} - {Rendezvous});
    } else if i.Opened? && g in s.fifos {
      MarkedTouchesNoFile(s, g, s.fifos[g].marks + {Sent, Buffered});
    } else if i.Wrote? && g in s.fifos {
      MarkedTouchesNoFile(s, g, s.fifos[g].marks - {Buffered});
    }
  }

  lemma SystemEvent(w: World, e: Event)
    requires !e.Step? && !e.Abort? && !e.Invoke?
    ensures Next(w, e).procs == w.procs && SameFiles(w.sys, Next(w, e).sys)
  {
    if e.InitNext? { InitTouchesNoFile(w.sys); }
  }

  // No delete removes the directory while a create is in flight.
  ghost predicate Undisturbed(w: World, e: Event) {
    Removes(w, e) ==> forall p | p in w.procs :: !InFlight(w.procs[p])
  }

  lemma FreshKeeps(w: World, p: Pid, cmd: Command)
    requires CreatorsOk(w) && p !in w.procs
    ensures Keeps(w, p, Effect(w.sys, Fresh(cmd)))
  {
  }

  lemma StepKeepsGuards(w: World, p: Pid)
    requires CreatorsOk(w) && p in w.procs && !Removes(w, Step(p))
    ensures CreatorsOk(Next(w, Step(p)))
  {
    StepKeeps(w, p, IsQuiet(w));
    CreatorsKept(w, p, StepProc(w.sys, p, w.procs[p], IsQuiet(w)));
  }

  lemma AbortKeepsGuards(w: World, p: Pid)
    requires CreatorsOk(w) && p in w.procs && !w.procs[p].pc.Done?
    ensures CreatorsOk(Next(w, Abort(p)))
  {
    EndKeeps(w, p, w.procs[p], false);
    CreatorsKept(w, p, End(w.sys, p, w.procs[p], false));
  }

  // Where that is so, every event keeps the guards of every create.
  lemma EventKeepsGuards(w: World, e: Event)
    requires CreatorsOk(w) && Undisturbed(w, e) && (Removes(w, e) ==> !w.procs[e.p].cmd.Create?)
    ensures CreatorsOk(Next(w, e))
  {
    match e
    case Step(p) => if Removes(w, e) { RemoveKeeps(w, p); } else if p in w.procs { StepKeepsGuards(w, p); }
    case Abort(p) => if p in w.procs && !w.procs[p].pc.Done? { AbortKeepsGuards(w, p); }
    case Invoke(p, cmd) =>
      if p !in w.procs {
        FreshKeeps(w, p, cmd);
        CreatorsKept(w, p, Effect(w.sys, Fresh(cmd)));
      }
    case _ =>
      SystemEvent(w, e);
      SysKeepsCreators(w, Next(w, e).sys);
  }
}
