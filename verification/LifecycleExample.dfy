/**
  An orderly run in which everything succeeds: a create returns nil, a start returns nil, and the
  user's process runs. It shows that the theorems about successful commands speak of something.
 */
module LifecycleExample {
  import opened Options
  import opened Lifecycle
  import opened LifecycleFiles
  import opened LifecycleInvariant
  import opened LifecycleSafety
  import opened LifecycleTheorems
  import opened LifecycleLimits
  import opened LifecycleRuns

  lemma MonitorStep(w: World, es: seq<Event>, p: Pid, e: Effect, event: Event) returns (fs: seq<Event>, f: Effect)
    requires Reaches(w, es, p, e) && (event.MonLoad? || event.MonFork? || event.MonRun?)
    ensures Reaches(w, fs, p, f) && f.proc == e.proc
    ensures f.sys == e.sys.(mon := StepMonitor(e.sys.mon, event, e.sys.config.Some?))
  {
    Extended(w, es, event);
    fs, f := es + [event], Effect(e.sys.(mon := StepMonitor(e.sys.mon, event, e.sys.config.Some?)), e.proc);
  }

  lemma InitStep(w: World, es: seq<Event>, p: Pid, e: Effect) returns (fs: seq<Event>, f: Effect)
    requires Reaches(w, es, p, e)
    ensures Reaches(w, fs, p, f) && f == Effect(StepInit(e.sys), e.proc)
  {
    Extended(w, es, InitNext);
    fs, f := es + [InitNext], Effect(StepInit(e.sys), e.proc);
  }

  // ---------------------------------------------------------------- create

  // The files are saved, and the monitor is the one process 1 launched.
  predicate Saved1(s: Sys) {
    && s.gen == 0 && s.dir && s.info == Some(File(1, Full(1))) && s.config == Some(File(1, Full(1)))
    && HasFifo(s) && s.mon.launcher == 1
  }

  // The monitor boots init up to its open of the FIFO.
  lemma MonitorBoots(w: World, es: seq<Event>, e: Effect) returns (fs: seq<Event>, f: Effect)
    requires Reaches(w, es, 1, e) && Saved1(e.sys) && e.sys.mon == Monitor(1, Launched, Unforked, 0)
             && e.sys.fifos == map[0 := Fifo({}, {}, {})]
    ensures Reaches(w, fs, 1, f) && f.proc == e.proc
    ensures f.sys == e.sys.(mon := Monitor(1, Active(RUNNING), Opening, 0),
            fifos := map[0 := Fifo({}, {}, {WriterCame})])
  {
    fs, f := MonitorStep(w, es, 1, e, MonLoad);
    fs, f := MonitorStep(w, fs, 1, f, MonFork);
    fs, f := MonitorStep(w, fs, 1, f, MonRun);
    fs, f := InitStep(w, fs, 1, f);
    fs, f := InitStep(w, fs, 1, f);
    assert {} + {WriterCame} - {Rendezvous} == {WriterCame};
  }

  predicate Waiting(s: Sys) {
    Saved1(s) && s.mon == Monitor(1, Active(RUNNING), Opening, 0) && s.fifos == map[0 := Fifo({}, {}, {WriterCame})]
  }

  lemma WaitCalls(s: Sys, q: Proc)
    requires Waiting(s) && q.cmd.Create?
    ensures q.pc.QState? ==> StepCreate(s, 1, q) == Effect(s, q.(pc := QPid))
    ensures q.pc.QPid? ==> StepCreate(s, 1, q) == Effect(s, q.(pc := QCmd, ipid := 1))
    ensures q.pc.QCmd? && q.ipid == 1 ==>
              StepCreate(s, 1, q) == Effect(s, q.(pc := CPidTmp, marks := q.marks + {SawCreated}))
  {
  }

  lemma SeesCreated(w: World, es: seq<Event>, e: Effect) returns (fs: seq<Event>, f: Effect)
    requires Reaches(w, es, 1, e) && Waiting(e.sys) && e.proc.cmd.Create? && e.proc.pc.QState?
    ensures Reaches(w, fs, 1, f) && f.sys == e.sys && f.proc.cmd.Create? && f.proc.pc.CPidTmp?
  {
    WaitCalls(e.sys, e.proc);
    f := CreateStep(w, es, 1, e);
    WaitCalls(f.sys, f.proc);
    f := CreateStep(w, es + [Step(1)], 1, f);
    WaitCalls(f.sys, f.proc);
    fs := es + [Step(1)] + [Step(1)];
    f := CreateStep(w, fs, 1, f);
    fs := fs + [Step(1)];
  }

  lemma WritesPidTmp(w: World, es: seq<Event>, e: Effect) returns (fs: seq<Event>, f: Effect)
    requires Reaches(w, es, 1, e) && Waiting(e.sys) && e.proc.cmd.Create? && e.proc.pc.CPidTmp? && 1 !in e.sys.pidTmp
    ensures Reaches(w, fs, 1, f) && Waiting(f.sys) && f.proc.cmd.Create? && f.proc.pc.CPidRename? && 1 in f.sys.pidTmp
    ensures f.proc.fifoGen == e.proc.fifoGen
  {
    fs, f := TwoSteps(w, es, 1, e);
  }

  lemma RenameCall(s: Sys, q: Proc)
    requires Waiting(s) && q.cmd.Create? && q.pc.CPidRename? && 1 in s.pidTmp
    ensures var f := StepCreate(s, 1, q); Waiting(f.sys) && f.proc.cmd.Create? && f.proc.pc == Done(true)
  {
    assert {} - {1} == {};
  }

  lemma RenamesPidTmp(w: World, es: seq<Event>, e: Effect) returns (fs: seq<Event>, f: Effect)
    requires Reaches(w, es, 1, e) && Waiting(e.sys) && e.proc.cmd.Create? && e.proc.pc.CPidRename? && 1 in e.sys.pidTmp
    ensures Reaches(w, fs, 1, f) && Waiting(f.sys) && f.proc.cmd.Create? && f.proc.pc == Done(true)
  {
    RenameCall(e.sys, e.proc);
    f := CreateStep(w, es, 1, e);
    fs := es + [Step(1)];
  }

  lemma Creates() returns (es: seq<Event>, e: Effect)
    ensures Reaches(INIT_WORLD, es, 1, e) && Waiting(e.sys) && e.proc.cmd.Create? && e.proc.pc == Done(true)
  {
    es, e := CreateAlone(INIT_WORLD, 1);
    es, e := SaveAlone(INIT_WORLD, 1, es, e);
    e := CreateStep(INIT_WORLD, es, 1, e);
    es := es + [Step(1)];
    es, e := MonitorBoots(INIT_WORLD, es, e);
    es, e := SeesCreated(INIT_WORLD, es, e);
    es, e := WritesPidTmp(INIT_WORLD, es, e);
    es, e := RenamesPidTmp(INIT_WORLD, es, e);
  }

  // ---------------------------------------------------------------- start

  lemma NextStep(w: World, es: seq<Event>, p: Pid, e: Effect) returns (fs: seq<Event>, f: Effect)
    requires Reaches(w, es, p, e) && !e.proc.pc.Remove?
    ensures f == StepProc(e.sys, p, e.proc, IsQuiet(Put(w, p, e))) && Reaches(w, fs, p, f)
  {
    f := OtherStep(w, es, p, e);
    fs := es + [Step(p)];
  }

  predicate Starting2(e: Effect, s: Sys, pc: Pc) {
    e.sys == s && e.proc.cmd.Start? && e.proc.pc == pc && Late !in e.proc.marks
  }

  // The calls of a start up to its open of the FIFO.
  function Calls(pc: Pc): nat {
    match pc
    case LoadStat => 7
    case LoadInfo => 6
    case LoadCfgStat => 5
    case LoadCfgRead => 4
    case QState => 3
    case QPid => 2
    case QCmd => 1
    case _ => 0
  }

  predicate OnItsWay(e: Effect, s: Sys, pc: Pc) {
    Starting2(e, s, pc) && (pc.QCmd? ==> e.proc.ipid == 1) && (Calls(pc) > 0 || pc.FOpen?)
  }

  lemma LoadCall(s: Sys, q: Proc, quiet: bool)
    requires Waiting(s) && OnItsWay(Effect(s, q), s, q.pc) && Calls(q.pc) > 3
    ensures var f := StepLoad(s, 2, q, quiet); OnItsWay(f, s, f.proc.pc) && Calls(f.proc.pc) < Calls(q.pc)
  {
  }

  lemma QueryCall(s: Sys, q: Proc)
    requires Waiting(s) && OnItsWay(Effect(s, q), s, q.pc) && 0 < Calls(q.pc) <= 3
    ensures var f := StepQuery(s, 2, q); OnItsWay(f, s, f.proc.pc) && Calls(f.proc.pc) < Calls(q.pc)
  {
  }

  lemma {:induction false} FindsCreated(w: World, es: seq<Event>, e: Effect) returns (fs: seq<Event>, f: Effect)
    requires Reaches(w, es, 2, e) && Waiting(e.sys) && OnItsWay(e, e.sys, e.proc.pc)
    ensures Reaches(w, fs, 2, f) && Starting2(f, e.sys, FOpen)
    decreases Calls(e.proc.pc)
  {
    fs, f := es, e;
    if !e.proc.pc.FOpen? {
      fs, f := NextStep(w, es, 2, e);
      if Calls(e.proc.pc) > 3 { LoadCall(e.sys, e.proc, IsQuiet(Put(w, 2, e))); } else { QueryCall(e.sys, e.proc); }
      fs, f := FindsCreated(w, fs, f);
    }
  }

  const OPENED := map[0 := Fifo({2}, {2}, {WriterCame, Rendezvous})]

  predicate HasOpened(q: Proc) {
    q.cmd.Start? && Late !in q.marks && q.fifoGen == 0
  }

  lemma OpenCall(s: Sys, q: Proc)
    requires Waiting(s) && Starting2(Effect(s, q), s, FOpen)
    ensures var f := StepFifo(s, 2, q);
            f.sys == s.(fifos := OPENED) && HasOpened(f.proc) && f.proc.pc.FWait?
  {
    assert {} + {2} == {2} && {WriterCame} + {Rendezvous} == {WriterCame, Rendezvous};
  }

  lemma Opens(w: World, es: seq<Event>, e: Effect) returns (fs: seq<Event>, f: Effect)
    requires Reaches(w, es, 2, e) && Waiting(e.sys) && Starting2(e, e.sys, FOpen)
    ensures Reaches(w, fs, 2, f) && f.sys == e.sys.(fifos := OPENED) && HasOpened(f.proc) && f.proc.pc.FWait?
  {
    fs, f := NextStep(w, es, 2, e);
    OpenCall(e.sys, e.proc);
  }

  // The FIFO has both ends open, and init has written the ID.
  predicate MessageSent(s: Sys) {
    && Saved1(s) && s.mon == Monitor(1, Active(RUNNING), Wrote, 0)
    && 0 in s.fifos && WriterCame in s.fifos[0].marks && Buffered in s.fifos[0].marks
  }

  lemma WritesMessage(w: World, es: seq<Event>, e: Effect) returns (fs: seq<Event>, f: Effect)
    requires Reaches(w, es, 2, e) && Saved1(e.sys) && e.sys.mon == Monitor(1, Active(RUNNING), Opening, 0)
    requires e.sys.fifos == OPENED
    ensures Reaches(w, fs, 2, f) && MessageSent(f.sys) && f.proc == e.proc
  {
    fs, f := InitStep(w, es, 2, e);
    fs, f := InitStep(w, fs, 2, f);
  }

  lemma ReadCall(s: Sys, q: Proc)
    requires MessageSent(s) && HasOpened(q)
    ensures q.pc.FWait? ==> StepFifo(s, 2, q) == Effect(s, q.(pc := FRead))
    ensures q.pc.FRead? ==>
              var f := StepFifo(s, 2, q); Saved1(f.sys) && f.sys.mon == s.mon && f.proc.cmd.Start? && f.proc.pc.WPid?
  {
  }

  lemma TakesMessage(w: World, es: seq<Event>, e: Effect) returns (fs: seq<Event>, f: Effect)
    requires Reaches(w, es, 2, e) && MessageSent(e.sys) && HasOpened(e.proc) && e.proc.pc.FWait?
    ensures Reaches(w, fs, 2, f) && Saved1(f.sys) && f.sys.mon == e.sys.mon && f.proc.cmd.Start? && f.proc.pc.WPid?
  {
    ReadCall(e.sys, e.proc);
    fs, f := NextStep(w, es, 2, e);
    ReadCall(f.sys, f.proc);
    fs, f := NextStep(w, fs, 2, f);
  }

  lemma Execs(w: World, es: seq<Event>, e: Effect) returns (fs: seq<Event>, f: Effect)
    requires Reaches(w, es, 2, e) && Saved1(e.sys) && e.sys.mon == Monitor(1, Active(RUNNING), Wrote, 0)
    ensures Reaches(w, fs, 2, f) && f.sys.gen == 0 && f.sys.mon == Monitor(1, Active(RUNNING), Init.User, 0)
            && f.proc == e.proc
  {
    fs, f := InitStep(w, es, 2, e);
    fs, f := InitStep(w, fs, 2, f);
  }

  lemma WaitNotCalls(s: Sys, q: Proc)
    requires s.mon == Monitor(1, Active(RUNNING), Init.User, 0) && q.cmd.Start?
    ensures q.pc.WPid? ==> StepFifo(s, 2, q) == Effect(s, q.(pc := WCmd, ipid := 1))
    ensures q.pc.WCmd? && q.ipid == 1 ==> StepFifo(s, 2, q) == End(s, 2, q, true)
  {
  }

  lemma FindsRunning(w: World, es: seq<Event>, e: Effect) returns (fs: seq<Event>, f: Effect)
    requires Reaches(w, es, 2, e) && e.sys.mon == Monitor(1, Active(RUNNING), Init.User, 0)
    requires e.proc.cmd.Start? && e.proc.pc.WPid?
    ensures Reaches(w, fs, 2, f) && f.sys.gen == e.sys.gen && f.sys.mon == e.sys.mon
    ensures f.proc.cmd.Start? && f.proc.pc == Done(true)
  {
    WaitNotCalls(e.sys, e.proc);
    fs, f := NextStep(w, es, 2, e);
    WaitNotCalls(f.sys, f.proc);
    fs, f := NextStep(w, fs, 2, f);
  }

  lemma Starts(w: World) returns (es: seq<Event>, e: Effect)
    requires Waiting(w.sys) && 2 !in w.procs
    ensures Reaches(w, es, 2, e) && e.sys.gen == 0 && e.sys.mon.init.User? && e.proc.cmd.Start?
            && e.proc.pc == Done(true)
  {
    Invoked(w, 2, Start);
    es, e := FindsCreated(w, [Invoke(2, Start)], Effect(w.sys, Fresh(Start)));
    es, e := Opens(w, es, e);
    es, e := WritesMessage(w, es, e);
    es, e := TakesMessage(w, es, e);
    es, e := Execs(w, es, e);
    es, e := FindsRunning(w, es, e);
  }

  // ---------------------------------------------------------------- the run

  lemma EverythingSucceeds() returns (ws: seq<World>, es: seq<Event>)
    ensures Orderly(ws, es)
    ensures var w := ws[|es|];
            && 1 in w.procs && w.procs[1].cmd.Create? && w.procs[1].pc == Done(true)
            && 2 in w.procs && w.procs[2].cmd.Start? && w.procs[2].pc == Done(true)
            && w.sys.mon.init.User?
  {
    var cs, c := Creates();
    var w := Put(INIT_WORLD, 1, c);
    var ds, d := Starts(w);
    AfterAppend(INIT_WORLD, cs, ds);
    es := cs + ds;
    ws := RunOf(es);
    assert es[..|es|] == es;
    forall i: nat | i < |es| ensures OrderlyAt(ws, es, i) { NoRemovalAt(INIT_WORLD, es, i); }
  }
}
