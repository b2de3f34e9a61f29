/**
  What holds of every run, whatever deletes remove and when.
 */
module LifecycleEveryRun {
  import opened Options
  import opened Lifecycle
  import opened LifecycleFiles

  // ---------------------------------------------------------------- the invariant of every run

  // Which commands come to which calls, and what they have seen by then.
  predicate TypeOk(q: Proc) {
    && (q.pc.TPid? ==> q.cmd.State?)
    && (q.pc.QState? || q.pc.QPid? || q.pc.QCmd? ==> q.cmd.Create? || q.cmd.Start? || q.cmd.State?)
    && (q.pc.FOpen? || q.pc.FWait? || q.pc.FRead? ==> q.cmd.Start? && SawCreated in q.marks)
    && (q.pc.WPid? || q.pc.WCmd? ==> q.cmd.Start? && Got in q.marks)
    && (q.pc.KState? || q.pc.KStop? || q.pc.KDrain? ==> q.cmd.Kill? || q.cmd.Delete?)
    && (q.pc.DState? || q.pc.Destroy? || q.pc.Remove? ==> q.cmd.Delete?)
    && (q.cmd.Create? && (q.pc.CPidTmp? || q.pc.CPidWrite? || q.pc.CPidRename? || q.pc == Done(true)) ==>
         SawCreated in q.marks)
    && (q.cmd.Start? && q.pc == Done(true) ==> Got in q.marks)
  }

  // Only starts that observed "created" ever entered a FIFO, and a rendezvous needs one of them.
  ghost predicate FifoTyped(f: Fifo, procs: map<Pid, Proc>) {
    && f.readers <= f.comers
    && (forall r | r in f.comers :: r in procs && procs[r].cmd.Start? && SawCreated in procs[r].marks)
    && (Rendezvous in f.marks ==> f.comers != {})
  }

  ghost predicate FifosTyped(s: Sys, procs: map<Pid, Proc>) {
    forall g | g in s.fifos :: FifoTyped(s.fifos[g], procs)
  }

  ghost predicate Typed(w: World) {
    (forall p | p in w.procs :: TypeOk(w.procs[p])) && FifosTyped(w.sys, w.procs)
  }

  // What one step of p does to its own record and to the FIFOs.
  predicate StepTyped(s: Sys, p: Pid, q: Proc, e: Effect) {
    && TypeOk(e.proc) && e.proc.cmd == q.cmd && q.marks <= e.proc.marks
    && FifosChange(s, p, q, e.sys)
  }

  predicate LateCall(pc: Pc) {
    pc.QState? || pc.QPid? || pc.QCmd? || pc.CPidTmp? || pc.CPidWrite? || pc.CPidRename?
  }

  lemma LateTypeOk(s: Sys, p: Pid, q: Proc)
    requires TypeOk(q) && q.cmd.Create? && LateCall(q.pc)
    ensures TypeOk(if q.pc.QState? || q.pc.QPid? || q.pc.QCmd? then StepWait(s, p, q).proc
            else StepPidFile(s, p, q).proc)
  {
  }

  // Before the monitor is launched a create can only move on or fail.
  lemma EarlyTypeOk(s: Sys, p: Pid, q: Proc)
    requires q.cmd.Create? && !LateCall(q.pc)
    ensures var r := StepCreate(s, p, q).proc; r.pc == q.pc || r.pc == Done(false) || r.pc.QState? || MayComeFirst(r.pc)
  {
  }

  predicate MayComeFirst(pc: Pc) {
    pc.CStatAgain? || pc.CMkdir? || pc.CTmp? || pc.CInfo? || pc.CInfoWrite? || pc.CFifo?
    || pc.CSaveTmp? || pc.CSaveCfg? || pc.CSaveOpen? || pc.CSaveWrite? || pc.CRename? || pc.CSpawn?
  }

  lemma CreateTypeOk(s: Sys, p: Pid, q: Proc)
    requires TypeOk(q) && q.cmd.Create?
    ensures TypeOk(StepCreate(s, p, q).proc)
  {
    CreateRecords(s, p, q);
    if LateCall(q.pc) { LateTypeOk(s, p, q); } else { EarlyTypeOk(s, p, q); }
  }

  lemma CreateTyped(s: Sys, p: Pid, q: Proc)
    requires TypeOk(q) && q.cmd.Create?
    ensures StepTyped(s, p, q, StepCreate(s, p, q))
  {
    CreateRecords(s, p, q);
    CreateTypeOk(s, p, q);
    CreateAffects(s, p, q);
  }

  lemma LoadTyped(s: Sys, p: Pid, q: Proc, quiet: bool)
    requires TypeOk(q) && !q.cmd.Create?
    requires q.pc.LoadStat? || q.pc.LoadInfo? || q.pc.LoadCfgStat? || q.pc.LoadCfgRead?
    ensures StepTyped(s, p, q, StepLoad(s, p, q, quiet))
  {
    LoadCloses(s, p, q, quiet);
  }

  lemma QueryTyped(s: Sys, p: Pid, q: Proc)
    requires TypeOk(q) && !q.cmd.Create?
    requires q.pc.TPid? || q.pc.QState? || q.pc.QPid? || q.pc.QCmd?
    ensures StepTyped(s, p, q, StepQuery(s, p, q))
  {
    QueryCloses(s, p, q);
  }

  lemma WaitTyped(s: Sys, p: Pid, q: Proc)
    requires TypeOk(q) && q.cmd.Start? && (q.pc.FWait? || q.pc.WPid? || q.pc.WCmd?)
    ensures StepTyped(s, p, q, StepFifo(s, p, q))
  {
  }

  lemma KillTyped(s: Sys, p: Pid, q: Proc, quiet: bool)
    requires TypeOk(q) && !q.cmd.Create?
    requires q.pc.KState? || q.pc.KStop? || q.pc.KDrain? || q.pc.DState? || q.pc.Destroy?
    ensures StepTyped(s, p, q, StepKill(s, p, q, quiet))
  {
    KillCloses(s, p, q, quiet);
  }

  lemma EffectTyped(w: World, p: Pid, e: Effect)
    requires Typed(w) && p in w.procs && StepTyped(w.sys, p, w.procs[p], e)
    ensures Typed(Put(w, p, e))
  {
  }

  lemma OpenTyped(w: World, p: Pid, e: Effect)
    requires Typed(w) && p in w.procs && w.procs[p].pc.FOpen? && e == StepFifo(w.sys, p, w.procs[p])
    ensures Typed(Put(w, p, e)) && e.proc.cmd == w.procs[p].cmd
  {
    assert TypeOk(w.procs[p]);
  }

  // A process that keeps its marks may close its end and take the message.
  lemma FifosStayTyped(s: Sys, procs: map<Pid, Proc>, p: Pid, q: Proc, g: nat)
    requires FifosTyped(s, procs) && p in procs && q.cmd == procs[p].cmd && procs[p].marks <= q.marks
    ensures FifosTyped(s, procs[p := q]) && FifosTyped(Close(s, p, g), procs[p := q])
    ensures g in s.fifos ==> FifosTyped(Marked(s, g, s.fifos[g].marks - {Buffered}), procs)
  {
  }

  lemma ReadTyped(w: World, p: Pid, e: Effect)
    requires Typed(w) && p in w.procs && w.procs[p].pc.FRead? && e == StepFifo(w.sys, p, w.procs[p])
    ensures Typed(Put(w, p, e)) && e.proc.cmd == w.procs[p].cmd
  {
    var s, q := w.sys, w.procs[p];
    var g := q.fifoGen;
    assert TypeOk(q);
    FifosStayTyped(s, w.procs, p, e.proc, g);
    if g in s.fifos { FifosStayTyped(Marked(s, g, s.fifos[g].marks - {Buffered}), w.procs, p, e.proc, g); }
  }

  lemma StepKeepsTypes(w: World, p: Pid, e: Effect)
    requires Typed(w) && p in w.procs && e == StepProc(w.sys, p, w.procs[p], IsQuiet(w))
    ensures Typed(Put(w, p, e)) && e.proc.cmd == w.procs[p].cmd
  {
    var s, q := w.sys, w.procs[p];
    var pc := q.pc;
    assert TypeOk(q);
    if pc.FOpen? {
      OpenTyped(w, p, e);
    } else if pc.FRead? {
      ReadTyped(w, p, e);
    } else {
      if q.cmd.Create? { CreateTyped(s, p, q); }
      else if pc.LoadStat? || pc.LoadInfo? || pc.LoadCfgStat? || pc.LoadCfgRead? { LoadTyped(s, p, q, IsQuiet(w)); }
      else if pc.TPid? || pc.QState? || pc.QPid? || pc.QCmd? { QueryTyped(s, p, q); }
      else if pc.FWait? || pc.WPid? || pc.WCmd? { WaitTyped(s, p, q); }
      else if pc.KState? || pc.KStop? || pc.KDrain? || pc.DState? || pc.Destroy? { KillTyped(s, p, q, IsQuiet(w)); }
      EffectTyped(w, p, e);
    }
  }

  lemma InitKeepsTypes(w: World)
    requires Typed(w)
    ensures Typed(World(StepInit(w.sys), w.procs))
  {
  }

  lemma AbortTyped(w: World, p: Pid)
    requires Typed(w) && p in w.procs && !w.procs[p].pc.Done?
    ensures Typed(Put(w, p, End(w.sys, p, w.procs[p], false)))
  {
    EffectTyped(w, p, End(w.sys, p, w.procs[p], false));
  }

  lemma EventKeepsTypes(w: World, e: Event)
    requires Typed(w)
    ensures Typed(Next(w, e))
  {
    match e
    case Step(p) => if p in w.procs { StepKeepsTypes(w, p, StepProc(w.sys, p, w.procs[p], IsQuiet(w))); }
    case Abort(p) => if p in w.procs && !w.procs[p].pc.Done? { AbortTyped(w, p); }
    case Invoke(p, cmd) =>
    case InitNext => InitKeepsTypes(w);
    case _ =>
  }

  lemma {:induction false} RunKeepsTypes(ws: seq<World>, es: seq<Event>, k: nat)
    requires IsRun(ws, es) && k < |ws|
    ensures Typed(ws[k])
  {
    if k > 0 {
      RunKeepsTypes(ws, es, k - 1);
      assert Leads(ws, es, k - 1);
      EventKeepsTypes(ws[k - 1], es[k - 1]);
    }
  }

  lemma CommandStep(ws: seq<World>, es: seq<Event>, i: nat, p: Pid)
    requires IsRun(ws, es) && i < |es| && p in ws[i].procs
    ensures p in ws[i + 1].procs && ws[i + 1].procs[p].cmd == ws[i].procs[p].cmd
  {
    RunKeepsTypes(ws, es, i);
    assert Leads(ws, es, i);
    if es[i] == Step(p) { StepKeepsTypes(ws[i], p, StepProc(ws[i].sys, p, ws[i].procs[p], IsQuiet(ws[i]))); }
  }

  lemma {:induction false} CommandForever(ws: seq<World>, es: seq<Event>, j: nat, k: nat, p: Pid)
    requires IsRun(ws, es) && j <= k < |ws| && p in ws[j].procs
    ensures p in ws[k].procs && ws[k].procs[p].cmd == ws[j].procs[p].cmd
  {
    if j < k {
      CommandForever(ws, es, j, k - 1, p);
      CommandStep(ws, es, k - 1, p);
    }
  }

  // ---------------------------------------------------------------- observing "created"

  // Step i is the moment process p observes init state "created".
  ghost predicate Observes(ws: seq<World>, es: seq<Event>, i: nat, p: Pid) {
    && i < |es| < |ws| && es[i] == Step(p) && p in ws[i].procs
    && ws[i].procs[p].pc.QCmd? && InitState(ws[i].sys.mon, ws[i].procs[p].ipid) == Created
  }

  lemma CreateMarks(s: Sys, p: Pid, q: Proc)
    requires SawCreated in StepCreate(s, p, q).proc.marks && SawCreated !in q.marks
    ensures q.pc.QCmd? && InitState(s.mon, q.ipid) == Created
  {
  }

  lemma OtherMarks(s: Sys, p: Pid, q: Proc, quiet: bool)
    requires TypeOk(q) && SawCreated !in q.marks
    ensures SawCreated !in StepLoad(s, p, q, quiet).proc.marks && SawCreated !in StepFifo(s, p, q).proc.marks
    ensures SawCreated !in StepKill(s, p, q, quiet).proc.marks && SawCreated !in StepRemove(s, p, q).proc.marks
    ensures SawCreated in StepQuery(s, p, q).proc.marks ==> q.pc.QCmd? && InitState(s.mon, q.ipid) == Created
  {
  }

  lemma MarkedByObserving(w: World, e: Event, p: Pid)
    requires Typed(w) && p in Next(w, e).procs && SawCreated in Next(w, e).procs[p].marks
    requires p in w.procs ==> SawCreated !in w.procs[p].marks
    ensures e == Step(p) && p in w.procs && w.procs[p].pc.QCmd? && InitState(w.sys.mon, w.procs[p].ipid) == Created
  {
    if e == Step(p) && p in w.procs {
      OtherMarks(w.sys, p, w.procs[p], IsQuiet(w));
      if w.procs[p].cmd.Create? { CreateMarks(w.sys, p, w.procs[p]); }
    }
  }

  lemma ObservedStep(ws: seq<World>, es: seq<Event>, i: nat, p: Pid)
    requires IsRun(ws, es) && i < |es| && p in ws[i + 1].procs && SawCreated in ws[i + 1].procs[p].marks
    requires p in ws[i].procs ==> SawCreated !in ws[i].procs[p].marks
    ensures Observes(ws, es, i, p)
  {
    RunKeepsTypes(ws, es, i);
    assert Leads(ws, es, i);
    MarkedByObserving(ws[i], es[i], p);
  }

  lemma {:induction false} ObservedBefore(ws: seq<World>, es: seq<Event>, k: nat, p: Pid) returns (i: nat)
    requires IsRun(ws, es) && k < |ws| && p in ws[k].procs && SawCreated in ws[k].procs[p].marks
    ensures i < k && Observes(ws, es, i, p)
  {
    if k > 0 {
      if p in ws[k - 1].procs && SawCreated in ws[k - 1].procs[p].marks {
        i := ObservedBefore(ws, es, k - 1, p);
      } else {
        ObservedStep(ws, es, k - 1, p);
        i := k - 1;
      }
    }
  }

  // ---------------------------------------------------------------- entering the FIFO

  // Step j is the moment start p enters open(O_RDONLY) on the FIFO.
  ghost predicate Enters(ws: seq<World>, es: seq<Event>, j: nat, p: Pid) {
    && j < |es| < |ws| && es[j] == Step(p) && p in ws[j].procs
    && ws[j].procs[p].cmd.Start? && ws[j].procs[p].pc.FOpen? && HasFifo(ws[j].sys)
  }

  // r once opened the FIFO of generation g.
  predicate Comes(s: Sys, g: nat, r: Pid) {
    g in s.fifos && r in s.fifos[g].comers
  }

  lemma CloseLetsNobodyIn(s: Sys, p: Pid, h: nat, g: nat, r: Pid)
    ensures Comes(Close(s, p, h), g, r) <==> Comes(s, g, r)
  {
  }

  lemma InitLetsNobodyIn(s: Sys, g: nat, r: Pid)
    ensures Comes(StepInit(s), g, r) <==> Comes(s, g, r)
  {
  }

  lemma CreateLetsNobodyIn(s: Sys, p: Pid, q: Proc, g: nat, r: Pid)
    requires Comes(StepCreate(s, p, q).sys, g, r)
    ensures Comes(s, g, r)
  {
    CreateAffects(s, p, q);
    CloseLetsNobodyIn(s, p, q.fifoGen, g, r);
  }

  lemma OnlyOpenLetsIn(s: Sys, p: Pid, q: Proc, g: nat, r: Pid)
    requires Comes(StepFifo(s, p, q).sys, g, r) && !Comes(s, g, r)
    ensures r == p && q.pc.FOpen? && HasFifo(s) && g == s.gen
  {
  }

  lemma OtherLetsNobodyIn(s: Sys, p: Pid, q: Proc, quiet: bool, g: nat, r: Pid)
    ensures Comes(StepLoad(s, p, q, quiet).sys, g, r) ==> Comes(s, g, r)
    ensures Comes(StepQuery(s, p, q).sys, g, r) ==> Comes(s, g, r)
    ensures Comes(StepKill(s, p, q, quiet).sys, g, r) ==> Comes(s, g, r)
    ensures Comes(StepRemove(s, p, q).sys, g, r) ==> Comes(s, g, r)
  {
    LoadCloses(s, p, q, quiet);
    QueryCloses(s, p, q);
    KillCloses(s, p, q, quiet);
    CloseLetsNobodyIn(s, p, q.fifoGen, g, r);
  }

  lemma StepLetsIn(s: Sys, p: Pid, q: Proc, quiet: bool, g: nat, r: Pid)
    requires Comes(StepProc(s, p, q, quiet).sys, g, r) && !Comes(s, g, r)
    ensures r == p && q.pc.FOpen? && HasFifo(s) && g == s.gen
  {
    OtherLetsNobodyIn(s, p, q, quiet, g, r);
    if q.cmd.Create? { CreateLetsNobodyIn(s, p, q, g, r); }
    else if Comes(StepFifo(s, p, q).sys, g, r) { OnlyOpenLetsIn(s, p, q, g, r); }
  }

  lemma ComesByOpening(w: World, e: Event, g: nat, r: Pid)
    requires Comes(Next(w, e).sys, g, r) && !Comes(w.sys, g, r)
    ensures e == Step(r) && r in w.procs && w.procs[r].pc.FOpen? && HasFifo(w.sys) && g == w.sys.gen
  {
    match e
    case Step(p) => if p in w.procs { StepLetsIn(w.sys, p, w.procs[p], IsQuiet(w), g, r); }
    case Abort(p) => if p in w.procs { CloseLetsNobodyIn(w.sys, p, w.procs[p].fifoGen, g, r); }
    case InitNext => InitLetsNobodyIn(w.sys, g, r);
    case _ =>
  }

  lemma EnteredStep(ws: seq<World>, es: seq<Event>, j: nat, g: nat, p: Pid)
    requires IsRun(ws, es) && j < |es| && Comes(ws[j + 1].sys, g, p) && !Comes(ws[j].sys, g, p)
    ensures Enters(ws, es, j, p) && ws[j].sys.gen == g
  {
    RunKeepsTypes(ws, es, j);
    assert Leads(ws, es, j);
    ComesByOpening(ws[j], es[j], g, p);
    assert TypeOk(ws[j].procs[p]);
  }

  lemma {:induction false} EnteredBefore(ws: seq<World>, es: seq<Event>, k: nat, g: nat, p: Pid) returns (j: nat)
    requires IsRun(ws, es) && k < |ws| && Comes(ws[k].sys, g, p)
    ensures j < k && Enters(ws, es, j, p) && ws[j].sys.gen == g
  {
    if k > 0 {
      if Comes(ws[k - 1].sys, g, p) {
        j := EnteredBefore(ws, es, k - 1, g, p);
      } else {
        EnteredStep(ws, es, k - 1, g, p);
        j := k - 1;
      }
    }
  }

  // ---------------------------------------------------------------- exec

  // crio-lxc-init is past its open of the FIFO.
  predicate Past(i: Init) {
    i.Opened? || i.Wrote? || i.Closed? || i.User?
  }

  predicate MayPass(s: Sys) {
    s.mon.fifo in s.fifos && Rendezvous in s.fifos[s.mon.fifo].marks
  }

  // Init stays past the open of the same FIFO, or passes it by a rendezvous.
  predicate Passes(s: Sys, t: Sys) {
    Past(t.mon.init) ==> t.mon.fifo == s.mon.fifo && (Past(s.mon.init) || MayPass(s))
  }

  lemma CreateMovesNoInit(s: Sys, p: Pid, q: Proc)
    ensures Passes(s, StepCreate(s, p, q).sys)
  {
    CreateAffects(s, p, q);
  }

  lemma InitPasses(s: Sys)
    ensures Passes(s, StepInit(s))
  {
  }

  lemma PastByRendezvous(w: World, e: Event)
    ensures Passes(w.sys, Next(w, e).sys)
  {
    match e
    case Step(p) =>
      if p in w.procs && w.procs[p].cmd.Create? { CreateMovesNoInit(w.sys, p, w.procs[p]); }
      else if p in w.procs && !w.procs[p].pc.Remove? { OthersPlain(w.sys, p, w.procs[p], IsQuiet(w)); }
    case InitNext => InitPasses(w.sys);
    case _ =>
  }

  lemma RendezvousStep(ws: seq<World>, es: seq<Event>, k: nat) returns (p: Pid)
    requires IsRun(ws, es) && k < |es| && MayPass(ws[k].sys)
    ensures Comes(ws[k].sys, ws[k].sys.mon.fifo, p)
  {
    RunKeepsTypes(ws, es, k);
    assert FifoTyped(ws[k].sys.fifos[ws[k].sys.mon.fifo], ws[k].procs);
    p :| p in ws[k].sys.fifos[ws[k].sys.mon.fifo].comers;
  }

  // In every run the user's process runs only after some start observed "created" and then opened the
  // FIFO that init opened. So it is for init from its open of the FIFO on.
  lemma {:induction false} ExecNeedsStart(ws: seq<World>, es: seq<Event>, k: nat) returns (p: Pid, i: nat, j: nat)
    requires IsRun(ws, es) && k < |ws| && Past(ws[k].sys.mon.init)
    ensures i < j < k && Observes(ws, es, i, p) && Enters(ws, es, j, p) && ws[j].sys.gen == ws[k].sys.mon.fifo
  {
    if k > 0 {
      assert Leads(ws, es, k - 1);
      PastByRendezvous(ws[k - 1], es[k - 1]);
      if Past(ws[k - 1].sys.mon.init) {
        p, i, j := ExecNeedsStart(ws, es, k - 1);
      } else {
        p := RendezvousStep(ws, es, k - 1);
        j := EnteredBefore(ws, es, k - 1, ws[k - 1].sys.mon.fifo, p);
        RunKeepsTypes(ws, es, j);
        assert TypeOk(ws[j].procs[p]);
        i := ObservedBefore(ws, es, j, p);
      }
    }
  }

  // ---------------------------------------------------------------- create waits

  // Step i is the moment create p observes that liblxc reports RUNNING.
  ghost predicate SeesRunning(ws: seq<World>, es: seq<Event>, i: nat, p: Pid) {
    && i < |es| < |ws| && es[i] == Step(p) && p in ws[i].procs
    && ws[i].procs[p].pc.QState? && Shown(ws[i].sys.mon) == RUNNING
  }

  predicate Asking(w: World, p: Pid) {
    p in w.procs && w.procs[p].cmd.Create? && (w.procs[p].pc.QPid? || w.procs[p].pc.QCmd?)
  }

  lemma CreateAsks(s: Sys, p: Pid, q: Proc)
    requires var r := StepCreate(s, p, q).proc; r.pc.QPid? || r.pc.QCmd?
    ensures q.pc.QPid? || q.pc.QCmd? || (q.pc.QState? && Shown(s.mon) == RUNNING)
  {
  }

  lemma RunningStep(ws: seq<World>, es: seq<Event>, i: nat, p: Pid)
    requires IsRun(ws, es) && i < |es| && Asking(ws[i + 1], p) && !Asking(ws[i], p)
    ensures SeesRunning(ws, es, i, p)
  {
    RunKeepsTypes(ws, es, i);
    assert Leads(ws, es, i);
    if p in ws[i].procs { CommandStep(ws, es, i, p); }
    if es[i] == Step(p) && p in ws[i].procs { CreateAsks(ws[i].sys, p, ws[i].procs[p]); }
  }

  lemma {:induction false} RunningBefore(ws: seq<World>, es: seq<Event>, k: nat, p: Pid) returns (i: nat)
    requires IsRun(ws, es) && k < |ws| && Asking(ws[k], p)
    ensures i < k && SeesRunning(ws, es, i, p)
  {
    if k > 0 {
      if Asking(ws[k - 1], p) {
        i := RunningBefore(ws, es, k - 1, p);
      } else {
        RunningStep(ws, es, k - 1, p);
        i := k - 1;
      }
    }
  }

  // In every run a create returned nil only after it saw RUNNING and, later, the cmdline of
  // crio-lxc-init.
  lemma CreateWaitsForCreated(ws: seq<World>, es: seq<Event>, k: nat, p: Pid) returns (i: nat, j: nat)
    requires IsRun(ws, es) && k < |ws| && p in ws[k].procs
    requires ws[k].procs[p].cmd.Create? && ws[k].procs[p].pc == Done(true)
    ensures i < j < k && SeesRunning(ws, es, i, p) && Observes(ws, es, j, p)
  {
    RunKeepsTypes(ws, es, k);
    assert TypeOk(ws[k].procs[p]);
    j := ObservedBefore(ws, es, k, p);
    CommandForever(ws, es, j, k, p);
    i := RunningBefore(ws, es, j, p);
  }

  // ---------------------------------------------------------------- start reads

  predicate HasMessage(s: Sys, g: nat) {
    g in s.fifos && Buffered in s.fifos[g].marks
  }

  // Step j is the moment start p reads the message of the FIFO it opened.
  ghost predicate Reads(ws: seq<World>, es: seq<Event>, j: nat, p: Pid) {
    && j < |es| < |ws| && es[j] == Step(p) && p in ws[j].procs && ws[j].procs[p].pc.FRead?
    && HasMessage(ws[j].sys, ws[j].procs[p].fifoGen)
  }

  lemma GotByReading(s: Sys, p: Pid, q: Proc, quiet: bool)
    requires Got !in q.marks
    ensures Got !in StepLoad(s, p, q, quiet).proc.marks
    ensures Got !in StepQuery(s, p, q).proc.marks && Got !in StepKill(s, p, q, quiet).proc.marks
    ensures Got !in StepRemove(s, p, q).proc.marks
    ensures Got in StepFifo(s, p, q).proc.marks ==> q.pc.FRead? && HasMessage(s, q.fifoGen)
  {
  }

  lemma ReadStep(ws: seq<World>, es: seq<Event>, j: nat, p: Pid)
    requires IsRun(ws, es) && j < |es| && p in ws[j + 1].procs && Got in ws[j + 1].procs[p].marks
    requires p in ws[j].procs ==> Got !in ws[j].procs[p].marks
    ensures Reads(ws, es, j, p)
  {
    assert Leads(ws, es, j);
    if es[j] == Step(p) && p in ws[j].procs {
      CreateRecords(ws[j].sys, p, ws[j].procs[p]);
      GotByReading(ws[j].sys, p, ws[j].procs[p], IsQuiet(ws[j]));
    }
  }

  lemma {:induction false} ReadBefore(ws: seq<World>, es: seq<Event>, k: nat, p: Pid) returns (j: nat)
    requires IsRun(ws, es) && k < |ws| && p in ws[k].procs && Got in ws[k].procs[p].marks
    ensures j < k && Reads(ws, es, j, p)
  {
    if k > 0 {
      if p in ws[k - 1].procs && Got in ws[k - 1].procs[p].marks {
        j := ReadBefore(ws, es, k - 1, p);
      } else {
        ReadStep(ws, es, k - 1, p);
        j := k - 1;
      }
    }
  }

  // In every run a start returned nil only after it observed "created" and, later, read the message.
  lemma StartReadsTheMessage(ws: seq<World>, es: seq<Event>, k: nat, p: Pid) returns (i: nat, j: nat)
    requires IsRun(ws, es) && k < |ws| && p in ws[k].procs
    requires ws[k].procs[p].cmd.Start? && ws[k].procs[p].pc == Done(true)
    ensures i < j < k && Observes(ws, es, i, p) && Reads(ws, es, j, p)
  {
    RunKeepsTypes(ws, es, k);
    assert TypeOk(ws[k].procs[p]);
    j := ReadBefore(ws, es, k, p);
    RunKeepsTypes(ws, es, j);
    assert TypeOk(ws[j].procs[p]);
    i := ObservedBefore(ws, es, j, p);
  }
}
