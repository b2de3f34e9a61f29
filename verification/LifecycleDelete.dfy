/**
  When a delete that goes on to destroy is safe, exactly.

  Between its decision and the removal anything else may happen. Init is dead at the removal in all
  continuations just if nothing was left, at the decision, that may still boot it.
 */
module LifecycleDelete {
  import opened Options
  import opened Lifecycle
  import opened LifecycleEveryRun
  import opened LifecycleExclusion
  import opened LifecycleFiles
  import opened LifecycleInvariant
  import opened LifecycleRuns
  import opened LifecycleSafety

  // A create that can still come to launch a monitor. The others in flight have launched theirs, or
  // will fail at a file that is there already.
  predicate MayLaunch(s: Sys, q: Proc) {
    q.cmd.Create? &&
    match q.pc
    case CMkdir | CTmp => s.tmp.None? && s.info.None?
    case CInfo => s.info.None?
    case CFifo => !HasFifo(s)
    case CInfoWrite | CSaveTmp | CSaveCfg | CSaveOpen | CSaveWrite | CRename | CSpawn => true
    case _ => false
  }

  ghost predicate NoneMayLaunch(w: World) {
    forall p | p in w.procs :: !MayLaunch(w.sys, w.procs[p])
  }

  // Nothing can boot init any more, up to a removal of the directory.
  ghost predicate Spent(w: World) {
    w.sys.dir && !MayBoot(w.sys.mon) && NoneMayLaunch(w)
  }

  // ---------------------------------------------------------------- what is spent stays spent

  predicate FilesStay(s: Sys, t: Sys) {
    (s.tmp.Some? ==> t.tmp.Some?) && (s.info.Some? ==> t.info.Some?) && (HasFifo(s) ==> HasFifo(t))
  }

  // The files that stop a late create stay there.
  predicate Blocks(s: Sys, t: Sys) {
    && t.dir == s.dir && t.mon == s.mon && t.kids == s.kids && FilesStay(s, t)
  }

  lemma HarmlessEarly(s: Sys, p: Pid, q: Proc)
    requires q.cmd.Create? && s.dir && !MayLaunch(s, q) && !LateCall(q.pc)
    ensures var e := StepCreate(s, p, q); Blocks(s, e.sys) && !MayLaunch(e.sys, e.proc)
  {
    CloseTouchesNoFile(s, p, q.fifoGen);
  }

  lemma HarmlessLate(s: Sys, p: Pid, q: Proc)
    requires q.cmd.Create? && s.dir && LateCall(q.pc)
    ensures var e := StepCreate(s, p, q); Blocks(s, e.sys) && !MayLaunch(e.sys, e.proc)
  {
    LateTouchesNoFile(s, p, q);
  }

  lemma HarmlessCreate(s: Sys, p: Pid, q: Proc)
    requires q.cmd.Create? && s.dir && !MayLaunch(s, q)
    ensures var e := StepCreate(s, p, q); Blocks(s, e.sys) && !MayLaunch(e.sys, e.proc)
  {
    if LateCall(q.pc) { HarmlessLate(s, p, q); } else { HarmlessEarly(s, p, q); }
  }

  lemma HarmlessOther(s: Sys, p: Pid, q: Proc, quiet: bool)
    requires !q.cmd.Create? && !q.pc.Remove?
    ensures var e := StepProc(s, p, q, quiet); Blocks(s, e.sys) && !MayLaunch(e.sys, e.proc)
  {
    OthersPlain(s, p, q, quiet);
  }

  lemma StillBlocked(s: Sys, t: Sys, q: Proc)
    requires !MayLaunch(s, q) && FilesStay(s, t)
    ensures !MayLaunch(t, q)
  {
  }

  lemma EffectKeepsSpent(w: World, p: Pid, e: Effect)
    requires Spent(w) && Blocks(w.sys, e.sys) && !MayLaunch(e.sys, e.proc)
    ensures Spent(Put(w, p, e))
  {
    forall r | r in w.procs && r != p ensures !MayLaunch(e.sys, w.procs[r]) { StillBlocked(w.sys, e.sys, w.procs[r]); }
  }

  lemma StepKeepsSpent(w: World, p: Pid)
    requires Spent(w) && p in w.procs && !Removes(w, Step(p))
    ensures Spent(Next(w, Step(p))) && Blocks(w.sys, Next(w, Step(p)).sys)
  {
    var q := w.procs[p];
    if q.cmd.Create? { HarmlessCreate(w.sys, p, q); } else { HarmlessOther(w.sys, p, q, IsQuiet(w)); }
    EffectKeepsSpent(w, p, Does(w, p));
  }

  lemma EventKeepsSpent(w: World, e: Event)
    requires MonitorOk(w.sys, w.procs) && Spent(w) && !Removes(w, e)
    ensures Spent(Next(w, e)) && (Alive(Next(w, e).sys.mon.init) ==> Alive(w.sys.mon.init))
  {
    match e
    case Step(p) => if p in w.procs { StepKeepsSpent(w, p); }
    case Abort(p) => if p in w.procs && !w.procs[p].pc.Done? {
      EffectKeepsSpent(w, p, End(w.sys, p, w.procs[p], false));
    }
    case Invoke(p, cmd) => if p !in w.procs { EffectKeepsSpent(w, p, Effect(w.sys, Fresh(cmd))); }
    case _ =>
      SystemSubsides(w, e);
      SystemEvent(w, e);
      forall r | r in w.procs ensures !MayLaunch(Next(w, e).sys, w.procs[r]) {
        StillBlocked(w.sys, Next(w, e).sys, w.procs[r]);
      }
  }

  lemma {:induction false} SpentForever(w: World, es: seq<Event>)
    requires Inv(w) && Spent(w) && NoRemoval(w, es)
    ensures Inv(After(w, es)) && Spent(After(w, es)) && (Alive(After(w, es).sys.mon.init) ==> Alive(w.sys.mon.init))
  {
    if es != [] {
      var v, e := After(w, es[..|es| - 1]), es[|es| - 1];
      SpentForever(w, es[..|es| - 1]);
      EventKeepsInv(v, e);
      EventKeepsSpent(v, e);
    }
  }

  // ---------------------------------------------------------------- what is not spent may boot

  // The events es lead from w to v without a removal, and leave process d as it is.
  ghost predicate Arrives(w: World, es: seq<Event>, v: World, d: Pid) {
    && After(w, es) == v && NoRemoval(w, es) && Inv(v)
    && d in w.procs && d in v.procs && v.procs[d] == w.procs[d]
  }

  lemma ArrivesOn(w: World, es: seq<Event>, v: World, d: Pid, e: Event) returns (fs: seq<Event>)
    requires Arrives(w, es, v, d) && !Removes(v, e) && e != Step(d) && e != Abort(d)
    ensures Arrives(w, fs, Next(v, e), d)
  {
    Extended(w, es, e);
    fs := es + [e];
    EventKeepsInv(v, e);
  }

  // The next call of such a create succeeds.
  lemma LaunchStep(w: World, p: Pid)
    requires CreatorsOk(w) && p in w.procs && w.sys.dir && MayLaunch(w.sys, w.procs[p]) && !w.procs[p].pc.CSpawn?
    ensures var e := StepCreate(w.sys, p, w.procs[p]);
            MayLaunch(e.sys, e.proc) && CallsToSpawn(e.proc.pc) < CallsToSpawn(w.procs[p].pc) && e.sys.dir
  {
    assert CreatorOk(w.sys, p, w.procs[p]);
  }

  lemma SpawnStep(u: World, p: Pid)
    requires p in u.procs && u.procs[p].cmd.Create? && u.procs[p].pc.CSpawn?
             && (u.sys.mon.phase.Never? || u.sys.mon.phase.Gone?)
    ensures Next(u, Step(p)).sys == u.sys.(mon := Monitor(p, Launched, Unforked, 0)) && !Removes(u, Step(p))
  {
  }

  // Once a monitor that is still there has gone, the next call launches a new one.
  lemma Spawns(w: World, es: seq<Event>, v: World, d: Pid, p: Pid) returns (fs: seq<Event>, u: World)
    requires Arrives(w, es, v, d) && v.sys.dir && p != d && p in v.procs && v.procs[p].cmd.Create?
             && v.procs[p].pc.CSpawn?
    ensures Arrives(w, fs, u, d) && MayBoot(u.sys.mon) && u.sys.dir
  {
    fs := ArrivesOn(w, es, v, d, MonKilled);
    u := Next(v, MonKilled);
    SpawnStep(u, p);
    fs := ArrivesOn(w, fs, u, d, Step(p));
    u := Next(u, Step(p));
  }

  // A create that may launch does, in some continuation.
  lemma {:induction false} Launches(w: World, es: seq<Event>, v: World, d: Pid, p: Pid)
    returns (fs: seq<Event>, u: World)
    requires Arrives(w, es, v, d) && v.sys.dir && p != d && p in v.procs && MayLaunch(v.sys, v.procs[p])
    ensures Arrives(w, fs, u, d) && MayBoot(u.sys.mon) && u.sys.dir
    decreases CallsToSpawn(v.procs[p].pc)
  {
    if v.procs[p].pc.CSpawn? {
      fs, u := Spawns(w, es, v, d, p);
    } else {
      LaunchStep(v, p);
      fs := ArrivesOn(w, es, v, d, Step(p));
      fs, u := Launches(w, fs, Next(v, Step(p)), d, p);
    }
  }

  lemma MonLoads(v: World)
    requires v.sys.mon.phase.Launched? && v.sys.config.Some?
    ensures Next(v, MonLoad).sys == v.sys.(mon := v.sys.mon.(phase := Starting)) && !Removes(v, MonLoad)
  {
  }

  lemma MonForks(v: World)
    requires v.sys.mon.phase.Starting? && v.sys.mon.init.Unforked?
    ensures Next(v, MonFork).sys == v.sys.(mon := v.sys.mon.(init := Forked)) && !Removes(v, MonFork)
  {
  }

  lemma BootsFirst(v: World)
    requires Inv(v) && MayBoot(v.sys.mon)
    ensures v.sys.mon.init.Unforked?
  {
  }

  // A launched monitor finds its config and forks init.
  lemma Boots(w: World, es: seq<Event>, v: World, d: Pid) returns (fs: seq<Event>, u: World)
    requires Arrives(w, es, v, d) && MayBoot(v.sys.mon) && v.sys.dir
    ensures Arrives(w, fs, u, d) && Alive(u.sys.mon.init) && u.sys.dir
  {
    LiveMeansSaved(v);
    BootsFirst(v);
    if v.sys.mon.phase.Launched? {
      MonLoads(v);
      fs := ArrivesOn(w, es, v, d, MonLoad);
      fs, u := Forks(w, fs, Next(v, MonLoad), d);
    } else {
      fs, u := Forks(w, es, v, d);
    }
  }

  lemma Forks(w: World, es: seq<Event>, v: World, d: Pid) returns (fs: seq<Event>, u: World)
    requires Arrives(w, es, v, d) && v.sys.mon.phase.Starting? && v.sys.mon.init.Unforked? && v.sys.dir
    ensures Arrives(w, fs, u, d) && Alive(u.sys.mon.init) && u.sys.dir
  {
    MonForks(v);
    fs := ArrivesOn(w, es, v, d, MonFork);
    u := Next(v, MonFork);
  }

  // ---------------------------------------------------------------- the delete

  // Delete d goes on to destroy in the step from w.
  ghost predicate Decides(w: World, d: Pid) {
    && d in w.procs && w.procs[d].cmd.Delete? && !Destroying(w.procs[d])
    && Destroying(Does(w, d).proc)
  }

  lemma DecisionIsReady(w: World, d: Pid)
    requires Inv(w) && Decides(w, d)
    ensures var e := Does(w, d);
            e.sys == w.sys && e.proc.pc.Destroy? && e.proc.cmd.Delete? && !Alive(w.sys.mon.init)
                && Next(w, Step(d)) == Put(w, d, e)
  {
    var q := w.procs[d];
    assert ProcOk(w.sys, d, q);
    if q.pc.LoadStat? || q.pc.LoadInfo? || q.pc.LoadCfgStat? || q.pc.LoadCfgRead? { LoadReady(w, d, IsQuiet(w)); }
    else { KillReady(w, d, IsQuiet(w)); }
  }

  lemma DestroyStep(v: World, d: Pid)
    requires d in v.procs && v.procs[d].pc.Destroy? && v.procs[d].cmd.Delete?
    ensures Next(v, Step(d)) == Put(v, d, Effect(v.sys, v.procs[d].(pc := Remove))) && !Removes(v, Step(d))
  {
  }

  // After the call of Destroy anything may happen before the removal.
  lemma Unsafe(v: World, d: Pid, es: seq<Event>, u: World)
    requires d in v.procs && v.procs[d].pc.Destroy? && v.procs[d].cmd.Delete?
    requires Arrives(Next(v, Step(d)), es, u, d) && u.sys.dir && Alive(u.sys.mon.init)
    ensures !DeadAtRemoval(v, d)
  {
    DestroyStep(v, d);
    Extended(v, [], Step(d));
    assert [] + [Step(d)] == [Step(d)];
    AfterAppend(v, [Step(d)], es);
    assert NoRemoval(v, [Step(d)] + es) && Removes(After(v, [Step(d)] + es), Step(d));
  }

  // Init is dead whenever d comes to its removal of the directory, before anyone else removed it.
  ghost predicate DeadAtRemoval(v: World, d: Pid) {
    forall es | NoRemoval(v, es) && Removes(After(v, es), Step(d)) :: !Alive(After(v, es).sys.mon.init)
  }

  // A delete that goes on to destroy finds init dead at its removal in all continuations if and only
  // if, at that moment, the directory is there, no create in flight may still launch a monitor, and
  // no launched monitor has yet to fork init.
  lemma DeleteIsSafeExactly(w: World, d: Pid)
    requires Inv(w) && Decides(w, d)
    ensures DeadAtRemoval(Next(w, Step(d)), d) <==> w.sys.dir && NoneMayLaunch(w) && !MayBoot(w.sys.mon)
  {
    DecisionIsReady(w, d);
    EventKeepsInv(w, Step(d));
    var v := Next(w, Step(d));
    if Spent(w) { SpentIsDead(v, d); } else { UnspentIsUnsafe(w, v, d); }
  }

  // A quiet world is enough, as orderly runs ask for,
  lemma QuietIsEnough(w: World, d: Pid)
    requires Inv(w) && Decides(w, d) && IsQuiet(w)
    ensures DeadAtRemoval(Next(w, Step(d)), d)
  {
    assert forall p | p in w.procs :: MayLaunch(w.sys, w.procs[p]) ==> InFlight(w.procs[p]);
    DeleteIsSafeExactly(w, d);
  }

  // but not needed: a create in flight that will find container.json there does no harm.
  lemma LateCreateIsHarmless(w: World, d: Pid, p: Pid)
    requires Inv(w) && Decides(w, d) && w.sys.dir && !MayBoot(w.sys.mon)
    requires p in w.procs && w.procs[p].cmd.Create? && w.procs[p].pc.CInfo? && w.sys.info.Some?
    requires forall r | r in w.procs && r != p :: !InFlight(w.procs[r])
    ensures !IsQuiet(w) && DeadAtRemoval(Next(w, Step(d)), d)
  {
    assert InFlight(w.procs[p]);
    OnlyLaunchersMatter(w, p);
    DeleteIsSafeExactly(w, d);
  }

  lemma OnlyLaunchersMatter(w: World, p: Pid)
    requires p in w.procs && !MayLaunch(w.sys, w.procs[p])
    requires forall r | r in w.procs && r != p :: !InFlight(w.procs[r])
    ensures NoneMayLaunch(w)
  {
    forall r | r in w.procs ensures !MayLaunch(w.sys, w.procs[r]) {
      assert MayLaunch(w.sys, w.procs[r]) ==> InFlight(w.procs[r]);
    }
  }

  lemma SpentIsDead(v: World, d: Pid)
    requires Inv(v) && Spent(v) && !Alive(v.sys.mon.init)
    ensures DeadAtRemoval(v, d)
  {
    forall es | NoRemoval(v, es) ensures !Alive(After(v, es).sys.mon.init) { SpentForever(v, es); }
  }

  // The delete has decided in world w, and is about to call Destroy in world v.
  ghost predicate Decided(w: World, v: World, d: Pid) {
    && Inv(v) && d in v.procs && v.procs[d].cmd.Delete? && v.procs[d].pc.Destroy?
    && d in w.procs && w.procs[d].cmd.Delete? && v.sys == w.sys && v.procs == w.procs[d := v.procs[d]]
  }

  lemma UnspentIsUnsafe(w: World, v: World, d: Pid)
    requires Decided(w, v, d) && !Spent(w)
    ensures !DeadAtRemoval(v, d)
  {
    DestroyStep(v, d);
    EventKeepsInv(v, Step(d));
    var es, u := MayBeAlive(w, Next(v, Step(d)), d);
    Unsafe(v, d, es, u);
  }

  lemma MayBeAlive(w: World, v: World, d: Pid) returns (es: seq<Event>, u: World)
    requires Inv(v) && d in v.procs && v.procs[d].cmd.Delete? && v.sys == w.sys && !Spent(w)
    requires v.procs == w.procs[d := v.procs[d]] && d in w.procs && w.procs[d].cmd.Delete?
    ensures Arrives(v, es, u, d) && Alive(u.sys.mon.init) && u.sys.dir
  {
    es, u := [], v;
    if !w.sys.dir {
      var p := FreshPid(v.procs.Keys);
      es, u := CreatesAnew(v, d, p);
      es, u := Launches(v, es, u, d, p);
    } else if !MayBoot(w.sys.mon) {
      var p :| p in w.procs && MayLaunch(w.sys, w.procs[p]);
      es, u := Launches(v, es, u, d, p);
    }
    es, u := Boots(v, es, u, d);
  }

  // Without a directory, a new create makes one.
  lemma CreatesAnew(v: World, d: Pid, p: Pid) returns (es: seq<Event>, u: World)
    requires Inv(v) && !v.sys.dir && d in v.procs && p !in v.procs
    ensures Arrives(v, es, u, d) && u.sys.dir && p in u.procs && MayLaunch(u.sys, u.procs[p])
  {
    var e;
    es, e := CreateAlone(v, p);
    u := After(v, es);
    KeepsInv(v, es);
  }

  lemma {:induction false} KeepsInv(w: World, es: seq<Event>)
    requires Inv(w) && NoRemoval(w, es)
    ensures Inv(After(w, es))
  {
    if es != [] {
      KeepsInv(w, es[..|es| - 1]);
      EventKeepsInv(After(w, es[..|es| - 1]), es[|es| - 1]);
    }
  }
}
