/**
  Where the guarantees end: removals that are not calm or not orderly break them.
 */
module LifecycleLimits {
  import opened Options
  import opened Lifecycle
  import opened LifecycleCalm
  import opened LifecycleEveryRun
  import opened LifecycleExclusion
  import opened LifecycleFiles
  import opened LifecycleInvariant
  import opened LifecycleRuns

  // ---------------------------------------------------------------- files of two creates

  // A process loaded the container of the current generation, but not the files of one create.
  ghost predicate LoadedMixture(w: World, p: Pid) {
    p in w.procs && Loaded in w.procs[p].marks && w.procs[p].gen == w.sys.gen && !LoadedOneCreate(w, p)
  }

  // Create o goes on towards its rename in the directory of create q.
  predicate Intrudes(s: Sys, o: Proc, q: Pid) {
    && o.cmd.Create? && Unsaved(o.pc) && s.dir && s.info == Some(File(q, Full(q)))
    && s.tmp.Some? && s.tmp.value.data != Full(q) && s.config.None?
    && (o.pc.CInfoWrite? || o.pc.CFifo? ==> !HasFifo(s))
  }

  lemma IntrudesOn(s: Sys, p: Pid, o: Proc, q: Pid)
    requires Intrudes(s, o, q) && p != q
    ensures var e := StepCreate(s, p, o);
            && e.sys.gen == s.gen && CallsToSpawn(e.proc.pc) < CallsToSpawn(o.pc)
            && if o.pc.CRename? then Mixed(e.sys, q) else Intrudes(e.sys, e.proc, q)
  {
  }

  // The config next to container.json is not of the same create.
  predicate Mixed(s: Sys, q: Pid) {
    s.dir && s.info == Some(File(q, Full(q))) && s.config.Some? && s.config.value.data != Full(q)
  }

  lemma {:induction false} RenamesAnyway(w: World, es: seq<Event>, p: Pid, e: Effect, q: Pid)
    returns (fs: seq<Event>, f: Effect)
    requires Reaches(w, es, p, e) && Intrudes(e.sys, e.proc, q) && p != q
    ensures Reaches(w, fs, p, f) && Mixed(f.sys, q)
    decreases CallsToSpawn(e.proc.pc)
  {
    IntrudesOn(e.sys, p, e.proc, q);
    f := CreateStep(w, es, p, e);
    fs := es + [Step(p)];
    if !e.proc.pc.CRename? { fs, f := RenamesAnyway(w, fs, p, f, q); }
  }

  // A state call on its way through loadContainer in such a directory.
  predicate LoadingMixture(s: Sys, q: Pid, e: Effect, pc: Pc) {
    && e.sys == s && Mixed(s, q) && e.proc.cmd.State? && e.proc.pc == pc
    && (!pc.LoadStat? ==> e.proc.gen == s.gen)
    && (pc.LoadCfgStat? || pc.LoadCfgRead? ==> e.proc.info == Full(q))
  }

  function AfterLoadCall(pc: Pc): Pc {
    if pc.LoadStat? then LoadInfo else if pc.LoadInfo? then LoadCfgStat else LoadCfgRead
  }

  lemma LoadMixtureStep(w: World, es: seq<Event>, l: Pid, e: Effect, q: Pid) returns (f: Effect)
    requires Reaches(w, es, l, e) && LoadingMixture(w.sys, q, e, e.proc.pc)
    requires e.proc.pc.LoadStat? || e.proc.pc.LoadInfo? || e.proc.pc.LoadCfgStat?
    ensures Reaches(w, es + [Step(l)], l, f) && LoadingMixture(w.sys, q, f, AfterLoadCall(e.proc.pc))
  {
    f := OtherStep(w, es, l, e);
  }

  lemma LastLoadStep(w: World, es: seq<Event>, l: Pid, e: Effect, q: Pid) returns (f: Effect)
    requires Reaches(w, es, l, e) && LoadingMixture(w.sys, q, e, LoadCfgRead)
    ensures Reaches(w, es + [Step(l)], l, f) && LoadedMixture(Put(w, l, f), l)
  {
    f := OtherStep(w, es, l, e);
    assert f.proc.cfg != f.proc.info;
  }

  lemma LoadsMixture(w: World, q: Pid, l: Pid) returns (es: seq<Event>)
    requires Mixed(w.sys, q) && l !in w.procs
    ensures NoRemoval(w, es) && LoadedMixture(After(w, es), l)
  {
    Invoked(w, l, State);
    es := [Invoke(l, State)];
    var e := LoadMixtureStep(w, es, l, Effect(w.sys, Fresh(State)), q);
    es := es + [Step(l)];
    e := LoadMixtureStep(w, es, l, e, q);
    es := es + [Step(l)];
    e := LoadMixtureStep(w, es, l, e, q);
    es := es + [Step(l)];
    e := LastLoadStep(w, es, l, e, q);
    es := es + [Step(l)];
  }

  // After a removal that finds a create o before its rename, o can come to put its config, or an empty
  // one, next to the container.json of a new create, and a command to load both.
  lemma RemovalMixesFiles(w: World, e: Event, o: Pid, q: Pid, l: Pid) returns (es: seq<Event>)
    requires Typed(w) && MakersOk(w) && Removes(w, e)
    requires o in w.procs && w.procs[o].cmd.Create? && Unsaved(w.procs[o].pc) && q !in w.procs && l !in w.procs
             && q != l
    ensures NoRemoval(Next(w, e), es) && LoadedMixture(After(Next(w, e), es), l)
  {
    RemovalIs(w, e);
    BareAfterRemoval(w, e);
    var v := Next(w, e);
    var f;
    es, f := CreateAlone(v, q);
    var u := Put(v, q, f);
    Unchanged(u, o);
    var fs, g := RenamesAnyway(u, [], o, Effect(u.sys, u.procs[o]), q);
    var gs := LoadsMixture(Put(u, o, g), q, l);
    AfterAppend(u, fs, gs);
    AfterAppend(v, es, fs + gs);
    es := es + (fs + gs);
  }

  lemma Unchanged(w: World, p: Pid)
    requires p in w.procs
    ensures Reaches(w, [], p, Effect(w.sys, w.procs[p]))
  {
    assert w.procs[p := w.procs[p]] == w.procs;
  }

  // From world w on, such a load can be reached without a removal.
  ghost predicate MayLoadMixture(w: World) {
    exists es, p :: NoRemoval(w, es) && LoadedMixture(After(w, es), p)
  }

  lemma {:induction false} CalmOn(w: World, es: seq<Event>)
    requires CalmInv(w) && NoRemoval(w, es)
    ensures CalmInv(After(w, es))
  {
    if es != [] {
      CalmOn(w, es[..|es| - 1]);
      EventKeepsCalm(After(w, es[..|es| - 1]), es[|es| - 1]);
    }
  }

  lemma UnsavedMeansMixture(ws: seq<World>, es: seq<Event>, i: nat)
    requires IsRun(ws, es) && i < |es| && FindsUnsaved(ws[i], es[i])
    ensures MayLoadMixture(ws[i + 1])
  {
    RunKeepsMakers(ws, es, i);
    RunKeepsTypes(ws, es, i);
    assert Leads(ws, es, i);
    var w := ws[i];
    var o :| o in w.procs && w.procs[o].cmd.Create? && Unsaved(w.procs[o].pc);
    var q := FreshPid(w.procs.Keys);
    var fs := RemovalMixesFiles(w, es[i], o, q, q + 1);
  }

  // A load of files that are not those of one create is within reach of a run if and only if some removal
  // in it finds a create between making container.json and the rename in saveConfig.
  lemma MixturesExactly(ws: seq<World>, es: seq<Event>)
    requires IsRun(ws, es)
    ensures (exists i | 0 <= i < |ws| :: MayLoadMixture(ws[i])) <==>
              exists i | 0 <= i < |es| :: FindsUnsaved(ws[i], es[i])
  {
    if i :| 0 <= i < |es| && FindsUnsaved(ws[i], es[i]) {
      UnsavedMeansMixture(ws, es, i);
      assert MayLoadMixture(ws[i + 1]);
    } else {
      forall i | 0 <= i < |ws| ensures !MayLoadMixture(ws[i]) {
        RunKeepsCalm(ws, es, i);
        forall fs, p | NoRemoval(ws[i], fs) ensures !LoadedMixture(After(ws[i], fs), p) {
          LoadsOneCreate(ws[i], fs, p);
        }
      }
    }
  }

  lemma LoadsOneCreate(w: World, es: seq<Event>, p: Pid)
    requires CalmInv(w) && NoRemoval(w, es)
    ensures !LoadedMixture(After(w, es), p)
  {
    CalmOn(w, es);
    var v := After(w, es);
    if p in v.procs { assert LoaderOk(v.sys, v.procs[p]); }
  }

  // ---------------------------------------------------------------- a delete of a stopped container

  // How far a delete of a stopped container is from destroy.
  function Ahead(pc: Pc): nat {
    if pc.LoadStat? then 5 else if pc.LoadInfo? then 4 else if pc.LoadCfgStat? then 3
    else if pc.LoadCfgRead? then 2 else if pc.DState? then 1 else 0
  }

  predicate Deleting(e: Effect, s: Sys) {
    && e.sys == s && s.dir && Complete(s) && Shown(s.mon) == STOPPED && e.proc.cmd.Delete?
    && (Ahead(e.proc.pc) > 0 || e.proc.pc.Destroy?)
    && (e.proc.pc.LoadCfgRead? ==> s.config.Some?)
  }

  lemma LoadGoes(s: Sys, d: Pid, q: Proc, quiet: bool)
    requires Deleting(Effect(s, q), s) && Ahead(q.pc) > 1
    ensures var f := StepLoad(s, d, q, quiet); Deleting(f, s) && Ahead(f.proc.pc) < Ahead(q.pc)
  {
  }

  lemma DeleteGoes(s: Sys, d: Pid, q: Proc, quiet: bool)
    requires Deleting(Effect(s, q), s) && Ahead(q.pc) > 0
    ensures var f := StepProc(s, d, q, quiet); Deleting(f, s) && Ahead(f.proc.pc) < Ahead(q.pc)
  {
    if Ahead(q.pc) > 1 { LoadGoes(s, d, q, quiet); }
  }

  lemma DeleteOn(w: World, es: seq<Event>, d: Pid, e: Effect) returns (fs: seq<Event>, f: Effect)
    requires Reaches(w, es, d, e) && Deleting(e, e.sys)
    ensures Reaches(w, fs, d, f) && f.sys == e.sys && f.proc.pc.Destroy? && f.proc.cmd.Delete?
    decreases Ahead(e.proc.pc)
  {
    if e.proc.pc.Destroy? {
      fs, f := es, e;
    } else {
      f := OtherStep(w, es, d, e);
      DeleteGoes(e.sys, d, e.proc, IsQuiet(Put(w, d, e)));
      fs, f := DeleteOn(w, es + [Step(d)], d, f);
    }
  }

  // A delete that finds liblxc reporting STOPPED, or no config, goes straight on to destroy and remove.
  lemma DeletesStopped(w: World, d: Pid) returns (es: seq<Event>, e: Effect)
    requires w.sys.dir && Complete(w.sys) && Shown(w.sys.mon) == STOPPED && d !in w.procs
    ensures Reaches(w, es, d, e) && e.sys == w.sys && e.proc.pc.Remove? && e.proc.cmd.Delete?
  {
    Invoked(w, d, Delete(false));
    es, e := DeleteOn(w, [Invoke(d, Delete(false))], d, Effect(w.sys, Fresh(Delete(false))));
    e := OtherStep(w, es, d, e);
    es := es + [Step(d)];
  }

  // A delete comes before the create saved its config, removes the directory, and a second create wins.
  lemma TwoWinnersWithoutCalm() returns (ws: seq<World>, es: seq<Event>, k: nat)
    ensures IsRun(ws, es) && k < |ws| && WinsInFlight(ws[k], 1) && WinsInFlight(ws[k], 3)
  {
    var cs, c := CreateAlone(INIT_WORLD, 1);
    var w := Put(INIT_WORLD, 1, c);
    var ds, d := DeletesStopped(w, 2);
    AfterAppend(INIT_WORLD, cs, ds);
    var bs := cs + ds;
    var vs := RunOf(bs);
    assert bs[..|bs|] == bs;
    RunKeepsTypes(vs, bs, |bs|);
    RunKeepsMakers(vs, bs, |bs|);
    var rs := RemovalLetsAnotherWin(vs[|bs|], Step(2), 1, 3);
    Extended(INIT_WORLD, bs, Step(2));
    AfterAppend(INIT_WORLD, bs + [Step(2)], rs);
    es := bs + [Step(2)] + rs;
    ws := RunOf(es);
    k := |es|;
    assert es[..k] == es;
  }

  // ---------------------------------------------------------------- removals that are not orderly

  predicate Saving(e: Effect, p: Pid, fifo: bool) {
    && e.proc.cmd.Create? && e.sys.dir && e.sys.tmp == Some(File(p, Empty)) && e.sys.config.None?
    && HasFifo(e.sys) == fifo
  }

  lemma FifoTwice(e: Effect, p: Pid)
    requires Saving(e, p, false) && e.proc.pc.CFifo?
    ensures Twice(e, p) == Effect(e.sys.(fifos := e.sys.fifos[e.sys.gen := Fifo({}, {}, {})]), e.proc.(pc := CSaveCfg))
  {
  }

  lemma OpenTwice(e: Effect, p: Pid)
    requires Saving(e, p, true) && e.proc.pc.CSaveCfg?
    ensures Twice(e, p) == Effect(e.sys, e.proc.(pc := CSaveWrite, handle := p))
  {
  }

  lemma SaveTwice(e: Effect, p: Pid)
    requires Saving(e, p, true) && e.proc.pc.CSaveWrite? && e.proc.handle == p
    ensures Twice(e, p) == Effect(e.sys.(tmp := None, config := Some(File(p, Full(p)))),
            e.proc.(pc := CSpawn, marks := e.proc.marks + {Saved}))
  {
  }

  // A create that nobody disturbs saves its config,
  lemma SaveAlone(w: World, p: Pid, es: seq<Event>, e: Effect) returns (fs: seq<Event>, f: Effect)
    requires Reaches(w, es, p, e) && Saving(e, p, false) && e.proc.pc.CFifo?
    ensures Reaches(w, fs, p, f) && f.proc.pc.CSpawn? && f.proc.cmd.Create?
    ensures f.sys.mon == e.sys.mon && f.sys.dir && f.sys.info == e.sys.info && f.sys.gen == e.sys.gen
            && f.sys.pidTmp == e.sys.pidTmp
    ensures f.sys.config == Some(File(p, Full(p))) && f.sys.fifos == e.sys.fifos[e.sys.gen := Fifo({}, {}, {})]
  {
    FifoTwice(e, p);
    fs, f := TwoSteps(w, es, p, e);
    OpenTwice(f, p);
    fs, f := TwoSteps(w, fs, p, f);
    SaveTwice(f, p);
    fs, f := TwoSteps(w, fs, p, f);
  }

  // launches its monitor and dies.
  lemma LaunchAndDie(w: World, p: Pid, es: seq<Event>, e: Effect) returns (fs: seq<Event>, f: Effect)
    requires Reaches(w, es, p, e) && e.proc.pc.CSpawn? && e.proc.cmd.Create? && e.sys.mon.phase.Never?
    ensures Reaches(w, fs, p, f) && f.proc.pc.Done?
    ensures f.sys.mon == Monitor(p, Launched, Unforked, 0)
    ensures f.sys.dir == e.sys.dir && f.sys.info == e.sys.info && f.sys.config == e.sys.config && f.sys.gen == e.sys.gen
  {
    f := CreateStep(w, es, p, e);
    fs := es + [Step(p)];
    Extended(w, fs, Abort(p));
    fs, f := fs + [Abort(p)], End(f.sys, p, f.proc, false);
  }

  // Between Destroy and the removal the monitor boots init.
  lemma BootsBeforeRemoval(w: World, d: Pid) returns (es: seq<Event>)
    requires d in w.procs && w.procs[d].pc.Remove?
    requires w.sys.dir && w.sys.config.Some? && w.sys.mon.phase.Launched? && w.sys.mon.init.Unforked?
    ensures var v := After(w, es);
            NoRemoval(w, es) && Removes(v, Step(d)) && Alive(v.sys.mon.init) && v.procs == w.procs
  {
    Extended(w, [], MonLoad);
    Extended(w, [MonLoad], MonFork);
    assert [] + [MonLoad] == [MonLoad];
    es := [MonLoad] + [MonFork];
  }

  // From a world whose creates have all ended and whose monitor was launched, a delete may remove
  // the directory of a live container.
  lemma DeletesAlive(w: World, d: Pid) returns (es: seq<Event>)
    requires w.sys.dir && Complete(w.sys) && w.sys.config.Some? && w.sys.mon.phase.Launched? && w.sys.mon.init.Unforked?
    requires d !in w.procs && forall p | p in w.procs :: w.procs[p].pc.Done?
    ensures var v := After(w, es);
            && NoRemoval(w, es) && Removes(v, Step(d)) && Alive(v.sys.mon.init)
            && forall p | p in v.procs :: !InFlight(v.procs[p])
  {
    var ds, f := DeletesStopped(w, d);
    var v := Put(w, d, f);
    var fs := BootsBeforeRemoval(v, d);
    es := ds + fs;
    AfterAppend(w, ds, fs);
  }

  lemma CreateDies() returns (es: seq<Event>, e: Effect)
    ensures Reaches(INIT_WORLD, es, 1, e) && e.proc.pc.Done? && e.sys.dir && Complete(e.sys) && e.sys.config.Some?
    ensures e.sys.mon == Monitor(1, Launched, Unforked, 0)
  {
    es, e := CreateAlone(INIT_WORLD, 1);
    es, e := SaveAlone(INIT_WORLD, 1, es, e);
    es, e := LaunchAndDie(INIT_WORLD, 1, es, e);
  }

  // A run whose only removal is its last event.
  lemma OneRemoval(bs: seq<Event>, d: Pid) returns (ws: seq<World>)
    requires NoRemoval(INIT_WORLD, bs)
             && forall p | p in After(INIT_WORLD, bs).procs :: !InFlight(After(INIT_WORLD, bs).procs[p])
    ensures Calm(ws, bs + [Step(d)]) && ws[|bs|] == After(INIT_WORLD, bs)
    ensures forall i | 0 <= i <= |bs| :: Undisturbed(ws[i], (bs + [Step(d)])[i])
  {
    var es := bs + [Step(d)];
    ws := RunOf(es);
    assert es[..|bs|] == bs;
    forall i | 0 <= i < |es| ensures Undisturbed(ws[i], es[i]) && !FindsUnsaved(ws[i], es[i]) {
      if i < |bs| {
        NoRemovalAt(INIT_WORLD, bs, i);
        assert bs[..i] == es[..i];
      }
    }
  }

  // Without order the safety of removal fails, even if no removal finds a create in flight: a create dies
  // right after it launched its monitor, a delete finds the container STOPPED and passes Destroy, and init
  // is alive when the directory is removed.
  lemma RemovalWithInitAlive() returns (ws: seq<World>, es: seq<Event>, k: nat)
    ensures Calm(ws, es) && k < |es| && Removes(ws[k], es[k]) && Alive(ws[k].sys.mon.init)
    ensures forall i | 0 <= i < |es| :: Undisturbed(ws[i], es[i])
  {
    var cs, c := CreateDies();
    var ds := DeletesAlive(Put(INIT_WORLD, 1, c), 2);
    AfterAppend(INIT_WORLD, cs, ds);
    ws := OneRemoval(cs + ds, 2);
    k := |cs + ds|;
    es := cs + ds + [Step(2)];
  }
}
