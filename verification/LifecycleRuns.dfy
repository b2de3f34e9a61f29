/**
  Building runs: what lists of events lead to, and a create that nobody disturbs.
 */
module LifecycleRuns {
  import opened Options
  import opened Lifecycle

  ghost function After(w: World, es: seq<Event>): World {
    if es == [] then w else Next(After(w, es[..|es| - 1]), es[|es| - 1])
  }

  // No event of es, from w on, removes the runtime directory.
  ghost predicate NoRemoval(w: World, es: seq<Event>) {
    es == [] || (NoRemoval(w, es[..|es| - 1]) && !Removes(After(w, es[..|es| - 1]), es[|es| - 1]))
  }

  lemma Extended(w: World, es: seq<Event>, e: Event)
    ensures After(w, es + [e]) == Next(After(w, es), e)
    ensures NoRemoval(w, es + [e]) <==> NoRemoval(w, es) && !Removes(After(w, es), e)
  {
    assert (es + [e])[..|es|] == es;
  }

  lemma {:induction false} AfterAppend(w: World, a: seq<Event>, b: seq<Event>)
    ensures After(w, a + b) == After(After(w, a), b)
    ensures NoRemoval(w, a + b) <==> NoRemoval(w, a) && NoRemoval(After(w, a), b)
    decreases |b|
  {
    if b == [] {
      assert a + b == a;
    } else {
      assert (a + b)[..|a + b| - 1] == a + b[..|b| - 1];
      AfterAppend(w, a, b[..|b| - 1]);
    }
  }

  // Every list of events has its run.
  lemma {:induction false} RunOf(es: seq<Event>) returns (ws: seq<World>)
    ensures IsRun(ws, es) && forall i | 0 <= i <= |es| :: ws[i] == After(INIT_WORLD, es[..i])
  {
    assert es[..|es|] == es;
    if es == [] {
      ws := [INIT_WORLD];
    } else {
      var ds := es[..|es| - 1];
      var vs := RunOf(ds);
      ws := vs + [After(INIT_WORLD, es)];
      forall i | 0 <= i < |es| ensures ws[i] == After(INIT_WORLD, es[..i]) { assert ds[..i] == es[..i]; }
      forall i: nat | i < |ds| ensures Leads(ws, es, i) { assert Leads(vs, ds, i); }
    }
  }

  lemma {:induction false} NoRemovalAt(w: World, es: seq<Event>, i: nat)
    requires NoRemoval(w, es) && i < |es|
    ensures !Removes(After(w, es[..i]), es[i])
  {
    var ds := es[..|es| - 1];
    if i < |ds| {
      NoRemovalAt(w, ds, i);
      assert ds[..i] == es[..i];
    }
  }

  // ---------------------------------------------------------------- one process at a time

  // From w, the events es change only process p and the shared state, and remove nothing.
  ghost predicate Reaches(w: World, es: seq<Event>, p: Pid, e: Effect) {
    After(w, es) == Put(w, p, e) && NoRemoval(w, es)
  }

  lemma CreateStep(w: World, es: seq<Event>, p: Pid, e: Effect) returns (f: Effect)
    requires Reaches(w, es, p, e) && e.proc.cmd.Create? && !e.proc.pc.Remove?
    ensures f == StepCreate(e.sys, p, e.proc) && Reaches(w, es + [Step(p)], p, f)
  {
    Extended(w, es, Step(p));
    f := StepCreate(e.sys, p, e.proc);
  }

  lemma OtherStep(w: World, es: seq<Event>, p: Pid, e: Effect) returns (f: Effect)
    requires Reaches(w, es, p, e) && !e.proc.pc.Remove?
    ensures f == StepProc(e.sys, p, e.proc, IsQuiet(Put(w, p, e))) && Reaches(w, es + [Step(p)], p, f)
  {
    Extended(w, es, Step(p));
    f := StepProc(e.sys, p, e.proc, IsQuiet(Put(w, p, e)));
  }

  function Twice(e: Effect, p: Pid): Effect {
    var d := StepCreate(e.sys, p, e.proc);
    StepCreate(d.sys, p, d.proc)
  }

  // The next two calls of a create.
  lemma TwoSteps(w: World, es: seq<Event>, p: Pid, e: Effect) returns (fs: seq<Event>, f: Effect)
    requires Reaches(w, es, p, e) && e.proc.cmd.Create? && !e.proc.pc.Remove?
    requires var d := StepCreate(e.sys, p, e.proc).proc; d.cmd.Create? && !d.pc.Remove?
    ensures f == Twice(e, p) && Reaches(w, fs, p, f)
  {
    var d := CreateStep(w, es, p, e);
    f := CreateStep(w, es + [Step(p)], p, d);
    fs := es + [Step(p)] + [Step(p)];
  }

  lemma Invoked(w: World, p: Pid, cmd: Command)
    requires p !in w.procs
    ensures Reaches(w, [Invoke(p, cmd)], p, Effect(w.sys, Fresh(cmd)))
  {
    Extended(w, [], Invoke(p, cmd));
    assert [] + [Invoke(p, cmd)] == [Invoke(p, cmd)];
  }

  // How many calls a create is from launching its monitor.
  function CallsToSpawn(pc: Pc): nat {
    match pc
    case CMkdir => 11
    case CTmp => 10
    case CInfo => 9
    case CInfoWrite => 8
    case CFifo => 7
    case CSaveTmp => 6
    case CSaveCfg => 5
    case CSaveOpen => 4
    case CSaveWrite => 3
    case CRename => 2
    case CSpawn => 1
    case _ => 0
  }

  // ---------------------------------------------------------------- a create on its own

  predicate Bare(s: Sys) {
    !s.dir && s.tmp.None? && s.config.None? && s.info.None? && !HasFifo(s)
  }

  // From nothing to the end of createContainer.
  lemma CreateAlone(w: World, p: Pid) returns (es: seq<Event>, e: Effect)
    requires Bare(w.sys) && p !in w.procs
    ensures Reaches(w, es, p, e)
    ensures e.sys == w.sys.(dir := true, tmp := Some(File(p, Empty)), info := Some(File(p, Full(p))))
    ensures e.proc == Fresh(Create).(pc := CFifo, made := Some(w.sys.gen), gen := w.sys.gen, marks := {Won})
  {
    Invoked(w, p, Create);
    es, e := TwoSteps(w, [Invoke(p, Create)], p, Effect(w.sys, Fresh(Create)));
    assert e == Effect(w.sys, Fresh(Create).(pc := CMkdir, gen := w.sys.gen));
    es, e := TwoSteps(w, es, p, e);
    assert e == Effect(w.sys.(dir := true, tmp := Some(File(p, Empty))), Fresh(Create).(pc := CInfo, gen := w.sys.gen));
    es, e := TwoSteps(w, es, p, e);
    assert e.proc.marks == {Won};
  }
}
