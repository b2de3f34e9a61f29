/**
  At most one create wins: for container.json of one generation always, for creates in flight together
  exactly as long as no removal of the directory finds a create that has made container.json.
 */
module LifecycleExclusion {
  import opened Options
  import opened Lifecycle
  import opened LifecycleFiles
  import opened LifecycleEveryRun
  import opened LifecycleRuns

  // Before the exclusive creation of container.json.
  predicate Early(pc: Pc) {
    pc.CStat? || pc.CStatAgain? || pc.CMkdir? || pc.CTmp? || pc.CInfo?
  }

  // A create in flight that has made container.json.
  predicate Making(q: Proc) {
    q.cmd.Create? && (Unsaved(q.pc) || q.pc.CSpawn? || LateCall(q.pc))
  }

  predicate MakerOk(s: Sys, p: Pid, q: Proc) {
    && (q.made.Some? ==> q.cmd.Create? && q.made.value <= s.gen)
    && (q.made == Some(s.gen) <==> HoldsInfo(s, p))
    && (Won in q.marks ==> q.made.Some?)
    && (Making(q) && !q.pc.CInfoWrite? ==> Won in q.marks)
    && (q.cmd.Create? ==> (Early(q.pc) && q.made.None?) || (Making(q) && q.made.Some?) || q.pc.Done?)
  }

  ghost predicate OneMaker(procs: map<Pid, Proc>) {
    forall p, q | p in procs && q in procs && procs[p].made.Some? && procs[p].made == procs[q].made :: p == q
  }

  ghost predicate MakersOk(w: World) {
    && (forall p | p in w.procs :: MakerOk(w.sys, p, w.procs[p]))
    && (w.sys.info.Some? ==> w.sys.info.value.ino in w.procs)
    && OneMaker(w.procs)
    && forall g | g in w.sys.fifos :: g <= w.sys.gen
  }

  // ---------------------------------------------------------------- every event

  // container.json stays the inode it is; p may make it.
  ghost predicate InfoMoves(s: Sys, t: Sys, p: Pid) {
    && t.gen == s.gen && t.fifos.Keys <= s.fifos.Keys + {s.gen}
    && (if s.info.Some? then t.info.Some? && t.info.value.ino == s.info.value.ino else t.info.None? || HoldsInfo(t, p))
  }

  ghost predicate Makes(w: World, p: Pid, q: Proc, e: Effect) {
    && MakerOk(e.sys, p, e.proc) && InfoMoves(w.sys, e.sys, p)
    && (e.proc.made == q.made || (e.proc.made == Some(w.sys.gen) && w.sys.info.None?))
  }

  lemma InfoMakes(w: World, p: Pid, q: Proc)
    requires MakerOk(w.sys, p, q) && q.cmd.Create? && q.pc.CInfo?
    ensures Makes(w, p, q, StepInfo(w.sys, p, q))
  {
  }

  lemma CheckMakes(w: World, p: Pid, q: Proc)
    requires MakerOk(w.sys, p, q) && q.cmd.Create? && (Early(q.pc) || q.pc.Done?) && !q.pc.CInfo?
    ensures Makes(w, p, q, StepCreate(w.sys, p, q))
  {
    CloseTouchesNoFile(w.sys, p, q.fifoGen);
    EarlyKeepsMade(w.sys, p, q);
  }

  lemma EarlyKeepsMade(s: Sys, p: Pid, q: Proc)
    requires q.cmd.Create? && (Early(q.pc) || q.pc.Done?) && !q.pc.CInfo?
    ensures var e := StepCreate(s, p, q);
            && e.proc.made == q.made && e.proc.cmd == q.cmd && e.proc.marks == q.marks
            && (Early(e.proc.pc) || e.proc.pc.Done?) && (q.pc.Done? ==> e.proc.pc.Done?)
            && e.sys.info == s.info && e.sys.gen == s.gen
                 && (e.sys.fifos == s.fifos || e.sys.fifos == Close(s, p, q.fifoGen).fifos)
  {
  }

  lemma SaveMakes(w: World, p: Pid, q: Proc)
    requires MakerOk(w.sys, p, q) && q.cmd.Create? && Unsaved(q.pc)
    ensures Makes(w, p, q, StepCreate(w.sys, p, q))
  {
  }

  lemma LateMakes(w: World, p: Pid, q: Proc)
    requires MakerOk(w.sys, p, q) && q.cmd.Create? && (q.pc.CSpawn? || LateCall(q.pc))
    ensures Makes(w, p, q, StepCreate(w.sys, p, q))
  {
    LateTouchesNoFile(w.sys, p, q);
    LateKeepsMade(w.sys, p, q);
  }

  lemma LateKeepsMade(s: Sys, p: Pid, q: Proc)
    requires q.cmd.Create? && (q.pc.CSpawn? || LateCall(q.pc))
    ensures var r := StepCreate(s, p, q).proc;
            && r.made == q.made && r.cmd == q.cmd && q.marks <= r.marks && (Won in r.marks ==> Won in q.marks)
            && (LateCall(r.pc) || r.pc.Done?)
  {
  }

  lemma CreateMakes(w: World, p: Pid, q: Proc)
    requires MakerOk(w.sys, p, q) && q.cmd.Create?
    ensures Makes(w, p, q, StepCreate(w.sys, p, q))
  {
    if Unsaved(q.pc) { SaveMakes(w, p, q); }
    else if q.pc.CSpawn? || LateCall(q.pc) { LateMakes(w, p, q); }
    else if q.pc.CInfo? { InfoMakes(w, p, q); }
    else { CheckMakes(w, p, q); }
  }

  lemma OtherMakes(w: World, p: Pid, q: Proc, quiet: bool)
    requires MakerOk(w.sys, p, q) && !q.cmd.Create? && !q.pc.Remove?
    ensures Makes(w, p, q, StepProc(w.sys, p, q, quiet))
  {
    OthersPlain(w.sys, p, q, quiet);
  }

  lemma EffectKeepsMakers(w: World, p: Pid, q: Proc, e: Effect)
    requires MakersOk(w) && Makes(w, p, q, e) && (if p in w.procs then q == w.procs[p] else q.made.None?)
    ensures MakersOk(Put(w, p, e))
  {
    forall r | r in w.procs && r != p ensures MakerOk(e.sys, r, w.procs[r])
        && (e.proc.made.Some? ==> w.procs[r].made != e.proc.made) {
      assert MakerOk(w.sys, r, w.procs[r]);
    }
  }

  lemma RemovalKeepsMakers(w: World, p: Pid)
    requires MakersOk(w) && p in w.procs && !w.procs[p].cmd.Create? && w.sys.dir
    ensures MakersOk(Put(w, p, StepRemove(w.sys, p, w.procs[p])))
  {
    forall r | r in w.procs ensures w.procs[r].made.Some? ==> w.procs[r].made.value <= w.sys.gen {
      assert MakerOk(w.sys, r, w.procs[r]);
    }
  }

  // The removal is the call of a delete.
  lemma RemovalIs(w: World, e: Event)
    requires Typed(w) && Removes(w, e)
    ensures w.procs[e.p].cmd.Delete? && Next(w, e) == Put(w, e.p, StepRemove(w.sys, e.p, w.procs[e.p]))
  {
    assert TypeOk(w.procs[e.p]);
  }

  lemma StepKeepsMakers(w: World, p: Pid)
    requires MakersOk(w) && p in w.procs && !Removes(w, Step(p))
    ensures MakersOk(Next(w, Step(p))) && InfoMoves(w.sys, Next(w, Step(p)).sys, p)
  {
    var q := w.procs[p];
    assert MakerOk(w.sys, p, q);
    if q.cmd.Create? { CreateMakes(w, p, q); }
    else if !q.pc.Remove? { OtherMakes(w, p, q, IsQuiet(w)); }
    EffectKeepsMakers(w, p, q, StepProc(w.sys, p, q, IsQuiet(w)));
  }

  lemma SystemKeepsMakers(w: World, e: Event)
    requires MakersOk(w) && !e.Step? && !e.Abort? && !e.Invoke?
    ensures MakersOk(Next(w, e)) && w.sys.info == Next(w, e).sys.info
  {
    SystemEvent(w, e);
    forall r | r in w.procs ensures MakerOk(Next(w, e).sys, r, w.procs[r]) { assert MakerOk(w.sys, r, w.procs[r]); }
  }

  lemma EventKeepsMakers(w: World, e: Event)
    requires Typed(w) && MakersOk(w)
    ensures MakersOk(Next(w, e))
  {
    match e
    case Step(p) =>
      if Removes(w, e) { RemovalIs(w, e); RemovalKeepsMakers(w, p); }
      else if p in w.procs { StepKeepsMakers(w, p); }
    case Abort(p) =>
      if p in w.procs && !w.procs[p].pc.Done? {
        assert MakerOk(w.sys, p, w.procs[p]);
        EffectKeepsMakers(w, p, w.procs[p], End(w.sys, p, w.procs[p], false));
      }
    case Invoke(p, cmd) => if p !in w.procs { EffectKeepsMakers(w, p, Fresh(cmd), Effect(w.sys, Fresh(cmd))); }
    case _ => SystemKeepsMakers(w, e);
  }

  lemma {:induction false} RunKeepsMakers(ws: seq<World>, es: seq<Event>, k: nat)
    requires IsRun(ws, es) && k < |ws|
    ensures MakersOk(ws[k])
  {
    if k > 0 {
      RunKeepsMakers(ws, es, k - 1);
      RunKeepsTypes(ws, es, k - 1);
      assert Leads(ws, es, k - 1);
      EventKeepsMakers(ws[k - 1], es[k - 1]);
    }
  }

  // In every run, at most one create passes createContainer per generation in which container.json was
  // made, although the rename in saveConfig frees .config for a second exclusive creation.
  lemma OneCreateWins(ws: seq<World>, es: seq<Event>, k: nat, p: Pid, q: Pid)
    requires IsRun(ws, es) && k < |ws| && p in ws[k].procs && q in ws[k].procs
    requires Won in ws[k].procs[p].marks && Won in ws[k].procs[q].marks
    requires ws[k].procs[p].made == ws[k].procs[q].made
    ensures p == q
  {
    RunKeepsMakers(ws, es, k);
    assert MakerOk(ws[k].sys, p, ws[k].procs[p]);
  }

  // ---------------------------------------------------------------- creates in flight together

  // A removal of the directory finds a create that has made container.json.
  ghost predicate FindsMaker(w: World, e: Event) {
    Removes(w, e) && exists p | p in w.procs :: Making(w.procs[p])
  }

  ghost predicate MakersHold(w: World) {
    Typed(w) && MakersOk(w) && forall p | p in w.procs && Making(w.procs[p]) :: HoldsInfo(w.sys, p)
  }

  lemma StepKeepsHold(w: World, p: Pid)
    requires MakersHold(w) && p in w.procs && !Removes(w, Step(p))
    ensures MakersHold(Next(w, Step(p)))
  {
    var q, v := w.procs[p], Next(w, Step(p));
    EventKeepsTypes(w, Step(p));
    StepKeepsMakers(w, p);
    assert MakerOk(w.sys, p, q);
    if q.cmd.Create? { MakingHolds(w.sys, p, q); } else { StepKeepsTypes(w, p, StepProc(w.sys, p, q, IsQuiet(w))); }
    forall r | r in v.procs && r != p && Making(v.procs[r]) ensures HoldsInfo(v.sys, r) { assert HoldsInfo(w.sys, r); }
  }

  lemma MakingHolds(s: Sys, p: Pid, q: Proc)
    requires q.cmd.Create? && MakerOk(s, p, q) && (Making(q) ==> HoldsInfo(s, p))
    ensures var e := StepCreate(s, p, q); Making(e.proc) ==> HoldsInfo(e.sys, p)
  {
    var e := StepCreate(s, p, q);
    CreateMakes(World(s, map[]), p, q);
    if Early(q.pc) && !q.pc.CInfo? { assert Early(e.proc.pc) || e.proc.pc.Done?; }
  }

  lemma AbortKeepsHold(w: World, p: Pid)
    requires MakersHold(w) && p in w.procs && !w.procs[p].pc.Done?
    requires Typed(Next(w, Abort(p))) && MakersOk(Next(w, Abort(p)))
    ensures MakersHold(Next(w, Abort(p)))
  {
  }

  lemma SystemKeepsHold(w: World, e: Event)
    requires MakersHold(w) && !e.Step? && !e.Abort? && !e.Invoke? && Typed(Next(w, e))
    ensures MakersHold(Next(w, e))
  {
    SystemEvent(w, e);
    SystemKeepsMakers(w, e);
  }

  lemma EventKeepsHold(w: World, e: Event)
    requires MakersHold(w) && !FindsMaker(w, e)
    ensures MakersHold(Next(w, e))
  {
    EventKeepsTypes(w, e);
    EventKeepsMakers(w, e);
    match e
    case Step(p) =>
      if Removes(w, e) { RemovalIs(w, e); } else if p in w.procs { StepKeepsHold(w, p); }
    case Abort(p) => if p in w.procs && !w.procs[p].pc.Done? { AbortKeepsHold(w, p); }
    case Invoke(p, cmd) =>
    case _ => SystemKeepsHold(w, e);
  }

  lemma {:induction false} RunKeepsHold(ws: seq<World>, es: seq<Event>, k: nat)
    requires IsRun(ws, es) && k < |ws| && forall i | 0 <= i < k :: !FindsMaker(ws[i], es[i])
    ensures MakersHold(ws[k])
  {
    if k > 0 {
      RunKeepsHold(ws, es, k - 1);
      assert Leads(ws, es, k - 1) && !FindsMaker(ws[k - 1], es[k - 1]);
      EventKeepsHold(ws[k - 1], es[k - 1]);
    }
  }

  predicate WinsInFlight(w: World, p: Pid) {
    p in w.procs && InFlight(w.procs[p]) && Won in w.procs[p].marks
  }

  ghost predicate TwoWinners(w: World) {
    exists p, q :: p != q && WinsInFlight(w, p) && WinsInFlight(w, q)
  }

  lemma OneHolder(w: World)
    requires MakersHold(w)
    ensures !TwoWinners(w)
  {
    forall p | WinsInFlight(w, p) ensures HoldsInfo(w.sys, p) { assert MakerOk(w.sys, p, w.procs[p]); }
  }

  // As long as no removal finds such a create, no two creates that passed createContainer are ever in
  // flight together.
  lemma NoTwoWinnersInFlight(ws: seq<World>, es: seq<Event>, k: nat, p: Pid, q: Pid)
    requires IsRun(ws, es) && k < |ws| && p in ws[k].procs && q in ws[k].procs && p != q
    requires forall i | 0 <= i < k :: !FindsMaker(ws[i], es[i])
    requires InFlight(ws[k].procs[p]) && InFlight(ws[k].procs[q])
    ensures Won !in ws[k].procs[p].marks || Won !in ws[k].procs[q].marks
  {
    RunKeepsHold(ws, es, k);
    OneHolder(ws[k]);
    assert WinsInFlight(ws[k], p) && WinsInFlight(ws[k], q) ==> TwoWinners(ws[k]);
  }

  // ---------------------------------------------------------------- and not longer

  // After any such removal, the create that was found and a new one can both come to win.
  lemma RemovalLetsAnotherWin(w: World, e: Event, p: Pid, r: Pid) returns (es: seq<Event>)
    requires Typed(w) && MakersOk(w) && Removes(w, e) && p in w.procs && Making(w.procs[p]) && r !in w.procs
    ensures p != r && NoRemoval(Next(w, e), es)
    ensures WinsInFlight(After(Next(w, e), es), p) && WinsInFlight(After(Next(w, e), es), r)
  {
    assert MakerOk(w.sys, p, w.procs[p]);
    RemovalIs(w, e);
    BareAfterRemoval(w, e);
    var v := Next(w, e);
    es := [];
    if w.procs[p].pc.CInfoWrite? { es := WritesGone(v, p); }
    var fs, f := CreateAlone(After(v, es), r);
    AfterAppend(v, es, fs);
    es := es + fs;
  }

  lemma BareAfterRemoval(w: World, e: Event)
    requires Typed(w) && MakersOk(w) && Removes(w, e)
    ensures Bare(Next(w, e).sys)
  {
    RemovalIs(w, e);
    assert w.sys.gen + 1 !in w.sys.fifos;
  }

  // A create whose container.json is gone writes it all the same, and goes on.
  lemma WritesGone(v: World, p: Pid) returns (es: seq<Event>)
    requires Bare(v.sys) && p in v.procs && v.procs[p].cmd.Create? && v.procs[p].pc.CInfoWrite?
    ensures NoRemoval(v, es) && After(v, es).sys == v.sys && After(v, es).procs.Keys == v.procs.Keys
    ensures WinsInFlight(After(v, es), p)
  {
    es := [Step(p)];
    Extended(v, [], Step(p));
    assert [] + es == es;
  }

  lemma {:induction false} FreshPid(s: set<Pid>) returns (p: Pid)
    ensures forall q | q in s :: q < p
    decreases |s|
  {
    if s == {} {
      p := 0;
    } else {
      var q :| q in s;
      p := FreshPid(s - {q});
      p := if q < p then p else q + 1;
      assert forall r | r in s :: r == q || r in s - {q};
    }
  }

  // From world w on, two winners in flight can be reached without a removal.
  ghost predicate MayHaveTwoWinners(w: World) {
    exists es :: NoRemoval(w, es) && TwoWinners(After(w, es))
  }

  lemma {:induction false} HoldOn(w: World, es: seq<Event>)
    requires MakersHold(w) && NoRemoval(w, es)
    ensures MakersHold(After(w, es))
  {
    if es != [] {
      HoldOn(w, es[..|es| - 1]);
      EventKeepsHold(After(w, es[..|es| - 1]), es[|es| - 1]);
    }
  }

  // Two winners in flight are within reach of a run if and only if some removal in it finds a create
  // that has made container.json.
  lemma TwoWinnersExactly(ws: seq<World>, es: seq<Event>)
    requires IsRun(ws, es)
    ensures (exists i | 0 <= i < |ws| :: MayHaveTwoWinners(ws[i])) <==>
              exists i | 0 <= i < |es| :: FindsMaker(ws[i], es[i])
  {
    if i :| 0 <= i < |es| && FindsMaker(ws[i], es[i]) {
      MakerMeansTwo(ws, es, i);
      assert MayHaveTwoWinners(ws[i + 1]);
    } else {
      forall i | 0 <= i < |ws| ensures !MayHaveTwoWinners(ws[i]) {
        RunKeepsHold(ws, es, i);
        forall fs | NoRemoval(ws[i], fs) ensures !TwoWinners(After(ws[i], fs)) {
          HoldOn(ws[i], fs);
          OneHolder(After(ws[i], fs));
        }
      }
    }
  }

  lemma MakerMeansTwo(ws: seq<World>, es: seq<Event>, i: nat)
    requires IsRun(ws, es) && i < |es| && FindsMaker(ws[i], es[i])
    ensures MayHaveTwoWinners(ws[i + 1])
  {
    RunKeepsMakers(ws, es, i);
    RunKeepsTypes(ws, es, i);
    assert Leads(ws, es, i);
    var w := ws[i];
    var p :| p in w.procs && Making(w.procs[p]);
    var r := FreshPid(w.procs.Keys);
    var fs := RemovalLetsAnotherWin(w, es[i], p, r);
    assert TwoWinners(After(ws[i + 1], fs));
  }
}
