/**
  The container lifecycle as a transition system.

  Every runtime command (create, start, state, kill, delete) is a separate operating-system process
  that talks to the others only through the runtime directory, the pid file, the sync FIFO and what
  liblxc reports about the monitor and its init process. A process performs one system call per step,
  and any number of processes for the same container ID interleave freely.

  `Next` is total: an event that is not possible in a world leaves the world as it is.
 */
module Lifecycle {
  import opened Options

  // Process identifiers are never reused.
  type Pid = nat

  datatype Command = Create | Start | State | Kill | Delete(force: bool)

  datatype Status = Creating | Created | Running | Stopped

  // What liblxc reports as the state of a container.
  datatype Lxc = STOPPED | STARTING | RUNNING | STOPPING | ABORTING | FREEZING | FROZEN | THAWED

  // A file is empty until its complete contents, produced by one process, are written in one call.
  datatype Data = Empty | Full(owner: Pid)

  // `ino` names the process that created the inode, so a handle survives unlink and rename.
  datatype File = File(ino: Pid, data: Data)

  // The sync FIFO. `readers` hold or wait for the read end, `comers` is every process that ever
  // entered open(O_RDONLY). Rendezvous: a reader was there for the pending writer.
  datatype FifoMark = WriterCame | Rendezvous | Sent | Buffered

  datatype Fifo = Fifo(readers: set<Pid>, comers: set<Pid>, marks: set<FifoMark>)

  // The crio-lxc-start process.
  datatype Phase = Never | Launched | Starting | Active(lxc: Lxc) | Ending(lxc: Lxc) | Gone

  // The container's init process, from fork over crio-lxc-init's calls to the user's process.
  datatype Init = Unforked | Forked | Booting | Opening | Opened | Wrote | Closed | User | Zombie | Reaped

  // `fifo` is the generation of the FIFO that init opened.
  datatype Monitor = Monitor(launcher: Pid, phase: Phase, init: Init, fifo: nat)

  datatype Pc =
    // create
    | CStat | CStatAgain | CMkdir | CTmp | CInfo | CInfoWrite | CFifo
    | CSaveTmp | CSaveCfg | CSaveOpen | CSaveWrite | CRename | CSpawn
    | CPidTmp | CPidWrite | CPidRename
    // loadContainer
    | LoadStat | LoadInfo | LoadCfgStat | LoadCfgRead
    // the pid file, then liblxc state, init pid and cmdline
    | TPid | QState | QPid | QCmd
    // readFifo and waitNot
    | FOpen | FWait | FRead | WPid | WCmd
    // killContainer and destroy
    | KState | KStop | KDrain | DState | Destroy | Remove
    | Done(ok: bool)

  // What happened to a command so far. Late: the FIFO's writer had come and gone when it entered
  // open. The other marks record history only; no step depends on them.
  datatype Mark =
    | Late
    | Loaded       // loadContainer returned nil
    | Won          // passed createContainer
    | Saved        // passed saveConfig
    | SawCreated   // observed init state "created"
    | Got          // readFifo succeeded
    | Drained      // drainCgroup saw "populated 0"

  // A runtime command. `gen` and `since` are the generation of the runtime directory and the
  // container's progress when the command first looked; no step depends on them, on `made`, on
  // `decided` or on `report`.
  datatype Proc = Proc(
    cmd: Command,
    pc: Pc,
    info: Data,          // container.json as read by loadContainer
    cfg: Data,           // config as read by loadContainer
    handle: Pid,         // inode behind the .config handle of SaveConfigFile
    ipid: Pid,           // init pid as reported by liblxc
    fifoGen: nat,        // generation of the FIFO its read end belongs to
    made: Option<nat>,   // a create that made container.json: the generation then
    gen: nat,
    since: nat,
    decided: Option<nat>, // a delete that went on to destroy in a quiet world: the generation then
    report: Option<Status>,
    marks: set<Mark>)

  // What the processes share. `gen` counts how often the runtime directory was removed. A FIFO
  // outlives its directory: the one at the path is that of the current generation, the others can only
  // be held open.
  datatype Sys = Sys(
    gen: nat,
    dir: bool,
    tmp: Option<File>,
    config: Option<File>,
    info: Option<File>,
    fifos: map<nat, Fifo>,
    pidTmp: map<Pid, Data>,
    pidFile: map<Pid, Data>,
    mon: Monitor,
    kids: nat)

  datatype World = World(sys: Sys, procs: map<Pid, Proc>)

  const INIT_WORLD :=
    World(Sys(0, false, None, None, None, map[], map[], map[], Monitor(0, Never, Unforked, 0), 0), map[])

  datatype Event =
    | Invoke(p: Pid, cmd: Command)  // a new runtime command starts
    | Step(p: Pid)                  // its next system call
    | Abort(p: Pid)                 // crash, deadline or I/O error: the command ends without success
    | MonLoad | MonFork | MonRun | MonShow(lxc: Lxc) | MonEnd(lxc: Lxc) | MonGone | MonKilled
    | InitNext | InitDie | InitReap
    | KidFork | KidExit             // other processes in the container's cgroup

  // ---------------------------------------------------------------- what the world shows

  predicate Alive(i: Init) {
    !i.Unforked? && !i.Zombie? && !i.Reaped?
  }

  function Shown(m: Monitor): Lxc {
    match m.phase
    case Starting => STARTING
    case Active(s) => s
    case Ending(s) => s
    case _ => STOPPED
  }

  predicate HasInitPid(m: Monitor) {
    (m.phase.Starting? || m.phase.Active? || m.phase.Ending?) && !m.init.Unforked?
  }

  // getContainerInitState, once the init pid is known: the cmdline of crio-lxc-init means created,
  // any other cmdline (also the empty one of a zombie) means running, no process means stopped.
  function InitState(m: Monitor, ipid: Pid): Status {
    if m.launcher != ipid then Stopped else
    match m.init
    case Unforked => Stopped
    case Reaped => Stopped
    case Forked => Running
    case User => Running
    case Zombie => Running
    case _ => Created
  }

  predicate Populated(s: Sys) {
    Alive(s.mon.init) || s.kids > 0
  }

  // There is a FIFO at its path.
  predicate HasFifo(s: Sys) {
    s.gen in s.fifos
  }

  // Init has the FIFO of generation g open for writing, or waits for that.
  predicate WriterHolds(m: Monitor, g: nat) {
    (m.init.Opening? || m.init.Opened? || m.init.Wrote?) && m.fifo == g
  }

  // A create that found no runtime directory and has not ended.
  predicate InFlight(q: Proc) {
    q.cmd.Create? && !q.pc.CStat? && !q.pc.Done?
  }

  // A launched monitor that has yet to fork init.
  predicate MayBoot(m: Monitor) {
    m.phase.Launched? || (m.phase.Starting? && m.init.Unforked?)
  }

  // The directory is there, no create is in flight and no launched monitor has yet to fork init.
  ghost predicate IsQuiet(w: World) {
    w.sys.dir && (forall p | p in w.procs :: !InFlight(w.procs[p])) && !MayBoot(w.sys.mon)
  }

  // How far the container of the current runtime directory has come:
  // 0 up to created, 1 once the user's process was exec'd, 2 once init is gone.
  function Progress(s: Sys): nat {
    if s.info.Some? && s.mon.launcher == s.info.value.ino && !s.mon.phase.Never? then
      (match s.mon.init case User => 1 case Zombie => 1 case Reaped => 2 case _ => 0)
    else 0
  }

  function Order(s: Status): nat {
    match s case Creating => 0 case Created => 0 case Running => 1 case Stopped => 2
  }

  // ---------------------------------------------------------------- steps of the commands

  // What one step makes of the shared state and of the process itself.
  datatype Effect = Effect(sys: Sys, proc: Proc)

  function Marked(s: Sys, g: nat, marks: set<FifoMark>): Sys
    requires g in s.fifos
  {
    s.(fifos := s.fifos[g := s.fifos[g].(marks := marks)])
  }

  // A process that ends closes its end of the FIFO.
  function Close(s: Sys, p: Pid, g: nat): Sys {
    if g in s.fifos then s.(fifos := s.fifos[g := s.fifos[g].(readers := s.fifos[g].readers - {p})]) else s
  }

  function End(s: Sys, p: Pid, q: Proc, ok: bool): Effect {
    Effect(Close(s, p, q.fifoGen), q.(pc := Done(ok)))
  }

  // The existence checks of Create and createContainer, and MkdirAll.
  function StepCheck(s: Sys, p: Pid, q: Proc): Effect {
    match q.pc
    case CStat => if s.dir then End(s, p, q, false) else Effect(s, q.(pc := CStatAgain, gen := s.gen))
    case CStatAgain => if s.dir then End(s, p, q, false) else Effect(s, q.(pc := CMkdir))
    case CMkdir => Effect(s.(dir := true), q.(pc := CTmp))
    case _ => Effect(s, q)
  }

  // The exclusive creation of .config.
  function StepTmp(s: Sys, p: Pid, q: Proc): Effect {
    if !s.dir || s.tmp.Some? then End(s, p, q, false)
    else Effect(s.(tmp := Some(File(p, Empty))), q.(pc := CInfo))
  }

  // ContainerInfo.Create: the exclusive creation of container.json, then its contents.
  function StepInfo(s: Sys, p: Pid, q: Proc): Effect {
    match q.pc
    case CInfo =>
      if !s.dir || s.info.Some? then End(s, p, q, false)
      else Effect(s.(info := Some(File(p, Empty))), q.(pc := CInfoWrite, made := Some(s.gen)))
    case CInfoWrite =>
      var info := if s.info.Some? && s.info.value.ino == p then Some(File(p, Full(p))) else s.info;
      Effect(s.(info := info), q.(pc := CFifo, marks := q.marks + {Won}))
    case _ => Effect(s, q)
  }

  // configureInit makes its directory with all parents, then the FIFO.
  function StepMkfifo(s: Sys, p: Pid, q: Proc): Effect {
    if HasFifo(s) then End(s.(dir := true), p, q, false)
    else Effect(s.(dir := true, fifos := s.fifos[s.gen := Fifo({}, {}, {})]), q.(pc := CSaveTmp))
  }

  // saveConfig up to the write through the handle SaveConfigFile opened.
  function StepSave(s: Sys, p: Pid, q: Proc): Effect {
    match q.pc
    case CSaveTmp => if s.tmp.None? then End(s, p, q, false) else Effect(s, q.(pc := CSaveCfg))
    case CSaveCfg => if s.config.Some? then End(s, p, q, false) else Effect(s, q.(pc := CSaveOpen))
    case CSaveOpen =>
      var ino := if s.tmp.Some? then s.tmp.value.ino else p;
      if !s.dir then End(s, p, q, false)
      else Effect(s.(tmp := Some(File(ino, Empty))), q.(pc := CSaveWrite, handle := ino))
    case CSaveWrite =>
      var tmp := if s.tmp.Some? && s.tmp.value.ino == q.handle then Some(File(q.handle, Full(p))) else s.tmp;
      Effect(s.(tmp := tmp), q.(pc := CRename))
    case _ => Effect(s, q)
  }

  function StepRename(s: Sys, p: Pid, q: Proc): Effect {
    if s.tmp.None? then End(s, p, q, false)
    else Effect(s.(config := s.tmp, tmp := None), q.(pc := CSpawn, marks := q.marks + {Saved}))
  }

  // A second monitor for the same name cannot bind the command socket and ends at once.
  function StepSpawn(s: Sys, p: Pid, q: Proc): Effect {
    var mon := if s.mon.phase.Never? || s.mon.phase.Gone? then Monitor(p, Launched, Unforked, 0) else s.mon;
    Effect(s.(mon := mon), q.(pc := QState))
  }

  // waitCreated.
  function StepWait(s: Sys, p: Pid, q: Proc): Effect {
    match q.pc
    case QState => if Shown(s.mon) == RUNNING then Effect(s, q.(pc := QPid)) else Effect(s, q)
    case QPid => if HasInitPid(s.mon) then Effect(s, q.(pc := QCmd, ipid := s.mon.launcher)) else End(s, p, q, false)
    case QCmd =>
      if InitState(s.mon, q.ipid) == Created then Effect(s, q.(pc := CPidTmp, marks := q.marks + {SawCreated}))
      else End(s, p, q, false)
    case _ => Effect(s, q)
  }

  // CreatePidFile: exclusive temporary file, contents, rename. Every create gets a path of its own.
  function StepPidFile(s: Sys, p: Pid, q: Proc): Effect {
    match q.pc
    case CPidTmp =>
      if p in s.pidTmp then End(s, p, q, false)
      else Effect(s.(pidTmp := s.pidTmp[p := Empty]), q.(pc := CPidWrite))
    case CPidWrite => Effect(s.(pidTmp := s.pidTmp[p := Full(p)]), q.(pc := CPidRename))
    case CPidRename =>
      if p !in s.pidTmp then End(s, p, q, false)
      else End(s.(pidFile := s.pidFile[p := s.pidTmp[p]], pidTmp := s.pidTmp - {p}), p, q, true)
    case _ => Effect(s, q)
  }

  function StepCreate(s: Sys, p: Pid, q: Proc): Effect {
    match q.pc
    case CTmp => StepTmp(s, p, q)
    case CInfo | CInfoWrite => StepInfo(s, p, q)
    case CFifo => StepMkfifo(s, p, q)
    case CSaveTmp | CSaveCfg | CSaveOpen | CSaveWrite => StepSave(s, p, q)
    case CRename => StepRename(s, p, q)
    case CSpawn => StepSpawn(s, p, q)
    case QState | QPid | QCmd => StepWait(s, p, q)
    case CPidTmp | CPidWrite | CPidRename => StepPidFile(s, p, q)
    case _ => StepCheck(s, p, q)
  }

  // A delete goes on to destroy.
  function Decide(s: Sys, q: Proc, quiet: bool): Proc {
    q.(pc := Destroy, decided := if quiet then Some(s.gen) else None)
  }

  // Any failed load makes start, state and kill fail; delete goes on to destroy.
  function LoadFailed(s: Sys, p: Pid, q: Proc, quiet: bool): Effect {
    if q.cmd.Delete? then Effect(s, Decide(s, q, quiet)) else End(s, p, q, false)
  }

  function AfterLoad(cmd: Command): Pc {
    match cmd
    case State => TPid
    case Kill => KState
    case Delete(_) => DState
    case _ => QState
  }

  function StepLoad(s: Sys, p: Pid, q: Proc, quiet: bool): Effect {
    match q.pc
    case LoadStat =>
      if !s.dir then End(s, p, q, q.cmd.Delete?)
      else Effect(s, q.(pc := LoadInfo, gen := s.gen, since := Progress(s)))
    case LoadInfo =>
      if s.info.None? || s.info.value.data.Empty? then LoadFailed(s, p, q, quiet)
      else Effect(s, q.(pc := LoadCfgStat, info := s.info.value.data))
    case LoadCfgStat => if s.config.None? then LoadFailed(s, p, q, quiet) else Effect(s, q.(pc := LoadCfgRead))
    case LoadCfgRead =>
      if s.config.None? then LoadFailed(s, p, q, quiet)
      else Effect(s, q.(pc := AfterLoad(q.cmd), cfg := s.config.value.data, marks := q.marks + {Loaded}))
    case _ => Effect(s, q)
  }

  function Answer(s: Sys, p: Pid, q: Proc, status: Status): Effect {
    if q.cmd.State? then End(s, p, q.(report := Some(status)), true)
    else if status == Created then Effect(s, q.(pc := FOpen, marks := q.marks + {SawCreated}))
    else End(s, p, q, false)
  }

  // The pid file read of state, and getContainerState for start and state.
  function StepQuery(s: Sys, p: Pid, q: Proc): Effect {
    match q.pc
    case TPid =>
      if q.info.Full? && q.info.owner in s.pidFile && s.pidFile[q.info.owner].Full? then Effect(s, q.(pc := QState))
      else End(s, p, q, false)
    case QState =>
      if Shown(s.mon) == STOPPED then Answer(s, p, q, Stopped)
      else if Shown(s.mon) == STARTING then Answer(s, p, q, Creating)
      else Effect(s, q.(pc := QPid))
    case QPid =>
      if HasInitPid(s.mon) then Effect(s, q.(pc := QCmd, ipid := s.mon.launcher)) else Answer(s, p, q, Stopped)
    case QCmd => Answer(s, p, q, InitState(s.mon, q.ipid))
    case _ => Effect(s, q)
  }

  // readFifo and waitNot of start.
  function StepFifo(s: Sys, p: Pid, q: Proc): Effect {
    match q.pc
    case FOpen =>
      if !HasFifo(s) then End(s, p, q, false) else
      var f := s.fifos[s.gen];
      var late := WriterCame in f.marks && !WriterHolds(s.mon, s.gen);
      Effect(s.(fifos := s.fifos[s.gen := Fifo(f.readers + {p}, f.comers + {p}, f.marks + {Rendezvous})]),
             q.(pc := FWait, fifoGen := s.gen, marks := if late then q.marks + {Late} else q.marks))
    case FWait =>
      if q.fifoGen in s.fifos && WriterCame in s.fifos[q.fifoGen].marks && Late !in q.marks
      then Effect(s, q.(pc := FRead)) else Effect(s, q)
    case FRead =>
      if q.fifoGen !in s.fifos then Effect(s, q)
      else if Buffered in s.fifos[q.fifoGen].marks then
        Effect(Close(Marked(s, q.fifoGen, s.fifos[q.fifoGen].marks - {Buffered}), p, q.fifoGen),
               q.(pc := WPid, marks := q.marks + {Got}))
      else if WriterHolds(s.mon, q.fifoGen) then Effect(s, q)
      else End(s, p, q, false)
    case WPid =>
      if HasInitPid(s.mon) then Effect(s, q.(pc := WCmd, ipid := s.mon.launcher)) else End(s, p, q, true)
    case WCmd =>
      if InitState(s.mon, q.ipid) == Created then Effect(s, q.(pc := WPid)) else End(s, p, q, true)
    case _ => Effect(s, q)
  }

  // killContainer for SIGKILL and SIGTERM, and delete. Signals only make transitions of the monitor
  // and init more likely that are always possible, so sending them changes nothing by itself.
  function StepKill(s: Sys, p: Pid, q: Proc, quiet: bool): Effect {
    match q.pc
    case KState => if Shown(s.mon) == RUNNING then Effect(s, q.(pc := KStop)) else End(s, p, q, false)
    case KStop => Effect(s, q.(pc := KDrain))
    case KDrain =>
      if Populated(s) then Effect(s, q)
      else if q.cmd.Delete? then Effect(s, Decide(s, q.(marks := q.marks + {Drained}), quiet))
      else End(s, p, q.(marks := q.marks + {Drained}), true)
    case DState =>
      if Shown(s.mon) == STOPPED then Effect(s, Decide(s, q, quiet))
      else if q.cmd.Delete? && q.cmd.force then Effect(s, q.(pc := KStop))
      else End(s, p, q, false)
    case Destroy => Effect(s, q.(pc := Remove))
    case _ => Effect(s, q)
  }

  // RemoveAll of the runtime directory.
  function StepRemove(s: Sys, p: Pid, q: Proc): Effect {
    if !s.dir then End(s, p, q, true)
    else End(s.(gen := s.gen + 1, dir := false, tmp := None, config := None, info := None), p, q, true)
  }

  function StepProc(s: Sys, p: Pid, q: Proc, quiet: bool): Effect {
    if q.cmd.Create? then StepCreate(s, p, q) else
    match q.pc
    case LoadStat | LoadInfo | LoadCfgStat | LoadCfgRead => StepLoad(s, p, q, quiet)
    case TPid | QState | QPid | QCmd => StepQuery(s, p, q)
    case FOpen | FWait | FRead | WPid | WCmd => StepFifo(s, p, q)
    case Remove => StepRemove(s, p, q)
    case _ => StepKill(s, p, q, quiet)
  }

  function Fresh(cmd: Command): Proc {
    Proc(cmd, if cmd.Create? then CStat else LoadStat, Empty, Empty, 0, 0, 0, None, 0, 0, None, None, {})
  }

  // ---------------------------------------------------------------- steps of monitor and init

  function StepMonitor(m: Monitor, e: Event, config: bool): Monitor {
    match e
    case MonLoad => // crio-lxc-start loads the config file, or ends
      if m.phase.Launched? then m.(phase := if config then Starting else Gone) else m
    case MonFork => if m.phase.Starting? && m.init.Unforked? then m.(init := Forked) else m
    case MonRun => if m.phase.Starting? && !m.init.Unforked? then m.(phase := Active(RUNNING)) else m
    case MonShow(l) =>
      if m.phase.Active? && l in {RUNNING, FREEZING, FROZEN, THAWED} then m.(phase := Active(l)) else m
    case MonEnd(l) =>
      if (m.phase.Starting? || m.phase.Active?) && l in {STOPPING, ABORTING} then m.(phase := Ending(l)) else m
    case MonGone =>
      if m.phase.Ending? && (m.init.Unforked? || m.init.Reaped?) then m.(phase := Gone) else m
    case MonKilled => // the parent-death signal takes init down with the monitor
      if m.phase.Never? || m.phase.Gone? then m
      else m.(phase := Gone, init := if m.init.Unforked? then Unforked else Reaped)
    case InitDie => if Alive(m.init) then m.(init := Zombie) else m
    case InitReap => if m.init.Zombie? then m.(init := Reaped) else m
    case _ => m
  }

  // crio-lxc-init: read environ and cmdline, open the FIFO for writing, write the ID, close, exec.
  function StepInit(s: Sys): Sys {
    var m := s.mon;
    match m.init
    case Forked => s.(mon := m.(init := Booting))
    case Booting =>
      if !HasFifo(s) then s.(mon := m.(init := Zombie)) else
      var f := s.fifos[s.gen];
      var here := f.readers != {};
      var marks := if here then f.marks + {WriterCame, Rendezvous} else f.marks + {WriterCame} - {Rendezvous};
      Marked(s, s.gen, marks).(mon := m.(init := Opening, fifo := s.gen))
    case Opening =>
      if m.fifo in s.fifos && Rendezvous in s.fifos[m.fifo].marks then s.(mon := m.(init := Opened)) else s
    case Opened =>
      if m.fifo !in s.fifos || s.fifos[m.fifo].readers == {} then s.(mon := m.(init := Zombie)) // SIGPIPE
      else Marked(s, m.fifo, s.fifos[m.fifo].marks + {Sent, Buffered}).(mon := m.(init := Wrote))
    case Wrote =>
      // with both ends closed, what was not read is gone
      if m.fifo !in s.fifos || s.fifos[m.fifo].readers != {} then s.(mon := m.(init := Closed))
      else Marked(s, m.fifo, s.fifos[m.fifo].marks - {Buffered}).(mon := m.(init := Closed))
    case Closed => s.(mon := m.(init := User)) // execvp
    case _ => s
  }

  function Put(w: World, p: Pid, e: Effect): World {
    World(e.sys, w.procs[p := e.proc])
  }

  ghost function Next(w: World, e: Event): World {
    match e
    case Invoke(p, cmd) => if p in w.procs then w else Put(w, p, Effect(w.sys, Fresh(cmd)))
    case Step(p) => if p in w.procs then Put(w, p, StepProc(w.sys, p, w.procs[p], IsQuiet(w))) else w
    case Abort(p) => if p in w.procs && !w.procs[p].pc.Done? then Put(w, p, End(w.sys, p, w.procs[p], false)) else w
    case InitNext => w.(sys := StepInit(w.sys))
    case KidFork => if Populated(w.sys) then w.(sys := w.sys.(kids := w.sys.kids + 1)) else w
    case KidExit => if w.sys.kids > 0 then w.(sys := w.sys.(kids := w.sys.kids - 1)) else w
    case _ => w.(sys := w.sys.(mon := StepMonitor(w.sys.mon, e, w.sys.config.Some?)))
  }

  // ---------------------------------------------------------------- runs

  // Event i leads from world i to world i + 1.
  ghost predicate Leads(ws: seq<World>, es: seq<Event>, i: nat)
    requires |ws| == |es| + 1 && i < |es|
  {
    ws[i + 1] == Next(ws[i], es[i])
  }

  ghost predicate IsRun(ws: seq<World>, es: seq<Event>) {
    && |ws| == |es| + 1
    && ws[0] == INIT_WORLD
    && forall i: nat | i < |es| :: Leads(ws, es, i)
  }

  // Whether e is the RemoveAll call of a delete that still finds the directory.
  ghost predicate Removes(w: World, e: Event) {
    e.Step? && e.p in w.procs && w.procs[e.p].pc == Remove && w.sys.dir
  }

  // The world was quiet when the deleting process went on to destroy, and nobody removed the
  // directory since.
  ghost predicate OrderlyStep(w: World, e: Event) {
    Removes(w, e) ==> w.procs[e.p].decided == Some(w.sys.gen)
  }

  ghost predicate OrderlyAt(ws: seq<World>, es: seq<Event>, i: nat)
    requires |ws| == |es| + 1 && i < |es|
  {
    OrderlyStep(ws[i], es[i])
  }

  ghost predicate Orderly(ws: seq<World>, es: seq<Event>) {
    IsRun(ws, es) && forall i: nat | i < |es| :: OrderlyAt(ws, es, i)
  }
}
