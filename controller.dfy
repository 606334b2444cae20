/** The top level of controller.cpp: the integrity assertions, controller_init, the gate
    tasks and idlers, the routing of a completed input line in _command_dispatch, and
    the ordered task list of _controller_HSM run by the DISPATCH driver. Everything the
    file calls in other modules (callbacks, parsers, xio, cm_hard_alarm, the LED) is an
    input status or a recorded effect. */
module Controller {
  import opened Status
  import opened Dispatch

  /** Constants of the headers: MAGICNUM, PLANNER_BUFFER_HEADROOM, XOFF_TX_LO_WATER_MARK,
      LED_ALARM_TIMER and INPUT_BUFFER_LEN. */
  datatype Limits = Limits(magicNum: int, plannerBufferHeadroom: int, xoffTxLoWaterMark: int,
                           ledAlarmTimer: int, inputBufferLen: int)

  datatype CommMode = TextMode | JsonMode

  /** cm_get_machine_state(), with the states this file does not test collapsed. */
  datatype MachineState = MachineShutdown | MachineAlarm | MachineOtherState

  /** The fields of `cs`, `cfg` and `nvStr` this file reads or writes. */
  datatype Ctl = Ctl(
    csMagicStart: int, csMagicEnd: int,
    cfgMagicStart: int, cfgMagicEnd: int,
    nvMagicStart: int, nvMagicEnd: int,
    linelen: int,                 // length of the last primary input line, with its NUL
    hardResetRequested: bool,
    bootloaderRequested: bool,
    defaultSrc: int,              // input device to fall back to
    primarySrc: int,              // current input device
    secondarySrc: int,
    ledTimer: int,                // SysTick value of the next LED toggle in shutdown
    commMode: CommMode            // cfg.comm_mode
  )

  /** The statuses of the tasks of other modules in _controller_HSM. */
  datatype Callbacks = Callbacks(
    hardReset: Stat, bootloader: Stat, feedhold: Stat, planHold: Stat, motorPower: Stat,
    statusReport: Stat, queueReport: Stat, arc: Stat, homing: Stat, jogging: Stat,
    probe: Stat, setBaud: Stat)

  /** The integrity checks of other modules, in the order _system_assertions runs them. */
  datatype Assertions = Assertions(canonicalMachine: Stat, planner: Stat, stepper: Stat,
                                   encoder: Stat, xio: Stat)

  /** What xio_gets returns for the primary source, and the text it left in cs.in_buf
      (up to its NUL) when it returns STAT_OK. */
  datatype Gets = Gets(status: Stat, line: string)

  /** Everything outside this file the pass looks at. */
  datatype Env = Env(
    machineState: MachineState,
    limitSwitchThrown: bool,
    plannerBuffersAvailable: int,
    txBufCount: int,              // xio_get_tx_bufcount_usart of the USB device
    sysTick: int,
    callbacks: Callbacks,
    assertions: Assertions,
    input: Gets)

  /** Calls into other modules, recorded in order. */
  datatype Effect =
    | HardAlarm(code: Stat)       // cm_hard_alarm
    | LedToggle                   // IndicatorLed_toggle
    | RequestFeedhold             // cm_request_feedhold
    | RequestQueueFlush           // cm_request_queue_flush
    | RequestCycleStart           // cm_request_cycle_start
    | BlankLineResponse           // text_response(STAT_OK, ...)
    | TextCommand(text: string)   // text_response(text_parser(...), ...)
    | JsonCommand(text: string)   // json_parser
    | GcodeCommand(text: string)  // text_response(gc_gcode_parser(...), ...)
    | EndOfFileMessage            // the "End of command file" message in text mode
    | EofReport                   // rpt_exception(STAT_EOF)

  datatype World = World(ctl: Ctl, env: Env, effects: seq<Effect>)

  // ---------------------------------------------------------------------------
  // Integrity assertions and initialisation

  predicate MagicIntact(k: Limits, c: Ctl) {
    c.csMagicStart == k.magicNum && c.csMagicEnd == k.magicNum &&
    c.cfgMagicStart == k.magicNum && c.cfgMagicEnd == k.magicNum &&
    c.nvMagicStart == k.magicNum && c.nvMagicEnd == k.magicNum
  }

  /** controller_init_assertions: the six magic fields set to MAGICNUM. */
  function InitAssertions(k: Limits, c: Ctl): (r: Ctl)
    ensures MagicIntact(k, r)
    ensures r.(csMagicStart := c.csMagicStart, csMagicEnd := c.csMagicEnd,
               cfgMagicStart := c.cfgMagicStart, cfgMagicEnd := c.cfgMagicEnd,
               nvMagicStart := c.nvMagicStart, nvMagicEnd := c.nvMagicEnd) == c
  {
    c.(csMagicStart := k.magicNum, csMagicEnd := k.magicNum,
       cfgMagicStart := k.magicNum, cfgMagicEnd := k.magicNum,
       nvMagicStart := k.magicNum, nvMagicEnd := k.magicNum)
  }

  /** controller_test_assertions */
  function TestAssertions(k: Limits, c: Ctl): (st: Stat)
    ensures st == Ok <==> MagicIntact(k, c)
    ensures st == Ok || st == ControllerAssertionFailure
  {
    if c.csMagicStart != k.magicNum || c.csMagicEnd != k.magicNum then ControllerAssertionFailure
    else if c.cfgMagicStart != k.magicNum || c.cfgMagicEnd != k.magicNum then ControllerAssertionFailure
    else if c.nvMagicStart != k.magicNum || c.nvMagicEnd != k.magicNum then ControllerAssertionFailure
    else Ok
  }

  /** After controller_init_assertions the integrity test passes, and corrupting any one
      magic field makes it fail. */
  lemma InitAssertionsPass(k: Limits, c: Ctl, v: int)
    requires v != k.magicNum
    ensures TestAssertions(k, InitAssertions(k, c)) == Ok
    ensures TestAssertions(k, InitAssertions(k, c).(csMagicEnd := v)) == ControllerAssertionFailure
    ensures TestAssertions(k, InitAssertions(k, c).(nvMagicStart := v)) == ControllerAssertionFailure
  {
  }

  /** tg_reset_source */
  function ResetSource(c: Ctl): (r: Ctl)
    ensures r.primarySrc == c.defaultSrc && r.(primarySrc := c.primarySrc) == c
  {
    c.(primarySrc := c.defaultSrc)
  }

  /** controller_init(std_in, ...): the assertions, a cleared line length and request
      flags, and std_in as both the default and the primary source. The firmware version
      fields, cs.state, the job id and the xio standard devices are not modelled. */
  function ControllerInit(k: Limits, c: Ctl, stdIn: int): (r: Ctl)
    ensures TestAssertions(k, r) == Ok
    ensures r.linelen == 0 && !r.hardResetRequested && !r.bootloaderRequested
    ensures r.defaultSrc == stdIn && r.primarySrc == stdIn
    ensures r.secondarySrc == c.secondarySrc && r.ledTimer == c.ledTimer && r.commMode == c.commMode
  {
    var a := InitAssertions(k, c);
    var b := a.(linelen := 0, hardResetRequested := false, bootloaderRequested := false,
                defaultSrc := stdIn);
    b.(primarySrc := b.defaultSrc)
  }

  // ---------------------------------------------------------------------------
  // Gate tasks and idlers

  /** _shutdown_idler: outside MACHINE_SHUTDOWN it passes; in shutdown it toggles the LED
      every LED_ALARM_TIMER ticks and blocks the rest of the pass. */
  function ShutdownIdler(k: Limits, w: World): (r: (Stat, World))
    ensures r.1.env == w.env
    ensures r.0 == Eagain <==> w.env.machineState == MachineShutdown
    ensures r.0 != Eagain ==> r == (Ok, w)
    ensures r.0 == Eagain && w.env.sysTick > w.ctl.ledTimer ==>
              r.1 == w.(ctl := w.ctl.(ledTimer := w.env.sysTick + k.ledAlarmTimer),
                        effects := w.effects + [LedToggle])
    ensures r.0 == Eagain && w.env.sysTick <= w.ctl.ledTimer ==> r.1 == w
  {
    if w.env.machineState != MachineShutdown then (Ok, w)
    else if w.env.sysTick > w.ctl.ledTimer then
      (Eagain, w.(ctl := w.ctl.(ledTimer := w.env.sysTick + k.ledAlarmTimer),
                  effects := w.effects + [LedToggle]))
    else (Eagain, w)
  }

  /** _normal_idler: its LED code is commented out. */
  function NormalIdler(w: World): (r: (Stat, World))
    ensures r == (Ok, w)
  {
    (Ok, w)
  }

  /** _sync_to_planner */
  function SyncToPlanner(k: Limits, e: Env): (st: Stat)
    ensures st == Eagain <==> e.plannerBuffersAvailable < k.plannerBufferHeadroom
    ensures st == Ok || st == Eagain
  {
    if e.plannerBuffersAvailable < k.plannerBufferHeadroom then Eagain else Ok
  }

  /** _sync_to_tx_buffer */
  function SyncToTxBuffer(k: Limits, e: Env): (st: Stat)
    ensures st == Eagain <==> e.txBufCount >= k.xoffTxLoWaterMark
    ensures st == Ok || st == Eagain
  {
    if e.txBufCount >= k.xoffTxLoWaterMark then Eagain else Ok
  }

  /** _limit_switch_handler: nothing to do in MACHINE_ALARM or with no switch thrown;
      otherwise a hard alarm with STAT_LIMIT_SWITCH_HIT, whose code is returned. */
  function LimitSwitchHandler(w: World): (r: (Stat, World))
    ensures r.1.env == w.env && r.1.ctl == w.ctl
    ensures r.0 == Noop <==> w.env.machineState == MachineAlarm || !w.env.limitSwitchThrown
    ensures r.0 == Noop ==> r.1 == w
    ensures r.0 != Noop ==> r.0 == LimitSwitchHit && r.1.effects == w.effects + [HardAlarm(LimitSwitchHit)]
  {
    if w.env.machineState == MachineAlarm then (Noop, w)
    else if !w.env.limitSwitchThrown then (Noop, w)
    else (LimitSwitchHit, w.(effects := w.effects + [HardAlarm(LimitSwitchHit)]))
  }

  /** The assertion results in the order _system_assertions checks them. */
  function AssertionResults(k: Limits, w: World): (s: seq<Stat>)
    ensures |s| == 6 && s[0] == TestAssertions(k, w.ctl)
  {
    var a := w.env.assertions;
    [TestAssertions(k, w.ctl), a.canonicalMachine, a.planner, a.stepper, a.encoder, a.xio]
  }

  /** The position of the first status in s that is not STAT_OK, or |s|. */
  function FirstFailure(s: seq<Stat>): (j: nat)
    ensures j <= |s|
    ensures forall i :: 0 <= i < j ==> s[i] == Ok
    ensures j < |s| ==> s[j] != Ok
    decreases |s|
  {
    if s == [] || s[0] != Ok then 0 else 1 + FirstFailure(s[1..])
  }

  /** _system_assertions: the first failing check raises a hard alarm with its code and
      is returned; when all pass the result is STAT_OK. */
  function SystemAssertions(k: Limits, w: World): (r: (Stat, World))
    ensures r.1.env == w.env && r.1.ctl == w.ctl
    ensures var s := AssertionResults(k, w);
      (r.0 == Ok <==> forall i :: 0 <= i < |s| ==> s[i] == Ok) &&
      (r.0 == Ok ==> r.1 == w) &&
      (r.0 != Ok ==> exists j :: 0 <= j < |s| && r.0 == s[j] && (forall i :: 0 <= i < j ==> s[i] == Ok)) &&
      (r.0 != Ok ==> r.1.effects == w.effects + [HardAlarm(r.0)])
  {
    var s := AssertionResults(k, w);
    var j := FirstFailure(s);
    if j == |s| then (Ok, w)
    else (s[j], w.(effects := w.effects + [HardAlarm(s[j])]))
  }

  /** A corrupted controller struct is reported before any other module's check. */
  lemma CorruptionAlarmsFirst(k: Limits, w: World)
    requires !MagicIntact(k, w.ctl)
    ensures SystemAssertions(k, w) ==
            (ControllerAssertionFailure,
             w.(effects := w.effects + [HardAlarm(ControllerAssertionFailure)]))
  {
    assert FirstFailure(AssertionResults(k, w)) == 0;
  }

  // ---------------------------------------------------------------------------
  // _command_dispatch

  /** toupper for the ASCII letters. */
  function ToUpper(c: char): (u: char)
    ensures 'a' <= c <= 'z' ==> u as int == c as int - 32
    ensures !('a' <= c <= 'z') ==> u == c
  {
    if 'a' <= c <= 'z' then (c as int - 32) as char else c
  }

  /** The upper-cased first character switched on; an empty line has only its NUL. */
  function FirstChar(line: string): char {
    if line == [] then 0 as char else ToUpper(line[0])
  }

  /** The first n characters of s: strncpy's copy, with n clamped at 0. */
  function Prefix(s: string, n: int): (p: string)
    ensures |p| == if n <= 0 then 0 else if n < |s| then n else |s|
    ensures p == s[..|p|]
  {
    if n <= 0 then [] else if n < |s| then s[..n] else s
  }

  /** The `{"gc":"..."}` wrapper for G-code received in JSON mode, around the first
      INPUT_BUFFER_LEN - 8 characters of the line. */
  function WrapGcode(k: Limits, line: string): (j: string)
    ensures |j| == |Prefix(line, k.inputBufferLen - 8)| + 10
  {
    "{\"gc\":\"" + Prefix(line, k.inputBufferLen - 8) + "\"}\n"
  }

  /** What json_parser finds between the wrapper's quotes. */
  function UnwrapGcode(j: string): string {
    if |j| < 10 then [] else j[7..|j| - 3]
  }

  /** The wrapper keeps a line that fits whole, and cuts a longer one to its first
      INPUT_BUFFER_LEN - 8 characters. */
  lemma WrapRoundTrip(k: Limits, line: string)
    requires k.inputBufferLen >= 8
    ensures |line| <= k.inputBufferLen - 8 ==> UnwrapGcode(WrapGcode(k, line)) == line
    ensures UnwrapGcode(WrapGcode(k, line)) == line[..|Prefix(line, k.inputBufferLen - 8)|]
  {
    var p := Prefix(line, k.inputBufferLen - 8);
    var j := WrapGcode(k, line);
    assert j[7..|j| - 3] == p;
  }

  /** The dispatch of a completed line on its first character. */
  function Route(k: Limits, c: Ctl, line: string): (r: (Ctl, seq<Effect>))
    ensures r.0.(commMode := c.commMode) == c
    ensures FirstChar(line) == '!' ==> r == (c, [RequestFeedhold])
    ensures FirstChar(line) == '%' ==> r == (c, [RequestQueueFlush])
    ensures FirstChar(line) == '~' ==> r == (c, [RequestCycleStart])
    ensures FirstChar(line) == 0 as char ==>
              r == (c, if c.commMode == JsonMode then [] else [BlankLineResponse])
    ensures FirstChar(line) in "$?H" ==> r == (c.(commMode := TextMode), [TextCommand(line)])
    ensures FirstChar(line) == '{' ==> r == (c.(commMode := JsonMode), [JsonCommand(line)])
    ensures !(FirstChar(line) in "!%~$?H{") && FirstChar(line) != 0 as char ==>
              r == (c, if c.commMode == JsonMode then [JsonCommand(WrapGcode(k, line))]
                       else [GcodeCommand(line)])
  {
    match FirstChar(line)
    case '!' => (c, [RequestFeedhold])
    case '%' => (c, [RequestQueueFlush])
    case '~' => (c, [RequestCycleStart])
    case '$' => (c.(commMode := TextMode), [TextCommand(line)])
    case '?' => (c.(commMode := TextMode), [TextCommand(line)])
    case 'H' => (c.(commMode := TextMode), [TextCommand(line)])
    case '{' => (c.(commMode := JsonMode), [JsonCommand(line)])
    case ch =>
      if ch == 0 as char then (c, if c.commMode == JsonMode then [] else [BlankLineResponse])
      else if c.commMode == JsonMode then (c, [JsonCommand(WrapGcode(k, line))])
      else (c, [GcodeCommand(line)])
  }

  /** _command_dispatch: a status other than STAT_OK from xio_gets is returned (after
      falling back to the default source on STAT_EOF); a completed line records its
      length, is routed, and STAT_OK is returned. */
  function CommandDispatch(k: Limits, w: World): (r: (Stat, World))
    ensures r.1.env == w.env
    ensures w.env.input.status == Ok ==>
              var routed := Route(k, w.ctl.(linelen := |w.env.input.line| + 1), w.env.input.line);
              r.0 == Ok && r.1.ctl.linelen == |w.env.input.line| + 1 &&
              r.1 == w.(ctl := routed.0, effects := w.effects + routed.1)
    ensures w.env.input.status == Eof ==>
              r.0 == Eof && r.1.ctl == ResetSource(w.ctl) &&
              r.1.effects == w.effects + [if w.ctl.commMode == TextMode then EndOfFileMessage else EofReport]
    ensures w.env.input.status != Ok && w.env.input.status != Eof ==> r == (w.env.input.status, w)
  {
    var g := w.env.input;
    if g.status == Ok then
      var routed := Route(k, w.ctl.(linelen := |g.line| + 1), g.line);
      (Ok, w.(ctl := routed.0, effects := w.effects + routed.1))
    else if g.status == Eof then
      var report := if w.ctl.commMode == TextMode then EndOfFileMessage else EofReport;
      (Eof, w.(ctl := ResetSource(w.ctl), effects := w.effects + [report]))
    else (g.status, w)
  }

  /** The routing ignores the case of a leading letter: `h...` is a text-mode command
      like `H...`. */
  lemma LowerCaseHelpIsText(k: Limits, c: Ctl, line: string)
    requires |line| > 0 && line[0] == 'h'
    ensures Route(k, c, line) == (c.(commMode := TextMode), [TextCommand(line)])
  {
    assert FirstChar(line) == 'H';
  }

  // ---------------------------------------------------------------------------
  // _controller_HSM

  datatype Task =
    | HardResetTask | BootloaderTask | ShutdownIdlerTask | LimitSwitchTask
    | FeedholdTask | PlanHoldTask | AssertionsTask
    | MotorPowerTask | StatusReportTask | QueueReportTask | ArcTask | HomingTask
    | JoggingTask | ProbeTask
    | PlannerSyncTask | TxSyncTask | BaudTask | CommandTask | NormalIdlerTask

  /** The DISPATCH list of _controller_HSM, highest priority first. */
  const HsmOrder: seq<Task> := [
    HardResetTask, BootloaderTask, ShutdownIdlerTask, LimitSwitchTask,
    FeedholdTask, PlanHoldTask, AssertionsTask,
    MotorPowerTask, StatusReportTask, QueueReportTask, ArcTask, HomingTask,
    JoggingTask, ProbeTask,
    PlannerSyncTask, TxSyncTask, BaudTask, CommandTask, NormalIdlerTask]

  /** One task of the list on the world. No task changes the environment. */
  function RunTask(k: Limits, t: Task, w: World): (r: (Stat, World))
    ensures r.1.env == w.env
  {
    var cb := w.env.callbacks;
    match t
    case HardResetTask => (cb.hardReset, w)
    case BootloaderTask => (cb.bootloader, w)
    case ShutdownIdlerTask => ShutdownIdler(k, w)
    case LimitSwitchTask => LimitSwitchHandler(w)
    case FeedholdTask => (cb.feedhold, w)
    case PlanHoldTask => (cb.planHold, w)
    case AssertionsTask => SystemAssertions(k, w)
    case MotorPowerTask => (cb.motorPower, w)
    case StatusReportTask => (cb.statusReport, w)
    case QueueReportTask => (cb.queueReport, w)
    case ArcTask => (cb.arc, w)
    case HomingTask => (cb.homing, w)
    case JoggingTask => (cb.jogging, w)
    case ProbeTask => (cb.probe, w)
    case PlannerSyncTask => (SyncToPlanner(k, w.env), w)
    case TxSyncTask => (SyncToTxBuffer(k, w.env), w)
    case BaudTask => (cb.setBaud, w)
    case CommandTask => CommandDispatch(k, w)
    case NormalIdlerTask => NormalIdler(w)
  }

  function Run(k: Limits): (Task, World) -> (Stat, World) {
    (t, w) => RunTask(k, t, w)
  }

  /** One pass of _controller_HSM. */
  function HsmPass(k: Limits, w: World): (r: PassResult<World>)
    ensures |r.trace| <= |HsmOrder|
  {
    Pass(Run(k), HsmOrder, w)
  }

  /** The environment is the same at every point of a pass. */
  lemma {:induction false} EnvFixed(k: Limits, w: World, n: nat)
    requires n <= |HsmOrder|
    ensures RunFirst(Run(k), HsmOrder, w, n).env == w.env
    decreases n
  {
    if n > 0 {
      EnvFixed(k, w, n - 1);
    }
  }

  /** Gate positions in HsmOrder. */
  const ShutdownIdlerAt := 2
  const PlannerSyncAt := 14
  const TxSyncAt := 15
  const CommandAt := 17

  /** The list holds nineteen tasks: the reset and bootloader handlers come first, the
      shutdown idler third, the planner and TX gates are the two entries just before the
      baud-rate task and the command reader, and the normal idler is last. */
  lemma HsmOrderPositions()
    ensures |HsmOrder| == 19
    ensures HsmOrder[0] == HardResetTask && HsmOrder[1] == BootloaderTask
    ensures HsmOrder[ShutdownIdlerAt] == ShutdownIdlerTask
    ensures HsmOrder[PlannerSyncAt] == PlannerSyncTask && HsmOrder[TxSyncAt] == TxSyncTask
    ensures HsmOrder[TxSyncAt + 1] == BaudTask && HsmOrder[CommandAt] == CommandTask
    ensures HsmOrder[18] == NormalIdlerTask
  {
  }

  /** In MACHINE_SHUTDOWN only the hard-reset and bootloader handlers run before the
      shutdown idler blocks the pass, so a reset or a bootloader request can still be
      served. */
  lemma ShutdownStarvesLowerTasks(k: Limits, w: World)
    requires w.env.machineState == MachineShutdown
    requires w.env.callbacks.hardReset != Eagain && w.env.callbacks.bootloader != Eagain
    ensures HsmPass(k, w).trace == [w.env.callbacks.hardReset, w.env.callbacks.bootloader, Eagain]
    ensures HsmPass(k, w).world == ShutdownIdler(k, w).1
  {
    var run := Run(k);
    assert RunFirst(run, HsmOrder, w, 1) == w;
    assert RunFirst(run, HsmOrder, w, 2) == w;
    assert StatusAt(run, HsmOrder, w, 0) == w.env.callbacks.hardReset;
    assert StatusAt(run, HsmOrder, w, 1) == w.env.callbacks.bootloader;
    assert StatusAt(run, HsmOrder, w, 2) == Eagain;
    ShortCircuit(run, HsmOrder, w, 2);
    PassPrefix(run, HsmOrder, w);
  }

  /** A line is read only when the machine is not shut down, the planner has
      PLANNER_BUFFER_HEADROOM free buffers and the TX queue is below its low-water mark. */
  lemma CommandDispatchIsGated(k: Limits, w: World)
    requires |HsmPass(k, w).trace| > CommandAt
    ensures w.env.machineState != MachineShutdown
    ensures w.env.plannerBuffersAvailable >= k.plannerBufferHeadroom
    ensures w.env.txBufCount < k.xoffTxLoWaterMark
  {
    GatePassed(k, w, ShutdownIdlerAt);
    GatePassed(k, w, PlannerSyncAt);
    GatePassed(k, w, TxSyncAt);
  }

  /** A gate that ran before the last task of a pass was open, on the environment the
      pass started with. */
  lemma GatePassed(k: Limits, w: World, i: nat)
    requires i < |HsmOrder| && i < |HsmPass(k, w).trace| - 1
    ensures HsmOrder[i] == ShutdownIdlerTask ==> w.env.machineState != MachineShutdown
    ensures HsmOrder[i] == PlannerSyncTask ==> w.env.plannerBuffersAvailable >= k.plannerBufferHeadroom
    ensures HsmOrder[i] == TxSyncTask ==> w.env.txBufCount < k.xoffTxLoWaterMark
  {
    var run := Run(k);
    PassPrefix(run, HsmOrder, w);
    EnvFixed(k, w, i);
    var x := RunFirst(run, HsmOrder, w, i);
    assert HsmPass(k, w).trace[i] == RunTask(k, HsmOrder[i], x).0;
  }

  /** No task of the list blocks when every gate is open and no collaborator asks for
      another pass. */
  predicate AllClear(k: Limits, e: Env) {
    var cb := e.callbacks;
    var a := e.assertions;
    e.machineState != MachineShutdown &&
    e.plannerBuffersAvailable >= k.plannerBufferHeadroom && e.txBufCount < k.xoffTxLoWaterMark &&
    cb.hardReset != Eagain && cb.bootloader != Eagain && cb.feedhold != Eagain &&
    cb.planHold != Eagain && cb.motorPower != Eagain && cb.statusReport != Eagain &&
    cb.queueReport != Eagain && cb.arc != Eagain && cb.homing != Eagain &&
    cb.jogging != Eagain && cb.probe != Eagain && cb.setBaud != Eagain &&
    a.canonicalMachine != Eagain && a.planner != Eagain && a.stepper != Eagain &&
    a.encoder != Eagain && a.xio != Eagain && e.input.status != Eagain
  }

  lemma ClearTaskDoesNotBlock(k: Limits, t: Task, w: World)
    requires AllClear(k, w.env)
    ensures RunTask(k, t, w).0 != Eagain
  {
    if t == AssertionsTask {
      var s := AssertionResults(k, w);
      assert forall i :: 0 <= i < |s| ==> s[i] != Eagain;
    }
  }

  /** With every gate open, all nineteen tasks run, once each, in list order. */
  lemma AllClearRunsEveryTask(k: Limits, w: World)
    requires AllClear(k, w.env)
    ensures |HsmPass(k, w).trace| == |HsmOrder|
    ensures HsmPass(k, w).world == RunFirst(Run(k), HsmOrder, w, |HsmOrder|)
  {
    var run := Run(k);
    forall i | 0 <= i < |HsmOrder|
      ensures StatusAt(run, HsmOrder, w, i) != Eagain
    {
      EnvFixed(k, w, i);
      ClearTaskDoesNotBlock(k, HsmOrder[i], RunFirst(run, HsmOrder, w, i));
    }
    FallThrough(run, HsmOrder, w);
  }

  // ---------------------------------------------------------------------------
  // The controller structs

  class ControllerStructs {
    const k: Limits
    var csMagicStart: int
    var csMagicEnd: int
    var cfgMagicStart: int
    var cfgMagicEnd: int
    var nvMagicStart: int
    var nvMagicEnd: int
    var linelen: int
    var hardResetRequested: bool
    var bootloaderRequested: bool
    var defaultSrc: int
    var primarySrc: int
    var secondarySrc: int
    var ledTimer: int
    var commMode: CommMode

    function View(): Ctl
      reads this
    {
      Ctl(csMagicStart, csMagicEnd, cfgMagicStart, cfgMagicEnd, nvMagicStart, nvMagicEnd,
          linelen, hardResetRequested, bootloaderRequested, defaultSrc, primarySrc,
          secondarySrc, ledTimer, commMode)
    }

    /** The zero-initialised globals. */
    constructor (k: Limits)
      ensures this.k == k
      ensures View() == Ctl(0, 0, 0, 0, 0, 0, 0, false, false, 0, 0, 0, 0, TextMode)
    {
      this.k := k;
      csMagicStart, csMagicEnd, cfgMagicStart, cfgMagicEnd, nvMagicStart, nvMagicEnd := 0, 0, 0, 0, 0, 0;
      linelen, hardResetRequested, bootloaderRequested := 0, false, false;
      defaultSrc, primarySrc, secondarySrc, ledTimer := 0, 0, 0, 0;
      commMode := TextMode;
    }

    method Store(c: Ctl)
      modifies this
      ensures View() == c
    {
      csMagicStart, csMagicEnd := c.csMagicStart, c.csMagicEnd;
      cfgMagicStart, cfgMagicEnd := c.cfgMagicStart, c.cfgMagicEnd;
      nvMagicStart, nvMagicEnd := c.nvMagicStart, c.nvMagicEnd;
      linelen, hardResetRequested, bootloaderRequested := c.linelen, c.hardResetRequested, c.bootloaderRequested;
      defaultSrc, primarySrc, secondarySrc := c.defaultSrc, c.primarySrc, c.secondarySrc;
      ledTimer, commMode := c.ledTimer, c.commMode;
    }

    /** controller_init_assertions */
    method InitAssertionsInPlace()
      modifies this
      ensures View() == InitAssertions(k, old(View()))
    {
      csMagicStart := k.magicNum;
      csMagicEnd := k.magicNum;
      cfgMagicStart := k.magicNum;
      cfgMagicEnd := k.magicNum;
      nvMagicStart := k.magicNum;
      nvMagicEnd := k.magicNum;
    }

    /** controller_test_assertions */
    function Test(): (st: Stat)
      reads this
      ensures st == Ok <==> MagicIntact(k, View())
      ensures st == Ok || st == ControllerAssertionFailure
    {
      TestAssertions(k, View())
    }

    /** controller_init(std_in, ...) */
    method Init(stdIn: int)
      modifies this
      ensures View() == ControllerInit(k, old(View()), stdIn)
    {
      InitAssertionsInPlace();
      linelen := 0;
      hardResetRequested := false;
      bootloaderRequested := false;
      defaultSrc := stdIn;
      SetPrimarySource(defaultSrc);
    }

    /** tg_reset_source */
    method ResetSourceInPlace()
      modifies this
      ensures View() == ResetSource(old(View()))
    {
      SetPrimarySource(defaultSrc);
    }

    /** tg_set_primary_source */
    method SetPrimarySource(dev: int)
      modifies this
      ensures View() == old(View()).(primarySrc := dev)
    {
      primarySrc := dev;
    }

    /** tg_set_secondary_source */
    method SetSecondarySource(dev: int)
      modifies this
      ensures View() == old(View()).(secondarySrc := dev)
    {
      secondarySrc := dev;
    }

    /** _command_dispatch; `effects` are the calls it makes into other modules. */
    method CommandDispatchInPlace(env: Env) returns (st: Stat, effects: seq<Effect>)
      modifies this
      ensures (st, World(View(), env, effects)) == CommandDispatch(k, World(old(View()), env, []))
    {
      var g := env.input;
      ghost var w := World(View(), env, []);
      effects := [];
      if g.status != Ok {
        if g.status == Eof {
          if commMode == TextMode {
            effects := [EndOfFileMessage];
          } else {
            effects := [EofReport];
          }
          assert effects == w.effects + effects;
          ResetSourceInPlace();
        }
        return g.status, effects;
      }
      linelen := |g.line| + 1;
      var routed := Route(k, View(), g.line);
      commMode := routed.0.commMode;
      assert View() == routed.0;
      assert w.effects + routed.1 == routed.1;
      return Ok, routed.1;
    }

    /** One pass of _controller_HSM over these structs. */
    method HsmPassInPlace(env: Env) returns (trace: seq<Stat>, effects: seq<Effect>)
      modifies this
      ensures PassResult(trace, World(View(), env, effects)) == HsmPass(k, World(old(View()), env, []))
    {
      var w0 := World(View(), env, []);
      var w;
      trace, w := RunPass(Run(k), HsmOrder, w0);
      PassPrefix(Run(k), HsmOrder, w0);
      EnvFixed(k, w0, |trace|);
      Store(w.ctl);
      effects := w.effects;
    }
  }
}
