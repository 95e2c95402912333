/**
 * The scanner's lifecycle (`FSScanner`): one state out of five, changed only
 * through `set_state` (which also broadcasts the new state to every client),
 * an `if/elif` chain of guarded commands that may change the state and send
 * messages to the worker, and the greeting of a newly connected client.
 *
 * What the collaborators answer is an input: whether a blocking `ask`
 * raises, the dict snapshots of the config and the settings, the hardware
 * info, and the result of the upgrade check.
 */
module Scanner {
  import opened Wrappers
  import opened Json
  import opened Events
  import Worker = ScanProcessor

  /** `FSState`. */
  datatype ScanState = Idle | Scanning | Settings | Calibrating | Upgrading

  /** `FSCommand`. */
  datatype Command =
    | Scan | Start | Stop | Calibrate | HardwareTestFunction | Meshing | Complete | ScannerError
    | UpgradeServer | RestartServer | RebootSystem | ShutdownSystem | CalibrationComplete | Netconnect
    | GetSettings | UpdateSettings | GetConfig | UpdateConfig

  /** A `COMMAND` event and the fields some commands read from it. */
  datatype Event = Event(command: Command, settings: Json, config: Json, device: Json,
                         scanId: Json, filter: Json, format: Json)

  /** The collaborators' answers during one command. */
  datatype Environment = Environment(askRaises: bool, config: Json, settings: Json)

  /** What `upgrade_is_available(version)` returns; the version may be `None`. */
  datatype UpgradeCheck = UpgradeCheck(available: bool, version: Option<string>)

  /** Messages to clients: the broadcast `ON_STATE_CHANGED`, and the replies addressed to one client. */
  datatype ClientMessage =
    | StateChanged(state: ScanState)
    | ConfigReply(client: Client, config: Json)
    | SettingsReply(client: Client, settings: Json)
    | ClientInit(client: Client, state: ScanState, serverVersion: string, firmwareVersion: string,
                 upgradeAvailable: bool, upgradeVersion: string)

  /** An `FSMeshlabTask` started in the background. */
  datatype MeshTask = MeshTask(scanId: Json, filter: Json, format: Json)

  /** Everything the scanner holds or has sent. */
  datatype Status = Status(state: ScanState, upgradeAvailable: bool, upgradeVersion: Option<string>,
                           worker: seq<Worker.Message>, bus: seq<ClientMessage>, meshTasks: seq<MeshTask>)

  function Initial(): Status
  {
    Status(Idle, false, None, [], [], [])
  }

  function Tell(command: Worker.Command): Worker.Message
  {
    Worker.Message(Worker.Tell, command, [])
  }

  function Ask(command: Worker.Command): Worker.Message
  {
    Worker.Message(Worker.Ask, command, [])
  }

  // ---------------------------------------------------------------- the command table

  /** The state `set_state` is called with, if it is called. */
  function Target(s: ScanState, c: Command, upgradeAvailable: bool): Option<ScanState>
  {
    match c
    case Scan => if s == Idle then Some(Settings) else None
    case Start => if s == Settings then Some(Scanning) else None
    case Stop => Some(Idle)
    case Calibrate => Some(Calibrating)
    case CalibrationComplete => Some(Idle)
    case Complete => Some(Idle)
    case ScannerError => Some(Settings)
    case UpgradeServer => if upgradeAvailable then Some(Upgrading) else None
    case _ => None
  }

  /** The worker messages a command sends from state `s`. */
  function WorkerSends(s: ScanState, e: Event): seq<Worker.Message>
  {
    match e.command
    case Scan => if s == Idle then [Tell(Worker.SettingsModeOn)] else []
    case UpdateSettings =>
      if s == Settings then [Worker.Message(Worker.Tell, Worker.UpdateSettings, [Member("SETTINGS", e.settings)])] else []
    case UpdateConfig => [Worker.Message(Worker.Tell, Worker.UpdateConfig, [Member("CONFIG", e.config)])]
    case Start => if s == Settings then [Tell(Worker.Start)] else []
    case Stop =>
      if s == Scanning then [Ask(Worker.Stop)]
      else if s == Settings then [Tell(Worker.SettingsModeOff)]
      else if s == Calibrating then [Ask(Worker.StopCalibration)]
      else []
    case HardwareTestFunction =>
      [Worker.Message(Worker.Ask, Worker.CallHardwareTestFunction, [Member("DEVICE_TEST", e.device)])]
    case Calibrate => [Tell(Worker.StartCalibration)]
    case _ => []
  }

  /** Whether a command's message is a blocking `ask` (a command sends at most one, see `OneMessage`). */
  predicate Blocks(sends: seq<Worker.Message>)
  {
    sends != [] && sends[0].mode == Worker.Ask
  }

  /** The replies addressed to the requesting client. */
  function Replies(e: Event, client: Client, env: Environment): seq<ClientMessage>
  {
    match e.command
    case GetConfig => [ConfigReply(client, env.config)]
    case GetSettings => [SettingsReply(client, env.settings)]
    case _ => []
  }

  function Meshes(e: Event): seq<MeshTask>
  {
    if e.command == Meshing then [MeshTask(e.scanId, e.filter, e.format)] else []
  }

  /**
   * One `on_command`: the new status and whether an `ask` raised out of it.
   * A raising `ask` ends the command before `set_state`.
   */
  function Step(st: Status, e: Event, client: Client, env: Environment): (Status, bool)
  {
    var sends := WorkerSends(st.state, e);
    var raised := Blocks(sends) && env.askRaises;
    var target := if raised then None else Target(st.state, e.command, st.upgradeAvailable);
    (st.(state := if target.Some? then target.value else st.state,
         worker := st.worker + sends,
         bus := st.bus + (if target.Some? then [StateChanged(target.value)] else []) + Replies(e, client, env),
         meshTasks := st.meshTasks + Meshes(e)),
     raised)
  }

  /** The text `str(hardware_info)`, `"undefined"` when the `ask` raised. */
  function Firmware(hardware: Option<string>): string
  {
    if hardware.Some? then hardware.value else "undefined"
  }

  /**
   * One `on_client_connected`. Without an upgrade version the debug line's
   * `+` raises a `TypeError`, which the outer `except StandardError` swallows
   * after the flags are stored and before the greeting.
   */
  function ConnectStep(st: Status, client: Client, hardware: Option<string>, check: UpgradeCheck, version: string): Status
  {
    var asked := st.(upgradeAvailable := check.available, upgradeVersion := check.version,
                     worker := st.worker + [Ask(Worker.GetHardwareInfo)]);
    match check.version
    case None => asked
    case Some(v) =>
      asked.(worker := asked.worker + [Tell(Worker.NotifyHardwareState), Tell(Worker.NotifyIfNotCalibrated)],
             bus := st.bus + [ClientInit(client, st.state, "v." + version, Firmware(hardware), check.available, v)])
  }

  // ---------------------------------------------------------------- properties of one command

  /** Every command sends at most one worker message, and only `STOP` and `HARDWARE_TEST_FUNCTION` can block. */
  lemma OneMessage(s: ScanState, e: Event)
    ensures |WorkerSends(s, e)| <= 1
    ensures Blocks(WorkerSends(s, e)) <==>
      e.command == HardwareTestFunction || (e.command == Stop && (s == Scanning || s == Calibrating))
  {
  }

  /** `SCAN` enters the settings mode from `IDLE` only; from any other state it does nothing at all. */
  lemma ScanCommand(st: Status, e: Event, client: Client, env: Environment)
    requires e.command == Scan
    ensures var (st', raised) := Step(st, e, client, env);
      !raised &&
      (st.state == Idle ==>
        st' == st.(state := Settings, worker := st.worker + [Tell(Worker.SettingsModeOn)],
                   bus := st.bus + [StateChanged(Settings)])) &&
      (st.state != Idle ==> st' == st)
  {
  }

  /** `START` starts scanning from `SETTINGS` only; from any other state it does nothing at all. */
  lemma StartCommand(st: Status, e: Event, client: Client, env: Environment)
    requires e.command == Start
    ensures var (st', raised) := Step(st, e, client, env);
      !raised &&
      (st.state == Settings ==>
        st' == st.(state := Scanning, worker := st.worker + [Tell(Worker.Start)],
                   bus := st.bus + [StateChanged(Scanning)])) &&
      (st.state != Settings ==> st' == st)
  {
  }

  /** `UPDATE_SETTINGS` forwards the settings in `SETTINGS` only; `UPDATE_CONFIG` always forwards; nothing else changes. */
  lemma UpdateCommands(st: Status, e: Event, client: Client, env: Environment)
    requires e.command == UpdateSettings || e.command == UpdateConfig
    ensures e.command == UpdateSettings && st.state == Settings ==>
      Step(st, e, client, env) ==
        (st.(worker := st.worker + [Worker.Message(Worker.Tell, Worker.UpdateSettings, [Member("SETTINGS", e.settings)])]), false)
    ensures e.command == UpdateSettings && st.state != Settings ==> Step(st, e, client, env) == (st, false)
    ensures e.command == UpdateConfig ==>
      Step(st, e, client, env) == (st.(worker := st.worker + [Worker.Message(Worker.Tell, Worker.UpdateConfig, [Member("CONFIG", e.config)])]), false)
  {
    assert st.bus + [] + [] == st.bus && st.meshTasks + [] == st.meshTasks && st.worker + [] == st.worker;
  }

  /** What `STOP` sends to the worker, chosen by the state before it. */
  function StopMessage(s: ScanState): seq<Worker.Message>
  {
    match s
    case Scanning => [Ask(Worker.Stop)]
    case Settings => [Tell(Worker.SettingsModeOff)]
    case Calibrating => [Ask(Worker.StopCalibration)]
    case _ => []
  }

  /**
   * `STOP` sends at most one worker message. When no `ask` raises it ends
   * in `IDLE` and broadcasts that, even from `IDLE`; a raising `ask` leaves
   * the state as it was and broadcasts nothing.
   */
  lemma StopCommand(st: Status, e: Event, client: Client, env: Environment)
    requires e.command == Stop
    ensures var (st', raised) := Step(st, e, client, env);
      |StopMessage(st.state)| <= 1 &&
      (raised <==> env.askRaises && (st.state == Scanning || st.state == Calibrating)) &&
      st'.worker == st.worker + StopMessage(st.state) &&
      (!raised ==> st' == st.(state := Idle, worker := st'.worker, bus := st.bus + [StateChanged(Idle)])) &&
      (raised ==> st' == st.(worker := st'.worker)) &&
      (StopMessage(st.state) == [] ==> st'.worker == st.worker)
  {
    assert WorkerSends(st.state, e) == StopMessage(st.state);
    assert st.bus + [] == st.bus && st.meshTasks + [] == st.meshTasks && st.worker + [] == st.worker;
  }

  /** The transitions that hold from any state. */
  lemma UnguardedCommands(st: Status, e: Event, client: Client, env: Environment)
    requires e.command in {Calibrate, CalibrationComplete, Complete, ScannerError}
    ensures var target := match e.command
        case Calibrate => Calibrating
        case ScannerError => Settings
        case _ => Idle;
      Step(st, e, client, env) ==
        (st.(state := target, bus := st.bus + [StateChanged(target)],
             worker := if e.command == Calibrate then st.worker + [Tell(Worker.StartCalibration)] else st.worker),
         false)
  {
    assert st.bus + [StateChanged(Idle)] + [] == st.bus + [StateChanged(Idle)];
    assert st.bus + [StateChanged(Settings)] + [] == st.bus + [StateChanged(Settings)];
    assert st.bus + [StateChanged(Calibrating)] + [] == st.bus + [StateChanged(Calibrating)];
    assert st.meshTasks + [] == st.meshTasks && st.worker + [] == st.worker;
  }

  /** `UPGRADE_SERVER` enters `UPGRADING` exactly when an upgrade was reported available. */
  lemma UpgradeCommand(st: Status, e: Event, client: Client, env: Environment)
    requires e.command == UpgradeServer
    ensures var (st', raised) := Step(st, e, client, env);
      !raised && (st.upgradeAvailable ==> st' == st.(state := Upgrading, bus := st.bus + [StateChanged(Upgrading)])) &&
      (!st.upgradeAvailable ==> st' == st)
  {
  }

  /** Commands that never change the state; the two queries answer the requesting client once. */
  lemma NeutralCommands(st: Status, e: Event, client: Client, env: Environment)
    requires e.command in {HardwareTestFunction, Meshing, GetConfig, GetSettings}
    ensures e.command == GetConfig ==> Step(st, e, client, env) == (st.(bus := st.bus + [ConfigReply(client, env.config)]), false)
    ensures e.command == GetSettings ==> Step(st, e, client, env) == (st.(bus := st.bus + [SettingsReply(client, env.settings)]), false)
    ensures e.command == Meshing ==>
      Step(st, e, client, env) == (st.(meshTasks := st.meshTasks + [MeshTask(e.scanId, e.filter, e.format)]), false)
    ensures e.command == HardwareTestFunction ==>
      Step(st, e, client, env) ==
        (st.(worker := st.worker + [Worker.Message(Worker.Ask, Worker.CallHardwareTestFunction, [Member("DEVICE_TEST", e.device)])]),
         env.askRaises)
  {
    assert st.bus + [] + [] == st.bus && st.meshTasks + [] == st.meshTasks && st.worker + [] == st.worker;
    assert st.bus + [] + [ConfigReply(client, env.config)] == st.bus + [ConfigReply(client, env.config)];
    assert st.bus + [] + [SettingsReply(client, env.settings)] == st.bus + [SettingsReply(client, env.settings)];
  }

  /** Server-level commands have no branch in the scanner: they change nothing. */
  lemma ServerCommandsIgnored(st: Status, e: Event, client: Client, env: Environment)
    requires e.command in {RestartServer, RebootSystem, ShutdownSystem, Netconnect}
    ensures Step(st, e, client, env) == (st, false)
  {
    assert WorkerSends(st.state, e) == [] && Replies(e, client, env) == [] && Meshes(e) == [];
    assert st.worker + [] == st.worker && st.bus + [] + [] == st.bus && st.meshTasks + [] == st.meshTasks;
  }

  /** The last state broadcast, if any. */
  function LastAnnounced(bus: seq<ClientMessage>): (r: Option<ScanState>)
    ensures r.Some? <==> exists i | 0 <= i < |bus| :: bus[i].StateChanged?
  {
    if bus == [] then None
    else if bus[|bus| - 1].StateChanged? then Some(bus[|bus| - 1].state)
    else LastAnnounced(bus[..|bus| - 1])
  }

  lemma {:induction false} LastAnnouncedAppend(bus: seq<ClientMessage>, more: seq<ClientMessage>)
    requires forall i | 0 <= i < |more| :: !more[i].StateChanged?
    ensures LastAnnounced(bus + more) == LastAnnounced(bus)
  {
    if more != [] {
      var front := more[..|more| - 1];
      assert (bus + more)[..|bus + more| - 1] == bus + front;
      assert (bus + more)[|bus + more| - 1] == more[|more| - 1];
      assert forall i | 0 <= i < |front| :: front[i] == more[i];
      LastAnnouncedAppend(bus, front);
    } else {
      assert bus + more == bus;
    }
  }

  /** Clients have been told the current state, or nothing yet while the scanner is still in its initial `IDLE`. */
  predicate InSync(st: Status)
  {
    LastAnnounced(st.bus) == Some(st.state) || (LastAnnounced(st.bus).None? && st.state == Idle)
  }

  /**
   * Every state change is broadcast: after a command, a changed state has
   * been announced with exactly one `ON_STATE_CHANGED`, and clients stay in
   * sync with the scanner.
   */
  lemma StepAnnounces(st: Status, e: Event, client: Client, env: Environment)
    requires InSync(st)
    ensures var (st', _) := Step(st, e, client, env);
      InSync(st') && (st'.state != st.state ==> LastAnnounced(st'.bus) == Some(st'.state)) &&
      |st'.bus| - |st.bus| <= 1
  {
    var (st', raised) := Step(st, e, client, env);
    var target := if raised then None else Target(st.state, e.command, st.upgradeAvailable);
    var head := st.bus + (if target.Some? then [StateChanged(target.value)] else []);
    var replies := Replies(e, client, env);
    LastAnnouncedAppend(head, replies);
    if target.None? {
      assert head == st.bus;
    } else {
      assert LastAnnounced(head) == target;
    }
    assert target.Some? ==> replies == [];
  }

  lemma ConnectAnnouncesNothing(st: Status, client: Client, hardware: Option<string>, check: UpgradeCheck, version: string)
    requires InSync(st)
    ensures InSync(ConnectStep(st, client, hardware, check, version))
  {
    if check.version.Some? {
      var init := ClientInit(client, st.state, "v." + version, Firmware(hardware), check.available, check.version.value);
      LastAnnouncedAppend(st.bus, [init]);
    }
  }

  /**
   * A client connect greets the client with the current state, the firmware
   * text (`"undefined"` when the hardware query raised) and the upgrade
   * check, then tells the worker two notifications in order; it never
   * changes the state. Without an upgrade version only the hardware query
   * and the stored flags remain.
   */
  lemma ClientConnect(st: Status, client: Client, hardware: Option<string>, check: UpgradeCheck, version: string)
    ensures var st' := ConnectStep(st, client, hardware, check, version);
      st'.state == st.state && st'.upgradeAvailable == check.available && st'.upgradeVersion == check.version &&
      st'.meshTasks == st.meshTasks && st'.worker[..|st.worker|] == st.worker && st'.worker[|st.worker|] == Ask(Worker.GetHardwareInfo)
    ensures var st' := ConnectStep(st, client, hardware, check, version);
      check.version.Some? ==>
        st'.bus == st.bus + [ClientInit(client, st.state, "v." + version, Firmware(hardware), check.available, check.version.value)] &&
        st'.worker[|st.worker|..] == [Ask(Worker.GetHardwareInfo), Tell(Worker.NotifyHardwareState), Tell(Worker.NotifyIfNotCalibrated)] &&
        (hardware.None? ==> st'.bus[|st.bus|].firmwareVersion == "undefined")
    ensures var st' := ConnectStep(st, client, hardware, check, version);
      check.version.None? ==> st'.bus == st.bus && |st'.worker| == |st.worker| + 1
  {
  }

  // ---------------------------------------------------------------- runs

  /** What reaches the scanner: a command, or a client connecting. */
  datatype Input =
    | CommandInput(event: Event, client: Client, env: Environment)
    | ConnectInput(client: Client, hardware: Option<string>, check: UpgradeCheck)

  function Run(st: Status, inputs: seq<Input>, version: string): Status
    decreases |inputs|
  {
    if inputs == [] then st
    else
      var next := match inputs[0]
        case CommandInput(e, client, env) => Step(st, e, client, env).0
        case ConnectInput(client, hardware, check) => ConnectStep(st, client, hardware, check, version);
      Run(next, inputs[1..], version)
  }

  /** From the initial status, clients always know the scanner's state. */
  lemma {:induction false} RunInSync(st: Status, inputs: seq<Input>, version: string)
    requires InSync(st)
    ensures InSync(Run(st, inputs, version))
    decreases |inputs|
  {
    if inputs != [] {
      match inputs[0]
      case CommandInput(e, client, env) =>
        StepAnnounces(st, e, client, env);
        RunInSync(Step(st, e, client, env).0, inputs[1..], version);
      case ConnectInput(client, hardware, check) =>
        ConnectAnnouncesNothing(st, client, hardware, check, version);
        RunInSync(ConnectStep(st, client, hardware, check, version), inputs[1..], version);
    }
  }

  /** Commands alone never set the upgrade flag. */
  lemma CommandKeepsFlag(st: Status, e: Event, client: Client, env: Environment)
    ensures Step(st, e, client, env).0.upgradeAvailable == st.upgradeAvailable
  {
  }

  /**
   * Until a client connect reports an upgrade, `UPGRADE_SERVER` cannot
   * take the scanner to `UPGRADING`.
   */
  lemma {:induction false} NoUpgradeWithoutCheck(st: Status, inputs: seq<Input>, version: string)
    requires !st.upgradeAvailable && st.state != Upgrading
    requires forall i | 0 <= i < |inputs| :: inputs[i].ConnectInput? ==> !inputs[i].check.available
    ensures Run(st, inputs, version).state != Upgrading && !Run(st, inputs, version).upgradeAvailable
    decreases |inputs|
  {
    if inputs != [] {
      assert forall i | 0 <= i < |inputs| - 1 :: inputs[1..][i] == inputs[i + 1];
      match inputs[0]
      case CommandInput(e, client, env) =>
        CommandKeepsFlag(st, e, client, env);
        NoUpgradeWithoutCheck(Step(st, e, client, env).0, inputs[1..], version);
      case ConnectInput(client, hardware, check) =>
        NoUpgradeWithoutCheck(ConnectStep(st, client, hardware, check, version), inputs[1..], version);
    }
  }

  // ---------------------------------------------------------------- the scanner object

  class Scanner {
    /** `__version__` of the server. */
    const version: string
    var state: ScanState
    var upgradeAvailable: bool
    var upgradeVersion: Option<string>
    /** Messages sent to the worker. */
    var worker: seq<Worker.Message>
    /** Messages sent to clients. */
    var bus: seq<ClientMessage>
    var meshTasks: seq<MeshTask>

    function Current(): Status
      reads this
    {
      Status(state, upgradeAvailable, upgradeVersion, worker, bus, meshTasks)
    }

    constructor (version: string)
      ensures this.version == version && Current() == Initial()
    {
      this.version := version;
      state := Idle;
      upgradeAvailable := false;
      upgradeVersion := None;
      worker := [];
      bus := [];
      meshTasks := [];
    }

    /** `get_state`: the state `set_state` last stored. */
    function GetState(): (s: ScanState)
      reads this
      ensures s == Current().state
    {
      state
    }

    /** `set_state`: assign, then broadcast the new state. */
    method SetState(s: ScanState)
      modifies this
      ensures Current() == old(Current()).(state := s, bus := old(bus) + [StateChanged(s)])
    {
      state := s;
      bus := bus + [StateChanged(s)];
    }

    method TellWorker(message: Worker.Message)
      requires message.mode == Worker.Tell
      modifies this
      ensures Current() == old(Current()).(worker := old(worker) + [message])
    {
      worker := worker + [message];
    }

    /** A blocking `ask`; `raises` is whether it raises instead of answering. */
    method AskWorker(message: Worker.Message, raises: bool) returns (raised: bool)
      requires message.mode == Worker.Ask
      modifies this
      ensures raised == raises && Current() == old(Current()).(worker := old(worker) + [message])
    {
      worker := worker + [message];
      raised := raises;
    }

    /** `on_command`; `raised` is an `ask` exception escaping it. */
    method OnCommand(e: Event, client: Client, env: Environment) returns (raised: bool)
      modifies this
      ensures (Current(), raised) == Step(old(Current()), e, client, env)
    {
      ghost var before := Current();
      raised := false;
      var command := e.command;
      if command == Scan {
        ScanCommand(before, e, client, env);
        if state == Idle {
          SetState(Settings);
          TellWorker(Tell(Worker.SettingsModeOn));
        }
      } else if command == UpdateSettings {
        UpdateCommands(before, e, client, env);
        if state == Settings {
          TellWorker(Worker.Message(Worker.Tell, Worker.UpdateSettings, [Member("SETTINGS", e.settings)]));
        }
      } else if command == UpdateConfig {
        UpdateCommands(before, e, client, env);
        TellWorker(Worker.Message(Worker.Tell, Worker.UpdateConfig, [Member("CONFIG", e.config)]));
      } else if command == Start {
        StartCommand(before, e, client, env);
        if state == Settings {
          SetState(Scanning);
          TellWorker(Tell(Worker.Start));
        }
      } else if command == Stop {
        StopCommand(before, e, client, env);
        if state == Scanning {
          raised := AskWorker(Ask(Worker.Stop), env.askRaises);
          if raised {
            return;
          }
        }
        if state == Settings {
          TellWorker(Tell(Worker.SettingsModeOff));
        }
        if state == Calibrating {
          raised := AskWorker(Ask(Worker.StopCalibration), env.askRaises);
          if raised {
            return;
          }
        }
        SetState(Idle);
      } else if command == HardwareTestFunction {
        NeutralCommands(before, e, client, env);
        var message := Worker.Message(Worker.Ask, Worker.CallHardwareTestFunction, [Member("DEVICE_TEST", e.device)]);
        raised := AskWorker(message, env.askRaises);
      } else if command == Calibrate {
        UnguardedCommands(before, e, client, env);
        SetState(Calibrating);
        TellWorker(Tell(Worker.StartCalibration));
      } else if command == CalibrationComplete {
        UnguardedCommands(before, e, client, env);
        SetState(Idle);
      } else if command == Complete {
        UnguardedCommands(before, e, client, env);
        SetState(Idle);
      } else if command == ScannerError {
        UnguardedCommands(before, e, client, env);
        SetState(Settings);
      } else if command == Meshing {
        NeutralCommands(before, e, client, env);
        meshTasks := meshTasks + [MeshTask(e.scanId, e.filter, e.format)];
      } else if command == UpgradeServer {
        UpgradeCommand(before, e, client, env);
        if upgradeAvailable {
          SetState(Upgrading);
        }
      } else if command == GetConfig {
        NeutralCommands(before, e, client, env);
        bus := bus + [ConfigReply(client, env.config)];
      } else if command == GetSettings {
        NeutralCommands(before, e, client, env);
        bus := bus + [SettingsReply(client, env.settings)];
      } else {
        ServerCommandsIgnored(before, e, client, env);
      }
    }

    /**
     * `on_client_connected`: `hardware` is the text of the hardware-info
     * answer, None when that `ask` raised.
     */
    method OnClientConnected(client: Client, hardware: Option<string>, check: UpgradeCheck)
      modifies this
      ensures Current() == ConnectStep(old(Current()), client, hardware, check, version)
    {
      var _ := AskWorker(Ask(Worker.GetHardwareInfo), hardware.None?);
      var firmware := Firmware(hardware);
      upgradeAvailable := check.available;
      upgradeVersion := check.version;
      if check.version.None? {
        return;
      }
      bus := bus + [ClientInit(client, GetState(), "v." + version, firmware, upgradeAvailable, check.version.value)];
      TellWorker(Tell(Worker.NotifyHardwareState));
      TellWorker(Tell(Worker.NotifyIfNotCalibrated));
      assert worker == old(worker) + [Ask(Worker.GetHardwareInfo), Tell(Worker.NotifyHardwareState), Tell(Worker.NotifyIfNotCalibrated)];
    }
  }
}
