/**
 * The server's lifecycle flags (`FSServer`): five booleans that server-level
 * commands only ever switch on, the relay of `NETCONNECT` to the netconnectd
 * client, and the fixed sequence of actions that runs once the main loop
 * has seen `exit`.
 */
module Server {
  import opened Wrappers
  import opened Json
  import opened Events
  import opened Netconnect
  import Sockets
  import Scanner

  datatype Flags = Flags(exit: bool, restart: bool, upgrade: bool, reboot: bool, shutdown: bool)

  function NoFlags(): Flags
  {
    Flags(false, false, false, false, false)
  }

  /** Every flag set in `f` is set in `g`. */
  predicate Below(f: Flags, g: Flags)
  {
    (f.exit ==> g.exit) && (f.restart ==> g.restart) && (f.upgrade ==> g.upgrade) &&
    (f.reboot ==> g.reboot) && (f.shutdown ==> g.shutdown)
  }

  /** The commands that end the main loop. */
  predicate Ends(c: Scanner.Command)
  {
    c == Scanner.UpgradeServer || c == Scanner.RestartServer || c == Scanner.RebootSystem || c == Scanner.ShutdownSystem
  }

  /** The flags after `on_server_command` with `command`. */
  function Apply(f: Flags, command: Scanner.Command): (g: Flags)
    ensures Below(f, g)
    ensures g.exit <==> f.exit || Ends(command)
    ensures !Ends(command) ==> g == f
  {
    match command
    case UpgradeServer => f.(exit := true, upgrade := true)
    case RestartServer => f.(exit := true, restart := true)
    case RebootSystem => f.(exit := true, reboot := true)
    case ShutdownSystem => f.(exit := true, shutdown := true)
    case _ => f
  }

  function ApplyAll(f: Flags, commands: seq<Scanner.Command>): Flags
    decreases |commands|
  {
    if commands == [] then f else ApplyAll(Apply(f, commands[0]), commands[1..])
  }

  /** Each flag-setting command sets `exit` and its own flag and leaves the other three as they were. */
  lemma OwnFlag(f: Flags)
    ensures Apply(f, Scanner.UpgradeServer) == f.(exit := true, upgrade := true)
    ensures Apply(f, Scanner.RestartServer) == f.(exit := true, restart := true)
    ensures Apply(f, Scanner.RebootSystem) == f.(exit := true, reboot := true)
    ensures Apply(f, Scanner.ShutdownSystem) == f.(exit := true, shutdown := true)
  {
  }

  /** No sequence of commands ever clears a flag. */
  lemma {:induction false} FlagsMonotone(f: Flags, commands: seq<Scanner.Command>)
    ensures Below(f, ApplyAll(f, commands))
    decreases |commands|
  {
    if commands != [] {
      FlagsMonotone(Apply(f, commands[0]), commands[1..]);
    }
  }

  /** From the initial flags, the loop ends exactly when some command was one of the four ending ones. */
  lemma {:induction false} ExitOnlyByEndingCommand(f: Flags, commands: seq<Scanner.Command>)
    ensures ApplyAll(f, commands).exit <==> f.exit || exists i | 0 <= i < |commands| :: Ends(commands[i])
    decreases |commands|
  {
    if commands != [] {
      ExitOnlyByEndingCommand(Apply(f, commands[0]), commands[1..]);
      assert forall i | 0 <= i < |commands| - 1 :: commands[1..][i] == commands[i + 1];
      if Ends(commands[0]) {
        FlagsMonotone(Apply(f, commands[0]), commands[1..]);
      }
    }
  }

  /** The post-loop steps: `update_server`, `restart_server`, `reboot_system`, `shutdown_system`, then `os._exit(1)`. */
  datatype Action = Upgrade | Restart | Reboot | Shutdown | Exit

  function Rank(a: Action): nat
  {
    match a
    case Upgrade => 0
    case Restart => 1
    case Reboot => 2
    case Shutdown => 3
    case Exit => 4
  }

  /** The actions that run after the loop, in order. */
  function PostLoopActions(f: Flags): seq<Action>
  {
    (if f.upgrade then [Upgrade] else []) +
    (if f.restart || f.upgrade then [Restart] else []) +
    (if f.reboot then [Reboot] else []) +
    (if f.shutdown then [Shutdown] else []) +
    [Exit]
  }

  /**
   * The post-loop actions run in the fixed order upgrade, restart, reboot,
   * shutdown, each at most once and exactly when its flag is set (restart
   * also after an upgrade), and the process exits last.
   */
  lemma PostLoopOrder(f: Flags)
    ensures var r := PostLoopActions(f);
      r != [] && r[|r| - 1] == Exit &&
      (forall i, j | 0 <= i < j < |r| :: Rank(r[i]) < Rank(r[j])) &&
      (Upgrade in r <==> f.upgrade) && (Restart in r <==> f.restart || f.upgrade) &&
      (Reboot in r <==> f.reboot) && (Shutdown in r <==> f.shutdown)
  {
  }

  /** An upgrade is immediately followed by the restart. */
  lemma UpgradeThenRestart(f: Flags)
    requires f.upgrade
    ensures PostLoopActions(f)[..2] == [Upgrade, Restart]
  {
  }

  /**
   * `UPGRADE_SERVER` reaches both subscribers: the server always ends its
   * loop and upgrades, while the scanner enters `UPGRADING` only when its
   * last client connect reported an upgrade.
   */
  lemma UpgradeOnBothSides(f: Flags, st: Scanner.Status, e: Scanner.Event, client: Client, env: Scanner.Environment)
    requires e.command == Scanner.UpgradeServer
    ensures Upgrade in PostLoopActions(Apply(f, e.command))
    ensures Scanner.Step(st, e, client, env).0.state == if st.upgradeAvailable then Scanner.Upgrading else st.state
  {
    Scanner.UpgradeCommand(st, e, client, env);
  }

  class Server {
    var exit: bool
    var restart: bool
    var upgrade: bool
    var reboot: bool
    var shutdown: bool
    const netconnect: NetConnect
    /** The post-loop actions that have run. */
    var actions: seq<Action>

    function Current(): Flags
      reads this
    {
      Flags(exit, restart, upgrade, reboot, shutdown)
    }

    constructor (daemon: nat -> Sockets.Peer)
      ensures Current() == NoFlags() && actions == []
      ensures fresh(netconnect) && netconnect.daemon == daemon && netconnect.State() == Session(0, [], [])
    {
      exit := false;
      restart := false;
      upgrade := false;
      reboot := false;
      shutdown := false;
      actions := [];
      netconnect := new NetConnect(daemon);
    }

    /**
     * `on_server_command`; `name` is `event.function`, read only for
     * `NETCONNECT`, which is relayed with `data=None`. `raised` is whether an
     * exception escaped the dispatcher and so `on_server_command` too.
     */
    method OnServerCommand(command: Scanner.Command, name: string, client: Client) returns (raised: bool)
      modifies this, netconnect
      ensures Current() == Apply(old(Current()), command) && actions == old(actions)
      ensures command == Scanner.Netconnect ==>
        netconnect.State() == DispatchSpec(netconnect.daemon, old(netconnect.State()), name, Null, client).1
      ensures command != Scanner.Netconnect ==> netconnect.State() == old(netconnect.State())
      ensures raised <==>
        command == Scanner.Netconnect && DispatchSpec(netconnect.daemon, old(netconnect.State()), name, Null, client).0.Raised?
    {
      ghost var flags := Apply(Current(), command);
      ghost var session := netconnect.State();
      if command == Scanner.UpgradeServer {
        exit := true;
        upgrade := true;
      }
      if command == Scanner.RestartServer {
        exit := true;
        restart := true;
      }
      if command == Scanner.RebootSystem {
        exit := true;
        reboot := true;
      }
      if command == Scanner.ShutdownSystem {
        exit := true;
        shutdown := true;
      }
      assert Current() == flags && netconnect.State() == session;
      raised := false;
      if command == Scanner.Netconnect {
        var outcome := netconnect.CallCommand(name, Null, client);
        assert Current() == flags;
        raised := outcome.Raised?;
      }
    }

    /** The part of `run` after `while not self.exit`. */
    method AfterLoop()
      requires exit
      modifies this
      ensures actions == old(actions) + PostLoopActions(old(Current()))
      ensures Current() == old(Current()).(restart := old(restart) || old(upgrade))
    {
      var run: seq<Action> := [];
      if upgrade {
        run := run + [Upgrade];
        restart := true;
      }
      if restart {
        run := run + [Restart];
        exit := true;
      }
      if reboot {
        run := run + [Reboot];
        exit := true;
      }
      if shutdown {
        run := run + [Shutdown];
        exit := true;
      }
      run := run + [Exit];
      actions := actions + run;
    }
  }
}
