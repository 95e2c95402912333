# FabScanPi server: scanner lifecycle, netconnectd client, server flags

This project models three pieces of control logic of the FabScanPi server and
proves properties about them.

- **Scanner lifecycle** (`FSScanner`). The scanner is in one of five states:
  `IDLE`, `SETTINGS`, `SCANNING`, `CALIBRATING` or `UPGRADING`.
  - `on_command` is a chain of guarded commands. A command may move the
    state, but only through `set_state`, which also broadcasts
    `ON_STATE_CHANGED`. It may also send one message to the scan-processor
    worker: `tell` does not wait, `ask` blocks and may raise.
  - `on_client_connected` greets a new client, stores the upgrade check and
    tells the worker two notifications.
  - The class `Scanner.Scanner` keeps the state, the upgrade fields, the
    worker outbox, the client-message bus and the started meshing tasks.
    Each method is proved equal to the function `Scanner.Step` or
    `Scanner.ConnectStep`.
- **netconnectd client** (`FSNetConnect`).
  - `_send_netconnect_message` frames `{verb: params}` as compact JSON
    followed by a NUL byte. It reads 16-byte chunks until one ends in NUL,
    then strips the text, drops its last character and strips again. The
    decoded reply is classified as `result`, `error` or unknown. Every
    exception becomes a "talking to netconnectd" failure, and the socket is
    closed exactly once.
  - The handlers (`_get_wifi_list`, `_get_status`,
    `_configure_and_select_wifi`, `_forget_wifi`, `_reset`, `_start_ap`,
    `_stop_ap`) are reached through the dispatcher
    `call_netconnectd_command`. The dispatcher publishes `ON_NET_CONNECT` on
    success and returns `(False, message)` on any exception.
  - The class `Netconnect.NetConnect` records every connection, and every
    message it publishes, in a `Session`.
  - The socket is the class `Sockets.Socket`. What the daemon does on its
    n-th connection is an input `daemon: nat -> Peer`: whether connect
    fails, whether send fails, and the chunks `recv` returns.
  - `json.dumps` and `json.loads` are modelled by the module `Json` on a
    small value type, over the UTF-8 codec in `Utf8`. The module `PyValues`
    gives Python 2's `in`, `[]`, iteration and `+` on decoded values,
    together with the exceptions they raise.
- **Server lifecycle flags** (`FSServer`). `on_server_command` switches on
  `exit` together with one of `upgrade`, `restart`, `reboot` or `shutdown`,
  and relays `NETCONNECT` to the netconnectd client. Once `exit` is set, the
  code after the main loop runs upgrade, restart, reboot and shutdown in
  that order, then exits the process.

Some behaviours of the code that a reader might not expect, all modelled:

- a `STOP` whose `ask` raises leaves the state unchanged;
- `STOP` from `UPGRADING` also ends in `IDLE`;
- a failed `config_wifi` is reported with the prefix
  `Error while configuring wifi: `;
- the unknown-response text is `Unknown response from netconnectd: ` and
  then the response;
- `UPGRADE_SERVER` always makes the server exit and upgrade, whatever the
  scanner's upgrade flag says;
- when a handler's exception message holds a character beyond ASCII, the
  dispatcher's `str.format` raises `UnicodeEncodeError` inside its `except`
  clause, and that exception leaves `call_netconnectd_command` and
  `on_server_command`.

## Model

| member | source | states |
|---|---|---|
| Scanner.OneMessage | src/fabscan/FSScanner.py:93-179 | No command sends more than one worker message. The message is a blocking `ask` exactly for `HARDWARE_TEST_FUNCTION`, and for `STOP` from `SCANNING` or `CALIBRATING`. |
| Scanner.ScanCommand | src/fabscan/FSScanner.py:94-97 | From `IDLE`, `SCAN` moves to `SETTINGS`, tells `SETTINGS_MODE_ON` and broadcasts the new state. From any other state it changes nothing and sends nothing. It never raises. |
| Scanner.UpdateCommands | src/fabscan/FSScanner.py:100-109 | `UPDATE_SETTINGS` forwards `{UPDATE_SETTINGS, SETTINGS}` only in `SETTINGS`. `UPDATE_CONFIG` forwards `{UPDATE_CONFIG, CONFIG}` in every state. Neither changes the state or broadcasts. |
| Scanner.StartCommand | src/fabscan/FSScanner.py:112-116 | Only from `SETTINGS` does `START` move to `SCANNING`, tell `START` and broadcast. Otherwise nothing changes. |
| Scanner.StopCommand | src/fabscan/FSScanner.py:119-131 | `STOP` sends at most one worker message, chosen by the prior state. It raises exactly when that message is an `ask` that fails. If it does not raise, the state ends as `IDLE` and one broadcast is sent, even from `IDLE`. If it raises, only the worker outbox changed. |
| Scanner.NeutralCommands | src/fabscan/FSScanner.py:133-179 | The hardware test asks the worker with `DEVICE_TEST`. `MESHING` only records a meshing task. `GET_CONFIG` and `GET_SETTINGS` add one reply addressed to the client. None of them changes the state. |
| Scanner.UnguardedCommands | src/fabscan/FSScanner.py:138-154 | `CALIBRATE` goes to `CALIBRATING` from any state, with one `tell START_CALIBRATION`. `CALIBRATION_COMPLETE` and `COMPLETE` go to `IDLE`, and `SCANNER_ERROR` goes to `SETTINGS`, with no worker message. Each broadcasts once. |
| Scanner.UpgradeCommand | src/fabscan/FSScanner.py:162-165 | `UPGRADE_SERVER` enters `UPGRADING`, with a broadcast, exactly when the upgrade flag is set. Otherwise nothing changes. |
| Scanner.ServerCommandsIgnored | src/fabscan/FSScanner.py:89-179 | The server-level commands fall through the scanner's chain and change nothing. |
| Scanner.LastAnnounced | src/fabscan/FSScanner.py:212-214 | The last `ON_STATE_CHANGED` on the bus exists exactly when some broadcast was sent. |
| Scanner.LastAnnouncedAppend | src/fabscan/FSScanner.py:167-179 | Messages other than state broadcasts do not change the last announced state. |
| Scanner.StepAnnounces | src/fabscan/FSScanner.py:89-214 | After any command, clients know the current state. A changed state has been announced. The bus grows by at most one message. |
| Scanner.ConnectAnnouncesNothing | src/fabscan/FSScanner.py:183-210 | A client connect keeps clients in sync with the state. |
| Scanner.ClientConnect | src/fabscan/FSScanner.py:183-210 | (1) A connect never changes the state. It stores the upgrade check and first asks for the hardware info. (2) With a version, it sends the greeting: the unchanged state, `v.` plus the server version, and `"undefined"` when the hardware `ask` raised. Two tells follow, in order. (3) Without a version there is no greeting and no tell. |
| Scanner.RunInSync | src/fabscan/FSScanner.py:65-214 | From any in-sync status, every sequence of commands and client connects keeps clients in sync with the state. |
| Scanner.CommandKeepsFlag | src/fabscan/FSScanner.py:89-179 | No command changes the upgrade flag. |
| Scanner.NoUpgradeWithoutCheck | src/fabscan/FSScanner.py:69-190 | Starting without the flag, no run reaches `UPGRADING` unless some client connect reported an upgrade. |
| Scanner.Scanner.constructor | src/fabscan/FSScanner.py:65-70 | The scanner starts in `IDLE`: no upgrade, no version, empty outboxes. |
| Scanner.Scanner.GetState | src/fabscan/FSScanner.py:216-217 | Returns the current state. |
| Scanner.Scanner.SetState | src/fabscan/FSScanner.py:212-214 | Assigns the state and broadcasts it once. |
| Scanner.Scanner.TellWorker | src/fabscan/FSScanner.py:97 | Appends the message to the worker outbox. |
| Scanner.Scanner.AskWorker | src/fabscan/FSScanner.py:122 | Appends the message and reports whether the `ask` raised. |
| Scanner.Scanner.OnCommand | src/fabscan/FSScanner.py:89-179 | The new fields and the raised flag are exactly `Step` of the old fields. |
| Scanner.Scanner.OnClientConnected | src/fabscan/FSScanner.py:183-210 | The new fields are exactly `ConnectStep` of the old ones. |
| Sockets.Socket.constructor | src/fabscan/util/FSNetConnect.py:121 | A fresh socket is unconnected, has sent nothing, still has all of the peer's chunks to deliver, and has not been closed. |
| Sockets.Socket.Connect | src/fabscan/util/FSNetConnect.py:124 | Connects unless the peer refuses. The error is returned. |
| Sockets.Socket.SendAll | src/fabscan/util/FSNetConnect.py:125 | Appends the data to what was sent, unless the peer's send fails. |
| Sockets.Socket.Recv | src/fabscan/util/FSNetConnect.py:129 | Returns the next chunk, or times out when none is left. |
| Sockets.Socket.Close | src/fabscan/util/FSNetConnect.py:158 | Counts one more close and disconnects. |
| Utf8.DecodeEncode | src/fabscan/util/FSNetConnect.py:118 | Decoding the UTF-8 encoding of any text gives the text back. |
| Utf8.EncodeAscii | src/fabscan/util/FSNetConnect.py:118 | ASCII text encodes to one byte per character. |
| Json.Get | src/fabscan/util/FSNetConnect.py:137-145 | A key is found exactly when some member carries it. The value found is that of the last member with the key, as in a decoded dict. |
| Json.SerializedPrintable | src/fabscan/util/FSNetConnect.py:118 | The compact serialisation is printable ASCII. |
| Json.SerializedEnds | src/fabscan/util/FSNetConnect.py:118 | The serialisation is non-empty, and starts and ends with non-space characters. |
| Json.ParseSerializeRoundTrip | src/fabscan/util/FSNetConnect.py:118-137 | Parsing the serialisation of any value gives the value back. |
| Json.LoadsRoundTrip | src/fabscan/util/FSNetConnect.py:118-137 | `loads` of the UTF-8 bytes of `dumps(v)` is `v`. |
| PyValues.Contains | src/fabscan/util/FSNetConnect.py:138-142 | `key in v` tests dict keys, list elements or substrings. It raises exactly for `None`, booleans and numbers. |
| PyValues.Index | src/fabscan/util/FSNetConnect.py:76-80 | `v[key]` succeeds exactly on a dict holding the key and returns its value. A dict without the key raises `KeyError(key)`. |
| PyValues.Keys | src/fabscan/util/FSNetConnect.py:61 | The keys of a decoded dict: every member's key, each exactly once, and nothing that is not a key. |
| PyValues.Elements | src/fabscan/util/FSNetConnect.py:61 | `for x in v` yields a list's items in order. For a dict it yields each key once, as text, and nothing else. For a text it yields the one-character texts in order. It raises exactly for `None`, booleans and numbers. |
| PyValues.Concat | src/fabscan/util/FSNetConnect.py:144 | `prefix + v` succeeds exactly when `v` is text. |
| Netconnect.SerializedBytes | src/fabscan/util/FSNetConnect.py:118 | The encoded JSON text is non-empty, NUL-free and unpadded, and decodes back to the value. |
| Netconnect.FrameShape | src/fabscan/util/FSNetConnect.py:115-125 | (1) The bytes sent are some NUL-free JSON text followed by exactly one NUL. (2) That JSON text decodes to the one-key object `{verb: params}`. |
| Netconnect.Collect | src/fabscan/util/FSNetConnect.py:127-133 | The collected chunks are non-empty. Only the last ends in NUL. |
| Netconnect.CollectFirstNul | src/fabscan/util/FSNetConnect.py:127-133 | The loop keeps exactly the non-empty chunks up to and including the first that ends in NUL. |
| Netconnect.CollectIgnoresTail | src/fabscan/util/FSNetConnect.py:127-133 | Once a NUL-terminated chunk has arrived, whatever the peer sends after it has no effect. |
| Netconnect.CollectNone | src/fabscan/util/FSNetConnect.py:127-133 | Reading finds no reply exactly when no chunk ends in NUL. |
| Netconnect.LStrip | src/fabscan/util/FSNetConnect.py:135 | The result is a suffix that does not start with whitespace. Only whitespace was removed. |
| Netconnect.RStrip | src/fabscan/util/FSNetConnect.py:135 | The result is a prefix that does not end with whitespace. Only whitespace was removed. |
| Netconnect.ChunkingInvariance | src/fabscan/util/FSNetConnect.py:127-135 | Any chunking of one NUL-free message followed by NUL is read completely, up to and including the NUL. |
| Netconnect.PayloadOfMessage | src/fabscan/util/FSNetConnect.py:135-137 | The text parsed for `message + NUL` is the stripped message. |
| Netconnect.StripClean | src/fabscan/util/FSNetConnect.py:135-137 | Text without padding is unchanged by `strip`. |
| Netconnect.Classify | src/fabscan/util/FSNetConnect.py:138-150 | A reply succeeds exactly when it is a dict with `result`, even if `error` is also present. The result is that member's value. |
| Netconnect.ErrorReply | src/fabscan/util/FSNetConnect.py:142-145 | Without `result`, a text `error` is the failure message. |
| Netconnect.NonTextErrorReply | src/fabscan/util/FSNetConnect.py:144-155 | A non-text `error` makes the log line's `+` raise. The result is a talking-to-netconnectd failure with the `TypeError` text. |
| Netconnect.UnknownReply | src/fabscan/util/FSNetConnect.py:147-150 | A dict with neither key fails as an unknown response. |
| Netconnect.ListReply | src/fabscan/util/FSNetConnect.py:138-155 | A list reply is an unknown response, or, if it contains the text `result` or `error`, the `TypeError` of indexing a list with a text. |
| Netconnect.ScalarReply | src/fabscan/util/FSNetConnect.py:138-155 | A scalar reply fails with the "not iterable" `TypeError`. |
| Netconnect.ExchangeOfMessage | src/fabscan/util/FSNetConnect.py:127-155 | When the daemon answers one NUL-terminated message, the reply depends only on that message, not on its chunking. |
| Netconnect.SameMessageSameReply | src/fabscan/util/FSNetConnect.py:127-137 | Two peers that send the same message, chunked differently, give the same reply. |
| Netconnect.ExchangeOfSerialized | src/fabscan/util/FSNetConnect.py:118-150 | A daemon that answers `dumps(v)` + NUL yields the classification of `v`. |
| Netconnect.ExchangeTimesOut | src/fabscan/util/FSNetConnect.py:128-155 | A reply with no NUL-terminated chunk fails with the timeout message. |
| Netconnect.ExchangeFailures | src/fabscan/util/FSNetConnect.py:123-155 | A failed connect or send is reported with its own message, and then nothing counts as sent. Otherwise the frame is sent. |
| Netconnect.ForcePayload | src/fabscan/util/FSNetConnect.py:51-54 | The payload is `{"force": True}` when `force` is truthy, and `{}` otherwise. |
| Netconnect.RenameEntryFields | src/fabscan/util/FSNetConnect.py:62-63 | An entry is renamed exactly when it is a dict with `ssid`, `address`, `signal` and `encrypted`. The result is `{ssid, address, quality: signal, encrypted}`. |
| Netconnect.MapAll | src/fabscan/util/FSNetConnect.py:60-64 | A successful loop keeps the number of entries. |
| Netconnect.MapAllEntries | src/fabscan/util/FSNetConnect.py:60-64 | Each output is the handler applied to the entry at the same position. |
| Netconnect.MapAllStops | src/fabscan/util/FSNetConnect.py:60-64 | Once a prefix of the entries raises, the whole loop raises the same. |
| Netconnect.RenameWifiList | src/fabscan/util/FSNetConnect.py:60-64 | `_get_wifi_list`'s loop over the result computes exactly `Renamed(content)`. |
| Netconnect.RenameEach | src/fabscan/util/FSNetConnect.py:60-63 | The `for` loop over the entries computes exactly `MapAll(RenameEntry, entries)`, stopping at the first entry that raises. |
| Netconnect.TextEntries | src/fabscan/util/FSNetConnect.py:61-63 | A text reply, or the keys of a dict reply, cannot be renamed unless there are none. |
| Netconnect.WifiListShape | src/fabscan/util/FSNetConnect.py:60-64 | A successful wifi list comes from a list, an empty dict or empty text. It has the daemon's length and order, and each entry renamed. |
| Netconnect.ListWifiOfReply | src/fabscan/util/FSNetConnect.py:50-64 | `_get_wifi_list` renames a successful result. A failure raises with `Error while listing wifi: `. |
| Netconnect.ClassifyHomeReply | src/fabscan/util/FSNetConnect.py:138-140 | On a worked example, the `result` member is taken. |
| Netconnect.RenameHomeEntry | src/fabscan/util/FSNetConnect.py:62-63 | On a worked example, `signal` becomes `quality`. |
| Netconnect.RenameHome | src/fabscan/util/FSNetConnect.py:60-64 | On a worked example, one entry is renamed in a one-element list. |
| Netconnect.WifiListExample | src/fabscan/util/FSNetConnect.py:50-158 | A daemon answering with one wifi gives the renamed list. |
| Netconnect.ExtendsTrans | src/fabscan/util/FSNetConnect.py:114-158 | Session growth is transitive. |
| Netconnect.ExchangeExtends | src/fabscan/util/FSNetConnect.py:114-158 | One exchange adds exactly one record, carrying its verb and parameters. |
| Netconnect.WrapperCalls | src/fabscan/util/FSNetConnect.py:66-112 | `_get_status` and the no-argument wrappers make exactly one call with their verb and `{}`. A failure raises with the wrapper's prefix. `_get_status` returns the result; the others return `None`. |
| Netconnect.ConfigureFailsOnce | src/fabscan/util/FSNetConnect.py:75-84 | If `config_wifi` fails, exactly one daemon call was made, and the error carries the configure prefix. |
| Netconnect.ConfigureCalls | src/fabscan/util/FSNetConnect.py:75-88 | (1) No call is made when reading `ssid`, `psk` or `force` raises. (2) Otherwise the first call is `config_wifi`. (3) A second call, `start_wifi`, happens exactly when `config_wifi` succeeded. |
| Netconnect.ConfigureWithoutData | src/fabscan/util/FSNetConnect.py:75-80 | Without a dict (the server passes `None`), configuring raises before any call. |
| Netconnect.HandleExtends | src/fabscan/util/FSNetConnect.py:34 | Every handler only appends calls. |
| Netconnect.DispatchPublishes | src/fabscan/util/FSNetConnect.py:32-47 | The dispatcher publishes exactly one `ON_NET_CONNECT {client, response, command}` when the handler returns. If the handler raises, it publishes nothing. It then returns the prefixed message when the message is ASCII, and otherwise raises the `UnicodeEncodeError` of `format`. |
| Netconnect.ArityFailures | src/fabscan/util/FSNetConnect.py:96-112 | `RESET`, `START_AP` and `STOP_AP` fail with the arity `TypeError` before any call. |
| Netconnect.UnknownFunction | src/fabscan/util/FSNetConnect.py:19-47 | An unknown name fails with its `KeyError` and makes no call. The prefixed name is returned when it is ASCII, and otherwise `format` raises. |
| Netconnect.DaemonErrorEscapes | src/fabscan/util/FSNetConnect.py:32-73 | A daemon answering `status` with `{"error": e}`, where `e` has a character beyond ASCII, makes `GET_STATUS` raise out of the dispatcher. The one `status` call is recorded, and nothing is published. |
| Netconnect.Converse | src/fabscan/util/FSNetConnect.py:121-155 | The reply is `ExchangeSpec` of the peer. The bytes sent are the frame, or nothing if connect or send failed. The loop waits for a NUL-terminated chunk. |
| Netconnect.NetConnect.constructor | src/fabscan/util/FSNetConnect.py:14-30 | A new client has no connections, calls or published messages. |
| Netconnect.NetConnect.Send | src/fabscan/util/FSNetConnect.py:114-158 | Uses the next connection. The record of the call shows the bytes sent and exactly one close. |
| Netconnect.NetConnect.GetWifiList | src/fabscan/util/FSNetConnect.py:50-64 | Equals `ListWifiSpec`. |
| Netconnect.NetConnect.GetStatus | src/fabscan/util/FSNetConnect.py:66-73 | Equals `StatusSpec`. |
| Netconnect.NetConnect.ConfigureAndSelectWifi | src/fabscan/util/FSNetConnect.py:75-88 | Equals `ConfigureSpec`. |
| Netconnect.NetConnect.Command | src/fabscan/util/FSNetConnect.py:90-112 | Equals `CommandSpec` for its verb and prefix. |
| Netconnect.NetConnect.ForgetWifi | src/fabscan/util/FSNetConnect.py:90-94 | Sends `forget_wifi` with `{}`. |
| Netconnect.NetConnect.Reset | src/fabscan/util/FSNetConnect.py:96-100 | Sends `reset` with `{}`. |
| Netconnect.NetConnect.StartAp | src/fabscan/util/FSNetConnect.py:102-106 | Sends `start_ap` with `{}`. |
| Netconnect.NetConnect.StopAp | src/fabscan/util/FSNetConnect.py:108-112 | Sends `stop_ap` with `{}`. |
| Netconnect.NetConnect.Invoke | src/fabscan/util/FSNetConnect.py:19-34 | Looks the handler up in the dispatch map and calls it with `data`. |
| Netconnect.NetConnect.CallCommand | src/fabscan/util/FSNetConnect.py:32-47 | Equals `DispatchSpec`: published, returned message, or escaping `UnicodeEncodeError`. |
| Server.Apply | src/fabscan/server/__init__.py:40-61 | (1) A command only switches flags on. (2) `exit` ends up set exactly when it was already set or the command is one of the four ending commands. (3) Every other command leaves the flags unchanged. |
| Server.OwnFlag | src/fabscan/server/__init__.py:43-57 | Each ending command sets `exit` and its own flag, and no other. |
| Server.FlagsMonotone | src/fabscan/server/__init__.py:32-57 | No sequence of commands clears a flag. |
| Server.ExitOnlyByEndingCommand | src/fabscan/server/__init__.py:43-111 | The loop ends exactly when `exit` was already set or some command was an ending one. |
| Server.PostLoopOrder | src/fabscan/server/__init__.py:118-139 | The actions run in the fixed order upgrade, restart, reboot, shutdown. Each runs exactly when its flag is set; restart also runs after an upgrade. The process exits last. |
| Server.UpgradeThenRestart | src/fabscan/server/__init__.py:118-125 | An upgrade is immediately followed by a restart. |
| Server.UpgradeOnBothSides | src/fabscan/server/__init__.py:43-121 | `UPGRADE_SERVER` always upgrades the server. The scanner enters `UPGRADING` only when its upgrade flag is set. |
| Server.Server.constructor | src/fabscan/server/__init__.py:32-37 | All five flags start false. The netconnectd client is fresh. |
| Server.Server.OnServerCommand | src/fabscan/server/__init__.py:40-61 | The flags become `Apply` of the old flags. `NETCONNECT` is relayed once, with `data=None` and the client. Other commands leave the netconnectd client alone. It raises exactly when a relayed command's exception escapes the dispatcher. |
| Server.Server.AfterLoop | src/fabscan/server/__init__.py:111-139 | Runs only once `exit` is set. It appends exactly `PostLoopActions` of the flags, and sets `restart` after an upgrade. |

## Left out

- Threads, the `run` polling loops and `time.sleep`. Each `on_command`, `on_client_connected` and `on_server_command` is one atomic step.
- The scan-processor worker. `tell` appends to an outbox. `ask` appends, and whether it raises is an input. The model keeps the messages and not their dict layout.
- `FSMeshlabTask`. Only a record of the started task is kept.
- `upgrade_is_available`, `config.todict` and `settings.todict`. These are foreign calls, so their results are inputs. The hardware info is given as its `str` text.
- Logging. Its only observable effect, the `TypeError` of `+` on a non-text value, is modelled.
- The typo `_update_version` in `FSScanner.__init__`. No code reads that attribute, so it is not modelled.
- Real sockets, `settimeout(10)` and the daemon socket path. A peer is a fixed input with a finite chunk list, and running out of chunks stands for the timeout. A peer that closes and makes `recv` return empty text forever, so that the loop never ends, is not modelled.
- Sockets.Peer: a socket exception's `message` is taken to be ASCII text. Python 2's socket module raises with byte strings, and a byte string with other bytes is not modelled.
- PyValues.Elements: a dict's keys are listed where each first occurs, while Python 2 visits them in hash order. The only loop over them raises on the first key, whichever it is.
- PyValues.TypeName: the `int`/`long` boundary is that of a 64-bit build, 2^63. A 32-bit build switches to `long` at 2^31.
- The `str` or `unicode` type of a text is not tracked. Daemon texts and function names are decoded JSON and so `unicode`. Every other exception message is an ASCII literal, so a character beyond ASCII in a message is exactly the case where `format` raises.
- Sockets.Socket.SendAll: a send that fails delivers nothing, though `sendall` may have sent part of the data before failing.
- JSON numbers with a fraction or exponent, `NaN`/`Infinity`, and lone surrogates are not modelled. The parser rejects them, where `json.loads` would accept some of them.
- The text of a `json.loads` failure is one constant. Python's message names the position.
- Netconnect.UnknownReply: the unknown-response message uses the compact JSON text in place of Python's `repr`, which differs in quoting and dict order.
- Dict key order. A renamed wifi entry and a `{verb: params}` request are built in a fixed order.
- `FSSystem.run_command`, `do_upgrade` and `os._exit`. They are named actions in the post-loop list.
- The injector, the websocket and web servers, `KeyboardInterrupt` and `SystemExit` handling in `FSServer.run`.
- Unknown command strings. The scanner and the server handle them like a command with no branch, so the command type lists only the known commands.
- Python's `is` comparison of state strings. It is ordinary equality on the state type.
