/**
 * The netconnectd client (`FSNetConnect`). Each daemon call opens a fresh
 * Unix socket, sends `{verb: params}` as compact JSON followed by one NUL,
 * reads 16-byte chunks until one ends in NUL, parses the stripped reply and
 * classifies it as a result, an error or an unknown answer. Every exception
 * on the way becomes a failure, and the socket is closed on every path. The
 * handlers behind `call_netconnectd_command` wrap single calls, rename the
 * fields of the wifi list, and chain `config_wifi` with `start_wifi`.
 *
 * The daemon is an input: `daemon(k)` is how it behaves on the k-th
 * connection. A `Session` is everything the client has done so far: the
 * connections it opened, what each carried, and the client messages it
 * published.
 */
module Netconnect {
  import opened Wrappers
  import opened Utf8
  import opened Json
  import opened PyValues
  import opened Sockets
  import opened Events

  // ---------------------------------------------------------------- framing

  /** The request object `{verb: params}`. */
  function Request(verb: string, params: Json): Json
  {
    Object([Member(verb, params)])
  }

  /** The bytes `sendall` is given: the compact JSON text of the request, then one NUL. */
  function Frame(verb: string, params: Json): seq<byte>
  {
    Encode(Serialize(Request(verb, params))) + [Nul]
  }

  predicate NoNul(bs: seq<byte>)
  {
    forall i | 0 <= i < |bs| :: bs[i] != Nul
  }

  /** Python 2's `isspace` on one byte: space, `\t`, `\n`, `\v`, `\f`, `\r`. */
  predicate IsSpace(b: byte)
  {
    b == 32 || 9 <= b <= 13
  }

  /** The encoded text of a value: no NUL, no blank at either end, and it decodes back. */
  lemma SerializedBytes(v: Json)
    ensures var e := Encode(Serialize(v));
      e != [] && NoNul(e) && !IsSpace(e[0]) && !IsSpace(e[|e| - 1]) && Loads(e) == Some(v)
  {
    var t := Serialize(v);
    SerializedPrintable(v);
    SerializedEnds(v);
    EncodeAscii(t);
    LoadsRoundTrip(v);
  }

  /** The frame ends in its only NUL, and what precedes the NUL is the request's JSON. */
  lemma FrameShape(verb: string, params: Json)
    ensures var f := Frame(verb, params);
      |f| > 1 && f[|f| - 1] == Nul && NoNul(f[..|f| - 1]) &&
      Loads(f[..|f| - 1]) == Some(Request(verb, params))
  {
    var e := Encode(Serialize(Request(verb, params)));
    SerializedBytes(Request(verb, params));
    assert Frame(verb, params)[..|Frame(verb, params)| - 1] == e;
  }

  // ---------------------------------------------------------------- reassembly

  predicate EndsInNul(c: seq<byte>)
  {
    c != [] && c[|c| - 1] == Nul
  }

  /**
   * The chunks the read loop keeps: the non-empty ones, up to and including
   * the first that ends in NUL. None when the data runs out first, which is
   * the read timing out.
   */
  function Collect(chunks: seq<Chunk>): (r: Option<seq<Chunk>>)
    ensures r.Some? ==> r.value != [] && EndsInNul(r.value[|r.value| - 1])
    ensures r.Some? ==> forall i | 0 <= i < |r.value| :: r.value[i] != []
    ensures r.Some? ==> forall i | 0 <= i < |r.value| - 1 :: !EndsInNul(r.value[i])
  {
    if chunks == [] then None
    else if chunks[0] == [] then Collect(chunks[1..])
    else if EndsInNul(chunks[0]) then Some([chunks[0]])
    else
      match Collect(chunks[1..])
      case None => None
      case Some(more) => Some([chunks[0]] + more)
  }

  /** `''.join(buffer)`. */
  function Join(chunks: seq<Chunk>): seq<byte>
  {
    if chunks == [] then [] else chunks[0] + Join(chunks[1..])
  }

  function Prepend(buffer: seq<Chunk>, tail: Option<seq<Chunk>>): Option<seq<Chunk>>
  {
    match tail
    case None => None
    case Some(more) => Some(buffer + more)
  }

  /** `s.lstrip()` on bytes. */
  function LStrip(bs: seq<byte>): (r: seq<byte>)
    ensures |r| <= |bs| && r == bs[|bs| - |r|..]
    ensures r == [] || !IsSpace(r[0])
    ensures forall i | 0 <= i < |bs| - |r| :: IsSpace(bs[i])
  {
    if bs != [] && IsSpace(bs[0]) then LStrip(bs[1..]) else bs
  }

  /** `s.rstrip()` on bytes. */
  function RStrip(bs: seq<byte>): (r: seq<byte>)
    ensures |r| <= |bs| && r == bs[..|r|]
    ensures r == [] || !IsSpace(r[|r| - 1])
    ensures forall i | |r| <= i < |bs| :: IsSpace(bs[i])
  {
    if bs != [] && IsSpace(bs[|bs| - 1]) then RStrip(bs[..|bs| - 1]) else bs
  }

  /** `s.strip()` on bytes. */
  function Strip(bs: seq<byte>): seq<byte>
  {
    RStrip(LStrip(bs))
  }

  /** `s[:-1]`: everything but the last byte (nothing of an empty string). */
  function DropLast(bs: seq<byte>): seq<byte>
  {
    if bs == [] then [] else bs[..|bs| - 1]
  }

  /** The text handed to `json.loads`: strip, drop the last byte, strip again. */
  function Payload(raw: seq<byte>): seq<byte>
  {
    Strip(DropLast(Strip(raw)))
  }

  /** `Collect` finds nothing exactly when no chunk ends in NUL. */
  lemma {:induction false} CollectNone(chunks: seq<Chunk>)
    ensures Collect(chunks).None? <==> forall i | 0 <= i < |chunks| :: !EndsInNul(chunks[i])
  {
    if chunks != [] {
      CollectNone(chunks[1..]);
      if !EndsInNul(chunks[0]) {
        assert forall i | 1 <= i < |chunks| :: chunks[i] == chunks[1..][i - 1];
      }
    }
  }

  /** The chunks that are not empty, in order (the loop's `if chunk:`). */
  function NonEmpty(chunks: seq<Chunk>): seq<Chunk>
  {
    if chunks == [] then [] else (if chunks[0] == [] then [] else [chunks[0]]) + NonEmpty(chunks[1..])
  }

  /** The loop keeps the non-empty chunks up to the first that ends in NUL. */
  lemma {:induction false} CollectFirstNul(chunks: seq<Chunk>, k: nat)
    requires k < |chunks| && EndsInNul(chunks[k])
    requires forall i | 0 <= i < k :: !EndsInNul(chunks[i])
    ensures Collect(chunks) == Some(NonEmpty(chunks[..k + 1]))
  {
    var upTo := chunks[..k + 1];
    assert upTo[0] == chunks[0];
    if k == 0 {
      assert upTo[1..] == [];
      assert NonEmpty(upTo) == [chunks[0]] + NonEmpty([]);
      assert [chunks[0]] + [] == [chunks[0]];
    } else {
      assert !EndsInNul(chunks[0]);
      assert forall i | 0 <= i < k - 1 :: chunks[1..][i] == chunks[i + 1];
      assert upTo[1..] == chunks[1..][..k];
      CollectFirstNul(chunks[1..], k - 1);
      var rest := NonEmpty(upTo[1..]);
      assert NonEmpty(upTo) == (if chunks[0] == [] then [] else [chunks[0]]) + rest;
      if chunks[0] == [] {
        assert [] + rest == rest;
      }
    }
  }

  /** Nothing after the chunk that ends in NUL is read. */
  lemma {:induction false} CollectIgnoresTail(a: seq<Chunk>, b: seq<Chunk>)
    requires Collect(a).Some?
    ensures Collect(a + b) == Collect(a)
  {
    assert (a + b)[0] == a[0];
    assert (a + b)[1..] == a[1..] + b;
    if a[0] == [] || !EndsInNul(a[0]) {
      CollectIgnoresTail(a[1..], b);
    }
  }

  lemma JoinCons(c: Chunk, more: seq<Chunk>)
    ensures Join([c] + more) == c + Join(more)
  {
    assert ([c] + more)[1..] == more;
  }

  /**
   * However a NUL-free message followed by its NUL is cut into chunks (empty
   * reads included), the loop keeps exactly the chunks that join to it.
   */
  lemma SplitJoined(c: seq<byte>, j: seq<byte>, w: seq<byte>)
    requires c + j == w
    ensures c == w[..|c|] && j == w[|c|..]
  {
    assert (c + j)[..|c|] == c;
    assert (c + j)[|c|..] == j;
  }

  lemma {:induction false} ChunkingInvariance(chunks: seq<Chunk>, m: seq<byte>)
    requires NoNul(m) && Join(chunks) == m + [Nul]
    ensures Collect(chunks).Some? && Join(Collect(chunks).value) == m + [Nul]
  {
    var c := chunks[0];
    var whole := m + [Nul];
    assert Join(chunks) == c + Join(chunks[1..]);
    SplitJoined(c, Join(chunks[1..]), whole);
    if c == [] {
      ChunkingInvariance(chunks[1..], m);
    } else if EndsInNul(c) {
      assert whole[|c| - 1] == Nul;
      assert |c| - 1 == |m|;
      assert c == whole;
      assert Collect(chunks) == Some([c]);
      JoinCons(c, []);
    } else {
      var m' := m[|c|..];
      assert whole[..|c|] == m[..|c|];
      assert whole[|c|..] == m' + [Nul];
      ChunkingInvariance(chunks[1..], m');
      var more := Collect(chunks[1..]).value;
      assert Collect(chunks) == Some([c] + more);
      JoinCons(c, more);
      assert m[..|c|] + m' == m;
    }
  }

  lemma {:induction false} LStripAppend(m: seq<byte>, tail: seq<byte>)
    requires tail != [] && !IsSpace(tail[0])
    ensures LStrip(m + tail) == LStrip(m) + tail
  {
    if m != [] {
      assert (m + tail)[0] == m[0];
      if IsSpace(m[0]) {
        assert (m + tail)[1..] == m[1..] + tail;
        LStripAppend(m[1..], tail);
      }
    }
  }

  /** The reply text with its NUL: the parser sees the stripped text. */
  lemma PayloadOfMessage(m: seq<byte>)
    ensures Payload(m + [Nul]) == Strip(m)
  {
    LStripAppend(m, [Nul]);
    var l := LStrip(m);
    assert RStrip(l + [Nul]) == l + [Nul];
    assert DropLast(l + [Nul]) == l;
    assert LStrip(l) == l;
  }

  lemma StripClean(m: seq<byte>)
    requires m != [] && !IsSpace(m[0]) && !IsSpace(m[|m| - 1])
    ensures Strip(m) == m
  {
  }

  // ---------------------------------------------------------------- classification

  /** `(True, result)` or `(False, message)`. */
  datatype Reply = Success(result: Json) | Failure(message: string)

  const TalkPrefix := "Error while talking to netconnectd: "
  const UnknownPrefix := "Unknown response from netconnectd: "
  /** The message of the `ValueError` that `json.loads` raises on a malformed reply. */
  const DecodeErrorMessage := "No JSON object could be decoded"

  /**
   * The classification of a decoded reply, including the exceptions its
   * tests raise on a reply that is not an object: `"result" in` first,
   * then `"error" in`, and the concatenation that logs a daemon error.
   */
  function Classify(response: Json): (r: Reply)
    ensures r.Success? <==> response.Object? && Get(response.members, "result").Some?
    ensures r.Success? ==> r.result == Get(response.members, "result").value
  {
    match Contains(response, "result")
    case Raised(e) => Failure(TalkPrefix + e)
    case Ok(true) =>
      (match Index(response, "result")
       case Ok(result) => Success(result)
       case Raised(e) => Failure(TalkPrefix + e))
    case Ok(false) =>
      match Contains(response, "error")
      case Raised(e) => Failure(TalkPrefix + e)
      case Ok(true) =>
        (match Index(response, "error")
         case Raised(e) => Failure(TalkPrefix + e)
         case Ok(error) =>
           match Concat("Request to netconnectd went wrong: ", error)
           case Raised(e) => Failure(TalkPrefix + e)
           case Ok(_) => Failure(error.str))
      case Ok(false) => Failure(UnknownPrefix + Serialize(response))
  }

  /** A daemon error: an object with a text `"error"` and no `"result"` fails with that text. */
  lemma ErrorReply(members: seq<Member>, e: string)
    requires Get(members, "result").None? && Get(members, "error") == Some(String(e))
    ensures Classify(Object(members)) == Failure(e)
  {
  }

  /** An `"error"` that is not text makes the logging concatenation raise. */
  lemma NonTextErrorReply(members: seq<Member>, e: Json)
    requires Get(members, "result").None? && Get(members, "error") == Some(e) && !e.String?
    ensures Classify(Object(members)) ==
      Failure(TalkPrefix + "cannot concatenate 'str' and '" + TypeName(e) + "' objects")
  {
  }

  /** An object with neither key is an unknown response, quoted in the message. */
  lemma UnknownReply(members: seq<Member>)
    requires Get(members, "result").None? && Get(members, "error").None?
    ensures Classify(Object(members)) == Failure(UnknownPrefix + Serialize(Object(members)))
  {
  }

  /** A reply that is a list: naming either key as an element makes the lookup raise. */
  lemma ListReply(items: seq<Json>)
    ensures Classify(Array(items)) ==
      if String("result") in items || String("error") in items
      then Failure(TalkPrefix + "list indices must be integers, not str")
      else Failure(UnknownPrefix + Serialize(Array(items)))
  {
  }

  /** A scalar reply cannot be searched for a key. */
  lemma ScalarReply(v: Json)
    requires v.Null? || v.Bool? || v.Number?
    ensures Classify(v) == Failure(TalkPrefix + "argument of type '" + TypeName(v) + "' is not iterable")
  {
  }

  // ---------------------------------------------------------------- one round trip

  /** What `_send_netconnect_message(verb, params)` returns when the daemon behaves as `peer`. */
  function ExchangeSpec(peer: Peer, verb: string, params: Json): Reply
  {
    if peer.connectError.Some? then Failure(TalkPrefix + peer.connectError.value)
    else if peer.sendError.Some? then Failure(TalkPrefix + peer.sendError.value)
    else
      match Collect(peer.chunks)
      case None => Failure(TalkPrefix + TimeoutMessage)
      case Some(buffer) =>
        match Loads(Payload(Join(buffer)))
        case None => Failure(TalkPrefix + DecodeErrorMessage)
        case Some(response) => Classify(response)
  }

  /** The bytes the daemon receives on that connection. */
  function Sent(peer: Peer, verb: string, params: Json): seq<byte>
  {
    if peer.connectError.None? && peer.sendError.None? then Frame(verb, params) else []
  }

  /** A reply sent as one NUL-terminated message: only the message decides the outcome, not its chunking. */
  lemma ExchangeOfMessage(peer: Peer, verb: string, params: Json, m: seq<byte>)
    requires peer.connectError.None? && peer.sendError.None?
    requires NoNul(m) && Join(peer.chunks) == m + [Nul]
    ensures ExchangeSpec(peer, verb, params) ==
      match Loads(Strip(m))
      case None => Failure(TalkPrefix + DecodeErrorMessage)
      case Some(response) => Classify(response)
  {
    ChunkingInvariance(peer.chunks, m);
    PayloadOfMessage(m);
  }

  /** Two deliveries of the same message, cut differently, give the same reply. */
  lemma SameMessageSameReply(p: Peer, q: Peer, verb: string, params: Json, m: seq<byte>)
    requires p.connectError.None? && p.sendError.None? && q.connectError.None? && q.sendError.None?
    requires NoNul(m) && Join(p.chunks) == m + [Nul] && Join(q.chunks) == m + [Nul]
    ensures ExchangeSpec(p, verb, params) == ExchangeSpec(q, verb, params)
  {
    ExchangeOfMessage(p, verb, params, m);
    ExchangeOfMessage(q, verb, params, m);
  }

  /** A daemon that answers with `json.dumps(v)` and a NUL gets `v` classified, in whatever chunks. */
  lemma ExchangeOfSerialized(peer: Peer, verb: string, params: Json, v: Json)
    requires peer.connectError.None? && peer.sendError.None?
    requires Join(peer.chunks) == Encode(Serialize(v)) + [Nul]
    ensures ExchangeSpec(peer, verb, params) == Classify(v)
  {
    var m := Encode(Serialize(v));
    SerializedBytes(v);
    StripClean(m);
    ExchangeOfMessage(peer, verb, params, m);
  }

  /** A read that never sees a NUL-terminated chunk times out. */
  lemma ExchangeTimesOut(peer: Peer, verb: string, params: Json)
    requires peer.connectError.None? && peer.sendError.None?
    requires forall i | 0 <= i < |peer.chunks| :: !EndsInNul(peer.chunks[i])
    ensures ExchangeSpec(peer, verb, params) == Failure(TalkPrefix + TimeoutMessage)
  {
    CollectNone(peer.chunks);
  }

  /** A failed connect or send is reported with its own message, and nothing counts as sent. */
  lemma ExchangeFailures(peer: Peer, verb: string, params: Json)
    ensures peer.connectError.Some? ==>
      ExchangeSpec(peer, verb, params) == Failure(TalkPrefix + peer.connectError.value) && Sent(peer, verb, params) == []
    ensures peer.connectError.None? && peer.sendError.Some? ==>
      ExchangeSpec(peer, verb, params) == Failure(TalkPrefix + peer.sendError.value) && Sent(peer, verb, params) == []
    ensures peer.connectError.None? && peer.sendError.None? ==> Sent(peer, verb, params) == Frame(verb, params)
  {
  }

  // ---------------------------------------------------------------- sessions

  /** One connection: the request it was for, the bytes actually sent, and how often its socket was closed. */
  datatype Call = Call(verb: string, params: Json, sent: seq<byte>, closes: nat)

  /** An `ON_NET_CONNECT` client message `{client, response, command}`. */
  datatype NetMessage = NetMessage(client: Client, response: Json, command: string)

  datatype Session = Session(connections: nat, calls: seq<Call>, published: seq<NetMessage>)

  /** One `_send_netconnect_message`: the next connection, its reply, and its record. */
  function ExchangeStep(daemon: nat -> Peer, s: Session, verb: string, params: Json): (Reply, Session)
  {
    var peer := daemon(s.connections);
    (ExchangeSpec(peer, verb, params),
     Session(s.connections + 1, s.calls + [Call(verb, params, Sent(peer, verb, params), 1)], s.published))
  }

  const ListPrefix := "Error while listing wifi: "
  const StatusPrefix := "Error while querying status: "
  const ConfigurePrefix := "Error while configuring wifi: "
  const SelectPrefix := "Error while selecting wifi: "
  const ForgetPrefix := "Error while forgetting wifi: "
  const ResetPrefix := "Error while factory resetting netconnectd: "
  const StartApPrefix := "Error while starting ap: "
  const StopApPrefix := "Error while stopping ap: "
  const DispatchPrefix := "Error while calling netconnectd function: "

  /** The `list_wifi` parameters: `{"force": true}` when `force` is truthy, `{}` otherwise. */
  function ForcePayload(force: Json): (p: Json)
    ensures p.Object? && (p.members != [] <==> Truthy(force))
    ensures Truthy(force) ==> Get(p.members, "force") == Some(Bool(true))
  {
    if Truthy(force) then Object([Member("force", Bool(true))]) else Object([])
  }

  /** `dict(ssid=w["ssid"], address=w["address"], quality=w["signal"], encrypted=w["encrypted"])`. */
  function RenameEntry(wifi: Json): Outcome<Json>
  {
    match Index(wifi, "ssid")
    case Raised(e) => Raised(e)
    case Ok(ssid) =>
      match Index(wifi, "address")
      case Raised(e) => Raised(e)
      case Ok(address) =>
        match Index(wifi, "signal")
        case Raised(e) => Raised(e)
        case Ok(signal) =>
          match Index(wifi, "encrypted")
          case Raised(e) => Raised(e)
          case Ok(encrypted) =>
            Ok(Object([Member("ssid", ssid), Member("address", address),
                       Member("quality", signal), Member("encrypted", encrypted)]))
  }

  /** An entry is renamed exactly when it is a dict holding the four keys; the values move unchanged. */
  lemma RenameEntryFields(wifi: Json)
    ensures RenameEntry(wifi).Ok? <==>
      wifi.Object? && Get(wifi.members, "ssid").Some? && Get(wifi.members, "address").Some? &&
      Get(wifi.members, "signal").Some? && Get(wifi.members, "encrypted").Some?
    ensures RenameEntry(wifi).Ok? ==> RenameEntry(wifi).value == Object([
      Member("ssid", Get(wifi.members, "ssid").value),
      Member("address", Get(wifi.members, "address").value),
      Member("quality", Get(wifi.members, "signal").value),
      Member("encrypted", Get(wifi.members, "encrypted").value)])
  {
  }

  /**
   * `f` applied to each entry in order, the first exception ending the loop;
   * the wifi list's loop is `MapAll(RenameEntry, entries)`.
   */
  function MapAll(f: Json -> Outcome<Json>, entries: seq<Json>): (r: Outcome<seq<Json>>)
    ensures r.Ok? ==> |r.value| == |entries|
  {
    if entries == [] then Ok([])
    else
      var done := MapAll(f, entries[..|entries| - 1]);
      var entry := f(entries[|entries| - 1]);
      if done.Raised? then done
      else if entry.Raised? then Raised(entry.message)
      else Ok(done.value + [entry.value])
  }

  /** Each result is `f` of the entry at the same position. */
  lemma {:induction false} MapAllEntries(f: Json -> Outcome<Json>, entries: seq<Json>)
    requires MapAll(f, entries).Ok?
    ensures forall i | 0 <= i < |entries| :: f(entries[i]) == Ok(MapAll(f, entries).value[i])
  {
    if entries != [] {
      var front := entries[..|entries| - 1];
      MapAllEntries(f, front);
      forall i | 0 <= i < |front|
        ensures f(entries[i]) == Ok(MapAll(f, entries).value[i])
      {
        assert entries[i] == front[i];
      }
    }
  }

  /** The list `_get_wifi_list` builds from the daemon's result. */
  function Renamed(content: Json): Outcome<Json>
  {
    match Elements(content)
    case Raised(e) => Raised(e)
    case Ok(entries) =>
      match MapAll(RenameEntry, entries)
      case Raised(e) => Raised(e)
      case Ok(renamed) => Ok(Array(renamed))
  }

  function ListWifiSpec(daemon: nat -> Peer, s: Session, force: Json): (Outcome<Json>, Session)
  {
    var (reply, s') := ExchangeStep(daemon, s, "list_wifi", ForcePayload(force));
    (if reply.Failure? then Raised(ListPrefix + reply.message) else Renamed(reply.result), s')
  }

  function StatusSpec(daemon: nat -> Peer, s: Session): (Outcome<Json>, Session)
  {
    var (reply, s') := ExchangeStep(daemon, s, "status", Object([]));
    (if reply.Failure? then Raised(StatusPrefix + reply.message) else Ok(reply.result), s')
  }

  /** A handler that sends `verb` with no parameters and returns `None` unless the reply failed. */
  function CommandSpec(daemon: nat -> Peer, s: Session, verb: string, prefix: string): (Outcome<Json>, Session)
  {
    var (reply, s') := ExchangeStep(daemon, s, verb, Object([]));
    (if reply.Failure? then Raised(prefix + reply.message) else Ok(Null), s')
  }

  /** `dict(ssid=data['ssid'], psk=data['psk'], force=data['force'])`, evaluated in that order. */
  function WifiConfig(data: Json): Outcome<Json>
  {
    match Index(data, "ssid")
    case Raised(e) => Raised(e)
    case Ok(ssid) =>
      match Index(data, "psk")
      case Raised(e) => Raised(e)
      case Ok(psk) =>
        match Index(data, "force")
        case Raised(e) => Raised(e)
        case Ok(force) => Ok(Object([Member("ssid", ssid), Member("psk", psk), Member("force", force)]))
  }

  function ConfigureSpec(daemon: nat -> Peer, s: Session, data: Json): (Outcome<Json>, Session)
  {
    match WifiConfig(data)
    case Raised(e) => (Raised(e), s)
    case Ok(payload) =>
      var (configured, s1) := ExchangeStep(daemon, s, "config_wifi", payload);
      if configured.Failure? then (Raised(ConfigurePrefix + configured.message), s1)
      else
        var (selected, s2) := ExchangeStep(daemon, s1, "start_wifi", Object([]));
        (if selected.Failure? then Raised(SelectPrefix + selected.message) else Ok(Null), s2)
  }

  /** The `TypeError` of calling a bound method that takes no argument with one. */
  function ArityError(name: string): string
  {
    name + "() takes exactly 1 argument (2 given)"
  }

  lemma ArityErrorAscii(name: string)
    requires IsAscii(name)
    ensures IsAscii(ArityError(name))
  {
    var tail := "() takes exactly 1 argument (2 given)";
    assert IsAscii(tail);
    assert forall i | |name| <= i < |ArityError(name)| :: ArityError(name)[i] == tail[i - |name|];
  }

  /** `self.netconnecd_commands[function](data)`: an unknown name is a `KeyError` whose message is the name. */
  function Handle(daemon: nat -> Peer, s: Session, name: string, data: Json): (Outcome<Json>, Session)
  {
    if name == "GET_WIFI_LIST" then ListWifiSpec(daemon, s, data)
    else if name == "GET_STATUS" then StatusSpec(daemon, s)
    else if name == "FORGET_WIFI" then CommandSpec(daemon, s, "forget_wifi", ForgetPrefix)
    else if name == "CONFIGURE_WIFI" then ConfigureSpec(daemon, s, data)
    else if name == "RESET" then (Raised(ArityError("_reset")), s)
    else if name == "START_AP" then (Raised(ArityError("_start_ap")), s)
    else if name == "STOP_AP" then (Raised(ArityError("_stop_ap")), s)
    else (Raised(name), s)
  }

  /**
   * The `message` of the `UnicodeEncodeError` that Python 2's `str.format`
   * raises when it is given unicode text with a character beyond ASCII: the
   * exception is built from five arguments, so its `message` is empty.
   */
  const UnicodeEncodeMessage := ""

  /**
   * `call_netconnectd_command`: `Ok(None)` after publishing the handler's
   * output, `Ok(Some(message))` for its `(False, message)` on an exception.
   * A handler's exception message holds a character beyond ASCII only when
   * it carries unicode (a daemon text or the function name, both decoded
   * JSON); formatting it into the byte-string template then raises inside
   * the `except` clause, and that exception leaves the dispatcher.
   */
  function DispatchSpec(daemon: nat -> Peer, s: Session, name: string, data: Json, client: Client): (Outcome<Option<string>>, Session)
  {
    var (output, s') := Handle(daemon, s, name, data);
    match output
    case Raised(e) => (if IsAscii(e) then Ok(Some(DispatchPrefix + e)) else Raised(UnicodeEncodeMessage), s')
    case Ok(v) => (Ok(None), s'.(published := s'.published + [NetMessage(client, v, name)]))
  }

  // ---------------------------------------------------------------- properties of the handlers

  /**
   * `_get_status` and the no-argument wrappers make one call, with their verb
   * and `{}`; a failed reply raises with the wrapper's prefix.
   */
  lemma WrapperCalls(daemon: nat -> Peer, s: Session, verb: string, prefix: string)
    ensures var (r, s') := CommandSpec(daemon, s, verb, prefix);
      var reply := ExchangeSpec(daemon(s.connections), verb, Object([]));
      s' == Session(s.connections + 1, s.calls + [Call(verb, Object([]), Sent(daemon(s.connections), verb, Object([])), 1)], s.published) &&
      (r.Raised? <==> reply.Failure?) && (reply.Failure? ==> r.message == prefix + reply.message) &&
      (reply.Success? ==> r == Ok(Null))
    ensures var (r, s') := StatusSpec(daemon, s);
      var reply := ExchangeSpec(daemon(s.connections), "status", Object([]));
      s' == Session(s.connections + 1, s.calls + [Call("status", Object([]), Sent(daemon(s.connections), "status", Object([])), 1)], s.published) &&
      (r.Raised? <==> reply.Failure?) && (reply.Failure? ==> r.message == StatusPrefix + reply.message) &&
      (reply.Success? ==> r == Ok(reply.result))
  {
  }

  /** Entries that are all text cannot be renamed, unless there are none. */
  lemma TextEntries(entries: seq<Json>)
    requires forall x | x in entries :: x.String?
    ensures entries == [] || MapAll(RenameEntry, entries).Raised?
  {
    if entries != [] {
      assert entries[|entries| - 1] in entries;
      RenameEntryFields(entries[|entries| - 1]);
    }
  }

  /** A successful wifi list keeps the daemon's length and order and renames each entry's `signal` to `quality`. */
  lemma WifiListShape(content: Json, out: Json)
    requires Renamed(content) == Ok(out)
    ensures content.Array? || content == Object([]) || content == String([])
    ensures out.Array? && |out.items| == (if content.Array? then |content.items| else 0)
    ensures content.Array? ==> forall i | 0 <= i < |content.items| :: RenameEntry(content.items[i]) == Ok(out.items[i])
  {
    if !content.Array? {
      TextEntries(Elements(content).value);
    } else {
      MapAllEntries(RenameEntry, content.items);
    }
  }

  /** A wifi entry with the keys the daemon sends, the signal under `signalKey`. */
  function Home(signalKey: string): Json
  {
    Object([Member("ssid", String("home")), Member("address", String("AA:BB")),
            Member(signalKey, Number(70)), Member("encrypted", Bool(true))])
  }

  /** `_get_wifi_list` on a daemon that answers `json.dumps(v)`. */
  lemma ListWifiOfReply(daemon: nat -> Peer, s: Session, force: Json, v: Json)
    requires daemon(s.connections).connectError.None? && daemon(s.connections).sendError.None?
    requires Join(daemon(s.connections).chunks) == Encode(Serialize(v)) + [Nul]
    ensures ListWifiSpec(daemon, s, force).0 ==
      match Classify(v)
      case Failure(m) => Raised(ListPrefix + m)
      case Success(content) => Renamed(content)
  {
    ExchangeOfSerialized(daemon(s.connections), "list_wifi", ForcePayload(force), v);
  }

  /** The daemon reply `{"result": [home]}`. */
  function HomeReply(): Json
  {
    Object([Member("result", Array([Home("signal")]))])
  }

  lemma ClassifyHomeReply()
    ensures Classify(HomeReply()) == Success(Array([Home("signal")]))
  {
  }

  lemma RenameHomeEntry()
    ensures RenameEntry(Home("signal")) == Ok(Home("quality"))
  {
    var ms := Home("signal").members;
    assert ms[..3] == ms[..3][..3];
    assert ms[..3][..2] == ms[..2];
    assert ms[..2][..1] == ms[..1] == [Member("ssid", String("home"))];
    assert Get(ms, "encrypted") == Some(Bool(true));
    assert Get(ms, "signal") == Some(Number(70));
    assert Get(ms, "address") == Some(String("AA:BB"));
    assert Get(ms[..1], "ssid") == Some(String("home"));
    assert Get(ms[..2], "ssid") == Get(ms[..1], "ssid");
    assert Get(ms[..3], "ssid") == Get(ms[..2], "ssid");
    assert Get(ms, "ssid") == Some(String("home"));
  }

  lemma RenameHome()
    ensures Renamed(Array([Home("signal")])) == Ok(Array([Home("quality")]))
  {
    RenameHomeEntry();
    assert [Home("signal")][..0] == [];
    assert [] + [Home("quality")] == [Home("quality")];
    assert MapAll(RenameEntry, [Home("signal")]) == Ok([Home("quality")]);
  }

  /** The daemon reply `{"result":[{"ssid":"home","address":"AA:BB","signal":70,"encrypted":true}]}` becomes the renamed list. */
  lemma WifiListExample(daemon: nat -> Peer, s: Session)
    requires daemon(s.connections).connectError.None? && daemon(s.connections).sendError.None?
    requires Join(daemon(s.connections).chunks) == Encode(Serialize(HomeReply())) + [Nul]
    ensures ListWifiSpec(daemon, s, Null).0 == Ok(Array([Home("quality")]))
  {
    ListWifiOfReply(daemon, s, Null, HomeReply());
    ClassifyHomeReply();
    RenameHome();
  }

  /**
   * `s'` is `s` with further connections recorded, one per call, each
   * closed once, and the same published messages.
   */
  predicate Extends(s: Session, s': Session)
  {
    |s.calls| <= |s'.calls| && s'.calls[..|s.calls|] == s.calls &&
    s'.connections == s.connections + (|s'.calls| - |s.calls|) &&
    (forall i | |s.calls| <= i < |s'.calls| :: s'.calls[i].closes == 1) &&
    s'.published == s.published
  }

  lemma ExtendsTrans(s1: Session, s2: Session, s3: Session)
    requires Extends(s1, s2) && Extends(s2, s3)
    ensures Extends(s1, s3)
  {
    assert s3.calls[..|s1.calls|] == s3.calls[..|s2.calls|][..|s1.calls|];
  }

  lemma ExchangeExtends(daemon: nat -> Peer, s: Session, verb: string, params: Json)
    ensures var s' := ExchangeStep(daemon, s, verb, params).1;
      Extends(s, s') && |s'.calls| == |s.calls| + 1 && s'.calls[|s.calls|].verb == verb &&
      s'.calls[|s.calls|].params == params
  {
  }

  /** `config_wifi` failing: one connection, no `start_wifi`, the prefixed message. */
  lemma ConfigureFailsOnce(daemon: nat -> Peer, s: Session, data: Json)
    requires WifiConfig(data).Ok?
    requires ExchangeSpec(daemon(s.connections), "config_wifi", WifiConfig(data).value).Failure?
    ensures var (r, s') := ConfigureSpec(daemon, s, data);
      s'.connections == s.connections + 1 && |s'.calls| == |s.calls| + 1 &&
      s'.calls[|s.calls|].verb == "config_wifi" &&
      r == Raised(ConfigurePrefix + ExchangeSpec(daemon(s.connections), "config_wifi", WifiConfig(data).value).message)
  {
  }

  /** `start_wifi` is sent exactly when `config_wifi` was sent and succeeded, and nothing else is sent. */
  lemma ConfigureCalls(daemon: nat -> Peer, s: Session, data: Json)
    ensures var s' := ConfigureSpec(daemon, s, data).1;
      Extends(s, s') && |s'.calls| <= |s.calls| + 2 &&
      (|s'.calls| == |s.calls| <==> WifiConfig(data).Raised?) &&
      (|s'.calls| > |s.calls| ==> s'.calls[|s.calls|].verb == "config_wifi") &&
      (|s'.calls| == |s.calls| + 2 <==>
        WifiConfig(data).Ok? && ExchangeSpec(daemon(s.connections), "config_wifi", WifiConfig(data).value).Success?) &&
      (|s'.calls| == |s.calls| + 2 ==> s'.calls[|s.calls| + 1].verb == "start_wifi")
  {
    match WifiConfig(data)
    case Raised(_) =>
    case Ok(payload) =>
      var (configured, s1) := ExchangeStep(daemon, s, "config_wifi", payload);
      ExchangeExtends(daemon, s, "config_wifi", payload);
      if configured.Success? {
        ExchangeExtends(daemon, s1, "start_wifi", Object([]));
        var s2 := ExchangeStep(daemon, s1, "start_wifi", Object([])).1;
        ExtendsTrans(s, s1, s2);
        assert s2.calls[|s.calls|] == s1.calls[|s.calls|];
        assert ConfigureSpec(daemon, s, data).1 == s2;
      } else {
        assert ConfigureSpec(daemon, s, data).1 == s1;
      }
  }

  /** Without the wifi keys (`data` is `None` when the server relays the command), nothing is sent. */
  lemma ConfigureWithoutData(daemon: nat -> Peer, s: Session, data: Json)
    requires !data.Object?
    ensures ConfigureSpec(daemon, s, data).1 == s && ConfigureSpec(daemon, s, data).0.Raised?
  {
  }

  lemma HandleExtends(daemon: nat -> Peer, s: Session, name: string, data: Json)
    ensures Extends(s, Handle(daemon, s, name, data).1)
  {
    if name == "GET_WIFI_LIST" {
      ExchangeExtends(daemon, s, "list_wifi", ForcePayload(data));
    } else if name == "GET_STATUS" {
      ExchangeExtends(daemon, s, "status", Object([]));
    } else if name == "FORGET_WIFI" {
      ExchangeExtends(daemon, s, "forget_wifi", Object([]));
    } else if name == "CONFIGURE_WIFI" {
      ConfigureCalls(daemon, s, data);
    }
  }

  /**
   * Success publishes exactly the handler's output, once; failure publishes
   * nothing and returns the prefixed message, unless the message is beyond
   * ASCII, in which case the formatting exception escapes.
   */
  lemma DispatchPublishes(daemon: nat -> Peer, s: Session, name: string, data: Json, client: Client)
    ensures var (r, s') := DispatchSpec(daemon, s, name, data, client);
      var output := Handle(daemon, s, name, data).0;
      Extends(s, s'.(published := s.published)) &&
      (r == Ok(None) <==> output.Ok?) &&
      (output.Ok? ==> s'.published == s.published + [NetMessage(client, output.value, name)]) &&
      (output.Raised? ==> s'.published == s.published) &&
      (output.Raised? && IsAscii(output.message) ==> r == Ok(Some(DispatchPrefix + output.message))) &&
      (output.Raised? && !IsAscii(output.message) ==> r == Raised(UnicodeEncodeMessage))
  {
    HandleExtends(daemon, s, name, data);
  }

  /** `RESET`, `START_AP` and `STOP_AP` fail on their arity before reaching the daemon. */
  lemma ArityFailures(daemon: nat -> Peer, s: Session, data: Json, client: Client)
    ensures DispatchSpec(daemon, s, "RESET", data, client) == (Ok(Some(DispatchPrefix + ArityError("_reset"))), s)
    ensures DispatchSpec(daemon, s, "START_AP", data, client) == (Ok(Some(DispatchPrefix + ArityError("_start_ap"))), s)
    ensures DispatchSpec(daemon, s, "STOP_AP", data, client) == (Ok(Some(DispatchPrefix + ArityError("_stop_ap"))), s)
  {
    ArityErrorAscii("_reset");
    ArityErrorAscii("_start_ap");
    ArityErrorAscii("_stop_ap");
  }

  /**
   * An unknown function name is a `KeyError` on the map: nothing is sent or
   * published, and a name beyond ASCII makes the formatting raise.
   */
  lemma UnknownFunction(daemon: nat -> Peer, s: Session, name: string, data: Json, client: Client)
    requires name !in {"GET_WIFI_LIST", "GET_STATUS", "FORGET_WIFI", "CONFIGURE_WIFI", "RESET", "START_AP", "STOP_AP"}
    ensures DispatchSpec(daemon, s, name, data, client) ==
      (if IsAscii(name) then Ok(Some(DispatchPrefix + name)) else Raised(UnicodeEncodeMessage), s)
  {
  }

  /**
   * A daemon that answers `status` with `{"error": e}`, `e` beyond ASCII,
   * makes `GET_STATUS` raise out of the dispatcher after the call was made.
   */
  lemma DaemonErrorEscapes(daemon: nat -> Peer, s: Session, data: Json, client: Client, e: string)
    requires daemon(s.connections).connectError.None? && daemon(s.connections).sendError.None?
    requires Join(daemon(s.connections).chunks) == Encode(Serialize(Object([Member("error", String(e))]))) + [Nul]
    requires !IsAscii(e)
    ensures DispatchSpec(daemon, s, "GET_STATUS", data, client) == (Raised(UnicodeEncodeMessage), StatusSpec(daemon, s).1)
    ensures StatusSpec(daemon, s).1.published == s.published
    ensures StatusSpec(daemon, s).1.calls == s.calls + [Call("status", Object([]), Frame("status", Object([])), 1)]
  {
    var peer := daemon(s.connections);
    ExchangeOfSerialized(peer, "status", Object([]), Object([Member("error", String(e))]));
    ErrorReply([Member("error", String(e))], e);
    WrapperCalls(daemon, s, "status", StatusPrefix);
    var k :| 0 <= k < |e| && e[k] as int >= 0x80;
    assert (StatusPrefix + e)[|StatusPrefix| + k] == e[k];
  }

  // ---------------------------------------------------------------- the client

  lemma PrependNothing(tail: Option<seq<Chunk>>)
    ensures Prepend([], tail) == tail
  {
    if tail.Some? {
      assert [] + tail.value == tail.value;
    }
  }

  /** One read of the loop: what is left to collect after the first pending chunk. */
  lemma CollectStep(buffer: seq<Chunk>, pending: seq<Chunk>)
    requires pending != []
    ensures pending[0] == [] ==> Prepend(buffer, Collect(pending)) == Prepend(buffer, Collect(pending[1..]))
    ensures pending[0] != [] && EndsInNul(pending[0]) ==> Prepend(buffer, Collect(pending)) == Some(buffer + [pending[0]])
    ensures pending[0] != [] && !EndsInNul(pending[0]) ==>
      Prepend(buffer, Collect(pending)) == Prepend(buffer + [pending[0]], Collect(pending[1..]))
  {
    if pending[0] != [] && !EndsInNul(pending[0]) {
      match Collect(pending[1..])
      case None =>
      case Some(more) =>
        assert buffer + ([pending[0]] + more) == (buffer + [pending[0]]) + more;
    }
  }

  /** The `try` block of `_send_netconnect_message`, on a socket not yet connected. */
  method Converse(sock: Socket, verb: string, params: Json) returns (reply: Reply)
    requires !sock.connected && sock.sent == [] && sock.pending == sock.peer.chunks
    modifies sock
    ensures reply == ExchangeSpec(sock.peer, verb, params)
    ensures sock.sent == Sent(sock.peer, verb, params) && sock.closes == old(sock.closes)
  {
    var err := sock.Connect();
    if err.Some? {
      return Failure(TalkPrefix + err.value);
    }
    err := sock.SendAll(Frame(verb, params));
    if err.Some? {
      return Failure(TalkPrefix + err.value);
    }
    var buffer: seq<Chunk> := [];
    PrependNothing(Collect(sock.pending));
    while true
      invariant sock.connected && sock.sent == Frame(verb, params) && sock.closes == old(sock.closes)
      invariant Collect(sock.peer.chunks) == Prepend(buffer, Collect(sock.pending))
      decreases |sock.pending|
    {
      if sock.pending != [] {
        CollectStep(buffer, sock.pending);
      }
      var received := sock.Recv();
      if received.TimedOut? {
        return Failure(TalkPrefix + TimeoutMessage);
      }
      var chunk := received.chunk;
      if chunk != [] {
        buffer := buffer + [chunk];
        if EndsInNul(chunk) {
          assert Collect(sock.peer.chunks) == Some(buffer);
          break;
        }
      }
    }
    var data := DropLast(Strip(Join(buffer)));
    var response := Loads(Strip(data));
    if response.None? {
      return Failure(TalkPrefix + DecodeErrorMessage);
    }
    reply := Classify(response.value);
  }

  /** The list loop of `_get_wifi_list`. */
  method RenameWifiList(content: Json) returns (r: Outcome<Json>)
    ensures r == Renamed(content)
  {
    var entries := Elements(content);
    if entries.Raised? {
      return Raised(entries.message);
    }
    var renamed := RenameEach(entries.value);
    if renamed.Raised? {
      return Raised(renamed.message);
    }
    r := Ok(Array(renamed.value));
  }

  /** `result.append(dict(...))` for each entry in turn. */
  method RenameEach(wifis: seq<Json>) returns (r: Outcome<seq<Json>>)
    ensures r == MapAll(RenameEntry, wifis)
  {
    var result: seq<Json> := [];
    for i := 0 to |wifis|
      invariant MapAll(RenameEntry, wifis[..i]) == Ok(result)
    {
      assert wifis[..i + 1][..i] == wifis[..i];
      var entry := RenameEntry(wifis[i]);
      if entry.Raised? {
        MapAllStops(RenameEntry, wifis, i + 1);
        return Raised(entry.message);
      }
      result := result + [entry.value];
    }
    assert wifis[..|wifis|] == wifis;
    r := Ok(result);
  }

  /** Once a prefix of the entries has raised, the whole loop raises the same. */
  lemma {:induction false} MapAllStops(f: Json -> Outcome<Json>, entries: seq<Json>, k: nat)
    requires k <= |entries| && MapAll(f, entries[..k]).Raised?
    ensures MapAll(f, entries) == MapAll(f, entries[..k])
    decreases |entries| - k
  {
    if k < |entries| {
      var longer := entries[..k + 1];
      assert longer[..k] == entries[..k];
      MapAllStops(f, entries, k + 1);
    } else {
      assert entries[..k] == entries;
    }
  }

  class NetConnect {
    /** How the daemon behaves on each successive connection. */
    const daemon: nat -> Peer
    var connections: nat
    var calls: seq<Call>
    var published: seq<NetMessage>

    function State(): Session
      reads this
    {
      Session(connections, calls, published)
    }

    constructor (daemon: nat -> Peer)
      ensures this.daemon == daemon && State() == Session(0, [], [])
    {
      this.daemon := daemon;
      connections := 0;
      calls := [];
      published := [];
    }

    /** `_send_netconnect_message`: a fresh socket, the round trip, and `close` in the `finally`. */
    method Send(verb: string, params: Json) returns (reply: Reply)
      modifies this
      ensures (reply, State()) == ExchangeStep(daemon, old(State()), verb, params)
    {
      ghost var step := ExchangeStep(daemon, State(), verb, params);
      var sock := new Socket(daemon(connections));
      connections := connections + 1;
      reply := Converse(sock, verb, params);
      sock.Close();
      calls := calls + [Call(verb, params, sock.sent, sock.closes)];
      assert reply == step.0;
      assert State() == step.1;
    }

    method GetWifiList(force: Json) returns (r: Outcome<Json>)
      modifies this
      ensures (r, State()) == ListWifiSpec(daemon, old(State()), force)
    {
      var reply := Send("list_wifi", ForcePayload(force));
      if reply.Failure? {
        return Raised(ListPrefix + reply.message);
      }
      r := RenameWifiList(reply.result);
    }

    method GetStatus() returns (r: Outcome<Json>)
      modifies this
      ensures (r, State()) == StatusSpec(daemon, old(State()))
    {
      var reply := Send("status", Object([]));
      if reply.Failure? {
        return Raised(StatusPrefix + reply.message);
      }
      r := Ok(reply.result);
    }

    method ConfigureAndSelectWifi(data: Json) returns (r: Outcome<Json>)
      modifies this
      ensures (r, State()) == ConfigureSpec(daemon, old(State()), data)
    {
      var payload := WifiConfig(data);
      if payload.Raised? {
        return Raised(payload.message);
      }
      var reply := Send("config_wifi", payload.value);
      if reply.Failure? {
        return Raised(ConfigurePrefix + reply.message);
      }
      reply := Send("start_wifi", Object([]));
      if reply.Failure? {
        return Raised(SelectPrefix + reply.message);
      }
      r := Ok(Null);
    }

    /** The handlers that send one verb with empty parameters and return nothing. */
    method Command(verb: string, prefix: string) returns (r: Outcome<Json>)
      modifies this
      ensures (r, State()) == CommandSpec(daemon, old(State()), verb, prefix)
    {
      var reply := Send(verb, Object([]));
      if reply.Failure? {
        return Raised(prefix + reply.message);
      }
      r := Ok(Null);
    }

    method ForgetWifi() returns (r: Outcome<Json>)
      modifies this
      ensures (r, State()) == CommandSpec(daemon, old(State()), "forget_wifi", ForgetPrefix)
    {
      r := Command("forget_wifi", ForgetPrefix);
    }

    method Reset() returns (r: Outcome<Json>)
      modifies this
      ensures (r, State()) == CommandSpec(daemon, old(State()), "reset", ResetPrefix)
    {
      r := Command("reset", ResetPrefix);
    }

    method StartAp() returns (r: Outcome<Json>)
      modifies this
      ensures (r, State()) == CommandSpec(daemon, old(State()), "start_ap", StartApPrefix)
    {
      r := Command("start_ap", StartApPrefix);
    }

    method StopAp() returns (r: Outcome<Json>)
      modifies this
      ensures (r, State()) == CommandSpec(daemon, old(State()), "stop_ap", StopApPrefix)
    {
      r := Command("stop_ap", StopApPrefix);
    }

    /** `self.netconnecd_commands[name](data)`: the handler's outcome, a `KeyError` for an unknown name. */
    method Invoke(name: string, data: Json) returns (output: Outcome<Json>)
      modifies this
      ensures (output, State()) == Handle(daemon, old(State()), name, data)
    {
      if name == "GET_WIFI_LIST" {
        output := GetWifiList(data);
      } else if name == "GET_STATUS" {
        output := GetStatus();
      } else if name == "FORGET_WIFI" {
        output := ForgetWifi();
      } else if name == "CONFIGURE_WIFI" {
        output := ConfigureAndSelectWifi(data);
      } else if name == "RESET" {
        output := Raised(ArityError("_reset"));
      } else if name == "START_AP" {
        output := Raised(ArityError("_start_ap"));
      } else if name == "STOP_AP" {
        output := Raised(ArityError("_stop_ap"));
      } else {
        output := Raised(name);
      }
    }

    /** `call_netconnectd_command(event, data, client)` with `event.function == name`. */
    method CallCommand(name: string, data: Json, client: Client) returns (r: Outcome<Option<string>>)
      modifies this
      ensures (r, State()) == DispatchSpec(daemon, old(State()), name, data, client)
    {
      var output := Invoke(name, data);
      if output.Raised? {
        if IsAscii(output.message) {
          return Ok(Some(DispatchPrefix + output.message));
        }
        return Raised(UnicodeEncodeMessage);
      }
      published := published + [NetMessage(client, output.value, name)];
      r := Ok(None);
    }
  }
}
