/**
 * The broker's state and its event handlers (the `io.on('connection', …)`
 * block of server.js), one pure transition per inbound event.
 *
 * A `State` holds the connection table in insertion order (standing for
 * `io.sockets.sockets`), the per-socket flags and links, the module-level
 * `currentPairingCode` and `currentModel`, and the outbox: every `emit`, in
 * the order the handlers perform them. Randomness and `JSON.stringify` are
 * parameters: `draw` and `encode`.
 */
module Handlers {
  import opened Wrappers
  import Catalog
  import PairingCode

  /** A socket.io socket id; never empty, so a stored id is always truthy. */
  type ConnId = s: string | |s| > 0 witness "0"

  datatype AppInfo = AppInfo(packageName: string, name: string, version: string)

  /** A JSON value other than a string; the broker never looks inside one. */
  type Document

  /** An inbound relay payload: a string, or any other JSON value. */
  datatype Payload = Text(text: string) | Json(doc: Document)

  datatype Event =
    | SimulatorRegistered(pairingCode: string)
    | PairingUpdated(pairingCode: string)
    | SdkConnected(appInfo: AppInfo, sdkId: ConnId)
    | SdkDisconnected
    | SdkMessage(data: string)
    | Message(data: string)
    | Connected(sessionId: ConnId, model: string, capabilities: Catalog.SdkCaps)
    | Error(code: string, message: string)

  /** One `socket.emit`: the receiving connection and the event. */
  datatype Emit = Emit(to: ConnId, event: Event)

  /** The fields the handlers set on a socket object. */
  datatype Conn = Conn(
    isSimulator: bool,
    isSDK: bool,
    appInfo: Option<AppInfo>,
    simulatorId: Option<ConnId>,
    sdkId: Option<ConnId>)

  const FreshConn: Conn := Conn(false, false, None, None, None)

  const DefaultModel: string := "demo-all"

  const InvalidCodeError: Event := Error("INVALID_PAIRING_CODE", "Invalid pairing code")
  const NoSimulatorError: Event := Error("NO_SIMULATOR", "Simulator not connected")

  datatype State = State(
    order: seq<ConnId>,
    conns: map<ConnId, Conn>,
    pairingCode: string,
    model: string,
    outbox: seq<Emit>)

  // ---------------------------------------------------------------------
  // Invariants

  ghost predicate Distinct(xs: seq<ConnId>) {
    forall i, j :: 0 <= i < j < |xs| ==> xs[i] != xs[j]
  }

  /** The ordered id list and the table hold the same connections, each once. */
  ghost predicate TableShape(order: seq<ConnId>, conns: map<ConnId, Conn>) {
    Distinct(order) && forall id :: id in conns <==> id in order
  }

  /**
   * Links sit only on the side that set them: a `simulatorId` only on a
   * connection that passed the code check (so `isSDK` and `appInfo` are
   * set), an `sdkId` only on a connection flagged `isSimulator`.
   */
  ghost predicate RolesConsistent(conns: map<ConnId, Conn>) {
    forall id :: id in conns ==>
      && (conns[id].simulatorId.Some? ==> conns[id].isSDK && conns[id].appInfo.Some?)
      && (conns[id].sdkId.Some? ==> conns[id].isSimulator)
  }

  ghost predicate Wf(s: State) {
    && TableShape(s.order, s.conns)
    && RolesConsistent(s.conns)
    && PairingCode.IsPairingCode(s.pairingCode)
  }

  // ---------------------------------------------------------------------
  // Table helpers

  predicate IsSim(conns: map<ConnId, Conn>, id: ConnId) {
    id in conns && conns[id].isSimulator
  }

  /** Position k holds a simulator and no earlier position does. */
  predicate FirstSimulatorAt(order: seq<ConnId>, conns: map<ConnId, Conn>, k: int) {
    && 0 <= k < |order|
    && IsSim(conns, order[k])
    && forall j :: 0 <= j < k ==> !IsSim(conns, order[j])
  }

  /** `Array.from(io.sockets.sockets.values()).find(s => s.isSimulator)`. */
  function FindSimulator(order: seq<ConnId>, conns: map<ConnId, Conn>): (r: Option<ConnId>)
    ensures r.None? <==> forall i :: 0 <= i < |order| ==> !IsSim(conns, order[i])
    ensures r.Some? ==> exists k :: FirstSimulatorAt(order, conns, k) && order[k] == r.value
    decreases |order|
  {
    if order == [] then None
    else if IsSim(conns, order[0]) then
      assert FirstSimulatorAt(order, conns, 0);
      Some(order[0])
    else
      var r := FindSimulator(order[1..], conns);
      if r.Some? then
        var k :| FirstSimulatorAt(order[1..], conns, k) && order[1..][k] == r.value;
        assert FirstSimulatorAt(order, conns, k + 1);
        r
      else
        assert forall i :: 1 <= i < |order| ==> order[i] == order[1..][i - 1];
        r
  }

  /** The first simulator is unique: the lookup returns exactly it. */
  lemma FindSimulatorReturnsFirst(order: seq<ConnId>, conns: map<ConnId, Conn>, k: int)
    requires FirstSimulatorAt(order, conns, k)
    ensures FindSimulator(order, conns) == Some(order[k])
  {
  }

  /** The lookup reads only the `isSimulator` flags. */
  lemma FindSimulatorReadsOnlyFlags(order: seq<ConnId>, c1: map<ConnId, Conn>, c2: map<ConnId, Conn>)
    requires forall i :: 0 <= i < |order| ==> IsSim(c1, order[i]) == IsSim(c2, order[i])
    ensures FindSimulator(order, c1) == FindSimulator(order, c2)
  {
  }

  /** The id list with `x` taken out, the others in their order. */
  function Without(xs: seq<ConnId>, x: ConnId): (r: seq<ConnId>)
    ensures forall y :: y in r <==> y in xs && y != x
    ensures Distinct(xs) ==> Distinct(r)
    ensures x !in xs ==> r == xs
    decreases |xs|
  {
    if xs == [] then []
    else if xs[0] == x then Without(xs[1..], x)
    else
      var rest := Without(xs[1..], x);
      assert Distinct(xs) ==> xs[0] !in xs[1..];
      [xs[0]] + rest
  }

  /** Removing the one occurrence at position k splices it out: the rest keep their order. */
  lemma {:induction false} WithoutRemovesAt(xs: seq<ConnId>, x: ConnId, k: int)
    requires Distinct(xs) && 0 <= k < |xs| && xs[k] == x
    ensures Without(xs, x) == xs[..k] + xs[k+1..]
    decreases |xs|
  {
    if k == 0 {
      assert x !in xs[1..];
    } else {
      WithoutRemovesAt(xs[1..], x, k - 1);
      assert xs[..k] + xs[k+1..] == [xs[0]] + (xs[1..][..k-1] + xs[1..][k..]);
    }
  }

  // ---------------------------------------------------------------------
  // Transitions

  /** Process start: a generated code, the default model, no connections. */
  function Init(draw: PairingCode.Draw): (s: State)
    ensures Wf(s)
    ensures s.order == [] && s.conns == map[] && s.outbox == []
    ensures s.pairingCode == PairingCode.Generate(draw) && s.model == DefaultModel
  {
    State([], map[], PairingCode.Generate(draw), DefaultModel, [])
  }

  /** A transport connection: a new unflagged socket at the end of the table. */
  function Connect(s: State, id: ConnId): (t: State)
    requires id !in s.conns
    ensures Wf(s) ==> Wf(t)
    ensures t.order == s.order + [id] && t.conns.Keys == s.conns.Keys + {id}
    ensures t.conns[id] == FreshConn
    ensures forall x :: x in s.conns ==> t.conns[x] == s.conns[x]
    ensures t.pairingCode == s.pairingCode && t.model == s.model && t.outbox == s.outbox
  {
    s.(order := s.order + [id], conns := s.conns[id := FreshConn])
  }

  /** `simulator:register`. */
  function Register(s: State, id: ConnId): (t: State)
    requires id in s.conns
    ensures Wf(s) ==> Wf(t)
    ensures t.conns.Keys == s.conns.Keys
    ensures t.conns[id] == s.conns[id].(isSimulator := true)
    ensures forall x :: x in s.conns && x != id ==> t.conns[x] == s.conns[x]
    ensures t.order == s.order && t.pairingCode == s.pairingCode && t.model == s.model
    ensures t.outbox == s.outbox + [Emit(id, SimulatorRegistered(s.pairingCode))]
  {
    s.(conns := s.conns[id := s.conns[id].(isSimulator := true)],
       outbox := s.outbox + [Emit(id, SimulatorRegistered(s.pairingCode))])
  }

  /** `simulator:model-changed`: stored verbatim, no catalog check. */
  function ChangeModel(s: State, id: ConnId, model: string): (t: State)
    requires id in s.conns
    ensures Wf(s) ==> Wf(t)
    ensures s.conns[id].isSimulator ==> t == s.(model := model)
    ensures !s.conns[id].isSimulator ==> t == s
  {
    if s.conns[id].isSimulator then s.(model := model) else s
  }

  /** The `connected` reply for a successful pairing. */
  function ConnectedReply(id: ConnId, model: string): (e: Event)
    ensures e.Connected? && e.sessionId == id && e.model == model
    ensures e.capabilities.camera == Catalog.SpecFor(model).capabilities.camera
    ensures e.capabilities.display <==>
      (Catalog.SpecFor(model).capabilities.textDisplay || Catalog.SpecFor(model).capabilities.imageDisplay)
  {
    Connected(id, model, Catalog.CapabilitiesFor(model))
  }

  /**
   * `sdk:connect` from `id` with the submitted `code` and `appInfo`; `draw`
   * is the generator's entropy, used only when the pairing succeeds.
   */
  function SdkConnect(s: State, id: ConnId, code: string, info: AppInfo, draw: PairingCode.Draw): (t: State)
    requires id in s.conns
    ensures t.order == s.order && t.model == s.model && t.conns.Keys == s.conns.Keys
  {
    if code != s.pairingCode then
      s.(outbox := s.outbox + [Emit(id, InvalidCodeError)])
    else
      var conns1 := s.conns[id := s.conns[id].(isSDK := true, appInfo := Some(info))];
      var found := FindSimulator(s.order, conns1);
      if found.None? then
        s.(conns := conns1, outbox := s.outbox + [Emit(id, NoSimulatorError)])
      else
        var sim := found.value;
        var conns2 := conns1[id := conns1[id].(simulatorId := Some(sim))];
        var conns3 := conns2[sim := conns2[sim].(sdkId := Some(id))];
        var newCode := PairingCode.Generate(draw);
        s.(conns := conns3,
           pairingCode := newCode,
           outbox := s.outbox + [Emit(id, ConnectedReply(id, s.model))]
                              + [Emit(sim, SdkConnected(info, id))]
                              + [Emit(sim, PairingUpdated(newCode))])
  }

  /** Marking the sender as an SDK does not change which simulator is found. */
  lemma MarkingSdkKeepsLookup(s: State, id: ConnId, info: AppInfo)
    requires id in s.conns
    ensures FindSimulator(s.order, s.conns[id := s.conns[id].(isSDK := true, appInfo := Some(info))])
         == FindSimulator(s.order, s.conns)
  {
  }

  /** A wrong code changes nothing; its one effect is the error reply. */
  lemma SdkConnectWrongCode(s: State, id: ConnId, code: string, info: AppInfo, draw: PairingCode.Draw)
    requires id in s.conns && code != s.pairingCode
    ensures SdkConnect(s, id, code, info, draw) == s.(outbox := s.outbox + [Emit(id, InvalidCodeError)])
  {
  }

  /**
   * The right code with no simulator in the table: the code is kept and the
   * reply is NO_SIMULATOR, but the sender is still marked `isSDK` with its
   * `appInfo`, and no link is made.
   */
  lemma SdkConnectNoSimulator(s: State, id: ConnId, info: AppInfo, draw: PairingCode.Draw)
    requires id in s.conns && FindSimulator(s.order, s.conns).None?
    ensures SdkConnect(s, id, s.pairingCode, info, draw)
         == s.(conns := s.conns[id := s.conns[id].(isSDK := true, appInfo := Some(info))],
               outbox := s.outbox + [Emit(id, NoSimulatorError)])
  {
  }

  /**
   * The right code with a simulator: the sender is linked to the first
   * simulator in table order and back, the application gets `connected`,
   * the simulator gets `sdk:connected` and then the rotated code, and no
   * other connection changes.
   */
  lemma SdkConnectPairs(s: State, id: ConnId, info: AppInfo, draw: PairingCode.Draw, k: int)
    requires id in s.conns && FirstSimulatorAt(s.order, s.conns, k)
    ensures var t := SdkConnect(s, id, s.pairingCode, info, draw);
      var sim := s.order[k];
      && t.conns[id] == s.conns[id].(isSDK := true, appInfo := Some(info), simulatorId := Some(sim),
                                     sdkId := if sim == id then Some(id) else s.conns[id].sdkId)
      && t.conns[sim] == (if sim == id then t.conns[id] else s.conns[sim].(sdkId := Some(id)))
      && (forall x :: x in s.conns && x != id && x != sim ==> t.conns[x] == s.conns[x])
      && t.pairingCode == PairingCode.Generate(draw)
      && t.outbox == s.outbox + [Emit(id, ConnectedReply(id, s.model)),
                                 Emit(sim, SdkConnected(info, id)),
                                 Emit(sim, PairingUpdated(t.pairingCode))]
  {
  }

  lemma SdkConnectKeepsWf(s: State, id: ConnId, code: string, info: AppInfo, draw: PairingCode.Draw)
    requires id in s.conns && Wf(s)
    ensures Wf(SdkConnect(s, id, code, info, draw))
  {
    var t := SdkConnect(s, id, code, info, draw);
    if code == s.pairingCode {
      MarkingSdkKeepsLookup(s, id, info);
      var found := FindSimulator(s.order, s.conns);
      if found.Some? {
        var k :| FirstSimulatorAt(s.order, s.conns, k) && s.order[k] == found.value;
        SdkConnectPairs(s, id, info, draw, k);
        PairedRolesConsistent(s, t, id, s.order[k]);
      } else {
        SdkConnectNoSimulator(s, id, info, draw);
      }
    }
  }

  lemma PairedRolesConsistent(s: State, t: State, id: ConnId, sim: ConnId)
    requires RolesConsistent(s.conns) && id in s.conns && IsSim(s.conns, sim)
    requires t.conns.Keys == s.conns.Keys
    requires t.conns[id].isSDK && t.conns[id].appInfo.Some? && t.conns[id].isSimulator == s.conns[id].isSimulator
    requires t.conns[id].sdkId.Some? ==> t.conns[id].isSimulator
    requires t.conns[sim].isSimulator
    requires t.conns[sim].simulatorId.Some? ==> t.conns[sim].isSDK && t.conns[sim].appInfo.Some?
    requires forall x :: x in s.conns && x != id && x != sim ==> t.conns[x] == s.conns[x]
    ensures RolesConsistent(t.conns)
  {
  }

  /** The text an SDK message is relayed as: strings pass, the rest is encoded. */
  function SdkMessageText(message: Payload, encode: Payload -> string): (data: string)
    ensures message.Text? ==> data == message.text
    ensures message.Json? ==> data == encode(message)
  {
    if message.Text? then message.text else encode(message)
  }

  /** `message` from an SDK, relayed to its simulator as `sdk:message`. */
  function RelayFromSdk(s: State, id: ConnId, message: Payload, encode: Payload -> string): (t: State)
    requires id in s.conns
    ensures Wf(s) ==> Wf(t)
    ensures t == s.(outbox := t.outbox)
    ensures var c := s.conns[id];
      if c.isSDK && c.simulatorId.Some? && c.simulatorId.value in s.conns
      then t.outbox == s.outbox + [Emit(c.simulatorId.value, SdkMessage(SdkMessageText(message, encode)))]
      else t.outbox == s.outbox
  {
    var c := s.conns[id];
    if c.isSDK && c.simulatorId.Some? && c.simulatorId.value in s.conns then
      s.(outbox := s.outbox + [Emit(c.simulatorId.value, SdkMessage(SdkMessageText(message, encode)))])
    else s
  }

  /** `simulator:message`, relayed to the linked SDK as `message`, always encoded. */
  function RelayFromSimulator(s: State, id: ConnId, message: Payload, encode: Payload -> string): (t: State)
    requires id in s.conns
    ensures Wf(s) ==> Wf(t)
    ensures t == s.(outbox := t.outbox)
    ensures var c := s.conns[id];
      if c.isSimulator && c.sdkId.Some? && c.sdkId.value in s.conns
      then t.outbox == s.outbox + [Emit(c.sdkId.value, Message(encode(message)))]
      else t.outbox == s.outbox
  {
    var c := s.conns[id];
    if c.isSimulator && c.sdkId.Some? && c.sdkId.value in s.conns then
      s.(outbox := s.outbox + [Emit(c.sdkId.value, Message(encode(message)))])
    else s
  }

  /**
   * `disconnect`. The transport drops the socket from the table before the
   * handler runs; an SDK then notifies and unlinks the simulator it points
   * to, whichever SDK that simulator is linked to now.
   */
  function Disconnect(s: State, id: ConnId): (t: State)
    requires id in s.conns
    ensures Wf(s) ==> Wf(t)
    ensures id !in t.conns && id !in t.order
    ensures forall x :: x in t.order <==> x in s.order && x != id
    ensures t.conns.Keys == s.conns.Keys - {id}
    ensures t.pairingCode == s.pairingCode && t.model == s.model
    ensures var c := s.conns[id];
      if c.isSDK && c.simulatorId.Some? && c.simulatorId.value != id && c.simulatorId.value in s.conns
      then
        var sim := c.simulatorId.value;
        && t.conns[sim] == s.conns[sim].(sdkId := None)
        && (forall x :: x in t.conns && x != sim ==> t.conns[x] == s.conns[x])
        && t.outbox == s.outbox + [Emit(sim, SdkDisconnected)]
      else
        && (forall x :: x in t.conns ==> t.conns[x] == s.conns[x])
        && t.outbox == s.outbox
  {
    var c := s.conns[id];
    var order := Without(s.order, id);
    var conns := s.conns - {id};
    if c.isSDK && c.simulatorId.Some? && c.simulatorId.value in conns then
      var sim := c.simulatorId.value;
      s.(order := order,
         conns := conns[sim := conns[sim].(sdkId := None)],
         outbox := s.outbox + [Emit(sim, SdkDisconnected)])
    else
      s.(order := order, conns := conns)
  }

  /**
   * The socket leaves the insertion-ordered table from its own position;
   * every other socket keeps its place relative to the rest, so the later
   * `find` for a simulator scans them in the same order as before.
   */
  lemma DisconnectKeepsOrder(s: State, id: ConnId)
    requires Wf(s) && id in s.conns
    ensures exists k ::
      && 0 <= k < |s.order| && s.order[k] == id
      && Disconnect(s, id).order == s.order[..k] + s.order[k+1..]
  {
    var k :| 0 <= k < |s.order| && s.order[k] == id;
    WithoutRemovesAt(s.order, id, k);
  }
}
