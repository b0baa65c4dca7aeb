/**
 * The broker as server.js runs it: module-level `currentPairingCode` and
 * `currentModel`, the live socket table, and handlers that update them in
 * place. Each method is proved to perform exactly the transition of the
 * same name in module Handlers; `outbox` records every `emit`.
 */
module Server {
  import opened Wrappers
  import Catalog
  import PairingCode
  import opened Handlers

  class Broker {
    /** `io.sockets.sockets`: ids in connection order, and the socket fields. */
    var order: seq<ConnId>
    var conns: map<ConnId, Conn>
    var pairingCode: string
    var model: string
    var outbox: seq<Emit>
    /** `JSON.stringify`, treated as an uninterpreted function. */
    const encode: Payload -> string

    ghost function Snapshot(): State
      reads this
    {
      State(order, conns, pairingCode, model, outbox)
    }

    ghost predicate Valid()
      reads this
    {
      Wf(Snapshot())
    }

    /** Process start: the initial code from one draw, model 'demo-all'. */
    constructor (draw: PairingCode.Draw, encode: Payload -> string)
      ensures Valid() && Snapshot() == Init(draw) && this.encode == encode
    {
      order := [];
      conns := map[];
      pairingCode := PairingCode.Generate(draw);
      model := DefaultModel;
      outbox := [];
      this.encode := encode;
    }

    method Connect(id: ConnId)
      requires Valid() && id !in conns
      modifies this
      ensures Valid() && Snapshot() == Handlers.Connect(old(Snapshot()), id)
    {
      order := order + [id];
      conns := conns[id := FreshConn];
    }

    method Register(id: ConnId)
      requires Valid() && id in conns
      modifies this
      ensures Valid() && Snapshot() == Handlers.Register(old(Snapshot()), id)
    {
      conns := conns[id := conns[id].(isSimulator := true)];
      outbox := outbox + [Emit(id, SimulatorRegistered(pairingCode))];
    }

    method ChangeModel(id: ConnId, newModel: string)
      requires Valid() && id in conns
      modifies this
      ensures Valid() && Snapshot() == Handlers.ChangeModel(old(Snapshot()), id, newModel)
    {
      if conns[id].isSimulator {
        model := newModel;
      }
    }

    method SdkConnect(id: ConnId, code: string, info: AppInfo, draw: PairingCode.Draw)
      requires Valid() && id in conns
      modifies this
      ensures Valid() && Snapshot() == Handlers.SdkConnect(old(Snapshot()), id, code, info, draw)
    {
      ghost var before := Snapshot();
      if code == pairingCode {
        conns := conns[id := conns[id].(isSDK := true, appInfo := Some(info))];
        var found := FindSimulator(order, conns);
        if found.Some? {
          var sim := found.value;
          conns := conns[id := conns[id].(simulatorId := Some(sim))];
          conns := conns[sim := conns[sim].(sdkId := Some(id))];
          outbox := outbox + [Emit(id, ConnectedReply(id, model))];
          outbox := outbox + [Emit(sim, SdkConnected(info, id))];
          pairingCode := PairingCode.Generate(draw);
          outbox := outbox + [Emit(sim, PairingUpdated(pairingCode))];
        } else {
          outbox := outbox + [Emit(id, NoSimulatorError)];
        }
      } else {
        outbox := outbox + [Emit(id, InvalidCodeError)];
      }
      assert Snapshot() == Handlers.SdkConnect(before, id, code, info, draw);
      SdkConnectKeepsWf(before, id, code, info, draw);
    }

    /** `message`: SDK to simulator. */
    method RelayFromSdk(id: ConnId, message: Payload)
      requires Valid() && id in conns
      modifies this
      ensures Valid() && Snapshot() == Handlers.RelayFromSdk(old(Snapshot()), id, message, encode)
    {
      var c := conns[id];
      if c.isSDK && c.simulatorId.Some? {
        var simId := c.simulatorId.value;
        if simId in conns {
          var data := if message.Text? then message.text else encode(message);
          outbox := outbox + [Emit(simId, SdkMessage(data))];
        }
      }
    }

    /** `simulator:message`: simulator to SDK. */
    method RelayFromSimulator(id: ConnId, message: Payload)
      requires Valid() && id in conns
      modifies this
      ensures Valid() && Snapshot() == Handlers.RelayFromSimulator(old(Snapshot()), id, message, encode)
    {
      var c := conns[id];
      if c.isSimulator && c.sdkId.Some? {
        var sdkId := c.sdkId.value;
        if sdkId in conns {
          outbox := outbox + [Emit(sdkId, Message(encode(message)))];
        }
      }
    }

    /** Transport disconnect: the socket leaves the table, then the handler runs. */
    method Disconnect(id: ConnId)
      requires Valid() && id in conns
      modifies this
      ensures Valid() && Snapshot() == Handlers.Disconnect(old(Snapshot()), id)
    {
      ghost var before := Snapshot();
      var c := conns[id];
      order := Without(order, id);
      conns := conns - {id};
      if c.isSDK && c.simulatorId.Some? {
        var simId := c.simulatorId.value;
        if simId in conns {
          outbox := outbox + [Emit(simId, SdkDisconnected)];
          conns := conns[simId := conns[simId].(sdkId := None)];
        }
      }
      assert Snapshot() == Handlers.Disconnect(before, id);
    }
  }

  const OpeningCode: string := "123456"

  /** The draw that makes generatePairingCode return "123456". */
  const OpeningDraw: PairingCode.Draw := 23456

  lemma OpeningDrawGivesOpeningCode()
    ensures PairingCode.Generate(OpeningDraw) == OpeningCode
  {
    assert PairingCode.DecimalString(1) == "1";
    assert PairingCode.DecimalString(12) == "12";
    assert PairingCode.DecimalString(123) == "123";
    assert PairingCode.DecimalString(1234) == "1234";
    assert PairingCode.DecimalString(12345) == "12345";
    assert PairingCode.DecimalString(123456) == "123456";
  }

  /**
   * Process start with the draw for "123456"; a simulator and an
   * application connect, the simulator registers and selects "mentra-live".
   */
  method OpenSession(encode: Payload -> string) returns (b: Broker)
    ensures fresh(b) && b.Valid() && b.encode == encode
    ensures b.order == ["sim", "app"] && b.model == "mentra-live" && b.pairingCode == OpeningCode
    ensures b.conns == map["sim" := FreshConn.(isSimulator := true), "app" := FreshConn]
    ensures b.outbox == [Emit("sim", SimulatorRegistered(OpeningCode))]
  {
    OpeningDrawGivesOpeningCode();
    b := new Broker(OpeningDraw, encode);
    b.Connect("sim");
    b.Connect("app");
    assert b.conns == map["sim" := FreshConn, "app" := FreshConn];
    b.Register("sim");
    assert b.conns["sim"].isSimulator;
    b.ChangeModel("sim", "mentra-live");
  }

  /** The application pairs with the opening code. */
  method PairApplication(b: Broker, info: AppInfo, rotation: PairingCode.Draw)
    requires b.Valid() && b.order == ["sim", "app"] && b.model == "mentra-live" && b.pairingCode == OpeningCode
    requires b.conns == map["sim" := FreshConn.(isSimulator := true), "app" := FreshConn]
    modifies b
    ensures b.Valid() && b.order == ["sim", "app"]
    ensures b.conns == map["sim" := FreshConn.(isSimulator := true, sdkId := Some("app")),
                           "app" := FreshConn.(isSDK := true, appInfo := Some(info), simulatorId := Some("sim"))]
    ensures b.outbox == old(b.outbox) + [
      Emit("app", Connected("app", "mentra-live", Catalog.SdkCaps(true, false))),
      Emit("sim", SdkConnected(info, "app")),
      Emit("sim", PairingUpdated(PairingCode.Generate(rotation)))]
  {
    assert FirstSimulatorAt(b.order, b.conns, 0);
    Catalog.ReportedCapabilities("mentra-live");
    SdkConnectPairs(b.Snapshot(), "app", info, rotation, 0);
    b.SdkConnect("app", OpeningCode, info, rotation);
  }

  /**
   * Each side relays one message, the application disconnects, and the
   * simulator relays once more.
   */
  method ExchangeAndLeave(b: Broker, info: AppInfo, request: Document, reply: Document, late: Document)
    requires b.Valid() && b.order == ["sim", "app"]
    requires b.conns == map["sim" := FreshConn.(isSimulator := true, sdkId := Some("app")),
                            "app" := FreshConn.(isSDK := true, appInfo := Some(info), simulatorId := Some("sim"))]
    modifies b
    ensures b.outbox == old(b.outbox) + [
      Emit("sim", SdkMessage(b.encode(Json(request)))),
      Emit("app", Message(b.encode(Json(reply)))),
      Emit("sim", SdkDisconnected)]
  {
    b.RelayFromSdk("app", Json(request));
    b.RelayFromSimulator("sim", Json(reply));
    b.Disconnect("app");
    assert b.conns["sim"].sdkId == None;
    b.RelayFromSimulator("sim", Json(late));
  }

  /**
   * One session end to end: the simulator sees code 123456, the
   * application pairs and is told camera=true, display=false, the
   * simulator gets a rotated code different from 123456, one message each
   * way arrives encoded, the application leaves, and a last simulator
   * message goes nowhere. The result is every event emitted, in order.
   */
  method EndToEnd(encode: Payload -> string, info: AppInfo, request: Document, reply: Document,
                  late: Document, rotation: PairingCode.Draw)
    returns (sent: seq<Emit>)
    requires rotation != OpeningDraw
    ensures sent == [
      Emit("sim", SimulatorRegistered("123456")),
      Emit("app", Connected("app", "mentra-live", Catalog.SdkCaps(true, false))),
      Emit("sim", SdkConnected(info, "app")),
      Emit("sim", PairingUpdated(PairingCode.Generate(rotation))),
      Emit("sim", SdkMessage(encode(Json(request)))),
      Emit("app", Message(encode(Json(reply)))),
      Emit("sim", SdkDisconnected)]
    ensures PairingCode.Generate(rotation) != "123456"
  {
    var b := OpenSession(encode);
    PairApplication(b, info, rotation);
    ExchangeAndLeave(b, info, request, reply, late);
    OpeningDrawGivesOpeningCode();
    PairingCode.GenerateInjective(OpeningDraw, rotation);
    sent := b.outbox;
  }
}
