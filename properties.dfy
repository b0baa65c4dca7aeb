/**
 * Properties of the broker that span several events: which simulator a
 * pairing picks, the single use of a pairing code, retry after a missing
 * simulator, rebinding and the unbinding done by a disconnect.
 */
module Properties {
  import opened Wrappers
  import PairingCode
  import opened Handlers

  // ---------------------------------------------------------------------
  // Registration does not demote: the earliest simulator keeps winning

  lemma EarlierFlagWins(order: seq<ConnId>, conns: map<ConnId, Conn>, id: ConnId, k: int)
    requires id in conns && 0 <= k < |order| && IsSim(conns, order[k]) && id !in order[..k]
    ensures FindSimulator(order, conns[id := conns[id].(isSimulator := true)]) == FindSimulator(order, conns)
  {
  }

  /**
   * A new registrant does not take over: if a connection earlier in table
   * order than `id` is already flagged as simulator, pairing still picks
   * the same simulator after `id` registers, and no flag is cleared.
   */
  lemma RegisterKeepsEarlierSimulator(s: State, id: ConnId, k: int)
    requires id in s.conns && 0 <= k < |s.order| && IsSim(s.conns, s.order[k])
    requires s.order[k] != id && id !in s.order[..k]
    ensures var t := Register(s, id);
      && FindSimulator(t.order, t.conns) == FindSimulator(s.order, s.conns)
      && FindSimulator(t.order, t.conns) != Some(id)
      && (forall x :: IsSim(s.conns, x) ==> IsSim(t.conns, x))
  {
  }

  /** With no simulator in the table, the registrant is the one found. */
  lemma SoleRegistrantIsFound(s: State, id: ConnId)
    requires Wf(s) && id in s.conns && FindSimulator(s.order, s.conns).None?
    ensures var t := Register(s, id); FindSimulator(t.order, t.conns) == Some(id)
  {
  }

  // ---------------------------------------------------------------------
  // Pairing code single use

  /**
   * After a successful pairing with code C, a second attempt with C, from
   * any connection, is refused with INVALID_PAIRING_CODE exactly when the
   * rotated code differs from C; the generator may hand C out again.
   */
  lemma CodeIsSingleUse(s: State, a: ConnId, b: ConnId, infoA: AppInfo, infoB: AppInfo,
                        d1: PairingCode.Draw, d2: PairingCode.Draw)
    requires a in s.conns && b in s.conns && FindSimulator(s.order, s.conns).Some?
    ensures var t := SdkConnect(s, a, s.pairingCode, infoA, d1);
      var u := SdkConnect(t, b, s.pairingCode, infoB, d2);
      && t.pairingCode == PairingCode.Generate(d1)
      && (u == t.(outbox := t.outbox + [Emit(b, InvalidCodeError)]) <==> PairingCode.Generate(d1) != s.pairingCode)
  {
    var t := SdkConnect(s, a, s.pairingCode, infoA, d1);
    var r := FindSimulator(s.order, s.conns);
    var k :| FirstSimulatorAt(s.order, s.conns, k) && s.order[k] == r.value;
    SdkConnectPairs(s, a, infoA, d1, k);
    if PairingCode.Generate(d1) == s.pairingCode {
      assert FirstSimulatorAt(t.order, t.conns, k);
      SdkConnectPairs(t, b, infoB, d2, k);
      var u := SdkConnect(t, b, s.pairingCode, infoB, d2);
      assert |u.outbox| == |t.outbox| + 3;
    }
  }

  /** Any current code can come back from rotation: some draw reproduces it. */
  lemma RotationMayRepeat(s: State)
    requires Wf(s)
    ensures exists d: PairingCode.Draw :: PairingCode.Generate(d) == s.pairingCode
  {
    var d := PairingCode.DrawFor(s.pairingCode);
    assert PairingCode.Generate(d) == s.pairingCode;
  }

  // ---------------------------------------------------------------------
  // A failed attempt for want of a simulator keeps the code usable

  /**
   * The right code with no simulator fails and keeps the code; once a
   * simulator registers, the same code from the same connection pairs it
   * with that simulator.
   */
  lemma RetryAfterSimulatorRegisters(s: State, app: ConnId, sim: ConnId, info: AppInfo,
                                     d1: PairingCode.Draw, d2: PairingCode.Draw)
    requires Wf(s) && app in s.conns && sim in s.conns && sim != app
    requires FindSimulator(s.order, s.conns).None?
    ensures var t1 := SdkConnect(s, app, s.pairingCode, info, d1);
      var t2 := Register(t1, sim);
      var t3 := SdkConnect(t2, app, s.pairingCode, info, d2);
      && t1.outbox == s.outbox + [Emit(app, NoSimulatorError)]
      && t1.pairingCode == s.pairingCode
      && t1.conns[app].simulatorId == s.conns[app].simulatorId
      && t3.conns[app].simulatorId == Some(sim)
      && t3.conns[sim].sdkId == Some(app)
      && t3.pairingCode == PairingCode.Generate(d2)
  {
  }

  // ---------------------------------------------------------------------
  // Rebinding

  /**
   * A second application pairing with the simulator takes over the
   * simulator's replies, while the first application, still pointing at
   * the simulator, keeps reaching it: it is not cut off.
   */
  lemma RebindKeepsOldSdkSending(s: State, sim: ConnId, a1: ConnId, a2: ConnId, info: AppInfo,
                                 d: PairingCode.Draw, msg: Payload, encode: Payload -> string)
    requires a1 in s.conns && a2 in s.conns && sim != a2 && a1 != a2
    requires FindSimulator(s.order, s.conns) == Some(sim)
    requires s.conns[a1].isSDK && s.conns[a1].simulatorId == Some(sim)
    ensures var t := SdkConnect(s, a2, s.pairingCode, info, d);
      && t.conns[sim].sdkId == Some(a2)
      && RelayFromSimulator(t, sim, msg, encode).outbox == t.outbox + [Emit(a2, Message(encode(msg)))]
      && RelayFromSdk(t, a1, msg, encode).outbox == t.outbox + [Emit(sim, SdkMessage(SdkMessageText(msg, encode)))]
  {
  }

  // ---------------------------------------------------------------------
  // Disconnect

  /**
   * The bound application disconnects: the simulator is told, its link is
   * cleared, and what it relays afterwards goes nowhere.
   */
  lemma DisconnectUnbinds(s: State, sim: ConnId, app: ConnId, msg: Payload, encode: Payload -> string)
    requires sim in s.conns && app in s.conns && sim != app
    requires s.conns[app].isSDK && s.conns[app].simulatorId == Some(sim)
    ensures var t := Disconnect(s, app);
      && t.outbox == s.outbox + [Emit(sim, SdkDisconnected)]
      && t.conns[sim].sdkId == None
      && RelayFromSimulator(t, sim, msg, encode) == t
  {
  }

  /**
   * An application that was rebound away still unbinds the simulator when
   * it disconnects: the newer application stays linked one way, its
   * messages reach the simulator, but the simulator's replies are dropped.
   */
  lemma StaleDisconnectUnbindsNewer(s: State, sim: ConnId, a1: ConnId, a2: ConnId,
                                    msg: Payload, encode: Payload -> string)
    requires sim in s.conns && a1 in s.conns && a2 in s.conns
    requires sim != a1 && a1 != a2 && sim != a2
    requires s.conns[a1].isSDK && s.conns[a1].simulatorId == Some(sim)
    requires s.conns[sim].isSimulator && s.conns[sim].sdkId == Some(a2)
    requires s.conns[a2].isSDK && s.conns[a2].simulatorId == Some(sim)
    ensures var t := Disconnect(s, a1);
      && a2 in t.conns && t.conns[sim].sdkId == None
      && RelayFromSimulator(t, sim, msg, encode) == t
      && RelayFromSdk(t, a2, msg, encode).outbox == t.outbox + [Emit(sim, SdkMessage(SdkMessageText(msg, encode)))]
  {
  }

  /** A simulator (not an SDK) disconnecting changes no other connection and emits nothing. */
  lemma SimulatorDisconnectIsSilent(s: State, sim: ConnId)
    requires sim in s.conns && !s.conns[sim].isSDK
    ensures var t := Disconnect(s, sim);
      && t.conns == s.conns - {sim}
      && t.outbox == s.outbox
  {
  }
}
