/** Device discovery: `wrap(side)` (subapis/peripheral.py:385-412) and the call-forwarding
    composition `CCWiredModem.wrapRemote(name)` (subapis/peripheral.py:153-170).

    The remote answers (`getType`, the wireless check, `getTypeRemote`) are parameters;
    each operation also returns the requests it issues, in order. */
module Discovery {
  import opened Wire
  import opened Calls
  import opened Registry

  /** A proxy instance: its class and the handle it is bound to. */
  datatype Proxy = Proxy(cls: Kind, handle: Handle)

  /** `TYPE_MAP[ptype]` raising `KeyError`: the device is present but its kind is unknown. */
  datatype Error = UnknownKind(kind: string)

  /** `Found(None)` is "no device" (not an error); `Failed` is an unknown kind. */
  datatype Outcome = Found(proxy: Option<Proxy>) | Failed(error: Error)

  /** What a discovery returns, and the requests it sent to get there. */
  datatype Discovered = Discovered(outcome: Outcome, calls: seq<Request>)

  /** The target expression of every device wrapped from a local side. */
  const PeripheralCall := "peripheral.call"

  /** The handle `wrap` binds a device on `side` to. */
  function SideHandle(side: string): Handle
  {
    Handle(PeripheralCall, [Encoded(side)])
  }

  /** `getType(side)`. */
  function GetTypeRequest(side: string): Request
  {
    Api("getType", [Encoded(side)])
  }

  /** `method('call', side, b'isWireless')`, the extra call `wrap` makes for a modem. */
  function IsWirelessRequest(side: string): Request
  {
    Api("call", [Encoded(side), Bytes("isWireless")])
  }

  /** `wrap(side)`, given the kind `getType` reports and the answer to the wireless check. */
  function Wrap(types: map<string, Kind>, side: string, reported: Option<string>, wireless: bool): (d: Discovered)
    // one `getType` call first; the wireless check is asked for a modem and only for a modem
    ensures |d.calls| == (if reported == Some("modem") then 2 else 1)
    ensures d.calls[0] == GetTypeRequest(side)
    ensures reported == Some("modem") ==> d.calls[1] == IsWirelessRequest(side)
    // absence is reported exactly when no kind is reported
    ensures d.outcome == Found(None) <==> reported == None
    // a modem is the wireless or the wired variant, whatever the registry holds
    ensures reported == Some("modem") ==>
              d.outcome == Found(Some(Proxy(if wireless then WirelessModem else WiredModem, SideHandle(side))))
    // any other kind is looked up, and fails exactly when it is not registered
    ensures d.outcome.Failed? <==> reported.Some? && reported.value != "modem" && reported.value !in types
    ensures d.outcome.Failed? ==> d.outcome.error == UnknownKind(reported.value)
    ensures reported.Some? && reported.value != "modem" && reported.value in types ==>
              d.outcome.Found? && d.outcome.proxy.Some? && d.outcome.proxy.value.cls == types[reported.value]
    // every device found is reached through `peripheral.call` with the encoded side prepended
    ensures d.outcome.Found? && d.outcome.proxy.Some? ==> d.outcome.proxy.value.handle == SideHandle(side)
  {
    match reported
    case None => Discovered(Found(None), [GetTypeRequest(side)])
    case Some(kind) =>
      if kind == "modem" then
        var cls := if wireless then WirelessModem else WiredModem;
        Discovered(Found(Some(Proxy(cls, SideHandle(side)))), [GetTypeRequest(side), IsWirelessRequest(side)])
      else if kind in types then
        Discovered(Found(Some(Proxy(types[kind], SideHandle(side)))), [GetTypeRequest(side)])
      else
        Discovered(Failed(UnknownKind(kind)), [GetTypeRequest(side)])
  }

  /** The `modem` kind never consults the registry, even one that registers `modem` itself. */
  lemma WrapModemBypassesRegistry(t1: map<string, Kind>, t2: map<string, Kind>, side: string, wireless: bool)
    ensures Wrap(t1, side, Some("modem"), wireless) == Wrap(t2, side, Some("modem"), wireless)
  {
  }

  /** The handle a forwarded proxy is built on: the bridge's target expression, with the
      forwarding marker and the far-side name appended to the bridge's prepended parameters. */
  function Forward(bridge: Handle, name: string): (h: Handle)
    ensures h.expr == bridge.expr
    ensures |h.prepend| == |bridge.prepend| + 2
    ensures h.prepend[..|bridge.prepend|] == bridge.prepend
    ensures h.prepend[|bridge.prepend|..] == [Bytes("callRemote"), Encoded(name)]
  {
    Handle(bridge.expr, bridge.prepend + [Bytes("callRemote"), Encoded(name)])
  }

  /** A call on a forwarded proxy is one flat request on the bridge's target: the bridge's
      prepended parameters, the marker, the far-side name, the method name, the parameters. */
  lemma ForwardedCallIsFlat(bridge: Handle, name: string, op: string, params: seq<Arg>)
    ensures MethodRequest(Forward(bridge, name), op, params)
         == CallRequest(bridge, Bytes("callRemote"), [Encoded(name), Encoded(op)] + params)
  {
  }

  /** Forwarding keeps the side a modem proxy reads from its first prepended parameter. */
  lemma ForwardKeepsFirstParameter(bridge: Handle, name: string)
    requires bridge.prepend != []
    ensures Forward(bridge, name).prepend[0] == bridge.prepend[0]
  {
  }

  /** Different far-side names give different handles. */
  lemma ForwardInjective(bridge: Handle, n1: string, n2: string)
    requires Forward(bridge, n1) == Forward(bridge, n2)
    ensures n1 == n2
  {
  }

  /** `CCWiredModem.getTypeRemote(name)`, sent through the bridge. */
  function GetTypeRemoteRequest(bridge: Handle, name: string): Request
  {
    MethodRequest(bridge, "getTypeRemote", [Encoded(name)])
  }

  /** `wrapRemote(name)` on a wired modem with handle `bridge`, given the kind
      `getTypeRemote` reports. */
  function WrapRemote(types: map<string, Kind>, bridge: Handle, name: string, reported: Option<string>): (d: Discovered)
    // exactly one remote call, and never a wireless check
    ensures d.calls == [GetTypeRemoteRequest(bridge, name)]
    ensures d.outcome == Found(None) <==> reported == None
    // every kind, `modem` included, goes through the registry
    ensures d.outcome.Failed? <==> reported.Some? && reported.value !in types
    ensures d.outcome.Failed? ==> d.outcome.error == UnknownKind(reported.value)
    ensures reported.Some? && reported.value in types ==>
              d.outcome.Found? && d.outcome.proxy.Some? && d.outcome.proxy.value.cls == types[reported.value]
    ensures d.outcome.Found? && d.outcome.proxy.Some? ==> d.outcome.proxy.value.handle == Forward(bridge, name)
  {
    var calls := [GetTypeRemoteRequest(bridge, name)];
    match reported
    case None => Discovered(Found(None), calls)
    case Some(kind) =>
      if kind in types then Discovered(Found(Some(Proxy(types[kind], Forward(bridge, name)))), calls)
      else Discovered(Failed(UnknownKind(kind)), calls)
  }

  /** With the import-time registry a modem is found on a local side, but a modem behind
      a wired modem is an unknown kind: `wrapRemote` has no modem special case. */
  lemma RemoteModemIsUnknown(bridge: Handle, name: string, side: string, wireless: bool)
    ensures Wrap(InitialTypes(), side, Some("modem"), wireless).outcome.Found?
    ensures WrapRemote(InitialTypes(), bridge, name, Some("modem")).outcome == Failed(UnknownKind("modem"))
  {
    ModemNotRegistered();
  }

  /** A wireless modem found on side `left`: `isOpen(5)` is one call of `peripheral.call`
      with the encoded side, the encoded method name and the channel. */
  lemma WirelessModemScenario(types: map<string, Kind>)
    ensures var d := Wrap(types, "left", Some("modem"), true);
            && d.calls == [GetTypeRequest("left"), IsWirelessRequest("left")]
            && d.outcome.Found? && d.outcome.proxy.Some?
            && d.outcome.proxy.value.cls == WirelessModem
            && MethodRequest(d.outcome.proxy.value.handle, "isOpen", [Int(5)])
               == Eval("return peripheral.call(...)", [Encoded("left"), Encoded("isOpen"), Int(5)])
  {
    assert Code(PeripheralCall) == "return peripheral.call(...)";
    assert SideHandle("left").prepend + [Encoded("isOpen")] + [Int(5)] == [Encoded("left"), Encoded("isOpen"), Int(5)];
  }

  /** A furnace behind the wired modem found on side `back`: `getTypeRemote` is one call on
      `peripheral.call` through the modem, the furnace is an inventory, and its `size()` is
      one call carrying the side, the marker, the far-side name and the method name. */
  lemma FurnaceBehindBridgeScenario()
    ensures var w := Wrap(InitialTypes(), "back", Some("modem"), false);
            && w.calls == [GetTypeRequest("back"), IsWirelessRequest("back")]
            && w.outcome == Found(Some(Proxy(WiredModem, SideHandle("back"))))
            && var d := WrapRemote(InitialTypes(), w.outcome.proxy.value.handle, "furnace_0", Some("minecraft:furnace"));
            && d.calls == [Eval("return peripheral.call(...)",
                                [Encoded("back"), Encoded("getTypeRemote"), Encoded("furnace_0")])]
            && d.outcome.Found? && d.outcome.proxy.Some?
            && d.outcome.proxy.value.cls == Inventory
            && MethodRequest(d.outcome.proxy.value.handle, "size", [])
               == Eval("return peripheral.call(...)",
                       [Encoded("back"), Bytes("callRemote"), Encoded("furnace_0"), Encoded("size")])
  {
    InitialTypesTable();
    assert "minecraft:furnace" in InitialTypes() && InitialTypes()["minecraft:furnace"] == Inventory;
    var bridge := SideHandle("back");
    var h := Forward(bridge, "furnace_0");
    assert Code(PeripheralCall) == "return peripheral.call(...)";
    assert bridge.prepend + [Encoded("getTypeRemote")] + [Encoded("furnace_0")]
        == [Encoded("back"), Encoded("getTypeRemote"), Encoded("furnace_0")];
    assert h.prepend + [Encoded("size")] + []
        == [Encoded("back"), Bytes("callRemote"), Encoded("furnace_0"), Encoded("size")];
  }
}
