# Peripheral proxies and modem channel subscriptions

A Dafny model of the controller side of `subapis/peripheral.py`. The controller drives
peripherals attached to a remote scripting host by sending remote-evaluation requests.
The model covers five pieces:

- the call primitive of `BasePeripheral`: a handle is a target expression plus prepended
  parameters, and every call sends `return <expr>(...)` with the argument list
  `prepend ++ [encode(name)] ++ params` (`calls.dfy`, module `Calls`);
- the kind registry `TYPE_MAP`, `registerType`, and the registrations made at import time
  (`registry.dfy`, module `Registry`);
- discovery with `wrap(side)`, including its `modem` special case (`discovery.dfy`, module
  `Discovery`);
- the call-forwarding composition `CCWiredModem.wrapRemote(name)`, same module;
- the modem's `isOpen`/`open`/`close` and the channel subscription `receive`
  (`modem.dfy`, module `Modem`).

`wire.dfy` (module `Wire`) holds the argument and request values.

Every remote call is a `Request` value. `Eval(code, args)` stands for `eval_lua`.
`Api(name, args)` stands for the module-level `method` of the `peripheral.` API.

`wrap` and `wrapRemote` are pure functions. They take the remote answers as parameters and
return the outcome together with the requests they sent. `registerType` mutates the
module-level dictionary, so it is a method of the class `TypeRegistry`. The constructor of
that class performs the import-time registrations, and its `minecraft:` loop is a loop.

The remote host is the class `Host`. It holds a trace and the set of open (handle, channel)
pairs. The trace records, in order, every request sent, every event read from the stream and
every message yielded to the consumer. `IsOpen`, `Open` and `Close` each append their
request, and the last two change the set. `Receive` runs the generator `receive` to its end:

- the busy-check;
- `open`;
- the `for` loop over a finite event sequence (`Drain`, one pass of it being `Iteration`);
- the `close` of the `finally` block.

The consumer either drains the stream or abandons the generator after `k` messages. The
stream ends normally or with an error.

`receive` (subapis/peripheral.py:124-139) is a generator, so nothing runs until the
consumer first asks for a message. A consumer that never asks issues no `isOpen`, no `open`
and no `close` (`Exit.NotStarted`).

## Model

| member | source | states |
|---|---|---|
| `Calls.MethodRequest` | subapis/peripheral.py:18-20 | the request evaluates `return <expr>(...)` with the handle's prepended parameters first, the encoded method name next, and the caller's parameters last, in that order |
| `Calls.CodeInjective` | subapis/peripheral.py:19 | the code string determines the target expression: different expressions never send the same code |
| `Calls.ParseInvertsMethodRequest` | subapis/peripheral.py:18-20 | reading a sent request back, for the handle that sent it, recovers exactly the method name and the caller's parameters |
| `Calls.ParseOnlyMethodRequests` | subapis/peripheral.py:18-20 | every request the reader accepts for a handle is exactly the `_method` request for the name and parameters it reads |
| `Calls.MethodRequestInjective` | subapis/peripheral.py:14-20 | two handles with prepend tuples of equal length send the same request only for the same handle, method name and parameters |
| `Registry.ApplyConcat` | subapis/peripheral.py:415-416 | registering two batches one after the other gives the same registry as registering their concatenation |
| `Registry.ApplyLastWins` | subapis/peripheral.py:415-416 | after a sequence of `registerType` calls, a kind is bound to the class of its last registration, whatever earlier registrations or the starting registry said |
| `Registry.ApplyUntouched` | subapis/peripheral.py:415-416 | a kind that no registration names keeps its binding, or stays unregistered |
| `Registry.ApplyKeys` | subapis/peripheral.py:415-416 | the registered kinds are exactly the starting kinds plus the kinds named by the registrations |
| `Registry.InventoryRegistrationsSpelled` | subapis/peripheral.py:438-450 | the import-time loop registers exactly the ten names `minecraft:chest` … `minecraft:brewing_stand`, each bound to the inventory class |
| `Registry.InitialTypesTable` | subapis/peripheral.py:425-450 | after import, the registry is exactly two tables: the twelve named kinds bound to their classes, and the ten `minecraft:` names bound to the inventory class |
| `Registry.ModemNotRegistered` | subapis/peripheral.py:425-450 | after import, `modem` is not a registered kind |
| `Registry.TypeRegistry.constructor` | subapis/peripheral.py:425-450 | the twelve explicit calls and then the `minecraft:` loop leave the registry equal to the import-time registrations applied in order |
| `Registry.TypeRegistry.RegisterType` | subapis/peripheral.py:415-416 | binds the kind to the class, overwriting an earlier binding, and leaves every other kind unchanged |
| `Discovery.Wrap` | subapis/peripheral.py:398-412 | `getType` is the first call. The result is "absent" exactly when no kind is reported. `modem` costs exactly one more call, the wireless check, and yields the wireless or wired variant without reading the registry. Any other kind fails exactly when it is unregistered. Every device found gets the handle (`peripheral.call`, [encoded side]) |
| `Discovery.WrapModemBypassesRegistry` | subapis/peripheral.py:406-410 | the outcome and the calls of `wrap` for a `modem` are the same under any two registries, even one that registers `modem` itself |
| `Discovery.Forward` | subapis/peripheral.py:167-170 | the far-side handle keeps the bridge's target expression. Its prepended parameters are the bridge's, followed by exactly [`b'callRemote'`, encoded name] |
| `Discovery.ForwardedCallIsFlat` | subapis/peripheral.py:167-170 | a call through a forwarded proxy is one flat request on the bridge's target: the bridge's parameters, the marker, the far-side name, the method name, then the caller's parameters |
| `Discovery.ForwardKeepsFirstParameter` | subapis/peripheral.py:167-170 | forwarding keeps the bridge's first prepended parameter, which a modem reads as its side |
| `Discovery.ForwardInjective` | subapis/peripheral.py:167-170 | different far-side names give different forwarded handles |
| `Discovery.WrapRemote` | subapis/peripheral.py:159-170 | exactly one call, `getTypeRemote(name)`, through the bridge and never a wireless check. The result is "absent" exactly when no kind is reported. Every kind, `modem` included, fails exactly when it is unregistered. A found device gets the forwarded handle and the registered class |
| `Discovery.RemoteModemIsUnknown` | subapis/peripheral.py:163-170 | with the import-time registry, `wrap` finds a modem on a local side, but `wrapRemote` fails with an unknown kind for a modem behind the bridge |
| `Discovery.WirelessModemScenario` | subapis/peripheral.py:403-408 | a modem on `left` answered wireless gives a wireless proxy after `getType` and the wireless check. Its `isOpen(5)` is the single request `return peripheral.call(...)` with (encoded `left`, encoded `isOpen`, 5) |
| `Discovery.FurnaceBehindBridgeScenario` | subapis/peripheral.py:159-170 | `wrap` on `back` answered wired yields the wired modem on (`peripheral.call`, [encoded `back`]). Through it, `wrapRemote('furnace_0')` sends the single request `return peripheral.call(...)` with (encoded `back`, encoded `getTypeRemote`, encoded `furnace_0`). A `minecraft:furnace` there is an inventory proxy. Its `size()` is one request with (encoded `back`, `b'callRemote'`, encoded `furnace_0`, encoded `size`) |
| `Modem.WrappedModemSide` | subapis/peripheral.py:120-122 | a modem found by `wrap` reads its side as the encoded side it was wrapped on, and so does a proxy forwarded through it |
| `Modem.KeptMatch` | subapis/peripheral.py:132-137 | every event `receive` keeps has the handle's side and the subscribed channel |
| `Modem.KeptCounts` | subapis/peripheral.py:132-137 | each matching event is kept exactly as many times as it arrives, and a non-matching event is never kept |
| `Modem.KeptInOrder` | subapis/peripheral.py:132-137 | the kept events are a subsequence of the stream: arrival order is preserved |
| `Modem.KeptAppend` | subapis/peripheral.py:132-137 | filtering a stream in two pieces gives the same events as filtering it whole |
| `Modem.DeliveredOfKept` | subapis/peripheral.py:132-137 | the delivered messages are exactly `ModemMessage(*evt[2:])` of the kept events, one for one and in the same order |
| `Modem.DeliveredAppend` | subapis/peripheral.py:132-137 | the messages of a stream in two pieces are the messages of the first piece followed by those of the second |
| `Modem.DeliveredStep` | subapis/peripheral.py:132-137 | one more event adds its `ModemMessage(reply_channel, content, distance)` exactly when its side and channel match |
| `Modem.EventStepsReadAndYield` | subapis/peripheral.py:131-137 | one pass of the loop reads exactly its event, and yields exactly its message when the event matches and nothing otherwise |
| `Modem.StepsStep` | subapis/peripheral.py:131-137 | the steps of one more event are the earlier steps followed by that event's read and, if it matches, its yield |
| `Modem.StepsReadAndYield` | subapis/peripheral.py:131-137 | the loop's steps read every event of the stream, in order, and yield exactly the delivered messages, in order |
| `Modem.ProgressStep` | subapis/peripheral.py:131-137 | one more pass of the loop extends the yielded messages and the trace by exactly that event's share |
| `Modem.DrainOutcome` | subapis/peripheral.py:131-139 | a loop that drained the stream, or was abandoned after its last wanted message, yielded exactly what the consumer takes out of all the messages of the stream. An abandoned loop stopped right after reading a matching event |
| `Modem.ChannelRequestsDistinct` | subapis/peripheral.py:102-109 | the `isOpen`, `open` and `close` requests on a channel are pairwise different |
| `Modem.Host.IsOpen` | subapis/peripheral.py:102-103 | sends one `isOpen(channel)` request and answers whether the channel is open on that handle; the open set is unchanged |
| `Modem.Host.Open` | subapis/peripheral.py:105-106 | sends one `open(channel)` request and adds the channel to the handle's open set |
| `Modem.Host.Close` | subapis/peripheral.py:108-109 | sends one `close(channel)` request and removes the channel from the handle's open set |
| `Modem.Host.Iteration` | subapis/peripheral.py:131-137 | appends the read of the event, then its yield exactly when it passes both `continue` filters, and returns that message; the open set is unchanged |
| `Modem.Host.Drain` | subapis/peripheral.py:131-137 | the trace grows by the steps of the events read, in order, and the yielded messages are those of the matching events. The stream is read to its end unless the consumer stops right after its last wanted message |
| `Modem.Host.Receive` | subapis/peripheral.py:124-139 | See the four bullets below the table |

`Modem.Host.Receive`, row by row of its contract:

- A generator that is never advanced sends nothing and reads nothing.
- A busy channel sends only the `isOpen` query and raises "Channel is busy". Nothing is read, opened or closed.
- Otherwise the trace grows by `isOpen`, then `open`, then the steps of the events read, then exactly one `close`. Every message is yielded between the `open` and the `close`, and the open set is back to what it was. This holds when the stream is drained, when the consumer abandons, when the stream fails, and when the handle has no side.
- The messages are those of the events matching the side and channel, in arrival order, cut at the consumer's demand. The stream is read to its end unless the consumer stops. A consumer that stops does so right after its last message, with no further event read. A handle without a side reads one event, fails, and delivers nothing.

## Left out

- The transport (`eval_lua`, `eval_lua_method_factory`): each request is a value, and each remote answer is a parameter. A failed round-trip is not modelled, and neither is a result of the wrong shape, so every call succeeds.
- The code string the `peripheral.` method factory builds for `getType` and the wireless check is not known here. Those requests are `Api(name, args)` values, and no code string is claimed for them.
- `ser.encode` and the `take_*` decoders: an encoded value is an opaque injective tag (`Encoded`). A byte literal written in the source (`b'callRemote'`, `b'isWireless'`) is a separate tag (`Bytes`). Whether `ser.encode('callRemote')` equals `b'callRemote'` depends on the serializer, which is not part of this model.
- `Wire.Arg` covers only the argument forms the modelled operations send: encoded strings, byte literals and integers. `_method(name, *params)` also accepts `None`, lists, raw strings and the results of `ser.nil_encode` and `ser.dirty_encode`, which some one-shot methods pass. Those forms are not modelled.
- `isPresent` and `getNames`: module-level one-shot calls with no logic.
- The per-device one-shot methods (`CCDrive`, `CCMonitor`, `ComputerMixin`, `CCPrinter`, `CCSpeaker`, `CCCommandBlock`, `CCWorkbench`, `CCInventory`, `CCWebDisplay`, `CCNBTObserver`, `CC3dProjector`, `CCManipulator`): each sends one `_method` request. The `take_*` decoding of the answer is not modelled; depending on the method it decodes no value, one value or several. The inventory's `size` appears in a scenario lemma. The modem's `isOpen` is modelled separately as `Modem.Host.IsOpen`.
- The other one-shot modem methods: `closeAll`, `transmit`, `isWireless`, `getNameLocal`, `getNamesRemote` and `isPresentRemote`. `getTypeRemote` is modelled only as the request that `wrapRemote` sends.
- `TermMixin`, `TermTarget` and `get_term_target`: Lua string formatting through helpers that are not part of this model.
- `captureEvent`: its blocking and its sharing of one stream with other consumers. The stream is a finite sequence of five-field `modem_message` events that ends normally or with an error. An event of another arity, which would make `ModemMessage(*evt[2:])` raise, is not modelled.
- The side carried by a real `modem_message` event. `receive` compares the event's first field with `_side`, which for a modem found by `wrap` is the encoded side, and the model makes the same comparison. Whether the event stream reports the side in the form `ser.encode` produces depends on the serializer and on `captureEvent`, neither of which is part of this model. The filtering lemmas therefore say which events are kept for a given side value. They do not prove that real events for that side carry that value.
- `LuaNum` distances and message bodies are opaque `Value`s.
- Exceptions a consumer throws into the generator are not modelled. Abandonment is the consumer closing the generator right after its last message.
- `Modem.Host.Receive`: the host's open set is the only source of the `isOpen` answer. A channel opened by another controller between the check and the `open` is not modelled. Open channels are keyed by handle, so two different handles that reach the same physical modem have separate channel sets.
- Third-party proxy classes are the tag `ThirdParty(name)`. The model does not check that a registered class is a `BasePeripheral`.
- `Discovery.WrapRemote` takes the bridge's handle. The source defines the method only on `CCWiredModem`, and the model does not restate that class restriction.
