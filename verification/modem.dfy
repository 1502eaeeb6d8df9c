/** The modem proxy's channel operations and its channel subscription `receive`
    (subapis/peripheral.py:94-139).

    The remote host is the set of channels open on each modem handle, and the subscription's
    history is a trace of the requests sent, the events read and the messages yielded.
    The shared event stream is a finite sequence of `modem_message` events that may end
    normally or with an error; the consumer either drains the subscription or abandons it
    after a number of messages. */
module Modem {
  import opened Wire
  import opened Calls
  import opened Discovery

  /** A value the model only passes along (a message body, a distance). */
  datatype Value = Value(token: nat)

  /** A `modem_message` event: side, channel, reply channel, message, distance. */
  datatype Event = Event(side: Arg, channel: int, replyChannel: int, content: Value, distance: Value)

  /** `ModemMessage(reply_channel, content, distance)`. */
  datatype ModemMessage = ModemMessage(replyChannel: int, content: Value, distance: Value)

  /** `ModemMessage(*evt[2:])`. */
  function ToMessage(e: Event): ModemMessage
  {
    ModemMessage(e.replyChannel, e.content, e.distance)
  }

  /** `ModemMixin._side`: the first prepended parameter (an `IndexError` when there is none). */
  function Side(h: Handle): Option<Arg>
  {
    if h.prepend == [] then None else Some(h.prepend[0])
  }

  /** A modem found by `wrap` filters events by the encoded side it was wrapped on, and a
      proxy forwarded through it keeps that side. */
  lemma WrappedModemSide(types: map<string, Registry.Kind>, side: string, wireless: bool, name: string)
    ensures var d := Wrap(types, side, Some("modem"), wireless);
            && d.outcome.Found? && d.outcome.proxy.Some?
            && Side(d.outcome.proxy.value.handle) == Some(Encoded(side))
            && Side(Forward(d.outcome.proxy.value.handle, name)) == Some(Encoded(side))
  {
  }

  /** The two `continue` filters of `receive`, negated. */
  predicate Matches(e: Event, side: Arg, channel: int)
  {
    e.side == side && e.channel == channel
  }

  /** The events `receive` keeps, in arrival order. */
  function Kept(events: seq<Event>, side: Arg, channel: int): seq<Event>
  {
    if events == [] then []
    else (if Matches(events[0], side, channel) then [events[0]] else []) + Kept(events[1..], side, channel)
  }

  /** The messages a subscription would deliver if it drained the stream. */
  function Delivered(events: seq<Event>, side: Arg, channel: int): seq<ModemMessage>
  {
    if events == [] then []
    else (if Matches(events[0], side, channel) then [ToMessage(events[0])] else []) + Delivered(events[1..], side, channel)
  }

  /** `x` occurs in `y` in the same order, possibly with gaps. */
  predicate IsSubsequence<T(==)>(x: seq<T>, y: seq<T>)
  {
    || x == []
    || (y != [] && ((x[0] == y[0] && IsSubsequence(x[1..], y[1..])) || IsSubsequence(x, y[1..])))
  }

  /** Every kept event is on the subscription's side and channel. */
  lemma {:induction false} KeptMatch(events: seq<Event>, side: Arg, channel: int)
    ensures forall e | e in Kept(events, side, channel) :: Matches(e, side, channel)
  {
    if events != [] {
      KeptMatch(events[1..], side, channel);
    }
  }

  /** Each matching event is kept as often as it arrives, and no other event is kept. */
  lemma {:induction false} KeptCounts(events: seq<Event>, side: Arg, channel: int, e: Event)
    ensures multiset(Kept(events, side, channel))[e] == if Matches(e, side, channel) then multiset(events)[e] else 0
  {
    if events != [] {
      KeptCounts(events[1..], side, channel, e);
      assert events == [events[0]] + events[1..];
    }
  }

  /** Kept events keep their arrival order. */
  lemma {:induction false} KeptInOrder(events: seq<Event>, side: Arg, channel: int)
    ensures IsSubsequence(Kept(events, side, channel), events)
  {
    if events != [] {
      KeptInOrder(events[1..], side, channel);
      var rest := Kept(events[1..], side, channel);
      if Matches(events[0], side, channel) {
        assert Kept(events, side, channel) == [events[0]] + rest;
        assert ([events[0]] + rest)[1..] == rest;
      } else {
        assert Kept(events, side, channel) == rest;
      }
    }
  }

  /** Filtering a stream in two pieces is filtering it whole. */
  lemma {:induction false} KeptAppend(a: seq<Event>, b: seq<Event>, side: Arg, channel: int)
    ensures Kept(a + b, side, channel) == Kept(a, side, channel) + Kept(b, side, channel)
  {
    if a == [] {
      assert a + b == b;
    } else {
      var head := if Matches(a[0], side, channel) then [a[0]] else [];
      calc {
        Kept(a + b, side, channel);
        { assert (a + b)[0] == a[0]; }
        head + Kept((a + b)[1..], side, channel);
        { assert (a + b)[1..] == a[1..] + b; }
        head + Kept(a[1..] + b, side, channel);
        { KeptAppend(a[1..], b, side, channel); }
        head + (Kept(a[1..], side, channel) + Kept(b, side, channel));
        Kept(a, side, channel) + Kept(b, side, channel);
      }
    }
  }

  /** The delivered messages are the messages of the kept events, one for one. */
  lemma {:induction false} DeliveredOfKept(events: seq<Event>, side: Arg, channel: int)
    ensures |Delivered(events, side, channel)| == |Kept(events, side, channel)|
    ensures forall i | 0 <= i < |Kept(events, side, channel)| ::
              Delivered(events, side, channel)[i] == ToMessage(Kept(events, side, channel)[i])
  {
    if events != [] {
      DeliveredOfKept(events[1..], side, channel);
    }
  }

  /** The messages of a stream in two pieces are the messages of each piece, in order. */
  lemma {:induction false} DeliveredAppend(a: seq<Event>, b: seq<Event>, side: Arg, channel: int)
    ensures Delivered(a + b, side, channel) == Delivered(a, side, channel) + Delivered(b, side, channel)
  {
    if a == [] {
      assert a + b == b;
    } else {
      var head := if Matches(a[0], side, channel) then [ToMessage(a[0])] else [];
      calc {
        Delivered(a + b, side, channel);
        { assert (a + b)[0] == a[0]; }
        head + Delivered((a + b)[1..], side, channel);
        { assert (a + b)[1..] == a[1..] + b; }
        head + Delivered(a[1..] + b, side, channel);
        { DeliveredAppend(a[1..], b, side, channel); }
        head + (Delivered(a[1..], side, channel) + Delivered(b, side, channel));
        Delivered(a, side, channel) + Delivered(b, side, channel);
      }
    }
  }

  /** One more event adds its message exactly when it matches. */
  lemma DeliveredStep(events: seq<Event>, i: nat, side: Arg, channel: int)
    requires i < |events|
    ensures Delivered(events[..i + 1], side, channel)
         == Delivered(events[..i], side, channel)
            + (if Matches(events[i], side, channel) then [ToMessage(events[i])] else [])
  {
    assert events[..i + 1] == events[..i] + [events[i]];
    DeliveredAppend(events[..i], [events[i]], side, channel);
    assert Kept([events[i]], side, channel)
        == (if Matches(events[i], side, channel) then [events[i]] else []) + Kept([], side, channel);
  }

  /** How much the consumer takes: everything, or `count` messages before abandoning. */
  datatype Demand = TakeAll | Take(count: nat)

  /** How a subscription ended. */
  datatype Exit =
    | NotStarted     // the generator was never advanced: no remote call at all
    | ChannelBusy    // `Exception('Channel is busy')`
    | Abandoned      // the consumer stopped after its last message
    | Exhausted      // the event stream ended
    | StreamFailed   // the event stream raised
    | NoSide         // `_side` raised `IndexError`: the handle has no prepended parameter

  /** The messages a consumer with `demand` receives out of `all`. */
  function Taken(demand: Demand, all: seq<ModemMessage>): seq<ModemMessage>
  {
    if demand.Take? && demand.count < |all| then all[..demand.count] else all
  }

  /** How a started subscription with a side ends, given how many messages match. */
  function EndOf(demand: Demand, matching: nat, streamFails: bool): Exit
  {
    if demand.Take? && demand.count <= matching then Abandoned
    else if streamFails then StreamFailed
    else Exhausted
  }

  function IsOpenRequest(h: Handle, channel: int): Request
  {
    MethodRequest(h, "isOpen", [Int(channel)])
  }

  function OpenRequest(h: Handle, channel: int): Request
  {
    MethodRequest(h, "open", [Int(channel)])
  }

  function CloseRequest(h: Handle, channel: int): Request
  {
    MethodRequest(h, "close", [Int(channel)])
  }

  /** The three channel requests differ from one another, so a trace shows which was sent. */
  lemma ChannelRequestsDistinct(h: Handle, channel: int)
    ensures IsOpenRequest(h, channel) != OpenRequest(h, channel)
    ensures IsOpenRequest(h, channel) != CloseRequest(h, channel)
    ensures OpenRequest(h, channel) != CloseRequest(h, channel)
  {
  }

  /** One observable step of a subscription: a request sent to the host, an event taken
      from the stream, or a message handed to the consumer. */
  datatype Step = Sent(request: Request) | Read(event: Event) | Yielded(message: ModemMessage)

  /** The steps of one loop iteration of `receive`: the event is read, and its message is
      yielded when it matches. */
  function EventSteps(e: Event, side: Arg, channel: int): seq<Step>
  {
    [Read(e)] + (if Matches(e, side, channel) then [Yielded(ToMessage(e))] else [])
  }

  /** The steps of the loop of `receive` over `events`, in order. */
  function Steps(events: seq<Event>, side: Arg, channel: int): seq<Step>
    decreases |events|
  {
    if events == [] then []
    else Steps(events[..|events| - 1], side, channel) + EventSteps(events[|events| - 1], side, channel)
  }

  /** The events read in a trace, in order. */
  function Reads(steps: seq<Step>): seq<Event>
  {
    if steps == [] then []
    else (if steps[0].Read? then [steps[0].event] else []) + Reads(steps[1..])
  }

  /** The messages yielded in a trace, in order. */
  function Yields(steps: seq<Step>): seq<ModemMessage>
  {
    if steps == [] then []
    else (if steps[0].Yielded? then [steps[0].message] else []) + Yields(steps[1..])
  }

  lemma {:induction false} ReadsAppend(a: seq<Step>, b: seq<Step>)
    ensures Reads(a + b) == Reads(a) + Reads(b)
  {
    if a == [] {
      assert a + b == b;
    } else {
      assert (a + b)[0] == a[0];
      assert (a + b)[1..] == a[1..] + b;
      ReadsAppend(a[1..], b);
    }
  }

  lemma {:induction false} YieldsAppend(a: seq<Step>, b: seq<Step>)
    ensures Yields(a + b) == Yields(a) + Yields(b)
  {
    if a == [] {
      assert a + b == b;
    } else {
      assert (a + b)[0] == a[0];
      assert (a + b)[1..] == a[1..] + b;
      YieldsAppend(a[1..], b);
    }
  }

  /** One more event adds its read, and its message when it matches. */
  lemma StepsStep(events: seq<Event>, i: nat, side: Arg, channel: int)
    requires i < |events|
    ensures Steps(events[..i + 1], side, channel) == Steps(events[..i], side, channel) + EventSteps(events[i], side, channel)
  {
    assert events[..i + 1][..i] == events[..i];
  }

  /** One iteration reads its event, and yields its message exactly when it matches. */
  lemma EventStepsReadAndYield(e: Event, side: Arg, channel: int)
    ensures Reads(EventSteps(e, side, channel)) == [e]
    ensures Yields(EventSteps(e, side, channel)) == if Matches(e, side, channel) then [ToMessage(e)] else []
  {
    if Matches(e, side, channel) {
      var m := Yielded(ToMessage(e));
      assert EventSteps(e, side, channel) == [Read(e), m];
      assert [Read(e), m][1..] == [m];
      assert [m][1..] == [];
      assert Reads([m]) == [] && Yields([m]) == [ToMessage(e)];
    } else {
      assert EventSteps(e, side, channel) == [Read(e)];
      assert [Read(e)][1..] == [];
    }
  }

  /** The loop reads every event of the stream, in order, and yields exactly the messages
      the filter delivers, in order. */
  lemma {:induction false} StepsReadAndYield(events: seq<Event>, side: Arg, channel: int)
    ensures Reads(Steps(events, side, channel)) == events
    ensures Yields(Steps(events, side, channel)) == Delivered(events, side, channel)
    decreases |events|
  {
    if events != [] {
      var n := |events| - 1;
      var init, last := events[..n], events[n];
      StepsReadAndYield(init, side, channel);
      ReadsAppend(Steps(init, side, channel), EventSteps(last, side, channel));
      YieldsAppend(Steps(init, side, channel), EventSteps(last, side, channel));
      EventStepsReadAndYield(last, side, channel);
      DeliveredStep(events, n, side, channel);
      assert events[..n + 1] == events;
      assert init + [last] == events;
    }
  }

  /** After `i` events the loop has yielded `msgs`, and the trace is `start` followed by
      the steps of those events. */
  predicate Progress(events: seq<Event>, i: nat, side: Arg, channel: int, msgs: seq<ModemMessage>,
                     start: seq<Step>, trace: seq<Step>)
    requires i <= |events|
  {
    msgs == Delivered(events[..i], side, channel) && trace == start + Steps(events[..i], side, channel)
  }

  /** The consumer has all it wanted, and the last event read was the last one it wanted. */
  predicate Satisfied(events: seq<Event>, i: nat, side: Arg, channel: int, demand: Demand, msgs: seq<ModemMessage>)
    requires i <= |events|
  {
    0 < i && Matches(events[i - 1], side, channel) && demand == Take(|msgs|)
  }

  /** One pass of the loop keeps `Progress`. */
  lemma ProgressStep(events: seq<Event>, i: nat, side: Arg, channel: int, msgs: seq<ModemMessage>,
                     start: seq<Step>, trace: seq<Step>, msg: Option<ModemMessage>)
    requires i < |events| && Progress(events, i, side, channel, msgs, start, trace)
    requires msg == if Matches(events[i], side, channel) then Some(ToMessage(events[i])) else None
    ensures Progress(events, i + 1, side, channel, if msg.Some? then msgs + [msg.value] else msgs,
                     start, trace + EventSteps(events[i], side, channel))
  {
    StepsStep(events, i, side, channel);
    DeliveredStep(events, i, side, channel);
    var done := Steps(events[..i], side, channel);
    assert start + done + EventSteps(events[i], side, channel) == start + (done + EventSteps(events[i], side, channel));
  }

  /** What a drained or abandoned loop delivered is what the consumer takes out of all
      the messages of the stream, and an abandoned loop stopped right after a message. */
  lemma DrainOutcome(events: seq<Event>, consumed: nat, side: Arg, channel: int, demand: Demand,
                     msgs: seq<ModemMessage>, abandoned: bool, start: seq<Step>, trace: seq<Step>)
    requires consumed <= |events|
    requires Progress(events, consumed, side, channel, msgs, start, trace)
    requires abandoned ==> Satisfied(events, consumed, side, channel, demand, msgs)
    requires !abandoned ==> consumed == |events| && (demand.Take? ==> |msgs| < demand.count)
    ensures trace == start + Steps(events[..consumed], side, channel)
    ensures msgs == Delivered(events[..consumed], side, channel)
    ensures msgs == Taken(demand, Delivered(events, side, channel))
    ensures abandoned ==> demand.Take? && demand.count <= |Delivered(events, side, channel)|
    ensures abandoned ==> 0 < consumed && Matches(events[consumed - 1], side, channel)
  {
    if abandoned {
      assert events == events[..consumed] + events[consumed..];
      DeliveredAppend(events[..consumed], events[consumed..], side, channel);
    } else {
      assert events[..consumed] == events;
    }
  }

  /** The remote host as seen through the modem proxies: the channels open on each modem
      handle, and the trace of what the controller has sent, read and yielded. */
  class Host {
    var trace: seq<Step>
    var openChannels: set<(Handle, int)>

    constructor (initiallyOpen: set<(Handle, int)>)
      ensures trace == [] && openChannels == initiallyOpen
    {
      trace := [];
      openChannels := initiallyOpen;
    }

    /** `isOpen(channel)`. */
    method IsOpen(h: Handle, channel: int) returns (open: bool)
      modifies this
      ensures trace == old(trace) + [Sent(IsOpenRequest(h, channel))]
      ensures openChannels == old(openChannels)
      ensures open <==> (h, channel) in openChannels
    {
      trace := trace + [Sent(IsOpenRequest(h, channel))];
      open := (h, channel) in openChannels;
    }

    /** `open(channel)`. */
    method Open(h: Handle, channel: int)
      modifies this
      ensures trace == old(trace) + [Sent(OpenRequest(h, channel))]
      ensures openChannels == old(openChannels) + {(h, channel)}
    {
      trace := trace + [Sent(OpenRequest(h, channel))];
      openChannels := openChannels + {(h, channel)};
    }

    /** `close(channel)`. */
    method Close(h: Handle, channel: int)
      modifies this
      ensures trace == old(trace) + [Sent(CloseRequest(h, channel))]
      ensures openChannels == old(openChannels) - {(h, channel)}
    {
      trace := trace + [Sent(CloseRequest(h, channel))];
      openChannels := openChannels - {(h, channel)};
    }

    /** One pass of the `for` loop of `receive`: the event is read, the two `continue`
        filters are applied, and a matching event's message is yielded. */
    method Iteration(evt: Event, side: Arg, channel: int) returns (msg: Option<ModemMessage>)
      modifies this
      ensures trace == old(trace) + EventSteps(evt, side, channel)
      ensures openChannels == old(openChannels)
      ensures msg == if Matches(evt, side, channel) then Some(ToMessage(evt)) else None
    {
      trace := trace + [Read(evt)];
      if evt.side != side {
        return None;
      }
      if evt.channel != channel {
        return None;
      }
      var m := ToMessage(evt);
      trace := trace + [Yielded(m)];
      return Some(m);
    }

    /** The `try` block of `receive` (its `for` loop) on a handle whose `_side` is `side`,
        run until the stream ends or the consumer stops after its last wanted message.
        `consumed` is how many events were read. */
    method Drain(side: Arg, channel: int, events: seq<Event>, demand: Demand, streamFails: bool)
      returns (msgs: seq<ModemMessage>, exit: Exit, consumed: nat)
      requires demand != Take(0)
      modifies this
      ensures consumed <= |events|
      ensures openChannels == old(openChannels)
      // every event read and every message yielded, in order
      ensures Progress(events, consumed, side, channel, msgs, old(trace), trace)
      // the stream is read to its end unless the consumer stops right after a message
      ensures exit == Abandoned ==> Satisfied(events, consumed, side, channel, demand, msgs)
      ensures exit != Abandoned ==> consumed == |events| && exit == (if streamFails then StreamFailed else Exhausted)
      ensures exit != Abandoned && demand.Take? ==> |msgs| < demand.count
    {
      msgs := [];
      ghost var start := trace;
      var i, stopped := 0, false;
      while i < |events| && !stopped
        invariant 0 <= i <= |events|
        invariant openChannels == old(openChannels)
        invariant Progress(events, i, side, channel, msgs, start, trace)
        invariant stopped ==> Satisfied(events, i, side, channel, demand, msgs)
        invariant !stopped && demand.Take? ==> |msgs| < demand.count
        decreases |events| - i
      {
        ghost var before := trace;
        var msg := Iteration(events[i], side, channel);
        ProgressStep(events, i, side, channel, msgs, start, before, msg);
        i := i + 1;
        if msg.Some? {
          msgs := msgs + [msg.value];
          // the consumer closes the generator once it has the messages it wanted
          stopped := demand.Take? && |msgs| == demand.count;
        }
      }
      consumed := i;
      exit := if stopped then Abandoned else if streamFails then StreamFailed else Exhausted;
    }

    /** `receive(channel)` driven to its end: the busy-check, `open`, the loop that reads
        events and yields the matching messages, and one `close` on every exit after the
        open. `consumed` is how many events were read. */
    method Receive(h: Handle, channel: int, events: seq<Event>, demand: Demand, streamFails: bool)
      returns (msgs: seq<ModemMessage>, exit: Exit, consumed: nat)
      modifies this
      ensures consumed <= |events|
      // a generator that is never advanced does nothing
      ensures demand == Take(0) ==>
                && msgs == [] && exit == NotStarted && consumed == 0
                && trace == old(trace) && openChannels == old(openChannels)
      // a busy channel: only the status query, then the error; nothing read, opened or closed
      ensures demand != Take(0) && (h, channel) in old(openChannels) ==>
                && msgs == [] && exit == ChannelBusy && consumed == 0
                && trace == old(trace) + [Sent(IsOpenRequest(h, channel))]
                && openChannels == old(openChannels)
      // otherwise the channel is released again at the end
      ensures demand != Take(0) && (h, channel) !in old(openChannels) ==> openChannels == old(openChannels)
      // with a side: query, open, then every event read and every message yielded, then close
      ensures demand != Take(0) && (h, channel) !in old(openChannels) && Side(h).Some? ==>
                trace == old(trace) + [Sent(IsOpenRequest(h, channel)), Sent(OpenRequest(h, channel))]
                         + Steps(events[..consumed], Side(h).value, channel)
                         + [Sent(CloseRequest(h, channel))]
      // the messages: those of the matching events, in order, up to the consumer's demand;
      // the stream is read to its end unless the consumer stops right after a message
      ensures demand != Take(0) && (h, channel) !in old(openChannels) && Side(h).Some? ==>
                var all := Delivered(events, Side(h).value, channel);
                && msgs == Taken(demand, all) && exit == EndOf(demand, |all|, streamFails)
                && msgs == Delivered(events[..consumed], Side(h).value, channel)
                && (exit == Abandoned ==> 0 < consumed && Matches(events[consumed - 1], Side(h).value, channel))
                && (exit != Abandoned ==> consumed == |events|)
      // no side: the first event read raises inside the `try`, before any message
      ensures demand != Take(0) && (h, channel) !in old(openChannels) && Side(h).None? ==>
                && msgs == [] && exit == (if events != [] then NoSide else EndOf(demand, 0, streamFails))
                && consumed == (if events != [] then 1 else 0)
                && trace == old(trace) + [Sent(IsOpenRequest(h, channel)), Sent(OpenRequest(h, channel))]
                            + (if events != [] then [Read(events[0])] else [])
                            + [Sent(CloseRequest(h, channel))]
    {
      msgs, consumed := [], 0;
      if demand == Take(0) {
        exit := NotStarted;
        return;
      }
      var busy := IsOpen(h, channel);
      if busy {
        exit := ChannelBusy;
        return;
      }
      Open(h, channel);
      var side := Side(h);
      if side.None? {
        // `_side` raises `IndexError` as soon as the first event is read
        exit := if streamFails then StreamFailed else Exhausted;
        if events != [] {
          trace := trace + [Read(events[0])];
          exit, consumed := NoSide, 1;
        }
      } else {
        ghost var afterOpen := trace;
        msgs, exit, consumed := Drain(side.value, channel, events, demand, streamFails);
        DrainOutcome(events, consumed, side.value, channel, demand, msgs, exit == Abandoned, afterOpen, trace);
      }
      Close(h, channel);
    }
  }
}
