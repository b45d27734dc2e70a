/** The notification loop of one observation (resource_handler.rs, `do_handle`): wait for a
    termination or a change, re-run the handler, send the result reliably, repeat. */
module NotificationLoop {
  import opened ObserveHandler
  import opened Packets
  import opened Registry
  import opened U24
  import opened Wrappers

  datatype StopReason = TerminationSignal | HandlerFailed(error: CoapError) | SendFailed

  /** Inside `select!`; between `changed()` and `borrow()`; re-running the handler for a change;
      awaiting the reliable send; or out of the loop. */
  datatype Pc =
    | Selecting
    | Woken
    | Generating(num: u24)
    | Sending
    | Stopped(reason: StopReason)

  /** A notification: the change number it is about, the Observe value the handler set, if any, and
      the packet handed to `send_reliably`. */
  datatype Notification = Notification(num: u24, own: Option<u32>, packet: Packet)

  datatype LoopState = LoopState(pc: Pc, sent: seq<Notification>)

  /** What the environment decides: the branch `select!` picks, the value borrowed, the outcome of
      the handler, the outcome of the send. */
  datatype LoopEvent =
    | Terminated
    | Changed
    | Borrowed(state: NotificationState)
    | HandlerReturned(response: Result<Packet, CoapError>)
    | SendReturned(ok: bool)

  predicate LoopFits(pc: Pc, e: LoopEvent) {
    match pc
    case Selecting => e.Terminated? || e.Changed?
    case Woken => e.Borrowed?
    case Generating(_) => e.HandlerReturned?
    case Sending => e.SendReturned?
    case Stopped(_) => false
  }

  /** A response made Confirmable and, unless the handler numbered it itself, given the number. */
  function Numbered(response: Packet, num: u24): (packet: Packet)
    ensures packet.kind == Confirmable
    ensures packet.observe == Some(if response.observe.Some? then response.observe.value else num)
    ensures packet.code == response.code && packet.messageId == response.messageId
    ensures packet.payload == response.payload && packet.token == response.token
  {
    response.(kind := Confirmable, observe := if response.observe.None? then Some(num) else response.observe)
  }

  function LoopStep(s: LoopState, e: LoopEvent): LoopState
    requires LoopFits(s.pc, e)
  {
    match e
    case Terminated => s.(pc := Stopped(TerminationSignal))
    case Changed => s.(pc := Woken)
    case Borrowed(InitialSequence(_)) => s.(pc := Selecting)
    case Borrowed(ResourceChanged(num)) => s.(pc := Generating(num))
    case HandlerReturned(Err(error)) => s.(pc := Stopped(HandlerFailed(error)))
    case HandlerReturned(Ok(response)) =>
      LoopState(Sending, s.sent + [Notification(s.pc.num, response.observe, Numbered(response, s.pc.num))])
    case SendReturned(ok) => s.(pc := if ok then Selecting else Stopped(SendFailed))
  }

  predicate LoopPlays(script: seq<LoopEvent>)
    decreases |script|, 0
  {
    script != [] ==>
      var last := |script| - 1;
      LoopPlays(script[..last]) && LoopFits(LoopRun(script[..last]).pc, script[last])
  }

  function LoopRun(script: seq<LoopEvent>): LoopState
    requires LoopPlays(script)
    decreases |script|, 1
  {
    if script == [] then LoopState(Selecting, [])
    else
      var last := |script| - 1;
      LoopStep(LoopRun(script[..last]), script[last])
  }

  lemma {:induction false} LoopPlaysPrefix(script: seq<LoopEvent>, n: nat)
    requires n <= |script| && LoopPlays(script)
    ensures LoopPlays(script[..n])
    decreases |script|
  {
    if n < |script| {
      var shorter := script[..|script| - 1];
      LoopPlaysPrefix(shorter, n);
      assert shorter[..n] == script[..n];
    } else {
      assert script[..n] == script;
    }
  }

  /** The state after the first `n` events. */
  ghost function LoopAfter(script: seq<LoopEvent>, n: nat): LoopState
    requires n <= |script| && LoopPlays(script)
  {
    LoopPlaysPrefix(script, n);
    LoopRun(script[..n])
  }

  lemma LoopAfterStep(script: seq<LoopEvent>, n: nat)
    requires n < |script| && LoopPlays(script)
    ensures LoopFits(LoopAfter(script, n).pc, script[n])
    ensures LoopAfter(script, n + 1) == LoopStep(LoopAfter(script, n), script[n])
  {
    LoopPlaysPrefix(script, n + 1);
    assert script[..n + 1][..n] == script[..n];
  }

  lemma LoopAfterAll(script: seq<LoopEvent>)
    requires LoopPlays(script)
    ensures LoopAfter(script, |script|) == LoopRun(script)
  {
    assert script[..|script|] == script;
  }

  /** Where the loop stands is decided by the last event, and says which it was: a termination stops
      it, a handler's error or a failed send too; a send that succeeds leads back to waiting. */
  lemma LastEventDecides(script: seq<LoopEvent>)
    requires LoopPlays(script) && script != []
    ensures var pc, last := LoopRun(script).pc, script[|script| - 1];
            && (pc == Stopped(TerminationSignal) <==> last == Terminated)
            && (pc == Stopped(SendFailed) <==> last == SendReturned(false))
            && (forall error :: pc == Stopped(HandlerFailed(error)) <==> last == HandlerReturned(Err(error)))
            && (pc == Sending <==> last.HandlerReturned? && last.response.Ok?)
            && (forall num :: pc == Generating(num) <==> last == Borrowed(ResourceChanged(num)))
            && (pc == Woken <==> last == Changed)
            && (pc == Selecting <==> last == SendReturned(true) || (last.Borrowed? && last.state.InitialSequence?))
  {
  }

  /** One notification for every response of the handler, in order, numbered with the change that was
      borrowed just before; and none for anything else. */
  lemma NotifiesEachResponse(script: seq<LoopEvent>)
    requires LoopPlays(script) && script != []
    ensures var n, before := |script| - 1, script[..|script| - 1];
            LoopPlays(before)
            && if script[n].HandlerReturned? && script[n].response.Ok? then
                 && n > 0 && script[n - 1].Borrowed? && script[n - 1].state.ResourceChanged?
                 && var num, response := script[n - 1].state.num, script[n].response.value;
                    LoopRun(script).sent ==
                    LoopRun(before).sent + [Notification(num, response.observe, Numbered(response, num))]
               else LoopRun(script).sent == LoopRun(before).sent
  {
    var before := script[..|script| - 1];
    if before != [] {
      LastEventDecides(before);
    }
  }

  /** The loop itself.  When the script ends first, the loop is still where `pc` says. */
  method RunNotifications(script: seq<LoopEvent>) returns (pc: Pc, sent: seq<Notification>)
    requires LoopPlays(script)
    ensures LoopRun(script) == LoopState(pc, sent)
  {
    sent := [];
    var cursor := 0;
    LoopAfterAll(script);
    while cursor < |script|
      invariant 0 <= cursor <= |script|
      invariant LoopAfter(script, cursor) == LoopState(Selecting, sent)
      decreases |script| - cursor
    {
      LoopAfterStep(script, cursor);
      if script[cursor].Terminated? {
        if cursor + 1 < |script| {
          LoopAfterStep(script, cursor + 1);
        }
        return Stopped(TerminationSignal), sent;
      }
      cursor := cursor + 1;
      if cursor == |script| {
        return Woken, sent;
      }
      LoopAfterStep(script, cursor);
      var state := script[cursor].state;
      cursor := cursor + 1;
      match state {
        case InitialSequence(_) =>
        case ResourceChanged(num) =>
          if cursor == |script| {
            return Generating(num), sent;
          }
          LoopAfterStep(script, cursor);
          var response := script[cursor].response;
          cursor := cursor + 1;
          if response.Err? {
            if cursor < |script| {
              LoopAfterStep(script, cursor);
            }
            return Stopped(HandlerFailed(response.error)), sent;
          }
          var packet := response.value.(kind := Confirmable);
          if packet.observe.None? {
            packet := packet.(observe := Some(num));
          }
          sent := sent + [Notification(num, response.value.observe, packet)];
          if cursor == |script| {
            return Sending, sent;
          }
          LoopAfterStep(script, cursor);
          var ok := script[cursor].ok;
          cursor := cursor + 1;
          if !ok {
            if cursor < |script| {
              LoopAfterStep(script, cursor);
            }
            return Stopped(SendFailed), sent;
          }
      }
    }
    pc := Selecting;
  }

  /** The registration: what becomes of the table, of the response, and whether a loop follows. */
  method MaybeHandleObserveRegistration(observe: ObserveHandler, request: CoapRequest, response: Packet, first: u24)
    returns (result: Result<bool, CoapError>, answer: Packet)
    requires observe.Valid()
    modifies observe.Footprint()
    ensures observe.Valid()
    ensures request.observeFlag.None? ==>
              result == Ok(false) && answer == response && observe.View() == old(observe.View())
    ensures request.observeFlag.Some? && request.observeFlag.value.Err? ==>
              result == Err(BadRequest) && observe.View() == old(observe.View())
    ensures request.observeFlag.Some? && request.observeFlag.value.Ok? && request.source.None? ==>
              result == Err(InternalError) && observe.View() == old(observe.View())
    ensures request.observeFlag == Some(Ok(RegisterFlag)) && request.source.Some? ==>
              var key := RegistrationKey(request.source.value, request.token);
              && result == Ok(true)
              && observe.View() == old(Register(observe.View(), request.path, key, first))
              && Registers(old(observe.View()), observe.View(), request.path, key, first)
              && answer.(observe := response.observe) == response
              && request.path in observe.View().byPath
              && answer.observe == Some(if response.observe.Some? then response.observe.value
                                        else NumberOf(observe.View(), request.path))
    ensures request.observeFlag == Some(Ok(DeregisterFlag)) && request.source.Some? ==>
              var key := RegistrationKey(request.source.value, request.token);
              && result == Ok(false) && answer == response
              && observe.View() == old(Deregister(observe.View(), request.path, key))
              && Deregisters(old(observe.View()), observe.View(), request.path, key)
  {
    answer := response;
    var registration, sequence, spawned;
    registration, sequence, spawned := observe.MaybeProcessRegistration(WithResponse(request, response), first);
    if registration.Err? {
      return Err(registration.error), response;
    }
    if registration.value.RegisteredWith? {
      answer := response.(observe := sequence);
    }
    result := Ok(registration.value.RegisteredWith?);
  }

  /** The loop as `do_handle` ends with it: a handler error leaves it through `?`, every other way of
      stopping is a success. */
  method Notifications(script: seq<LoopEvent>) returns (result: Result<Option<Pc>, CoapError>, sent: seq<Notification>)
    requires LoopPlays(script)
    ensures LoopRun(script).sent == sent
    ensures var pc := LoopRun(script).pc;
            if pc.Stopped? && pc.reason.HandlerFailed? then result == Err(pc.reason.error) else result == Ok(Some(pc))
  {
    var pc;
    pc, sent := RunNotifications(script);
    result := if pc.Stopped? && pc.reason.HandlerFailed? then Err(pc.reason.error) else Ok(Some(pc));
  }

  /** What a request to an observable resource leads to, for a given first response: errors leave the
      table alone, and are all there is; a registration is followed by the loop; otherwise the
      response goes out and nothing follows. */
  ghost predicate Handled(request: CoapRequest, response: Packet, first: u24, script: seq<LoopEvent>,
                          before: Registry, after: Registry,
                          result: Result<Option<Pc>, CoapError>, answer: Option<Packet>, sent: seq<Notification>)
    requires WellFormed(before) && LoopPlays(script)
  {
    && (request.observeFlag.None? ==>
          result == Ok(None) && answer == Some(response) && sent == [] && after == before)
    && (request.observeFlag.Some? && request.observeFlag.value.Err? ==>
          result == Err(BadRequest) && answer == None && sent == [] && after == before)
    && (request.observeFlag.Some? && request.observeFlag.value.Ok? && request.source.None? ==>
          result == Err(InternalError) && answer == None && sent == [] && after == before)
    && (request.observeFlag == Some(Ok(RegisterFlag)) && request.source.Some? ==>
          && after == Register(before, request.path, RegistrationKey(request.source.value, request.token), first)
          && answer.Some? && answer.value.(observe := response.observe) == response
          && answer.value.observe.Some? && (response.observe.Some? ==> answer == Some(response))
          && LoopRun(script).sent == sent
          && var pc := LoopRun(script).pc;
             if pc.Stopped? && pc.reason.HandlerFailed? then result == Err(pc.reason.error)
             else result == Ok(Some(pc)))
    && (request.observeFlag == Some(Ok(DeregisterFlag)) && request.source.Some? ==>
          && result == Ok(None) && answer == Some(response) && sent == []
          && after == Deregister(before, request.path, RegistrationKey(request.source.value, request.token)))
  }

  /** From the registration on. */
  method RegisterAndNotify(observe: ObserveHandler, request: CoapRequest, prepared: Packet,
                           first: u24, script: seq<LoopEvent>)
    returns (result: Result<Option<Pc>, CoapError>, answer: Option<Packet>, sent: seq<Notification>)
    requires observe.Valid() && LoopPlays(script)
    modifies observe.Footprint()
    ensures observe.Valid()
    ensures Handled(request, prepared, first, script, old(observe.View()), observe.View(), result, answer, sent)
  {
    var registration, response := MaybeHandleObserveRegistration(observe, request, prepared, first);
    if registration.Err? {
      return Err(registration.error), None, [];
    }
    answer, result, sent := Some(response), Ok(None), [];
    if registration.value {
      ghost var view := observe.View();
      result, sent := Notifications(script);
      assert observe.View() == view;
    }
  }

  /** The whole of `do_handle`: the first response (from the block layer or the handler), then the
      registration, then the response goes out, then the loop.  `result` is the error that is
      reported to the peer, if any. */
  method DoHandle(observe: Option<ObserveHandler>, request: CoapRequest, prepared: Result<Packet, CoapError>,
                  first: u24, script: seq<LoopEvent>)
    returns (result: Result<Option<Pc>, CoapError>, answer: Option<Packet>, sent: seq<Notification>)
    requires observe.Some? ==> observe.value.Valid()
    requires LoopPlays(script)
    modifies if observe.Some? then observe.value.Footprint() else {}
    ensures observe.Some? ==> observe.value.Valid()
    ensures prepared.Err? ==> result == Err(prepared.error) && answer == None && sent == []
    ensures prepared.Err? && observe.Some? ==> observe.value.View() == old(observe.value.View())
    ensures prepared.Ok? && observe.Some? ==>
              Handled(request, prepared.value, first, script, old(observe.value.View()), observe.value.View(),
                      result, answer, sent)
    ensures prepared.Ok? && observe.None? ==> result == Ok(None) && answer == Some(prepared.value) && sent == []
  {
    if prepared.Err? {
      return Err(prepared.error), None, [];
    }
    if observe.None? {
      return Ok(None), Some(prepared.value), [];
    }
    result, answer, sent := RegisterAndNotify(observe.value, request, prepared.value, first, script);
  }

  /** The number that the channel of a path holds. */
  function NumberOf(r: Registry, path: string): u24
    requires WellFormed(r) && path in r.byPath
  {
    r.watches[r.byPath[path].lifetime].value.num
  }

  /** The pair of a request and the response prepared for it: nothing of the request changes. */
  function WithResponse(request: CoapRequest, response: Packet): (r: CoapRequest)
    ensures r.observeFlag == request.observeFlag && r.source == request.source
    ensures r.path == request.path && r.token == request.token
    ensures r.response.Some? && (r.response.value.None? <==> response.observe.None?)
    ensures response.observe.Some? ==> r.response.value == Some(Ok(response.observe.value))
  {
    request.(response := Some(if response.observe.Some? then Some(Ok(response.observe.value)) else None))
  }
}
