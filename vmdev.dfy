/**
 * The application (opcua_vmdev.c): the module globals `uaport`, `ua_server_running`,
 * `ehandler_running` and the main loop's quit request, and the parameter callbacks that
 * reconfigure the OPC UA server and the event subscription. The parameter store is abstract:
 * whether a registration or a fetch succeeds, and the value fetched, are parameters.
 */
module VmDev {
  import opened Options
  import CString
  import Open62541
  import AxEvents

  /** What `port_callback` makes of a new value of the "port" parameter. */
  datatype PortChange = Rejected | Unchanged | Changed(port: int)

  /** Parse with `atoi`, reject anything outside [1024, 65535], ignore the current port. */
  function ClassifyPortValue(value: string, current: int): (r: PortChange)
    ensures r.Rejected? <==> !Open62541.InPortRange(CString.Atoi(value))
    ensures r.Unchanged? <==> Open62541.InPortRange(CString.Atoi(value)) && CString.Atoi(value) == current
    ensures r.Changed? ==> r.port == CString.Atoi(value) && Open62541.InPortRange(r.port) && r.port != current
  {
    var newport := CString.Atoi(value);
    if newport < 1024 || 65535 < newport then Rejected
    else if current == newport then Unchanged
    else Changed(newport)
  }

  /** A port written in decimal is taken at its value: out of range it is rejected, equal to
      the current port it is ignored, otherwise it becomes the new port. */
  lemma DecimalPortValue(n: nat, current: int)
    ensures ClassifyPortValue(CString.NatToString(n), current) ==
      if !Open62541.InPortRange(n) then Rejected
      else if n == current then Unchanged
      else Changed(n)
  {
    var s := CString.NatToString(n);
    CString.AtoiOfNatToString([], n, []);
    assert [] + s + [] == s;
  }

  /** A decimal value outside [1024, 65535] (such as 0, 1023 or 65536) is rejected. */
  lemma DecimalOutOfRangeRejected(n: nat, current: int)
    requires !Open62541.InPortRange(n)
    ensures ClassifyPortValue(CString.NatToString(n), current) == Rejected
  {
    DecimalPortValue(n, current);
  }

  /** A value without any digit (empty, "opcua") reads as 0 and is rejected. */
  lemma NonNumericPortRejected(value: string, current: int)
    requires forall i :: 0 <= i < |value| ==> !CString.IsDigit(value[i])
    ensures ClassifyPortValue(value, current) == Rejected
  {
  }

  /** Signal numbers on Linux. */
  const SIGINT: int := 2
  const SIGABRT: int := 6
  const SIGTERM: int := 15

  predicate IsTerminatingSignal(sig: int) {
    sig == SIGTERM || sig == SIGABRT || sig == SIGINT
  }

  /** The two parameters the application registers callbacks for. */
  datatype Param = PortParam | EventSourceParam

  function ParamName(p: Param): string {
    match p
    case PortParam => "port"
    case EventSourceParam => "eventsource"
  }

  class Bridge {
    var uaport: nat
    var uaServerRunning: bool
    var ehandlerRunning: bool
    var quitRequested: bool
    /** The state of opcua_open62541.c and of opcua_axevents.c. */
    const server: Open62541.UaServer
    const events: AxEvents.EventSubscriber
    /** Every invocation of a parameter callback, with the parameter name and value it was
        given. */
    ghost var callbacks: seq<(string, string)>

    /** The running flag is set exactly while a server object exists; at most one run loop
        executes it, and only while the flag is set. */
    ghost predicate Valid()
      reads this, server
    {
      && server.Valid()
      && uaServerRunning == server.serverPtrSet
      && server.runLoops <= 1
      && (server.runLoops == 1 ==> uaServerRunning)
    }

    /** The server listens on the port the application last accepted. */
    ghost predicate Synced()
      reads this, server
    {
      uaServerRunning ==> server.port == uaport
    }

    /** A port change stops the running server before relaunching, and stopping joins its
        run-loop thread, which must therefore exist. */
    ghost predicate PortChangeSafe(value: string)
      reads this, server
    {
      ClassifyPortValue(value, uaport).Changed? && uaServerRunning ==> server.runLoops == 1
    }

    constructor ()
      ensures Valid() && Synced() && fresh(server) && fresh(events)
      ensures uaport == 0 && !uaServerRunning && !ehandlerRunning && !quitRequested
      ensures server.State() == Open62541.NoServer && events.subid == 0 && callbacks == []
    {
      uaport := 0;
      uaServerRunning, ehandlerRunning, quitRequested := false, false, false;
      server := new Open62541.UaServer();
      events := new AxEvents.EventSubscriber();
      callbacks := [];
    }

    /** `launch_ua_server`: create the server, set the running flag, start the run loop.
        On a failed start it reports false and leaves the flag set. */
    method LaunchUaServer(serverport: int, threadOk: bool) returns (ok: bool)
      requires Valid()
      requires Open62541.InPortRange(serverport)
      requires !uaServerRunning
      modifies this`uaServerRunning, server
      ensures Valid() && uaServerRunning
      ensures ok == threadOk
      ensures server.State() ==
        Open62541.AfterStart(Open62541.AfterInit(old(server.State()), serverport), threadOk)
      ensures server.processed == old(server.processed)
    {
      server.Init(serverport);
      uaServerRunning := true;
      ok := server.Start(uaServerRunning, threadOk);
      if !ok {
        return false;
      }
      return true;
    }

    /** `shutdown_ua_server`: clear the running flag, then join the run loop, which sees
        the cleared flag, returns and deletes the server. */
    method ShutdownUaServer()
      requires Valid()
      requires uaServerRunning
      requires server.runLoops == 1
      modifies this`uaServerRunning, server
      ensures Valid() && !uaServerRunning
      ensures server.State() == Open62541.AfterExit(old(server.State()))
      ensures server.processed == old(server.processed)
    {
      uaServerRunning := false;
      server.RunLoopExit(uaServerRunning);
    }

    /** `port_callback`; `threadOk` is whether the run-loop thread of a relaunch can be
        created. */
    method PortCallback(value: string, threadOk: bool)
      requires Valid() && Synced()
      requires PortChangeSafe(value)
      modifies this`uaport, this`uaServerRunning, this`callbacks, server
      ensures Valid() && Synced()
      ensures callbacks == old(callbacks) + [(ParamName(PortParam), value)]
      ensures server.processed == old(server.processed)
      ensures ClassifyPortValue(value, old(uaport)).Changed? ==>
        && uaport == ClassifyPortValue(value, old(uaport)).port
        && uaServerRunning
        && server.State() == Open62541.ServerState(true, true, uaport, if threadOk then 1 else 0, map[])
      ensures !ClassifyPortValue(value, old(uaport)).Changed? ==>
        && uaport == old(uaport)
        && uaServerRunning == old(uaServerRunning)
        && server.State() == old(server.State())
    {
      callbacks := callbacks + [(ParamName(PortParam), value)];
      var newport := CString.Atoi(value);
      if newport < 1024 || 65535 < newport {
        return;
      }
      if uaport == newport {
        return;
      }
      uaport := newport;
      if uaServerRunning {
        ShutdownUaServer();
      }
      var _ := LaunchUaServer(uaport, threadOk);
    }

    /** `evtsource_callback`: unsubscribe first if a subscription was set up before, then
        subscribe to the new source; the handler counts as running even if that fails. */
    method EvtsourceCallback(value: string, filterOk: bool, granted: Option<nat>)
      modifies this`ehandlerRunning, this`callbacks, events`subid, events`busCalls
      ensures ehandlerRunning
      ensures callbacks == old(callbacks) + [(ParamName(EventSourceParam), value)]
      ensures events.subid == AxEvents.SubscriptionId(granted)
      ensures events.busCalls == old(events.busCalls)
        + (if old(ehandlerRunning) then [AxEvents.UnsubscribeCall(old(events.subid))] else [])
        + [AxEvents.SubscribeCall(
             if filterOk then Some(AxEvents.SubscriptionFilter(value)) else None,
             AxEvents.DiscoveryTag)]
    {
      callbacks := callbacks + [(ParamName(EventSourceParam), value)];
      if ehandlerRunning {
        events.Teardown();
      }
      var ok := events.Setup(value, filterOk, granted);
      ehandlerRunning := true;
    }

    /** `setup_param`: register the callback, fetch the current value and hand it to the
        callback; `registered` and `fetched` are the parameter store's answers, the other
        arguments what the callback's own library calls answer. */
    method SetupParam(param: Param, registered: bool, fetched: Option<string>,
                      threadOk: bool, filterOk: bool, granted: Option<nat>) returns (ok: bool)
      requires Valid() && Synced()
      requires param == PortParam && registered && fetched.Some? ==> PortChangeSafe(fetched.value)
      modifies this, server, events`subid, events`busCalls
      ensures Valid() && Synced()
      ensures ok == (registered && fetched.Some?)
      ensures callbacks == old(callbacks) + (if ok then [(ParamName(param), fetched.value)] else [])
      ensures !ok ==> unchanged(this, server, events)
      ensures ok ==> quitRequested == old(quitRequested)
      ensures server.processed == old(server.processed)
      ensures ok && param == PortParam ==>
        var change := ClassifyPortValue(fetched.value, old(uaport));
        && ehandlerRunning == old(ehandlerRunning)
        && unchanged(events)
        && (change.Changed? ==>
              && uaport == change.port
              && uaServerRunning
              && server.State() == Open62541.ServerState(true, true, uaport, if threadOk then 1 else 0, map[]))
        && (!change.Changed? ==>
              && uaport == old(uaport)
              && uaServerRunning == old(uaServerRunning)
              && server.State() == old(server.State()))
      ensures ok && param == EventSourceParam ==>
        && ehandlerRunning
        && events.subid == AxEvents.SubscriptionId(granted)
        && events.busCalls == old(events.busCalls)
          + (if old(ehandlerRunning) then [AxEvents.UnsubscribeCall(old(events.subid))] else [])
          + [AxEvents.SubscribeCall(
               if filterOk then Some(AxEvents.SubscriptionFilter(fetched.value)) else None,
               AxEvents.DiscoveryTag)]
        && uaport == old(uaport)
        && uaServerRunning == old(uaServerRunning)
        && server.State() == old(server.State())
    {
      if !registered {
        return false;
      }
      if fetched.None? {
        return false;
      }
      if param == PortParam {
        PortCallback(fetched.value, threadOk);
      } else {
        EvtsourceCallback(fetched.value, filterOk, granted);
      }
      return true;
    }

    /** `signal_handler`: SIGTERM, SIGABRT and SIGINT make the main loop quit. */
    method SignalHandler(sig: int)
      modifies this`quitRequested
      ensures quitRequested == (old(quitRequested) || IsTerminatingSignal(sig))
    {
      if sig == SIGTERM || sig == SIGABRT || sig == SIGINT {
        quitRequested := true;
      }
    }
  }
}
