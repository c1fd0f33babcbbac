/**
 * The OPC UA side of the bridge (opcua_open62541.c). The open62541 stack is abstract state:
 * whether the module's static `server` pointer is set, whether the object it points to is
 * still alive, how many run-loop threads execute it, the port it was configured with, and
 * its address space restricted to the alarm variables, a map from name to node record.
 */
module Open62541 {
  import opened Options

  /** Node identifiers, qualified names and localized texts of the OPC UA address space
      model (IEC 62541-3, section 5.6, Variable NodeClass). */
  datatype NodeId = NumericId(ns: nat, id: nat) | StringId(ns: nat, name: string)
  datatype QualifiedName = QualifiedName(ns: nat, name: string)
  datatype LocalizedText = LocalizedText(locale: string, text: string)

  /** The attributes and references `ua_server_add_status` gives an alarm variable. */
  datatype NodeRec = NodeRec(
    nodeId: NodeId,
    browseName: QualifiedName,
    displayName: LocalizedText,
    description: LocalizedText,
    value: bool,
    dataType: NodeId,
    accessLevel: nat,
    parent: NodeId,
    referenceType: NodeId,
    typeDefinition: NodeId)

  /** Namespace 1: the server's application namespace, where the alarm nodes live. */
  const AppNamespace: nat := 1
  const Locale: string := "en-US"
  /** Well-known namespace-0 identifiers: i=85 ObjectsFolder, i=35 Organizes,
      i=63 BaseDataVariableType, i=1 Boolean. */
  const ObjectsFolder: NodeId := NumericId(0, 85)
  const Organizes: NodeId := NumericId(0, 35)
  const BaseDataVariableType: NodeId := NumericId(0, 63)
  const BooleanType: NodeId := NumericId(0, 1)
  /** UA_ACCESSLEVELMASK_READ: readable, not writable. */
  const AccessLevelRead: nat := 1

  /** The node `ua_server_add_status(name, state)` adds. */
  function NewNode(name: string, state: bool): NodeRec {
    NodeRec(
      StringId(AppNamespace, name),
      QualifiedName(AppNamespace, name),
      LocalizedText(Locale, name),
      LocalizedText(Locale, name),
      state,
      BooleanType,
      AccessLevelRead,
      ObjectsFolder,
      Organizes,
      BaseDataVariableType)
  }

  /** Every node of the store is the node created for its label, holding some value. */
  ghost predicate WellFormed(store: map<string, NodeRec>) {
    forall name :: name in store ==> store[name] == NewNode(name, store[name].value)
  }

  /** `ua_server_axevent_process`: look the label up; overwrite the value of the node found,
      or add a new node for it. */
  function Upsert(store: map<string, NodeRec>, name: string, state: bool): (r: map<string, NodeRec>)
    ensures name in r && r[name].value == state
    ensures r.Keys == store.Keys + {name}
    ensures forall other :: other in store && other != name ==> r[other] == store[other]
    ensures name in store ==> r[name] == store[name].(value := state)
    ensures name !in store ==> r[name] == NewNode(name, state)
  {
    if name in store then store[name := store[name].(value := state)]
    else store[name := NewNode(name, state)]
  }

  /** On a well-formed store the create and the update path give the same node, and the
      store stays well formed. */
  lemma UpsertWellFormed(store: map<string, NodeRec>, name: string, state: bool)
    requires WellFormed(store)
    ensures Upsert(store, name, state)[name] == NewNode(name, state)
    ensures WellFormed(Upsert(store, name, state))
  {
  }

  /** Repeating an observation takes the update path and changes nothing. */
  lemma UpsertIdempotent(store: map<string, NodeRec>, name: string, state: bool)
    ensures name in Upsert(store, name, state)
    ensures Upsert(Upsert(store, name, state), name, state) == Upsert(store, name, state)
  {
  }

  /** The store after a series of observations delivered in order. */
  function Replay(store: map<string, NodeRec>, obs: seq<(string, bool)>): map<string, NodeRec> {
    if obs == [] then store
    else
      var last := obs[|obs| - 1];
      Upsert(Replay(store, obs[..|obs| - 1]), last.0, last.1)
  }

  /** The state of the most recent observation of `name` (a label), if there is one. */
  function LastState(obs: seq<(string, bool)>, name: string): Option<bool> {
    if obs == [] then None
    else if obs[|obs| - 1].0 == name then Some(obs[|obs| - 1].1)
    else LastState(obs[..|obs| - 1], name)
  }

  /** Every observed label has exactly one node, holding the state of its latest
      observation; labels never observed keep what they had; nothing is deleted. */
  lemma {:induction false} ReplayAt(store: map<string, NodeRec>, obs: seq<(string, bool)>, name: string)
    ensures name in Replay(store, obs) <==> name in store || LastState(obs, name).Some?
    ensures LastState(obs, name).Some? ==> Replay(store, obs)[name].value == LastState(obs, name).value
    ensures LastState(obs, name).None? && name in store ==> Replay(store, obs)[name] == store[name]
  {
    if obs != [] {
      ReplayAt(store, obs[..|obs| - 1], name);
    }
  }

  lemma {:induction false} ReplayWellFormed(store: map<string, NodeRec>, obs: seq<(string, bool)>)
    requires WellFormed(store)
    ensures WellFormed(Replay(store, obs))
  {
    if obs != [] {
      var last := obs[|obs| - 1];
      ReplayWellFormed(store, obs[..|obs| - 1]);
      UpsertWellFormed(Replay(store, obs[..|obs| - 1]), last.0, last.1);
    }
  }

  /** Reading a label back right after its i-th observation gives that observation's state. */
  lemma ReadBackAfterEachObservation(store: map<string, NodeRec>, obs: seq<(string, bool)>, i: nat)
    requires i < |obs|
    ensures obs[i].0 in Replay(store, obs[..i + 1])
    ensures Replay(store, obs[..i + 1])[obs[i].0].value == obs[i].1
  {
  }

  predicate InPortRange(port: int) {
    1024 <= port <= 65535
  }

  /** The abstract state of opcua_open62541.c and the stack object it manages. */
  datatype ServerState = ServerState(
    ptrSet: bool,                     // the static `server` pointer is not NULL
    alive: bool,                      // the object it points to has not been deleted
    port: int,                        // the port the server was configured with
    runLoops: nat,                    // run_ua_server threads executing it
    nodes: map<string, NodeRec>)      // its alarm variables

  /** Program start: `server` is a zero-initialised static. */
  const NoServer := ServerState(false, false, 0, 0, map[])

  /** What `ua_server_init` asserts of its caller. */
  predicate CanInit(s: ServerState, port: int) {
    !s.ptrSet && InPortRange(port)
  }

  /** `ua_server_init`: a new server with a minimal configuration on `port`, empty store. */
  function AfterInit(s: ServerState, port: int): ServerState
    requires CanInit(s, port)
  {
    ServerState(true, true, port, s.runLoops, map[])
  }

  /** `ua_server_start`: a run-loop thread exists exactly when thread creation succeeded. */
  function AfterStart(s: ServerState, threadOk: bool): ServerState
    requires s.ptrSet
  {
    s.(runLoops := if threadOk then s.runLoops + 1 else s.runLoops)
  }

  /** `run_ua_server` returning, as the code is written: the server is deleted, but the
      static pointer keeps its old, now dangling, value. */
  function AfterExitAsWritten(s: ServerState): (r: ServerState)
    requires s.ptrSet && s.runLoops > 0
    ensures r.ptrSet && !r.alive && r.nodes == map[]
    ensures forall port :: !CanInit(r, port)
  {
    s.(alive := false, runLoops := s.runLoops - 1, nodes := map[])
  }

  /** `run_ua_server` returning, corrected: the server is deleted and the pointer reset. */
  function AfterExit(s: ServerState): (r: ServerState)
    requires s.ptrSet && s.runLoops > 0
    ensures !r.ptrSet && !r.alive && r.nodes == map[]
    ensures forall port :: InPortRange(port) ==> CanInit(r, port)
  {
    s.(ptrSet := false, alive := false, runLoops := s.runLoops - 1, nodes := map[])
  }

  /** `ua_server_axevent_process` on a live server. */
  function AfterProcess(s: ServerState, name: string, state: bool): ServerState
    requires s.ptrSet && s.alive
  {
    s.(nodes := Upsert(s.nodes, name, state))
  }

  /** As written, once a run loop has exited, a new `ua_server_init` (the relaunch that a port
      change performs) fails its `NULL == server` assertion. */
  lemma RelaunchAfterExitAsWritten(first: int, second: int)
    requires InPortRange(first) && InPortRange(second)
    ensures var s := AfterExitAsWritten(AfterStart(AfterInit(NoServer, first), true));
      s.ptrSet && !s.alive && !CanInit(s, second)
  {
  }

  /** Corrected, a server whose run loop has exited can be replaced by a fresh one on any
      valid port: one instance, bound to the new port, with an empty store. */
  lemma RelaunchAfterExit(s: ServerState, port: int, threadOk: bool)
    requires s.ptrSet && s.alive && s.runLoops == 1 && InPortRange(port)
    ensures CanInit(AfterExit(s), port)
    ensures AfterStart(AfterInit(AfterExit(s), port), threadOk)
      == ServerState(true, true, port, if threadOk then 1 else 0, map[])
  {
  }

  /** A server whose thread could not be created is never deleted, so even corrected the
      next `ua_server_init` would fail its assertion. */
  lemma FailedStartBlocksRelaunch(first: int, second: int)
    requires InPortRange(first)
    ensures var s := AfterStart(AfterInit(NoServer, first), false);
      s.runLoops == 0 && s.alive && !CanInit(s, second)
  {
  }

  /** The module's static state and the server object it points to. */
  class UaServer {
    ghost var serverPtrSet: bool
    ghost var serverAlive: bool
    ghost var runLoops: nat
    var port: int
    var nodes: map<string, NodeRec>
    /** The `ua_server_axevent_process` calls made, in order, as (label, state). */
    ghost var processed: seq<(string, bool)>

    ghost function State(): ServerState
      reads this
    {
      ServerState(serverPtrSet, serverAlive, port, runLoops, nodes)
    }

    /** With the corrected run-loop exit the pointer is set exactly while the object lives;
        only a live server runs; a deleted server has no nodes. */
    ghost predicate Valid()
      reads this
    {
      && serverAlive == serverPtrSet
      && (runLoops > 0 ==> serverAlive)
      && (!serverAlive ==> nodes == map[])
      && WellFormed(nodes)
    }

    constructor ()
      ensures Valid() && State() == NoServer && processed == []
    {
      serverPtrSet, serverAlive, runLoops := false, false, 0;
      port := 0;
      nodes := map[];
      processed := [];
    }

    /** `ua_server_init`. */
    method Init(serverPort: int)
      requires Valid() && CanInit(State(), serverPort)
      modifies this
      ensures Valid() && State() == AfterInit(old(State()), serverPort)
      ensures processed == old(processed)
    {
      serverPtrSet, serverAlive := true, true;
      port := serverPort;
      nodes := map[];
    }

    /** `ua_server_start`; `threadOk` is whether pthread_create succeeds. The run loop reads
        the shared running flag, which must already be set: on a cleared flag it would return
        at once. */
    method Start(running: bool, threadOk: bool) returns (ok: bool)
      requires Valid() && serverPtrSet
      requires running
      modifies this`runLoops
      ensures Valid() && State() == AfterStart(old(State()), threadOk)
      ensures ok == threadOk
    {
      if !threadOk {
        return false;
      }
      runLoops := runLoops + 1;
      return true;
    }

    /** What joining the run-loop thread observes: UA_Server_run returns once the shared
        running flag is false, then `run_ua_server` deletes the server (and, corrected,
        resets the pointer). */
    method RunLoopExit(running: bool)
      requires Valid() && serverPtrSet && runLoops == 1
      requires !running
      modifies this
      ensures Valid() && State() == AfterExit(old(State()))
      ensures processed == old(processed)
    {
      serverPtrSet, serverAlive := false, false;
      runLoops := runLoops - 1;
      nodes := map[];
    }

    /** `ua_server_add_status`; adding a node id that already exists changes nothing. */
    method AddStatus(name: string, state: bool)
      requires Valid() && serverPtrSet
      modifies this`nodes
      ensures Valid()
      ensures nodes == if name in old(nodes) then old(nodes) else old(nodes)[name := NewNode(name, state)]
    {
      if name !in nodes {
        UpsertWellFormed(nodes, name, state);
        nodes := nodes[name := NewNode(name, state)];
      }
    }

    /** `ua_server_update_status`; writing to a missing node changes nothing. */
    method UpdateStatus(name: string, state: bool)
      requires Valid() && serverPtrSet
      modifies this`nodes
      ensures Valid()
      ensures nodes == if name in old(nodes) then old(nodes)[name := old(nodes)[name].(value := state)] else old(nodes)
    {
      if name in nodes {
        UpsertWellFormed(nodes, name, state);
        nodes := nodes[name := nodes[name].(value := state)];
      }
    }

    /** `ua_server_axevent_process`. */
    method AxeventProcess(name: string, state: bool)
      requires Valid() && serverPtrSet && serverAlive
      modifies this`nodes, this`processed
      ensures Valid() && State() == AfterProcess(old(State()), name, state)
      ensures nodes[name] == NewNode(name, state)
      ensures processed == old(processed) + [(name, state)]
    {
      processed := processed + [(name, state)];
      UpsertWellFormed(nodes, name, state);
      if name in nodes {
        UpdateStatus(name, state);
      } else {
        AddStatus(name, state);
      }
    }
  }
}
