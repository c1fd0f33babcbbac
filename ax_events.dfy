/**
 * The event subscriber (opcua_axevents.c). The axevent library is abstract: an event is its
 * key/value set, the subscription filter is the list of entries handed to the library, and
 * what the module asks of the library is recorded as a ghost log of calls.
 */
module AxEvents {
  import opened Options
  import Open62541

  /** A key of an event's key/value set: an optional namespace and a name. */
  datatype Key = Key(ns: Option<string>, name: string)
  datatype Value = StringValue(s: string) | BoolValue(b: bool) | IntValue(i: int)
  datatype ValueType = StringType | BoolType | IntType

  /** A delivered event, seen through its key/value set. */
  type AxEvent = map<Key, Value>

  /** The user data every subscription of this module registers with its callback. */
  const DiscoveryTag: string := "axevents-discovery"
  const Platform: string := "CameraApplicationPlatform"
  const Tnsaxis: string := "tnsaxis"
  const Topic0Key: Key := Key(Some(Tnsaxis), "topic0")
  const Topic1Key: Key := Key(Some(Tnsaxis), "topic1")
  const Topic2Key: Key := Key(Some(Tnsaxis), "topic2")
  const ActiveKey: Key := Key(None, "active")

  function TypeOf(v: Value): ValueType {
    match v
    case StringValue(_) => StringType
    case BoolValue(_) => BoolType
    case IntValue(_) => IntType
  }

  /** `ax_event_key_value_set_get_boolean`: present only if the key holds a boolean. */
  function GetBoolean(ev: AxEvent, key: Key): Option<bool> {
    if key in ev && ev[key].BoolValue? then Some(ev[key].b) else None
  }

  /** `ax_event_key_value_set_get_string`: present only if the key holds a string. */
  function GetString(ev: AxEvent, key: Key): Option<string> {
    if key in ev && ev[key].StringValue? then Some(ev[key].s) else None
  }

  /** The decision `axevent_sub_callback` takes: forward (label, active) to the OPC UA
      server, or drop the event. */
  function Classify(userData: string, ev: AxEvent): (r: Option<(string, bool)>)
    ensures r.Some? <==>
      userData == DiscoveryTag && GetBoolean(ev, ActiveKey).Some? && GetString(ev, Topic2Key).Some?
    ensures r.Some? ==> r.value.0 == GetString(ev, Topic2Key).value
    ensures r.Some? ==> r.value.1 == GetBoolean(ev, ActiveKey).value
  {
    if userData != DiscoveryTag then None
    else
      match GetBoolean(ev, ActiveKey)
      case None => None
      case Some(active) =>
        match GetString(ev, Topic2Key)
        case None => None
        case Some(alarm) => Some((alarm, active))
  }

  /** One entry of a subscription filter: the key, the value it must have (if any) and the
      type of that value. */
  datatype FilterEntry = FilterEntry(key: Key, value: Option<Value>, valueType: ValueType)
  type Filter = seq<FilterEntry>

  /** The key/value set `axevent_subscribe` builds for an event source. */
  function SubscriptionFilter(evtsource: string): Filter {
    [ FilterEntry(Topic0Key, Some(StringValue(Platform)), StringType),
      FilterEntry(Topic1Key, Some(StringValue(evtsource)), StringType),
      FilterEntry(ActiveKey, None, BoolType) ]
  }

  predicate EntryMatches(e: FilterEntry, ev: AxEvent) {
    && e.key in ev
    && TypeOf(ev[e.key]) == e.valueType
    && (e.value.Some? ==> ev[e.key] == e.value.value)
  }

  /** The library delivers an event to a subscription when it has every entry of its filter. */
  predicate Matches(f: Filter, ev: AxEvent) {
    forall i :: 0 <= i < |f| ==> EntryMatches(f[i], ev)
  }

  /** What the filter selects: platform events of the configured source that carry a
      boolean "active" key. */
  lemma FilterSelects(evtsource: string, ev: AxEvent)
    ensures Matches(SubscriptionFilter(evtsource), ev) <==>
      && GetString(ev, Topic0Key) == Some(Platform)
      && GetString(ev, Topic1Key) == Some(evtsource)
      && GetBoolean(ev, ActiveKey).Some?
  {
    var f := SubscriptionFilter(evtsource);
    if GetString(ev, Topic0Key) == Some(Platform) && GetString(ev, Topic1Key) == Some(evtsource)
       && GetBoolean(ev, ActiveKey).Some? {
      assert EntryMatches(f[0], ev) && EntryMatches(f[1], ev) && EntryMatches(f[2], ev);
    }
    if Matches(f, ev) {
      assert EntryMatches(f[0], ev) && EntryMatches(f[1], ev) && EntryMatches(f[2], ev);
    }
  }

  /** After the source changes, an event of the old source is not selected by the new filter. */
  lemma OldSourceNotSelected(previous: string, current: string, ev: AxEvent)
    requires previous != current
    requires Matches(SubscriptionFilter(previous), ev)
    ensures !Matches(SubscriptionFilter(current), ev)
  {
    FilterSelects(previous, ev);
    FilterSelects(current, ev);
  }

  /** A delivered event of the subscription passes the "active" check; only a missing
      topic2 label (or a foreign user-data tag) can still make the callback drop it. */
  lemma SelectedEventsHaveActive(evtsource: string, ev: AxEvent)
    requires Matches(SubscriptionFilter(evtsource), ev)
    ensures Classify(DiscoveryTag, ev).Some? <==> GetString(ev, Topic2Key).Some?
  {
    FilterSelects(evtsource, ev);
  }

  /** The event a device analytics application of `evtsource` emits when the alarm named
      `alarm` (its topic2 label) changes to `active`. */
  function AlarmEvent(evtsource: string, alarm: string, active: bool): AxEvent {
    map[Topic0Key := StringValue(Platform),
        Topic1Key := StringValue(evtsource),
        Topic2Key := StringValue(alarm),
        ActiveKey := BoolValue(active)]
  }

  /** An alarm event of the subscribed source is selected and forwarded as (label, active). */
  lemma AlarmEventForwarded(evtsource: string, alarm: string, active: bool)
    ensures Matches(SubscriptionFilter(evtsource), AlarmEvent(evtsource, alarm, active))
    ensures Classify(DiscoveryTag, AlarmEvent(evtsource, alarm, active)) == Some((alarm, active))
  {
  }

  /** The id `axevent_subscribe` returns: the library's id, or 0 when it did not assign one. */
  function SubscriptionId(granted: Option<nat>): nat {
    match granted
    case None => 0
    case Some(id) => id
  }

  /** A call the module makes into the event library. `filter` is None when the key/value
      set could not be filled (its partial contents are not modelled). */
  datatype BusCall =
    | SubscribeCall(filter: Option<Filter>, userData: string)
    | UnsubscribeCall(id: nat)

  /** The module's static `subid` and what it has asked of the library. */
  class EventSubscriber {
    var subid: nat
    ghost var busCalls: seq<BusCall>
    ghost var freed: seq<AxEvent>

    constructor ()
      ensures subid == 0 && busCalls == [] && freed == []
    {
      subid := 0;
      busCalls := [];
      freed := [];
    }

    /** `axevent_subscribe`. `filterOk` is whether the key/value set could be filled (a
        failure is only logged); `granted` is the id the library hands back on success. */
    method Subscribe(evtsource: string, filterOk: bool, granted: Option<nat>) returns (id: nat)
      modifies this`busCalls
      ensures id == SubscriptionId(granted)
      ensures busCalls == old(busCalls) +
        [SubscribeCall(if filterOk then Some(SubscriptionFilter(evtsource)) else None, DiscoveryTag)]
    {
      var filter := if filterOk then Some(SubscriptionFilter(evtsource)) else None;
      busCalls := busCalls + [SubscribeCall(filter, DiscoveryTag)];
      id := 0;
      if granted.Some? {
        id := granted.value;
      }
    }

    /** `axevent_setup`: store the id; report failure exactly when it is 0. */
    method Setup(topic: string, filterOk: bool, granted: Option<nat>) returns (ok: bool)
      modifies this`subid, this`busCalls
      ensures subid == SubscriptionId(granted)
      ensures ok <==> subid != 0
      ensures busCalls == old(busCalls) +
        [SubscribeCall(if filterOk then Some(SubscriptionFilter(topic)) else None, DiscoveryTag)]
    {
      subid := Subscribe(topic, filterOk, granted);
      if subid == 0 {
        return false;
      }
      return true;
    }

    /** `axevent_teardown`: unsubscribe whatever id is stored, without any check. */
    method Teardown()
      modifies this`busCalls
      ensures busCalls == old(busCalls) + [UnsubscribeCall(subid)]
    {
      busCalls := busCalls + [UnsubscribeCall(subid)];
    }

    /** `axevent_sub_callback`: forward a well-formed event of this module's subscription to
        the OPC UA server, drop anything else, and free the event on every path. */
    method Deliver(userData: string, ev: AxEvent, server: Open62541.UaServer)
      requires server.Valid()
      requires Classify(userData, ev).Some? ==> server.serverPtrSet && server.serverAlive
      modifies this`freed, server`nodes, server`processed
      ensures server.Valid()
      ensures server.processed == old(server.processed)
        + (if Classify(userData, ev).Some? then [Classify(userData, ev).value] else [])
      ensures freed == old(freed) + [ev]
      ensures Classify(userData, ev).None? ==> server.State() == old(server.State())
      ensures Classify(userData, ev).Some? ==>
        var obs := Classify(userData, ev).value;
        server.State() == Open62541.AfterProcess(old(server.State()), obs.0, obs.1)
    {
      if userData == DiscoveryTag {
        var active := GetBoolean(ev, ActiveKey);
        if active.Some? {
          var alarm := GetString(ev, Topic2Key);
          if alarm.Some? {
            server.AxeventProcess(alarm.value, active.value);
          }
        }
      }
      freed := freed + [ev];
    }
  }
}
