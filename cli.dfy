/** The shared `state` object of index.js:9-12 together with everything
    that changes it: `addConnection` and its event handlers, the
    `reloadConnections` startup/restart procedure and the actions of the
    connect, ls, use, silent, pub, sub, unsub, save, kill and restart
    commands, each guarded by its `validate` function. The MQTT transport
    appears only as the log of calls made to it. */
module Cli {
  import opened Records
  import opened Lifecycle
  import opened Connections

  /** A call made on some record's client, in the order made. `Open` is
      `mqtt.connect`; `End` is `client.end(true)`. */
  datatype Call =
    | Open(index: nat, profile: Profile, clean: Option<string>, reconnectPeriod: nat)
    | End(index: nat)
    | Publish(index: nat, topic: string, payload: string, qos: Option<nat>)
    | Subscribe(index: nat, topic: string, requestedQos: nat)
    | Unsubscribe(index: nat, topic: string)

  /** Why a command's `validate` refused it; the command then does nothing. */
  datatype Reason =
    | MissingUrl | MissingClientId | MissingUsername | MissingPassword
    | NotReady | MissingTopic | MissingPayload | InvalidNumber

  datatype Reply = Done | Rejected(reason: Reason)

  /** A message shown by the `message` handler. */
  datatype Delivery = Delivery(index: nat, username: string, clientId: string, topic: string, payload: string)

  /** The connect command's `validate`: the first of url, clientId,
      username and password that is missing. */
  function ConnectCheck(p: Profile): (r: Option<Reason>)
    ensures r.None? <==> p.url != "" && p.clientId != "" && p.username != "" && p.password != ""
    ensures p.url == "" ==> r == Some(MissingUrl)
    ensures p.url != "" && p.clientId == "" ==> r == Some(MissingClientId)
    ensures p.url != "" && p.clientId != "" && p.username == "" ==> r == Some(MissingUsername)
    ensures p.url != "" && p.clientId != "" && p.username != "" && p.password == "" ==> r == Some(MissingPassword)
  {
    if p.url == "" then Some(MissingUrl)
    else if p.clientId == "" then Some(MissingClientId)
    else if p.username == "" then Some(MissingUsername)
    else if p.password == "" then Some(MissingPassword)
    else None
  }

  /** The payload pub hands to the transport. With `--js2json` the payload
      goes through `convert` (the program evaluates it as a JavaScript
      expression and serialises the value as JSON); when that fails the
      original payload is sent. */
  function SentPayload(payload: string, js2json: bool, convert: string -> Option<string>): (s: string)
    ensures !js2json ==> s == payload
    ensures convert(payload).None? ==> s == payload
    ensures js2json && convert(payload).Some? ==> s == convert(payload).value
  {
    if js2json then
      match convert(payload)
      case Some(json) => json
      case None => payload
    else payload
  }

  /** The QoS sub asks for, `qos || 1`: a missing QoS and QoS 0 both
      become 1. */
  function SubscribeQos(qos: Option<nat>): (q: nat)
    ensures q != 0
    ensures qos.Some? && qos.value != 0 ==> q == qos.value
    ensures qos.None? || qos.value == 0 ==> q == 1
  {
    match qos
    case Some(n) => if n == 0 then 1 else n
    case None => 1
  }

  /** `Open` calls for profiles `ps` added from position `start` on. */
  function OpenCalls(start: nat, ps: seq<Profile>): (cs: seq<Call>)
    ensures |cs| == |ps|
    ensures forall k :: 0 <= k < |ps| ==> cs[k] == Open(start + k, ps[k], None, ReconnectPeriodMs)
    decreases |ps|
  {
    if ps == [] then []
    else OpenCalls(start, ps[..|ps| - 1]) + [Open(start + |ps| - 1, ps[|ps| - 1], None, ReconnectPeriodMs)]
  }

  /** `End` calls for the records at positions `0 .. n-1`, in order. */
  function EndCalls(n: nat): (cs: seq<Call>)
    ensures |cs| == n
    ensures forall k :: 0 <= k < n ==> cs[k] == End(k)
  {
    if n == 0 then [] else EndCalls(n - 1) + [End(n - 1)]
  }

  class Registry {
    /** `state.connections`. */
    var connections: seq<Record>
    /** `state.current`: the selected position, if any. */
    var current: Option<nat>
    /** The `connections` entry of local storage, parsed. */
    var storage: seq<Profile>
    /** Calls made on the transport so far. */
    var calls: seq<Call>

    /** Every record sits at its own index and is well formed. */
    ghost predicate Valid()
      reads this
    {
      forall k :: 0 <= k < |connections| ==> connections[k].index == k && WellFormed(connections[k])
    }

    /** The state at start-up, before the first reload: nothing connected,
        nothing selected, and storage as left by an earlier session. */
    constructor (stored: seq<Profile>)
      ensures Valid()
      ensures connections == [] && current == None && storage == stored && calls == []
    {
      connections := [];
      current := None;
      storage := stored;
      calls := [];
    }

    /** `addConnection`: opens a client with the fixed retry period and
        appends a fresh record at the next position. */
    method AddConnection(o: Options) returns (index: nat)
      requires Valid()
      modifies this
      ensures Valid()
      ensures index == |old(connections)|
      ensures connections == old(connections) + [NewRecord(index, o)]
      ensures calls == old(calls) + [Open(index, o.profile, o.clean, ReconnectPeriodMs)]
      ensures current == old(current) && storage == old(storage)
    {
      index := |connections|;
      calls := calls + [Open(index, o.profile, o.clean, ReconnectPeriodMs)];
      connections := connections + [NewRecord(index, o)];
    }

    /** The `connect` handler of record `i`. */
    method OnConnect(i: nat)
      requires Valid() && i < |connections|
      modifies this
      ensures Valid()
      ensures connections == old(connections)[i := old(connections[i]).(status := Connected)]
      ensures connections[i] == Step(old(connections[i]), Event.Connect).record
      ensures calls == old(calls) && current == old(current) && storage == old(storage)
    {
      connections := connections[i := Step(connections[i], Event.Connect).record];
    }

    /** The `error` handler of record `i`. */
    method OnError(i: nat, message: string)
      requires Valid() && i < |connections|
      modifies this
      ensures Valid()
      ensures connections == old(connections)[i := old(connections[i]).(status := Error, error := Some(message))]
      ensures connections[i] == Step(old(connections[i]), Fail(message)).record
      ensures calls == old(calls) && current == old(current) && storage == old(storage)
    {
      connections := connections[i := Step(connections[i], Fail(message)).record];
    }

    /** The `close` handler of record `i`: nothing for a killed record;
        backoff and `end(true)` once three attempts are used up; otherwise
        one more attempt. */
    method OnClose(i: nat)
      requires Valid() && i < |connections|
      modifies this
      ensures Valid()
      ensures current == old(current) && storage == old(storage)
      ensures old(connections[i].status) == Status.Kill ==>
        connections == old(connections) && calls == old(calls)
      ensures old(connections[i].status) != Status.Kill && old(connections[i].reconnect) >= MaxReconnects ==>
        connections == old(connections)[i := old(connections[i]).(status := Backoff)]
        && calls == old(calls) + [End(i)]
      ensures old(connections[i].status) != Status.Kill && old(connections[i].reconnect) < MaxReconnects ==>
        connections == old(connections)[i := old(connections[i]).(status := Reconnect, reconnect := old(connections[i].reconnect) + 1)]
        && calls == old(calls)
      ensures connections[i] == Step(old(connections[i]), Close).record
    {
      var o := Step(connections[i], Close);
      connections := connections[i := o.record];
      if o.forcedEnd {
        calls := calls + [End(i)];
      }
    }

    /** The `message` handler of record `i`: shown unless the record is
        silenced. */
    method OnMessage(i: nat, topic: string, payload: string) returns (shown: Option<Delivery>)
      requires i < |connections|
      ensures shown.None? <==> connections[i].silent
      ensures shown.Some? ==> shown.value == Delivery(i, connections[i].profile.username,
                                                     connections[i].profile.clientId, topic, payload)
    {
      var r := connections[i];
      if r.silent {
        shown := None;
      } else {
        shown := Some(Delivery(i, r.profile.username, r.profile.clientId, topic, payload));
      }
    }

    /** One `forEach` of `reloadConnections`: adds each profile of `ps`, in
        order, as a saved connection. */
    method AddSaved(ps: seq<Profile>)
      requires Valid()
      modifies this
      ensures Valid()
      ensures connections == Appended(old(connections), ps)
      ensures calls == old(calls) + OpenCalls(|old(connections)|, ps)
      ensures storage == old(storage) && current == old(current)
    {
      var k := 0;
      while k < |ps|
        invariant 0 <= k <= |ps|
        invariant Valid()
        invariant connections == Appended(old(connections), ps[..k])
        invariant calls == old(calls) + OpenCalls(|old(connections)|, ps[..k])
        invariant storage == old(storage) && current == old(current)
      {
        assert ps[..k + 1][..k] == ps[..k];
        var _ := AddConnection(SavedOptions(ps[k]));
        k := k + 1;
      }
      assert ps[..k] == ps;
    }

    /** `reloadConnections`: re-adds every stored profile, then every file
        profile not blocked by a record present once the stored ones are in. */
    method Reload(file: seq<Profile>)
      requires Valid()
      modifies this
      ensures Valid()
      ensures connections == Reloaded(old(connections), storage, file)
      ensures calls == old(calls) + OpenCalls(|old(connections)|, storage)
                      + OpenCalls(|old(connections)| + |storage|, Kept(Appended(old(connections), storage), file))
      ensures storage == old(storage) && current == old(current)
    {
      AddSaved(storage);
      AddSaved(Kept(connections, file));
    }

    /** The connect command: after `validate`, a duplicate is dropped
        silently; otherwise a record is added and selected, and its identity
        stored when `--save` was given. */
    method Connect(o: Options) returns (reply: Reply)
      requires Valid()
      modifies this
      ensures Valid()
      ensures ConnectCheck(o.profile).Some? ==>
        reply == Rejected(ConnectCheck(o.profile).value) && unchanged(this)
      ensures ConnectCheck(o.profile).None? && IsDuplicate(old(connections), o.profile) ==>
        reply == Done && unchanged(this)
      ensures ConnectCheck(o.profile).None? && !IsDuplicate(old(connections), o.profile) ==>
        && reply == Done
        && connections == old(connections) + [NewRecord(|old(connections)|, o)]
        && current == Some(|old(connections)|)
        && storage == old(storage) + (if o.save then [o.profile] else [])
        && calls == old(calls) + [Open(|old(connections)|, o.profile, o.clean, ReconnectPeriodMs)]
    {
      var check := ConnectCheck(o.profile);
      if check.Some? {
        return Rejected(check.value);
      }
      if !IsDuplicate(connections, o.profile) {
        var index := AddConnection(o);
        if o.save {
          storage := storage + [o.profile];
        }
        current := Some(index);
      }
      reply := Done;
    }

    /** The ls command: the rows of the table, built record by record. */
    method Ls() returns (rows: seq<Row>)
      ensures rows == Listing(connections, current)
    {
      rows := [];
      var i := 0;
      while i < |connections|
        invariant 0 <= i <= |connections|
        invariant rows == Listing(connections[..i], current)
      {
        assert connections[..i + 1][..i] == connections[..i];
        var r := connections[i];
        if r.status != Status.Kill {
          rows := rows + [RowOf(i, r, current)];
        }
        i := i + 1;
      }
      assert connections[..i] == connections;
    }

    /** The use command: selects `n` only when it is usable. */
    method Use(n: Option<nat>) returns (reply: Reply)
      modifies this
      ensures !Usable(old(connections), n) ==> reply == Rejected(NotReady) && unchanged(this)
      ensures Usable(old(connections), n) ==>
        reply == Done && current == n
        && connections == old(connections) && storage == old(storage) && calls == old(calls)
    {
      if !Usable(connections, n) {
        return Rejected(NotReady);
      }
      current := n;
      reply := Done;
    }

    /** The silent command: sets the flag, or clears it with `--off`, on an
        existing record. */
    method Silent(n: Option<nat>, off: bool) returns (reply: Reply)
      requires Valid()
      modifies this
      ensures Valid()
      ensures !(n.Some? && n.value < |old(connections)|) ==> reply == Rejected(InvalidNumber) && unchanged(this)
      ensures n.Some? && n.value < |old(connections)| ==>
        reply == Done
        && connections == old(connections)[n.value := old(connections[n.value]).(silent := !off)]
        && current == old(current) && storage == old(storage) && calls == old(calls)
    {
      if !(n.Some? && n.value < |connections|) {
        return Rejected(InvalidNumber);
      }
      var i := n.value;
      connections := connections[i := connections[i].(silent := !off)];
      reply := Done;
    }

    /** The pub command: publishes on the current record's client once the
        selection is usable and topic and payload are given. */
    method Pub(topic: string, payload: string, qos: Option<nat>, js2json: bool,
               convert: string -> Option<string>) returns (reply: Reply)
      modifies this
      ensures connections == old(connections) && current == old(current) && storage == old(storage)
      ensures !Usable(connections, current) ==> reply == Rejected(NotReady) && calls == old(calls)
      ensures Usable(connections, current) && topic == "" ==> reply == Rejected(MissingTopic) && calls == old(calls)
      ensures Usable(connections, current) && topic != "" && payload == "" ==>
        reply == Rejected(MissingPayload) && calls == old(calls)
      ensures Usable(connections, current) && topic != "" && payload != "" ==>
        reply == Done
        && calls == old(calls) + [Publish(current.value, topic, SentPayload(payload, js2json, convert), qos)]
    {
      if !Usable(connections, current) {
        return Rejected(NotReady);
      } else if topic == "" {
        return Rejected(MissingTopic);
      } else if payload == "" {
        return Rejected(MissingPayload);
      }
      calls := calls + [Publish(current.value, topic, SentPayload(payload, js2json, convert), qos)];
      reply := Done;
    }

    /** The sub command. */
    method Sub(topic: string, qos: Option<nat>) returns (reply: Reply)
      modifies this
      ensures connections == old(connections) && current == old(current) && storage == old(storage)
      ensures !Usable(connections, current) ==> reply == Rejected(NotReady) && calls == old(calls)
      ensures Usable(connections, current) && topic == "" ==> reply == Rejected(MissingTopic) && calls == old(calls)
      ensures Usable(connections, current) && topic != "" ==>
        reply == Done && calls == old(calls) + [Subscribe(current.value, topic, SubscribeQos(qos))]
    {
      if !Usable(connections, current) {
        return Rejected(NotReady);
      } else if topic == "" {
        return Rejected(MissingTopic);
      }
      calls := calls + [Subscribe(current.value, topic, SubscribeQos(qos))];
      reply := Done;
    }

    /** The unsub command. */
    method Unsub(topic: string) returns (reply: Reply)
      modifies this
      ensures connections == old(connections) && current == old(current) && storage == old(storage)
      ensures !Usable(connections, current) ==> reply == Rejected(NotReady) && calls == old(calls)
      ensures Usable(connections, current) && topic == "" ==> reply == Rejected(MissingTopic) && calls == old(calls)
      ensures Usable(connections, current) && topic != "" ==>
        reply == Done && calls == old(calls) + [Unsubscribe(current.value, topic)]
    {
      if !Usable(connections, current) {
        return Rejected(NotReady);
      } else if topic == "" {
        return Rejected(MissingTopic);
      }
      calls := calls + [Unsubscribe(current.value, topic)];
      reply := Done;
    }

    /** The save command: appends the current record's identity to storage
        (without looking for one already there) and marks it saved. */
    method Save() returns (reply: Reply)
      requires Valid()
      modifies this
      ensures Valid()
      ensures !Usable(old(connections), old(current)) ==> reply == Rejected(NotReady) && unchanged(this)
      ensures Usable(old(connections), old(current)) ==>
        var i := old(current).value;
        reply == Done
        && storage == old(storage) + [old(connections[i]).profile]
        && connections == old(connections)[i := old(connections[i]).(save := true)]
        && current == old(current) && calls == old(calls)
    {
      if !Usable(connections, current) {
        return Rejected(NotReady);
      }
      var i := current.value;
      storage := storage + [connections[i].profile];
      connections := connections[i := connections[i].(save := true)];
      reply := Done;
    }

    /** The kill command: ends record `n`'s client, marks it killed (it
        keeps its position), and rewrites storage with the identities of
        every record not killed. The selection is left as it was. */
    method Kill(n: Option<nat>) returns (reply: Reply)
      requires Valid()
      modifies this
      ensures Valid()
      ensures current == old(current)
      ensures !(n.Some? && n.value < |old(connections)|) ==> reply == Rejected(InvalidNumber) && unchanged(this)
      ensures n.Some? && n.value < |old(connections)| ==>
        reply == Done
        && connections == old(connections)[n.value := old(connections[n.value]).(status := Status.Kill)]
        && storage == LiveProfiles(connections)
        && calls == old(calls) + [End(n.value)]
    {
      if !(n.Some? && n.value < |connections|) {
        return Rejected(InvalidNumber);
      }
      var i := n.value;
      calls := calls + [End(i)];
      connections := connections[i := connections[i].(status := Status.Kill)];
      storage := LiveProfiles(connections);
      reply := Done;
    }

    /** The restart command: ends every client, killed or not, empties the
        registry and reloads it, so positions start again at 0. The
        selection is not cleared. */
    method Restart(file: seq<Profile>)
      requires Valid()
      modifies this
      ensures Valid()
      ensures connections == Reloaded([], storage, file)
      ensures calls == old(calls) + EndCalls(|old(connections)|) + OpenCalls(0, storage)
                      + OpenCalls(|storage|, Kept(Appended([], storage), file))
      ensures storage == old(storage) && current == old(current)
    {
      var n := |connections|;
      for k := 0 to n
        invariant calls == old(calls) + EndCalls(k)
        invariant connections == old(connections) && storage == old(storage) && current == old(current)
      {
        calls := calls + [End(k)];
      }
      connections := [];
      Reload(file);
    }
  }
}
