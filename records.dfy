/** Connection records as the registry keeps them (index.js:26-30): the
    identity a broker connection was opened with, the options that travel
    with it, and the lifecycle fields that transport events update. */
module Records {

  datatype Option<+T> = None | Some(value: T)

  /** The identity of a connection. It is also exactly what is written to
      persistent storage when a connection is saved (index.js:88-92). */
  datatype Profile = Profile(url: string, clientId: string, username: string, password: string)

  /** The `status` field. The names follow the strings the program stores:
      'connecting', 'connected', 'reconnect', 'error', 'backoff', 'kill'. */
  datatype Status = Connecting | Connected | Reconnect | Error | Backoff | Kill

  /** Unexpected closes tolerated before a record is put into backoff. */
  const MaxReconnects: nat := 3

  /** The retry interval handed to the transport, in milliseconds. */
  const ReconnectPeriodMs: nat := 5000

  /** What `addConnection` is called with: the identity, the optional
      `clean` option passed through to the transport, and the `save` flag.
      An option given as the empty string stands for one that is missing. */
  datatype Options = Options(profile: Profile, clean: Option<string>, save: bool)

  /** One entry of `state.connections`. `error` is absent until the first
      transport error; `silent` is absent (false) until the silent command. */
  datatype Record = Record(
    index: nat,
    profile: Profile,
    clean: Option<string>,
    save: bool,
    silent: bool,
    status: Status,
    reconnect: nat,
    error: Option<string>)

  /** The record `addConnection` builds for position `index`. */
  function NewRecord(index: nat, o: Options): (r: Record)
    ensures r.index == index && r.profile == o.profile && r.save == o.save
    ensures r.status == Connecting && r.reconnect == 0 && r.error == None && !r.silent
    ensures WellFormed(r)
  {
    Record(index, o.profile, o.clean, o.save, false, Connecting, 0, None)
  }

  /** The options `reloadConnections` adds a stored or file profile with:
      `{ save: true, ...opts }`. */
  function SavedOptions(p: Profile): (o: Options)
  {
    Options(p, None, true)
  }

  /** What every reachable record satisfies: the attempt counter never passes
      the cap, a record still connecting has never been closed, a record in
      backoff has used up every attempt, and one reconnecting has used one. */
  predicate WellFormed(r: Record)
  {
    && r.reconnect <= MaxReconnects
    && (r.status == Connecting ==> r.reconnect == 0)
    && (r.status == Backoff ==> r.reconnect == MaxReconnects)
    && (r.status == Reconnect ==> r.reconnect >= 1)
  }

  /** The fields no lifecycle event touches. */
  predicate SameSetup(a: Record, b: Record)
  {
    a.index == b.index && a.profile == b.profile && a.clean == b.clean
    && a.save == b.save && a.silent == b.silent
  }
}
