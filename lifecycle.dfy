/** The per-connection state machine driven by the transport's `connect`,
    `error` and `close` events (index.js:31-48), as a pure transition
    function, and what any sequence of events does to one record. */
module Lifecycle {
  import opened Records

  datatype Event = Connect | Fail(message: string) | Close

  /** The record after one event, and whether the handler forced the
      transport closed with `client.end(true)`. */
  datatype Outcome = Outcome(record: Record, forcedEnd: bool)

  /** One handler run. `connect` and `error` have no guard for killed
      records; `close` ignores a killed record, gives up once the counter has
      reached the cap, and otherwise counts one more attempt. */
  function Step(r: Record, e: Event): (o: Outcome)
    ensures SameSetup(o.record, r)
    ensures e.Connect? ==> o.record == r.(status := Connected) && !o.forcedEnd
    ensures e.Fail? ==> o.record == r.(status := Error, error := Some(e.message)) && !o.forcedEnd
    ensures e.Close? && r.status == Kill ==> o == Outcome(r, false)
    ensures o.forcedEnd <==> e.Close? && r.status != Kill && r.reconnect >= MaxReconnects
    ensures o.forcedEnd ==> o.record.status == Backoff && o.record.reconnect == r.reconnect
    ensures r.reconnect <= o.record.reconnect <= r.reconnect + 1
    ensures o.record.reconnect == r.reconnect + 1 <==> e.Close? && r.status != Kill && r.reconnect < MaxReconnects
    ensures e.Close? && r.status != Kill && r.reconnect < MaxReconnects ==>
      o.record.status == Reconnect && o.record.error == r.error
    ensures o.record.status == Kill ==> r.status == Kill
    ensures WellFormed(r) ==> WellFormed(o.record)
  {
    match e
    case Connect => Outcome(r.(status := Connected), false)
    case Fail(m) => Outcome(r.(status := Error, error := Some(m)), false)
    case Close =>
      if r.status == Kill then Outcome(r, false)
      else if r.reconnect >= MaxReconnects then Outcome(r.(status := Backoff), true)
      else Outcome(r.(status := Reconnect, reconnect := r.reconnect + 1), false)
  }

  /** The record after a whole sequence of events, with the number of
      `end(true)` calls the handlers made along the way. */
  datatype Trace = Trace(record: Record, ends: nat)

  function Run(r: Record, evs: seq<Event>): (t: Trace)
    decreases |evs|
  {
    if evs == [] then Trace(r, 0)
    else
      var o := Step(r, evs[0]);
      var t := Run(o.record, evs[1..]);
      Trace(t.record, t.ends + (if o.forcedEnd then 1 else 0))
  }

  function CloseCount(evs: seq<Event>): (n: nat)
    decreases |evs|
  {
    if evs == [] then 0 else (if evs[0].Close? then 1 else 0) + CloseCount(evs[1..])
  }

  /** `n` consecutive `close` events. */
  function Closes(n: nat): (evs: seq<Event>)
    ensures |evs| == n && forall k :: 0 <= k < n ==> evs[k] == Close
  {
    if n == 0 then [] else [Close] + Closes(n - 1)
  }

  function Min(a: int, b: int): (m: int) { if a <= b then a else b }

  /** On a record that is not killed, any event sequence leaves the attempt
      counter at the number of closes seen, capped at three: `connect` never
      resets it. Every close beyond the cap forces one `end(true)`, and no
      event ever produces `kill`. */
  lemma {:induction false} RunCountsCloses(r: Record, evs: seq<Event>)
    requires r.status != Kill && r.reconnect <= MaxReconnects
    ensures Run(r, evs).record.reconnect == Min(MaxReconnects, r.reconnect + CloseCount(evs))
    ensures Run(r, evs).ends == r.reconnect + CloseCount(evs) - Min(MaxReconnects, r.reconnect + CloseCount(evs))
    ensures Run(r, evs).record.status != Kill
    ensures SameSetup(Run(r, evs).record, r)
    decreases |evs|
  {
    if evs != [] {
      RunCountsCloses(Step(r, evs[0]).record, evs[1..]);
    }
  }

  /** A killed record ignores any number of `close` events and the
      transport is not ended again. */
  lemma {:induction false} KilledIgnoresCloses(r: Record, evs: seq<Event>)
    requires r.status == Kill
    requires forall k :: 0 <= k < |evs| ==> evs[k].Close?
    ensures Run(r, evs) == Trace(r, 0)
    decreases |evs|
  {
    if evs != [] {
      KilledIgnoresCloses(r, evs[1..]);
    }
  }

  /** After `n > 0` closes in a row, a record that is not killed is
      reconnecting while its attempts stay within the cap, and in backoff as
      soon as one more close arrives. */
  lemma {:induction false} ClosesStatus(r: Record, n: nat)
    requires r.status != Kill && r.reconnect <= MaxReconnects && n > 0
    ensures Run(r, Closes(n)).record.status
            == if r.reconnect + n <= MaxReconnects then Reconnect else Backoff
    decreases n
  {
    var evs := Closes(n);
    assert evs[1..] == Closes(n - 1);
    var r1 := Step(r, Close).record;
    if n > 1 {
      ClosesStatus(r1, n - 1);
    }
  }

  /** A fresh record survives three unexpected closes in the reconnect state
      with the counter at three and without being ended; the fourth close
      puts it into backoff, keeps the counter at three and forces exactly
      one `end(true)`. */
  lemma FourthCloseBacksOff(index: nat, o: Options)
    ensures var t := Run(NewRecord(index, o), Closes(3));
      t.record.status == Reconnect && t.record.reconnect == 3 && t.ends == 0
    ensures var t := Run(NewRecord(index, o), Closes(4));
      t.record.status == Backoff && t.record.reconnect == 3 && t.ends == 1
  {
  }
}
