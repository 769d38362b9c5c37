/** Pure questions about `state.connections` and the values the commands
    compute from it: duplicate detection (index.js:16-24), the usable gate
    (index.js:83-86), the profiles `kill` writes back to storage
    (index.js:292-293), the records `reloadConnections` appends
    (index.js:94-97) and the rows of the listing (index.js:59-81). */
module Connections {
  import opened Records

  /** Record `r` stands in the way of a new connection with identity `p`:
      same url, clientId and username (the password is not compared), and
      neither in backoff nor killed. */
  predicate Blocks(r: Record, p: Profile)
  {
    r.profile.url == p.url && r.profile.clientId == p.clientId
    && r.profile.username == p.username
    && r.status != Backoff && r.status != Kill
  }

  /** `dupConnection`: some record blocks `p`. */
  function IsDuplicate(conns: seq<Record>, p: Profile): (b: bool)
    ensures b <==> exists k :: 0 <= k < |conns| && Blocks(conns[k], p)
    decreases |conns|
  {
    if conns == [] then false
    else Blocks(conns[0], p) || IsDuplicate(conns[1..], p)
  }

  /** Duplicate detection does not look at the password. */
  lemma DuplicateIgnoresPassword(conns: seq<Record>, p: Profile, password: string)
    ensures IsDuplicate(conns, p) == IsDuplicate(conns, p.(password := password))
  {
  }

  /** A record that has just been added blocks a second connection with the
      same url, clientId and username, whatever its password. */
  lemma NewRecordBlocks(conns: seq<Record>, o: Options, p: Profile)
    requires p.url == o.profile.url && p.clientId == o.profile.clientId
    requires p.username == o.profile.username
    ensures IsDuplicate(conns + [NewRecord(|conns|, o)], p)
  {
    var c := conns + [NewRecord(|conns|, o)];
    assert Blocks(c[|conns|], p);
  }

  /** `checkConnection`: the index is given, in range, and its record is
      connected. An absent index (`undefined`) is never usable. */
  predicate Usable(conns: seq<Record>, i: Option<nat>): (b: bool)
    ensures b ==> i.Some? && i.value < |conns|
    ensures b ==> conns[i.value].status != Backoff && conns[i.value].status != Kill
    ensures b ==> IsDuplicate(conns, conns[i.value].profile)
  {
    i.Some? && i.value < |conns| && conns[i.value].status == Connected
  }

  /** The identities of all records that are not killed, in registry order:
      what `kill` writes to storage. */
  function LiveProfiles(conns: seq<Record>): (ps: seq<Profile>)
    ensures |ps| <= |conns|
    ensures forall q :: q in ps ==> exists k :: 0 <= k < |conns| && conns[k].status != Kill && conns[k].profile == q
    decreases |conns|
  {
    if conns == [] then []
    else (if conns[0].status != Kill then [conns[0].profile] else []) + LiveProfiles(conns[1..])
  }

  /** Every record that is not killed has its identity written. */
  lemma {:induction false} LiveProfilesComplete(conns: seq<Record>, k: nat)
    requires k < |conns| && conns[k].status != Kill
    ensures conns[k].profile in LiveProfiles(conns)
    decreases |conns|
  {
    if k > 0 {
      LiveProfilesComplete(conns[1..], k - 1);
    }
  }

  /** Storage keeps registry order: the list for a concatenation is the
      concatenation of the lists. */
  lemma {:induction false} LiveProfilesAppend(a: seq<Record>, b: seq<Record>)
    ensures LiveProfiles(a + b) == LiveProfiles(a) + LiveProfiles(b)
    decreases |a|
  {
    if a != [] {
      assert (a + b)[1..] == a[1..] + b;
      LiveProfilesAppend(a[1..], b);
    } else {
      assert a + b == b;
    }
  }

  /** With no killed record, storage receives every identity in order. */
  lemma {:induction false} LiveProfilesAllLive(conns: seq<Record>)
    requires forall k :: 0 <= k < |conns| ==> conns[k].status != Kill
    ensures LiveProfiles(conns) == seq(|conns|, k requires 0 <= k < |conns| => conns[k].profile)
    decreases |conns|
  {
    if conns != [] {
      LiveProfilesAllLive(conns[1..]);
    }
  }

  /** Killing a live record removes exactly its identity from what is
      stored; killing one already killed stores the same list again. */
  lemma KillDropsOneProfile(conns: seq<Record>, n: nat)
    requires n < |conns|
    ensures var c := conns[n := conns[n].(status := Kill)];
      LiveProfiles(c) == LiveProfiles(conns[..n]) + LiveProfiles(conns[n + 1..])
    ensures var c := conns[n := conns[n].(status := Kill)];
      |LiveProfiles(c)| == |LiveProfiles(conns)| - (if conns[n].status != Kill then 1 else 0)
  {
    var c := conns[n := conns[n].(status := Kill)];
    assert c == conns[..n] + [c[n]] + conns[n + 1..];
    assert conns == conns[..n] + [conns[n]] + conns[n + 1..];
    LiveProfilesAppend(conns[..n] + [c[n]], conns[n + 1..]);
    LiveProfilesAppend(conns[..n], [c[n]]);
    LiveProfilesAppend(conns[..n] + [conns[n]], conns[n + 1..]);
    LiveProfilesAppend(conns[..n], [conns[n]]);
  }

  /** `conns` after `reloadConnections` has added each profile of `ps`, in
      order, with `{ save: true, ...opts }`. */
  function Appended(conns: seq<Record>, ps: seq<Profile>): (r: seq<Record>)
    ensures |r| == |conns| + |ps|
    ensures r[..|conns|] == conns
    ensures forall k :: 0 <= k < |ps| ==> r[|conns| + k] == NewRecord(|conns| + k, SavedOptions(ps[k]))
    decreases |ps|
  {
    if ps == [] then conns
    else
      var a := Appended(conns, ps[..|ps| - 1]);
      a + [NewRecord(|a|, SavedOptions(ps[|ps| - 1]))]
  }

  /** The file profiles that survive the filter of index.js:97: the filter
      is evaluated against `conns` before any of them is added, so the file
      entries are not checked against one another. */
  function Kept(conns: seq<Record>, file: seq<Profile>): (r: seq<Profile>)
    ensures |r| <= |file|
    ensures forall q :: q in r ==> q in file && !IsDuplicate(conns, q)
    ensures forall q :: q in file && !IsDuplicate(conns, q) ==> q in r
    decreases |file|
  {
    if file == [] then []
    else (if IsDuplicate(conns, file[0]) then [] else [file[0]]) + Kept(conns, file[1..])
  }

  /** The filter keeps file order and repeats: it decides each entry on its
      own, against `conns` only. */
  lemma {:induction false} KeptAppend(conns: seq<Record>, a: seq<Profile>, b: seq<Profile>)
    ensures Kept(conns, a + b) == Kept(conns, a) + Kept(conns, b)
    decreases |a|
  {
    if a == [] {
      assert a + b == b;
    } else {
      assert (a + b)[1..] == a[1..] + b;
      KeptAppend(conns, a[1..], b);
    }
  }

  /** A file that lists a fresh identity twice yields two records. */
  lemma FileRepeatsKept(conns: seq<Record>, p: Profile)
    requires !IsDuplicate(conns, p)
    ensures Kept(conns, [p, p]) == [p, p]
  {
  }

  /** The registry after `reloadConnections`: the stored profiles are added
      unconditionally, then the file profiles not blocked by any record
      present at that point. */
  function Reloaded(conns: seq<Record>, stored: seq<Profile>, file: seq<Profile>): (r: seq<Record>)
    ensures |r| == |conns| + |stored| + |Kept(Appended(conns, stored), file)|
    ensures r[..|conns|] == conns
  {
    var s := Appended(conns, stored);
    var r := Appended(s, Kept(s, file));
    assert r[..|conns|] == r[..|s|][..|conns|];
    r
  }

  /** After the kept prefix, a reload holds one fresh saved record per
      stored profile, in order, then one per kept file profile, each at its
      own position. */
  lemma ReloadedRecords(conns: seq<Record>, stored: seq<Profile>, file: seq<Profile>)
    ensures var r := Reloaded(conns, stored, file);
      forall k :: 0 <= k < |stored| ==> r[|conns| + k] == NewRecord(|conns| + k, SavedOptions(stored[k]))
    ensures var r := Reloaded(conns, stored, file);
      var kept := Kept(Appended(conns, stored), file);
      forall k :: 0 <= k < |kept| ==>
        r[|conns| + |stored| + k] == NewRecord(|conns| + |stored| + k, SavedOptions(kept[k]))
  {
    var s := Appended(conns, stored);
    var kept := Kept(s, file);
    var r := Appended(s, kept);
    assert r == Reloaded(conns, stored, file);
    assert |s| == |conns| + |stored|;
    forall k | 0 <= k < |stored|
      ensures r[|conns| + k] == NewRecord(|conns| + k, SavedOptions(stored[k]))
    {
      assert r[..|s|] == s;
      assert r[|conns| + k] == r[..|s|][|conns| + k];
    }
    forall k | 0 <= k < |kept|
      ensures r[|conns| + |stored| + k] == NewRecord(|conns| + |stored| + k, SavedOptions(kept[k]))
    {
      assert r[|s| + k] == NewRecord(|s| + k, SavedOptions(kept[k]));
    }
  }

  /** Once `kill` has rewritten storage and `restart` has emptied the
      registry and reloaded, the registry is renumbered from 0, starts with
      one fresh saved record per live identity in order, and each of those
      belongs to a record that was not killed. */
  lemma KillThenRestart(conns: seq<Record>, n: nat, file: seq<Profile>)
    requires n < |conns|
    ensures var c := conns[n := conns[n].(status := Kill)];
      var stored := LiveProfiles(c);
      var r := Reloaded([], stored, file);
      && |r| >= |stored|
      && (forall k :: 0 <= k < |r| ==> r[k].index == k && r[k].status == Connecting && r[k].reconnect == 0 && r[k].save)
      && (forall k :: 0 <= k < |stored| ==> r[k].profile == stored[k])
      && (forall k :: 0 <= k < |stored| ==> exists j :: 0 <= j < |c| && j != n && c[j].status != Kill && c[j].profile == r[k].profile)
  {
    var c := conns[n := conns[n].(status := Kill)];
    var stored := LiveProfiles(c);
    var s := Appended([], stored);
    var r := Appended(s, Kept(s, file));
    forall k | 0 <= k < |r|
      ensures r[k].index == k && r[k].status == Connecting && r[k].reconnect == 0 && r[k].save
    {
      if k < |s| {
        assert r[k] == r[..|s|][k] == s[k];
        assert s[0 + k] == NewRecord(0 + k, SavedOptions(stored[k]));
      } else {
        var kept := Kept(s, file);
        assert r[|s| + (k - |s|)] == NewRecord(|s| + (k - |s|), SavedOptions(kept[k - |s|]));
      }
    }
    forall k | 0 <= k < |stored|
      ensures r[k].profile == stored[k]
      ensures exists j :: 0 <= j < |c| && j != n && c[j].status != Kill && c[j].profile == r[k].profile
    {
      assert r[k] == r[..|s|][k] == s[k];
      assert s[0 + k] == NewRecord(0 + k, SavedOptions(stored[k]));
      assert stored[k] in stored;
    }
  }

  /** One row of the listing table: the position, a `*` when it is the
      current selection, the identity, the status (with the attempt count
      when reconnecting), the last error or nothing, and whether the row is
      shown inverted because the record is not saved. */
  datatype Row = Row(
    number: nat,
    isCurrent: bool,
    profile: Profile,
    status: Status,
    attempts: Option<nat>,
    error: string,
    unsaved: bool)

  function RowOf(i: nat, r: Record, current: Option<nat>): (row: Row)
  {
    Row(i, current == Some(i), r.profile, r.status,
        if r.status == Reconnect then Some(r.reconnect) else None,
        match r.error case Some(m) => m case None => "",
        !r.save)
  }

  /** The table `lsConnections` prints: killed records are skipped, the
      others appear in registry order with their own position. */
  function Listing(conns: seq<Record>, current: Option<nat>): (rows: seq<Row>)
    ensures |rows| <= |conns|
    ensures forall j :: 0 <= j < |rows| ==>
      rows[j].number < |conns| && conns[rows[j].number].status != Kill
      && rows[j] == RowOf(rows[j].number, conns[rows[j].number], current)
    ensures forall j, l :: 0 <= j < l < |rows| ==> rows[j].number < rows[l].number
    decreases |conns|
  {
    if conns == [] then []
    else
      var n := |conns| - 1;
      Listing(conns[..n], current)
      + (if conns[n].status == Kill then [] else [RowOf(n, conns[n], current)])
  }

  /** Every record that is not killed has its row. */
  lemma {:induction false} ListingComplete(conns: seq<Record>, current: Option<nat>, i: nat)
    requires i < |conns| && conns[i].status != Kill
    ensures RowOf(i, conns[i], current) in Listing(conns, current)
    decreases |conns|
  {
    var n := |conns| - 1;
    if i < n {
      ListingComplete(conns[..n], current, i);
    }
  }
}
