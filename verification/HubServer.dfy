/**
 The hub's registry of spokes: registration and retirement, status reports, directive queues and the
 counters derived from them.
 */
module HubServer {
  import opened Text
  import opened Sums
  import opened Options
  import Distribution

  const DIRECTIVE_BUFFER_SIZE: int := 32

  datatype CaptureSummary = CaptureSummary(namespace: string, name: string)

  datatype ReplayPhase = Unspecified | Pending | Running | Completed | Failed

  datatype ReplaySummary = ReplaySummary(
    namespace: string, loadTest: string, replay: string, index: int, phase: ReplayPhase)

  datatype LoadTestKey = LoadTestKey(namespace: string, name: string)

  type Directive = string

  /** The buffered channel of directives. */
  datatype Channel = Channel(capacity: nat, items: seq<Directive>)

  /** `done` numbers the registration, and with it its two channels: the one that is closed when the
      registration is retired and the one for directives. `activeReplays` is a cache. */
  datatype Entry = Entry(
    cluster: string, cell: string, lastHeartbeat: int,
    activeCaptures: int, activeReplays: int,
    captures: map<string, CaptureSummary>, replays: map<string, ReplaySummary>,
    done: nat)

  datatype Status = Ok | InvalidArgument | NotFound | ResourceExhausted

  datatype Snapshot = Snapshot(spoke: string, cell: string, summary: ReplaySummary)

  datatype Cell = Cell(name: string, connected: int, total: int, captures: int, replays: int)

  /** The registry as planning sees it. */
  function Candidates(spokes: map<string, Entry>): map<string, Distribution.Candidate> {
    map id | id in spokes :: Distribution.Candidate(spokes[id].cell, spokes[id].lastHeartbeat)
  }

  // ---------------------------------------------------------------------
  // Keys
  // ---------------------------------------------------------------------

  function CaptureKey(s: CaptureSummary): string {
    s.namespace + "/" + s.name
  }

  function ReplayKey(s: ReplaySummary): string {
    s.namespace + "/" + s.loadTest + "/" + s.replay
  }

  /** `ReplayShardName`. */
  function ReplayShardName(loadTest: string, index: nat): string {
    loadTest + "-shard-" + Decimal(index)
  }

  /** Reports with the same key are about the same capture. */
  lemma CaptureKeyInjective(a: CaptureSummary, b: CaptureSummary)
    requires '/' !in a.namespace && '/' !in b.namespace && CaptureKey(a) == CaptureKey(b)
    ensures a == b
  {
    assert CaptureKey(a) == a.namespace + ['/'] + a.name && CaptureKey(b) == b.namespace + ['/'] + b.name;
    SplitAtSeparator(a.namespace, a.name, b.namespace, b.name, '/');
  }

  lemma ReplayKeyInjective(a: ReplaySummary, b: ReplaySummary)
    requires '/' !in a.namespace && '/' !in a.loadTest && '/' !in b.namespace && '/' !in b.loadTest
    requires ReplayKey(a) == ReplayKey(b)
    ensures a.namespace == b.namespace && a.loadTest == b.loadTest && a.replay == b.replay
  {
    var x, y := a.loadTest + "/" + a.replay, b.loadTest + "/" + b.replay;
    assert ReplayKey(a) == a.namespace + ['/'] + x && ReplayKey(b) == b.namespace + ['/'] + y;
    SplitAtSeparator(a.namespace, x, b.namespace, y, '/');
    assert x == a.loadTest + ['/'] + a.replay && y == b.loadTest + ['/'] + b.replay;
    SplitAtSeparator(a.loadTest, a.replay, b.loadTest, b.replay, '/');
  }

  /** Two shards with the same name are the same shard of the same load test. */
  lemma ReplayShardNameInjective(a: string, i: nat, b: string, j: nat)
    requires ReplayShardName(a, i) == ReplayShardName(b, j)
    ensures a == b && i == j
  {
    var x, y := a + "-shard", b + "-shard";
    assert ReplayShardName(a, i) == x + "-" + Decimal(i) && ReplayShardName(b, j) == y + "-" + Decimal(j);
    SplitAtLastDash(x, Decimal(i), y, Decimal(j));
    DecimalInjective(i, j);
    assert |a| == |b| && a == x[..|a|] && b == y[..|b|];
  }

  // ---------------------------------------------------------------------
  // Merging and counting
  // ---------------------------------------------------------------------

  function MergedReplays(m: map<string, ReplaySummary>, list: seq<ReplaySummary>): map<string, ReplaySummary> {
    if list == [] then m
    else
      var last := list[|list| - 1];
      MergedReplays(m, list[..|list| - 1])[ReplayKey(last) := last]
  }

  function MergedCaptures(m: map<string, CaptureSummary>, list: seq<CaptureSummary>): map<string, CaptureSummary> {
    if list == [] then m
    else
      var last := list[|list| - 1];
      MergedCaptures(m, list[..|list| - 1])[CaptureKey(last) := last]
  }

  ghost predicate LastReport(list: seq<ReplaySummary>, k: string, i: nat) {
    i < |list| && ReplayKey(list[i]) == k && forall j :: i < j < |list| ==> ReplayKey(list[j]) != k
  }

  /** After merging, the last report on a replay counts. */
  lemma {:induction false} MergedLast(m: map<string, ReplaySummary>, list: seq<ReplaySummary>, k: string, i: nat)
    requires LastReport(list, k, i)
    ensures k in MergedReplays(m, list) && MergedReplays(m, list)[k] == list[i]
  {
    var init := list[..|list| - 1];
    if i < |init| {
      assert ReplayKey(list[|list| - 1]) != k;
      assert forall j :: 0 <= j < |init| ==> init[j] == list[j];
      MergedLast(m, init, k, i);
    }
  }

  /** Replays without a report keep what they had. */
  lemma {:induction false} MergedUntouched(m: map<string, ReplaySummary>, list: seq<ReplaySummary>, k: string)
    requires forall i :: 0 <= i < |list| ==> ReplayKey(list[i]) != k
    ensures (k in MergedReplays(m, list) <==> k in m) && (k in m ==> MergedReplays(m, list)[k] == m[k])
  {
    if list == [] {
    } else {
      var init := list[..|list| - 1];
      assert forall j :: 0 <= j < |init| ==> init[j] == list[j];
      MergedUntouched(m, init, k);
    }
  }

  ghost predicate LastCapture(list: seq<CaptureSummary>, k: string, i: nat) {
    i < |list| && CaptureKey(list[i]) == k && forall j :: i < j < |list| ==> CaptureKey(list[j]) != k
  }

  /** The same for captures: the last report on a capture counts. */
  lemma {:induction false} MergedCaptureLast(m: map<string, CaptureSummary>, list: seq<CaptureSummary>, k: string,
                                             i: nat)
    requires LastCapture(list, k, i)
    ensures k in MergedCaptures(m, list) && MergedCaptures(m, list)[k] == list[i]
  {
    var init := list[..|list| - 1];
    if i < |init| {
      assert CaptureKey(list[|list| - 1]) != k;
      assert forall j :: 0 <= j < |init| ==> init[j] == list[j];
      MergedCaptureLast(m, init, k, i);
    }
  }

  /** Captures without a report keep what they had. */
  lemma {:induction false} MergedCaptureUntouched(m: map<string, CaptureSummary>, list: seq<CaptureSummary>, k: string)
    requires forall i :: 0 <= i < |list| ==> CaptureKey(list[i]) != k
    ensures (k in MergedCaptures(m, list) <==> k in m) && (k in m ==> MergedCaptures(m, list)[k] == m[k])
  {
    if list == [] {
    } else {
      var init := list[..|list| - 1];
      assert forall j :: 0 <= j < |init| ==> init[j] == list[j];
      MergedCaptureUntouched(m, init, k);
    }
  }

  ghost predicate Keyed(m: map<string, ReplaySummary>) {
    forall k :: k in m ==> ReplayKey(m[k]) == k
  }

  lemma {:induction false} MergedKeyed(m: map<string, ReplaySummary>, list: seq<ReplaySummary>)
    requires Keyed(m)
    ensures Keyed(MergedReplays(m, list))
  {
    if list == [] {
    } else {
      MergedKeyed(m, list[..|list| - 1]);
    }
  }

  method MergeReplays(m: map<string, ReplaySummary>, list: seq<ReplaySummary>) returns (r: map<string, ReplaySummary>)
    ensures r == MergedReplays(m, list)
  {
    r := m;
    for i := 0 to |list|
      invariant r == MergedReplays(m, list[..i])
    {
      assert list[..i + 1][..i] == list[..i];
      r := r[ReplayKey(list[i]) := list[i]];
    }
    assert list[..|list|] == list;
  }

  method MergeCaptures(m: map<string, CaptureSummary>, list: seq<CaptureSummary>)
    returns (r: map<string, CaptureSummary>)
    ensures r == MergedCaptures(m, list)
  {
    r := m;
    for i := 0 to |list|
      invariant r == MergedCaptures(m, list[..i])
    {
      assert list[..i + 1][..i] == list[..i];
      r := r[CaptureKey(list[i]) := list[i]];
    }
    assert list[..|list|] == list;
  }

  predicate Live(s: ReplaySummary) {
    !s.phase.Completed? && !s.phase.Failed?
  }

  ghost function LiveKeys(m: map<string, ReplaySummary>): set<string> {
    set k | k in m && m[k].phase !in {Completed, Failed}
  }

  /** `activeReplayCount`: the replays are visited in any order. */
  method CountActiveReplays(m: map<string, ReplaySummary>) returns (count: nat)
    ensures count == |LiveKeys(m)|
  {
    count := 0;
    var left := m.Keys;
    ghost var seen: set<string> := {};
    while left != {}
      invariant left <= m.Keys && seen == LiveKeys(m) - left
      invariant count == |seen|
    {
      var k :| k in left;
      left := left - {k};
      if Live(m[k]) {
        seen := seen + {k};
        count := count + 1;
      }
    }
    assert seen == LiveKeys(m);
  }

  // ---------------------------------------------------------------------
  // The registry invariant
  // ---------------------------------------------------------------------

  ghost predicate HasEntry(spokes: map<string, Entry>, d: nat) {
    exists id :: id in spokes && spokes[id].done == d
  }

  /** A registration is in the map if and only if its channel is open. */
  ghost predicate OpenIffRegistered(spokes: map<string, Entry>, closed: set<nat>, made: nat) {
    && (forall id :: id in spokes ==> spokes[id].done < made && spokes[id].done !in closed)
    && (forall d :: 0 <= d < made && d !in closed ==> HasEntry(spokes, d))
    && (forall a, b :: a in spokes && b in spokes && spokes[a].done == spokes[b].done ==> a == b)
  }

  ghost predicate EntryValid(e: Entry) {
    e.activeReplays == |LiveKeys(e.replays)| && Keyed(e.replays)
  }

  ghost predicate EntriesValid(spokes: map<string, Entry>) {
    "" !in spokes && forall id :: id in spokes ==> EntryValid(spokes[id])
  }

  lemma Replaced(spokes: map<string, Entry>, closed: set<nat>, made: nat, id: string, e: Entry)
    requires OpenIffRegistered(spokes, closed, made) && id in spokes && e.done == spokes[id].done
    ensures OpenIffRegistered(spokes[id := e], closed, made)
  {
    forall d | 0 <= d < made && d !in closed ensures HasEntry(spokes[id := e], d) {
      var owner :| owner in spokes && spokes[owner].done == d;
      assert owner in spokes[id := e] && spokes[id := e][owner].done == d;
    }
  }

  lemma Removed(spokes: map<string, Entry>, closed: set<nat>, made: nat, id: string)
    requires OpenIffRegistered(spokes, closed, made) && id in spokes
    ensures OpenIffRegistered(spokes - {id}, closed + {spokes[id].done}, made)
  {
    forall d | 0 <= d < made && d !in closed + {spokes[id].done} ensures HasEntry(spokes - {id}, d) {
      var owner :| owner in spokes && spokes[owner].done == d;
      assert owner in spokes - {id};
    }
  }

  lemma Added(spokes: map<string, Entry>, closed: set<nat>, made: nat, id: string, e: Entry)
    requires OpenIffRegistered(spokes, closed, made) && id !in spokes && e.done == made && made !in closed
    ensures OpenIffRegistered(spokes[id := e], closed, made + 1)
  {
    var after := spokes[id := e];
    assert after[id].done == made;
    forall d | 0 <= d < made + 1 && d !in closed ensures HasEntry(after, d) {
      if d < made {
        var owner :| owner in spokes && spokes[owner].done == d;
        assert owner in after && after[owner].done == d;
      }
    }
  }

  /** The channel that a registration under this name closes. */
  function Retiring(spokes: map<string, Entry>, id: string): set<nat> {
    if id in spokes then {spokes[id].done} else {}
  }

  lemma Registered(spokes: map<string, Entry>, closed: set<nat>, made: nat, id: string, e: Entry)
    requires OpenIffRegistered(spokes, closed, made) && e.done == made && made !in closed
    ensures OpenIffRegistered(spokes[id := e], closed + Retiring(spokes, id), made + 1)
  {
    var rest := spokes - {id};
    if id in spokes {
      Removed(spokes, closed, made, id);
    } else {
      assert rest == spokes && closed + {} == closed;
    }
    Added(rest, closed + Retiring(spokes, id), made, id, e);
    assert rest[id := e] == spokes[id := e];
  }

  /** A buffer has room for the configured number of directives, or for 32 if none is configured. */
  function Capacity(bufferSize: int): (n: nat)
    ensures bufferSize > 0 ==> n == bufferSize
    ensures bufferSize <= 0 ==> n == 32
  {
    if bufferSize > 0 then bufferSize else DIRECTIVE_BUFFER_SIZE
  }

  /** Everything about an entry that was made just now. */
  ghost predicate IsNew(e: Entry, cluster: string, cell: string, now: int, done: nat) {
    && e.cluster == cluster && e.cell == cell && e.lastHeartbeat == now && e.done == done
    && e.captures == map[] && e.replays == map[] && e.activeCaptures == 0 && e.activeReplays == 0
  }

  function NewEntry(cluster: string, cell: string, now: int, done: nat): Entry {
    Entry(cluster, cell, now, 0, 0, map[], map[], done)
  }

  ghost predicate Consistent(spokes: map<string, Entry>, closed: set<nat>, made: nat) {
    OpenIffRegistered(spokes, closed, made) && EntriesValid(spokes) && forall d :: d in closed ==> d < made
  }

  lemma RegisteredValid(spokes: map<string, Entry>, closed: set<nat>, made: nat, id: string, e: Entry)
    requires Consistent(spokes, closed, made) && id != ""
    requires e.done == made && e.replays == map[] && e.activeReplays == 0
    ensures Consistent(spokes[id := e], closed + Retiring(spokes, id), made + 1)
  {
    Registered(spokes, closed, made, id, e);
  }

  lemma RemovedValid(spokes: map<string, Entry>, closed: set<nat>, made: nat, id: string)
    requires Consistent(spokes, closed, made) && id in spokes
    ensures Consistent(spokes - {id}, closed + {spokes[id].done}, made)
  {
    Removed(spokes, closed, made, id);
  }

  function Sent(c: Channel, d: Directive): Channel {
    c.(items := c.items + [d])
  }

  /** Every registration ever made has its channel of directives, and none is overfull. */
  ghost predicate ChannelsValid(channels: map<nat, Channel>, made: nat) {
    && (forall d: nat :: d in channels <==> d < made)
    && (forall d :: d in channels ==> |channels[d].items| <= channels[d].capacity)
  }

  ghost predicate OwnersValid(spokes: map<string, Entry>, owners: seq<string>, made: nat) {
    |owners| == made && forall id :: id in spokes ==> spokes[id].done < made && owners[spokes[id].done] == id
  }

  lemma OwnerAdded(spokes: map<string, Entry>, owners: seq<string>, made: nat, id: string, e: Entry)
    requires OwnersValid(spokes, owners, made) && e.done == made
    ensures OwnersValid(spokes[id := e], owners + [id], made + 1)
  {
  }

  ghost predicate RegistryValid(spokes: map<string, Entry>, closed: set<nat>, channels: map<nat, Channel>,
                                owners: seq<string>, made: nat)
  {
    Consistent(spokes, closed, made) && ChannelsValid(channels, made) && OwnersValid(spokes, owners, made)
  }

  lemma RegistrationAdded(spokes: map<string, Entry>, closed: set<nat>, channels: map<nat, Channel>,
                          owners: seq<string>, made: nat, id: string, e: Entry, capacity: nat)
    requires RegistryValid(spokes, closed, channels, owners, made) && id != ""
    requires e.done == made && e.replays == map[] && e.activeReplays == 0
    ensures RegistryValid(spokes[id := e], closed + Retiring(spokes, id),
                          channels[made := Channel(capacity, [])], owners + [id], made + 1)
  {
    RegisteredValid(spokes, closed, made, id, e);
    ChannelAdded(channels, made, capacity);
    OwnerAdded(spokes, owners, made, id, e);
  }

  lemma ChannelAdded(channels: map<nat, Channel>, made: nat, capacity: nat)
    requires ChannelsValid(channels, made)
    ensures ChannelsValid(channels[made := Channel(capacity, [])], made + 1)
  {
  }

  class Server {
    var spokes: map<string, Entry>
    var closed: set<nat>
    var channels: map<nat, Channel>
    var made: nat
    var bufferSize: int
    var activeLoadTests: seq<LoadTestKey>
    var activeLoadTestsComplete: bool
    /** Which spoke made which registration. */
    ghost var owners: seq<string>

    ghost predicate Valid()
      reads this
    {
      RegistryValid(spokes, closed, channels, owners, made)
    }

    constructor ()
      ensures Valid() && spokes == map[] && made == 0 && activeLoadTests == [] && !activeLoadTestsComplete
      ensures channels == map[] && owners == []
    {
      owners := [];
      spokes, closed, channels, made, bufferSize := map[], {}, map[], 0, 0;
      activeLoadTests, activeLoadTestsComplete := [], false;
    }

    /** Publishes the list that heartbeats carry; `complete` only when it came from a successful read. */
    method SetActiveLoadTests(keys: seq<LoadTestKey>, complete: bool)
      requires Valid()
      modifies this`activeLoadTests, this`activeLoadTestsComplete
      ensures Valid() && activeLoadTests == keys && activeLoadTestsComplete == complete
    {
      activeLoadTests, activeLoadTestsComplete := keys, complete;
    }

    /** Closing a closed channel panics. */
    method CloseDone(d: nat)
      requires d !in closed
      modifies this`closed
      ensures closed == old(closed) + {d}
    {
      closed := closed + {d};
    }

    method CloseOld(id: string)
      requires Valid()
      modifies this`closed
      ensures closed == old(closed) + Retiring(spokes, id)
    {
      if id in spokes {
        CloseDone(spokes[id].done);
      }
    }

    /** A previous registration is retired, and a fresh one takes its place. */
    method RegisterSpoke(id: string, cluster: string, cell: string, now: int) returns (status: Status)
      requires Valid()
      modifies this`spokes, this`closed, this`channels, this`made, this`owners
      ensures Valid()
      ensures status == if id == "" then InvalidArgument else Ok
      ensures !status.Ok? ==>
        && spokes == old(spokes) && closed == old(closed) && channels == old(channels)
        && made == old(made) && owners == old(owners)
      ensures status.Ok? ==>
        && made == old(made) + 1 && owners == old(owners) + [id]
        && closed == old(closed) + Retiring(old(spokes), id)
        && channels == old(channels)[old(made) := Channel(Capacity(bufferSize), [])]
        && spokes == old(spokes)[id := NewEntry(cluster, cell, now, old(made))]
      ensures status.Ok? ==> IsNew(spokes[id], cluster, cell, now, old(made))
    {
      if id == "" { return InvalidArgument; }
      var e := NewEntry(cluster, cell, now, made);
      RegistrationAdded(spokes, closed, channels, owners, made, id, e, Capacity(bufferSize));
      CloseOld(id);
      channels := channels[made := Channel(Capacity(bufferSize), [])];
      spokes, made, owners := spokes[id := e], made + 1, owners + [id];
      status := Ok;
    }

    method DeregisterSpoke(id: string) returns (status: Status)
      requires Valid()
      modifies this`spokes, this`closed
      ensures Valid()
      ensures status == if id == "" then InvalidArgument else if id in old(spokes) then Ok else NotFound
      ensures if status.Ok? then spokes == old(spokes) - {id} && closed == old(closed) + {old(spokes)[id].done}
              else spokes == old(spokes) && closed == old(closed)
    {
      if id == "" { return InvalidArgument; }
      if id !in spokes { return NotFound; }
      RemovedValid(spokes, closed, made, id);
      CloseDone(spokes[id].done);
      spokes := spokes - {id};
      status := Ok;
    }

    /** The response carries the published list of load tests. */
    method Heartbeat(id: string, captures: seq<CaptureSummary>, active: int, replays: seq<ReplaySummary>, now: int)
      returns (status: Status, listed: seq<LoadTestKey>, complete: bool)
      requires Valid()
      modifies this`spokes
      ensures Valid()
      ensures status == if id == "" then InvalidArgument else if id in old(spokes) then Ok else NotFound
      ensures !status.Ok? ==> spokes == old(spokes) && listed == [] && !complete
      ensures status.Ok? ==> listed == activeLoadTests && complete == activeLoadTestsComplete
      ensures status.Ok? ==>
        var e := old(spokes)[id];
        var rs := MergedReplays(e.replays, replays);
        spokes == old(spokes)[id := e.(lastHeartbeat := now, activeCaptures := active,
                                       captures := MergedCaptures(e.captures, captures),
                                       replays := rs, activeReplays := |LiveKeys(rs)|)]
    {
      if id == "" { return InvalidArgument, [], false; }
      if id !in spokes { return NotFound, [], false; }
      var e := spokes[id];
      var cs := MergeCaptures(e.captures, captures);
      var rs := MergeReplays(e.replays, replays);
      MergedKeyed(e.replays, replays);
      var count := CountActiveReplays(rs);
      var f := e.(lastHeartbeat := now, activeCaptures := active, captures := cs, replays := rs,
                  activeReplays := count);
      Replaced(spokes, closed, made, id, f);
      spokes := spokes[id := f];
      status, listed, complete := Ok, activeLoadTests, activeLoadTestsComplete;
    }

    method ReportReplayStatus(id: string, statuses: seq<ReplaySummary>) returns (status: Status)
      requires Valid()
      modifies this`spokes
      ensures Valid()
      ensures status == if id == "" || statuses == [] then InvalidArgument
                        else if id in old(spokes) then Ok else NotFound
      ensures !status.Ok? ==> spokes == old(spokes)
      ensures status.Ok? ==>
        var e := old(spokes)[id];
        var rs := MergedReplays(e.replays, statuses);
        spokes == old(spokes)[id := e.(replays := rs, activeReplays := |LiveKeys(rs)|)]
    {
      if id == "" || statuses == [] { return InvalidArgument; }
      if id !in spokes { return NotFound; }
      var e := spokes[id];
      var rs := MergeReplays(e.replays, statuses);
      MergedKeyed(e.replays, statuses);
      var count := CountActiveReplays(rs);
      var f := e.(replays := rs, activeReplays := count);
      Replaced(spokes, closed, made, id, f);
      spokes := spokes[id := f];
      status := Ok;
    }

    method ReportCaptureStatus(id: string, statuses: seq<CaptureSummary>) returns (status: Status)
      requires Valid()
      modifies this`spokes
      ensures Valid()
      ensures status == if id == "" || statuses == [] then InvalidArgument
                        else if id in old(spokes) then Ok else NotFound
      ensures !status.Ok? ==> spokes == old(spokes)
      ensures status.Ok? ==>
        var e := old(spokes)[id];
        var cs := MergedCaptures(e.captures, statuses);
        spokes == old(spokes)[id := e.(captures := cs, activeCaptures := |cs|)]
    {
      if id == "" || statuses == [] { return InvalidArgument; }
      if id !in spokes { return NotFound; }
      var e := spokes[id];
      var cs := MergeCaptures(e.captures, statuses);
      var f := e.(captures := cs, activeCaptures := |cs|);
      Replaced(spokes, closed, made, id, f);
      spokes := spokes[id := f];
      status := Ok;
    }

    /** The look-up under the lock: the number of the spoke's registration. */
    method LookUp(id: string) returns (done: Option<nat>)
      requires Valid()
      ensures done == if id in spokes then Some(spokes[id].done) else None
      ensures done.Some? ==> done.value in channels && done.value !in closed
    {
      done := if id in spokes then Some(spokes[id].done) else None;
    }

    /** The attempt to queue, after the lock: last in line, never beyond the buffer. It does not look whether
        the registration is still the spoke's. */
    method TrySend(done: nat, d: Directive) returns (ok: bool)
      requires Valid() && done in channels
      modifies this`channels
      ensures Valid()
      ensures ok == (|old(channels)[done].items| < old(channels)[done].capacity)
      ensures channels == if ok then old(channels)[done := Sent(old(channels)[done], d)] else old(channels)
    {
      ok := |channels[done].items| < channels[done].capacity;
      if ok {
        channels := channels[done := Sent(channels[done], d)];
      }
    }

    /** A watcher of a registration takes the directive that has waited longest. */
    method TakeDirective(done: nat) returns (d: Option<Directive>)
      requires Valid() && done in channels
      modifies this`channels
      ensures Valid()
      ensures d.None? ==> old(channels)[done].items == [] && channels == old(channels)
      ensures d.Some? ==>
        && channels.Keys == old(channels).Keys && channels[done].capacity == old(channels)[done].capacity
        && [d.value] + channels[done].items == old(channels)[done].items
        && forall o :: o in channels && o != done ==> channels[o] == old(channels)[o]
    {
      var c := channels[done];
      if c.items == [] { return None; }
      channels := channels[done := c.(items := c.items[1..])];
      d := Some(c.items[0]);
    }

    /** The look-up and the attempt, with nothing in between. */
    method QueueDirective(id: string, d: Directive) returns (status: Status)
      requires Valid()
      modifies this`channels
      ensures Valid()
      ensures status == if id == "" then InvalidArgument else if id !in spokes then NotFound
                        else if |old(channels)[spokes[id].done].items| < old(channels)[spokes[id].done].capacity then Ok
                        else ResourceExhausted
      ensures channels == if !status.Ok? then old(channels)
                          else old(channels)[spokes[id].done := Sent(old(channels)[spokes[id].done], d)]
    {
      if id == "" { return InvalidArgument; }
      var done := LookUp(id);
      if done.None? { return NotFound; }
      var ok := TrySend(done.value, d);
      status := if ok then Ok else ResourceExhausted;
    }

    /** `ClearReplayStatuses`: drops the load test's statuses everywhere, and nothing else. */
    method ClearReplayStatuses(namespace: string, loadTest: string)
      requires Valid()
      modifies this`spokes
      ensures Valid()
      ensures Forgotten(old(spokes), spokes, {}, namespace, loadTest)
    {
      var after := ForgetAll(spokes, namespace, loadTest);
      ForgottenEntries(spokes, after, namespace, loadTest);
      spokes := after;
    }

    /** `SelectSpokes` on the registry as it is: connected spokes of the wanted cells, by ID. */
    method SelectSpokes(cells: seq<string>, max: int, now: int) returns (selected: seq<Distribution.Selection>)
      requires Valid()
      ensures Distribution.IsSelection(Candidates(spokes), cells, max, now, selected)
    {
      selected := Distribution.SelectSpokes(Candidates(spokes), cells, max, now);
    }

    /** `ReplayStatuses`: every status of the load test, each once. */
    method ReplayStatuses(namespace: string, loadTest: string) returns (result: seq<Snapshot>)
      requires Valid()
      ensures forall x :: x in result <==> IsStatus(spokes, namespace, loadTest, x)
      ensures DistinctTags(result)
    {
      result := [];
      var left := spokes.Keys;
      while left != {}
        invariant left <= spokes.Keys
        invariant forall x :: x in result <==> IsStatus(spokes, namespace, loadTest, x) && x.spoke !in left
        invariant DistinctTags(result)
      {
        var id :| id in left;
        left := left - {id};
        var part := StatusesOf(id, spokes[id], namespace, loadTest);
        assert forall x :: x in result ==> x.spoke != id;
        assert forall x :: x in part <==> IsStatus(spokes, namespace, loadTest, x) && x.spoke == id;
        result := result + part;
      }
    }
  }

  // ---------------------------------------------------------------------
  // Counters
  // ---------------------------------------------------------------------

  /** What one spoke adds to the counters. */
  ghost function Connected(spokes: map<string, Entry>, now: int): string -> int {
    (id: string) => if id in spokes && now - spokes[id].lastHeartbeat <= Distribution.SPOKE_TIMEOUT then 1 else 0
  }

  ghost function One(): string -> int {
    (id: string) => 1
  }

  ghost function Captures(spokes: map<string, Entry>): string -> int {
    (id: string) => if id in spokes then |spokes[id].captures| else 0
  }

  ghost function Replays(spokes: map<string, Entry>): string -> int {
    (id: string) => if id in spokes then |LiveKeys(spokes[id].replays)| else 0
  }

  method ConnectedSpokeCount(spokes: map<string, Entry>, now: int) returns (count: int)
    ensures count == Sum(Connected(spokes, now), spokes.Keys)
  {
    count := 0;
    var left := spokes.Keys;
    ghost var seen: set<string> := {};
    while left != {}
      invariant left <= spokes.Keys && seen == spokes.Keys - left && count == Sum(Connected(spokes, now), seen)
    {
      var id :| id in left;
      left := left - {id};
      SumAdd(Connected(spokes, now), seen, id);
      seen := seen + {id};
      if now - spokes[id].lastHeartbeat <= Distribution.SPOKE_TIMEOUT {
        count := count + 1;
      }
    }
    assert seen == spokes.Keys;
  }

  method ActiveCaptureCount(spokes: map<string, Entry>) returns (count: int)
    ensures count == Sum(Captures(spokes), spokes.Keys)
  {
    count := 0;
    var left := spokes.Keys;
    ghost var seen: set<string> := {};
    while left != {}
      invariant left <= spokes.Keys && seen == spokes.Keys - left && count == Sum(Captures(spokes), seen)
    {
      var id :| id in left;
      left := left - {id};
      SumAdd(Captures(spokes), seen, id);
      seen := seen + {id};
      count := count + |spokes[id].captures|;
    }
    assert seen == spokes.Keys;
  }

  method ActiveReplayCount(spokes: map<string, Entry>) returns (count: int)
    ensures count == Sum(Replays(spokes), spokes.Keys)
  {
    count := 0;
    var left := spokes.Keys;
    ghost var seen: set<string> := {};
    while left != {}
      invariant left <= spokes.Keys && seen == spokes.Keys - left && count == Sum(Replays(spokes), seen)
    {
      var id :| id in left;
      left := left - {id};
      SumAdd(Replays(spokes), seen, id);
      seen := seen + {id};
      var active := CountActiveReplays(spokes[id].replays);
      count := count + active;
    }
    assert seen == spokes.Keys;
  }

  ghost function CellOf(spokes: map<string, Entry>): string -> string {
    (id: string) => if id in spokes then spokes[id].cell else ""
  }

  /** The numbers of one cell, over the spokes `ids`. */
  ghost function Tally(spokes: map<string, Entry>, now: int, ids: set<string>, c: string): Cell {
    var cell := CellOf(spokes);
    Cell(c, PerCell(Connected(spokes, now), ids, cell)(c), PerCell(One(), ids, cell)(c),
         PerCell(Captures(spokes), ids, cell)(c), PerCell(Replays(spokes), ids, cell)(c))
  }

  ghost function CellNames(spokes: map<string, Entry>, ids: set<string>): set<string> {
    set id | id in ids :: CellOf(spokes)(id)
  }

  lemma TallyOther(spokes: map<string, Entry>, now: int, ids: set<string>, id: string, c: string)
    requires CellOf(spokes)(id) != c
    ensures Tally(spokes, now, ids + {id}, c) == Tally(spokes, now, ids, c)
  {
    assert Members(ids + {id}, CellOf(spokes), c) == Members(ids, CellOf(spokes), c);
  }

  /** The row of its cell, with one more spoke counted in. */
  ghost function Counted(t: Cell, spokes: map<string, Entry>, now: int, id: string): Cell {
    Cell(t.name, t.connected + Connected(spokes, now)(id), t.total + 1, t.captures + Captures(spokes)(id),
      t.replays + Replays(spokes)(id))
  }

  lemma TallySame(spokes: map<string, Entry>, now: int, ids: set<string>, id: string)
    requires id !in ids
    ensures Tally(spokes, now, ids + {id}, CellOf(spokes)(id))
          == Counted(Tally(spokes, now, ids, CellOf(spokes)(id)), spokes, now, id)
  {
    var c := CellOf(spokes)(id);
    var here := Members(ids, CellOf(spokes), c);
    assert Members(ids + {id}, CellOf(spokes), c) == here + {id};
    SumAdd(Connected(spokes, now), here, id);
    SumAdd(One(), here, id);
    SumAdd(Captures(spokes), here, id);
    SumAdd(Replays(spokes), here, id);
  }

  ghost predicate RowsTallied(spokes: map<string, Entry>, now: int, ids: set<string>, byCell: map<string, Cell>) {
    forall c :: c in byCell ==> byCell[c] == Tally(spokes, now, ids, c)
  }

  ghost predicate Tallied(spokes: map<string, Entry>, now: int, ids: set<string>, byCell: map<string, Cell>) {
    byCell.Keys == CellNames(spokes, ids) && RowsTallied(spokes, now, ids, byCell)
  }

  lemma RowsNext(spokes: map<string, Entry>, now: int, ids: set<string>, byCell: map<string, Cell>, id: string,
                 name: string, cell: Cell)
    requires RowsTallied(spokes, now, ids, byCell) && name == CellOf(spokes)(id)
          && cell == Tally(spokes, now, ids + {id}, name)
    ensures RowsTallied(spokes, now, ids + {id}, byCell[name := cell])
  {
    forall c | c in byCell && c != name ensures byCell[c] == Tally(spokes, now, ids + {id}, c) {
      TallyOther(spokes, now, ids, id, c);
    }
  }

  /** One more spoke. */
  lemma TalliedNext(spokes: map<string, Entry>, now: int, ids: set<string>, byCell: map<string, Cell>, id: string,
                    cell: Cell)
    requires Tallied(spokes, now, ids, byCell) && id !in ids
          && cell == Tally(spokes, now, ids + {id}, CellOf(spokes)(id))
    ensures Tallied(spokes, now, ids + {id}, byCell[CellOf(spokes)(id) := cell])
  {
    RowsNext(spokes, now, ids, byCell, id, CellOf(spokes)(id), cell);
  }

  method CountIn(row: Cell, spokes: map<string, Entry>, now: int, id: string) returns (counted: Cell)
    requires id in spokes
    ensures counted == Counted(row, spokes, now, id)
  {
    var e := spokes[id];
    var active := CountActiveReplays(e.replays);
    var connected := if now - e.lastHeartbeat <= Distribution.SPOKE_TIMEOUT then 1 else 0;
    counted := Cell(row.name, row.connected + connected, row.total + 1, row.captures + |e.captures|,
                    row.replays + active);
  }

  method TallyNext(spokes: map<string, Entry>, now: int, ghost seen: set<string>, byCell: map<string, Cell>, id: string)
    returns (next: map<string, Cell>)
    requires Tallied(spokes, now, seen, byCell) && id in spokes && id !in seen
    ensures Tallied(spokes, now, seen + {id}, next)
  {
    var name := spokes[id].cell;
    var row := CountIn(if name in byCell then byCell[name] else Cell(name, 0, 0, 0, 0), spokes, now, id);
    TallySame(spokes, now, seen, id);
    TalliedNext(spokes, now, seen, byCell, id, row);
    next := byCell[name := row];
  }

  method TallyCells(spokes: map<string, Entry>, now: int) returns (byCell: map<string, Cell>)
    ensures Tallied(spokes, now, spokes.Keys, byCell)
  {
    byCell := map[];
    var left := spokes.Keys;
    ghost var seen: set<string> := {};
    while left != {}
      invariant left <= spokes.Keys && seen == spokes.Keys - left
      invariant Tallied(spokes, now, seen, byCell)
    {
      var id :| id in left;
      left := left - {id};
      byCell := TallyNext(spokes, now, seen, byCell, id);
      seen := seen + {id};
    }
    assert seen == spokes.Keys;
  }

  /** `CellStatuses`: one row per cell, in name order. */
  method CellStatuses(spokes: map<string, Entry>, now: int) returns (rows: seq<Cell>)
    ensures IsCellStatuses(spokes, now, rows)
  {
    var byCell := TallyCells(spokes, now);
    var sorted := SortedNames(byCell.Keys);
    assert forall i :: 0 <= i < |sorted| ==> sorted[i] in byCell;
    rows := seq(|sorted|, i requires 0 <= i < |sorted| => byCell[sorted[i]]);
    assert Names(rows) == sorted;
  }

  method SortedNames(keys: set<string>) returns (sorted: seq<string>)
    ensures Ascending(sorted) && forall c :: c in sorted <==> c in keys
  {
    var names := [];
    var left := keys;
    while left != {}
      invariant left <= keys
      invariant forall c :: c in names <==> c in keys && c !in left
      invariant forall i, j :: 0 <= i < j < |names| ==> names[i] != names[j]
    {
      var c :| c in left;
      left := left - {c};
      names := names + [c];
    }
    SortSpec(names);
    sorted := Sort(names);
  }

  function Names(rows: seq<Cell>): (names: seq<string>)
    ensures |names| == |rows| && forall i :: 0 <= i < |names| ==> names[i] == rows[i].name
  {
    seq(|rows|, i requires 0 <= i < |rows| => rows[i].name)
  }

  /** One column of the rows. */
  function Column(rows: seq<Cell>, f: Cell -> int): int {
    if rows == [] then 0 else Column(rows[..|rows| - 1], f) + f(rows[|rows| - 1])
  }

  ghost function NameSet(rows: seq<Cell>): set<string> {
    set i | 0 <= i < |rows| :: rows[i].name
  }

  lemma {:induction false} ColumnIsSum(rows: seq<Cell>, f: Cell -> int, g: string -> int)
    requires forall i, j :: 0 <= i < j < |rows| ==> rows[i].name != rows[j].name
    requires forall i :: 0 <= i < |rows| ==> f(rows[i]) == g(rows[i].name)
    ensures Column(rows, f) == Sum(g, NameSet(rows))
  {
    if rows == [] {
    } else {
      var n := |rows| - 1;
      var init := rows[..n];
      ColumnIsSum(init, f, g);
      assert forall i :: 0 <= i < n ==> init[i] == rows[i];
      assert rows[n].name !in NameSet(init);
      SumAdd(g, NameSet(init), rows[n].name);
      assert NameSet(rows) == NameSet(init) + {rows[n].name};
    }
  }

  lemma ColumnAddsUp(spokes: map<string, Entry>, rows: seq<Cell>, f: Cell -> int, g: string -> int)
    requires forall i, j :: 0 <= i < j < |rows| ==> rows[i].name != rows[j].name
    requires NameSet(rows) == CellNames(spokes, spokes.Keys)
    requires forall i :: 0 <= i < |rows| ==> f(rows[i]) == PerCell(g, spokes.Keys, CellOf(spokes))(rows[i].name)
    ensures Column(rows, f) == Sum(g, spokes.Keys)
  {
    ColumnIsSum(rows, f, PerCell(g, spokes.Keys, CellOf(spokes)));
    SumGroups(g, spokes.Keys, CellOf(spokes), NameSet(rows));
  }

  function ConnectedOf(c: Cell): int { c.connected }

  function CapturesOf(c: Cell): int { c.captures }

  function ReplaysOf(c: Cell): int { c.replays }

  /** `CellStatuses` as a relation. */
  ghost predicate IsCellStatuses(spokes: map<string, Entry>, now: int, rows: seq<Cell>) {
    && Ascending(Names(rows)) && (forall c :: c in Names(rows) <==> c in CellNames(spokes, spokes.Keys))
    && forall i :: 0 <= i < |rows| ==> rows[i] == Tally(spokes, now, spokes.Keys, rows[i].name)
  }

  lemma ConnectedAddUp(spokes: map<string, Entry>, now: int, rows: seq<Cell>)
    requires IsCellStatuses(spokes, now, rows)
    ensures Column(rows, ConnectedOf) == Sum(Connected(spokes, now), spokes.Keys)
  {
    RowNames(spokes, rows);
    forall i | 0 <= i < |rows| ensures ConnectedOf(rows[i])
      == PerCell(Connected(spokes, now), spokes.Keys, CellOf(spokes))(rows[i].name) {}
    ColumnAddsUp(spokes, rows, ConnectedOf, Connected(spokes, now));
  }

  lemma CapturesAddUp(spokes: map<string, Entry>, now: int, rows: seq<Cell>)
    requires IsCellStatuses(spokes, now, rows)
    ensures Column(rows, CapturesOf) == Sum(Captures(spokes), spokes.Keys)
  {
    RowNames(spokes, rows);
    forall i | 0 <= i < |rows| ensures CapturesOf(rows[i])
      == PerCell(Captures(spokes), spokes.Keys, CellOf(spokes))(rows[i].name) {}
    ColumnAddsUp(spokes, rows, CapturesOf, Captures(spokes));
  }

  lemma ReplaysAddUp(spokes: map<string, Entry>, now: int, rows: seq<Cell>)
    requires IsCellStatuses(spokes, now, rows)
    ensures Column(rows, ReplaysOf) == Sum(Replays(spokes), spokes.Keys)
  {
    RowNames(spokes, rows);
    forall i | 0 <= i < |rows| ensures ReplaysOf(rows[i])
      == PerCell(Replays(spokes), spokes.Keys, CellOf(spokes))(rows[i].name) {}
    ColumnAddsUp(spokes, rows, ReplaysOf, Replays(spokes));
  }

  /** At one instant the cells add up to the global counters. */
  method CellsAddUp(spokes: map<string, Entry>, now: int)
    returns (rows: seq<Cell>, connected: int, captures: int, replays: int)
    ensures IsCellStatuses(spokes, now, rows)
    ensures connected == Column(rows, ConnectedOf) == Sum(Connected(spokes, now), spokes.Keys)
    ensures captures == Column(rows, CapturesOf) == Sum(Captures(spokes), spokes.Keys)
    ensures replays == Column(rows, ReplaysOf) == Sum(Replays(spokes), spokes.Keys)
  {
    rows := CellStatuses(spokes, now);
    connected := ConnectedSpokeCount(spokes, now);
    captures := ActiveCaptureCount(spokes);
    replays := ActiveReplayCount(spokes);
    ConnectedAddUp(spokes, now, rows);
    CapturesAddUp(spokes, now, rows);
    ReplaysAddUp(spokes, now, rows);
  }

  /** Without a maximum a spoke is chosen, with its cell, if and only if it was heard from within the timeout and
      its cell is wanted. */
  lemma ChosenIff(spokes: map<string, Entry>, id: string, cells: seq<string>, now: int,
                  selected: seq<Distribution.Selection>)
    requires id in spokes && Distribution.IsSelection(Candidates(spokes), cells, 0, now, selected)
    ensures Distribution.Selection(id, spokes[id].cell) in selected
       <==> now - spokes[id].lastHeartbeat <= Distribution.SPOKE_TIMEOUT && (cells == [] || spokes[id].cell in cells)
    ensures id in Distribution.IDs(selected) <==> Distribution.Selection(id, spokes[id].cell) in selected
  {
    var ids, eligible := Distribution.IDs(selected), Distribution.EligibleIDs(Candidates(spokes), cells, now);
    Distribution.AllChosen(Candidates(spokes), cells, now, selected);
    if id in ids {
      var i :| 0 <= i < |ids| && ids[i] == id;
      assert selected[i] == Distribution.Selection(id, spokes[id].cell);
    }
    if Distribution.Selection(id, spokes[id].cell) in selected {
      var i :| 0 <= i < |selected| && selected[i] == Distribution.Selection(id, spokes[id].cell);
      assert ids[i] == id;
    }
  }

  /** A spoke that registers can be chosen from then on, as long as it is heard from: a choice without a maximum
      contains it, with the cell it registered under, if and only if that cell is wanted or any will do. */
  method RegisterAndSelect(server: Server, id: string, cluster: string, cell: string, cells: seq<string>, now: int,
                           later: int)
    returns (selected: seq<Distribution.Selection>)
    requires server.Valid() && id != "" && now <= later
    modifies server
    ensures server.Valid()
    ensures Distribution.Selection(id, cell) in selected
       <==> later - now <= 90_000_000_000 && (cells == [] || cell in cells)
    ensures id in Distribution.IDs(selected) <==> Distribution.Selection(id, cell) in selected
  {
    var status := server.RegisterSpoke(id, cluster, cell, now);
    selected := server.SelectSpokes(cells, 0, later);
    ChosenIff(server.spokes, id, cells, later, selected);
  }

  /** A heartbeat keeps a spoke eligible for another 90 seconds, under the cell it registered with. */
  method HeartbeatAndSelect(server: Server, id: string, cells: seq<string>, now: int, later: int)
    returns (selected: seq<Distribution.Selection>)
    requires server.Valid() && id in server.spokes && now <= later
    modifies server
    ensures server.Valid() && id in server.spokes && server.spokes[id].cell == old(server.spokes[id].cell)
    ensures Distribution.Selection(id, server.spokes[id].cell) in selected
       <==> later - now <= 90_000_000_000 && (cells == [] || server.spokes[id].cell in cells)
  {
    var status, listed, complete := server.Heartbeat(id, [], 0, [], now);
    selected := server.SelectSpokes(cells, 0, later);
    ChosenIff(server.spokes, id, cells, later, selected);
  }

  /** Planning without a maximum takes as many spokes of a cell as its row says are connected. */
  lemma SelectedAreConnected(spokes: map<string, Entry>, now: int, rows: seq<Cell>, i: nat,
                             selected: seq<Distribution.Selection>)
    requires IsCellStatuses(spokes, now, rows) && i < |rows|
    requires Distribution.IsSelection(Candidates(spokes), [rows[i].name], 0, now, selected)
    ensures |selected| == rows[i].connected
  {
    var ids := Members(spokes.Keys, CellOf(spokes), rows[i].name);
    SumCounts(Connected(spokes, now), ids, Distribution.EligibleIDs(Candidates(spokes), [rows[i].name], now));
  }

  /** Without cells either, it takes as many as are connected at all. */
  lemma AllSelectedAreConnected(spokes: map<string, Entry>, now: int, selected: seq<Distribution.Selection>)
    requires Distribution.IsSelection(Candidates(spokes), [], 0, now, selected)
    ensures |selected| == Sum(Connected(spokes, now), spokes.Keys)
  {
    SumCounts(Connected(spokes, now), spokes.Keys, Distribution.EligibleIDs(Candidates(spokes), [], now));
  }

  lemma RowNames(spokes: map<string, Entry>, rows: seq<Cell>)
    requires Ascending(Names(rows)) && forall c :: c in Names(rows) <==> c in CellNames(spokes, spokes.Keys)
    ensures forall i, j :: 0 <= i < j < |rows| ==> rows[i].name != rows[j].name
    ensures NameSet(rows) == CellNames(spokes, spokes.Keys)
  {
    var names := Names(rows);
    forall i, j | 0 <= i < j < |rows| ensures rows[i].name != rows[j].name {
      assert Less(names[i], names[j]);
      LessIrreflexive(names[i]);
    }
    forall c | c in NameSet(rows) ensures c in names {
      var i :| 0 <= i < |rows| && rows[i].name == c;
      assert names[i] == c;
    }
    forall c | c in names ensures c in NameSet(rows) {
      var i :| 0 <= i < |names| && names[i] == c;
      assert rows[i].name == c;
    }
  }

  /** A status is identified by its spoke and its key. */
  function Tag(x: Snapshot): (string, string) {
    (x.spoke, ReplayKey(x.summary))
  }

  ghost predicate DistinctTags(list: seq<Snapshot>) {
    forall i, j :: 0 <= i < j < |list| ==> Tag(list[i]) != Tag(list[j])
  }

  /** The spokes outside `left` have forgotten the load test, the others are as before. */
  ghost predicate Forgotten(before: map<string, Entry>, after: map<string, Entry>, left: set<string>,
                            namespace: string, loadTest: string)
  {
    && after.Keys == before.Keys
    && forall id :: id in before ==>
         after[id] == if id in left then before[id] else Forget(before[id], namespace, loadTest)
  }

  lemma ForgottenEntries(before: map<string, Entry>, after: map<string, Entry>, namespace: string, loadTest: string)
    requires EntriesValid(before) && Forgotten(before, after, {}, namespace, loadTest)
    ensures EntriesValid(after)
  {
    forall id | id in after ensures EntryValid(after[id]) {}
  }

  /** What a spoke has left: every status of any other load test, and a right count of them. */
  lemma ForgottenExactly(before: map<string, Entry>, after: map<string, Entry>, namespace: string, loadTest: string,
                         id: string)
    requires Forgotten(before, after, {}, namespace, loadTest) && id in before
    ensures id in after
    ensures var was, left := before[id].replays, after[id].replays;
            && (forall k :: k in left <==> k in was && (was[k].namespace != namespace || was[k].loadTest != loadTest))
            && (forall k :: k in left ==> left[k] == was[k])
    ensures after[id] == before[id].(replays := after[id].replays, activeReplays := |LiveKeys(after[id].replays)|)
  {
  }

  method ForgetAll(spokes: map<string, Entry>, namespace: string, loadTest: string) returns (after: map<string, Entry>)
    ensures Forgotten(spokes, after, {}, namespace, loadTest)
  {
    after := spokes;
    var left := spokes.Keys;
    while left != {}
      invariant left <= spokes.Keys
      invariant Forgotten(spokes, after, left, namespace, loadTest)
    {
      var id :| id in left;
      left := left - {id};
      var e := ForgetIn(after[id], namespace, loadTest);
      after := after[id := e];
    }
  }

  method ForgetIn(e: Entry, namespace: string, loadTest: string) returns (f: Entry)
    ensures f == Forget(e, namespace, loadTest)
  {
    var rs := Without(e.replays, namespace, loadTest);
    var count := CountActiveReplays(rs);
    f := e.(replays := rs, activeReplays := count);
  }

  predicate BelongsTo(s: ReplaySummary, namespace: string, loadTest: string) {
    s.namespace == namespace && s.loadTest == loadTest
  }

  function Without(m: map<string, ReplaySummary>, namespace: string, loadTest: string): map<string, ReplaySummary> {
    map k | k in m && !BelongsTo(m[k], namespace, loadTest) :: m[k]
  }

  ghost function Forget(e: Entry, namespace: string, loadTest: string): Entry {
    var rs := Without(e.replays, namespace, loadTest);
    e.(replays := rs, activeReplays := |LiveKeys(rs)|)
  }

  ghost predicate IsStatusIn(e: Entry, namespace: string, loadTest: string, x: Snapshot) {
    var k := ReplayKey(x.summary);
    && x.cell == e.cell && x.summary.namespace == namespace && x.summary.loadTest == loadTest
    && k in e.replays && e.replays[k] == x.summary
  }

  ghost predicate IsStatus(spokes: map<string, Entry>, namespace: string, loadTest: string, x: Snapshot) {
    x.spoke in spokes && IsStatusIn(spokes[x.spoke], namespace, loadTest, x)
  }

  method StatusesOf(id: string, e: Entry, namespace: string, loadTest: string) returns (part: seq<Snapshot>)
    requires Keyed(e.replays)
    ensures forall x :: x in part <==> x.spoke == id && IsStatusIn(e, namespace, loadTest, x)
    ensures DistinctTags(part)
  {
    part := [];
    var left := e.replays.Keys;
    while left != {}
      invariant left <= e.replays.Keys
      invariant forall x ::
        x in part <==> x.spoke == id && IsStatusIn(e, namespace, loadTest, x) && ReplayKey(x.summary) !in left
      invariant DistinctTags(part)
    {
      var k :| k in left;
      left := left - {k};
      if BelongsTo(e.replays[k], namespace, loadTest) {
        part := part + [Snapshot(id, e.cell, e.replays[k])];
      }
    }
  }
}
