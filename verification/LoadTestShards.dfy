/**
 The life of a shard on its spoke. It is made once, by the first START that arrives while it is missing; resent
 STARTs leave it alone; it runs until it is done or broken; and it ends with a STOP or a collection.
 */
module LoadTestShards {
  import opened Options
  import opened LoadTest
  import Runs

  type ShardKey = (Spoke, nat)

  /** START creates a missing shard and leaves an existing one as it is, whatever the START says; STOP deletes
      the shards on its spoke; no other shard is touched. */
  lemma HandledShards(shards: map<ShardKey, Shard>, sp: Spoke, d: Directive, now: nat)
    ensures var next := Handled(shards, sp, d, now);
            && (forall k :: k in shards && !(d.Stop? && k.0 == sp) ==> k in next && next[k] == shards[k])
            && (forall k :: k in next && k !in shards ==>
                  d.Start? && k == (sp, d.index) && next[k] == Shard(d.count, Waiting, now))
            && (d.Start? ==> (sp, d.index) in next)
            && (d.Stop? ==> forall k :: k in next ==> k.0 != sp)
  {
    if d.Start? {
      assert (sp, d.index) in Handled(shards, sp, d, now);
    }
  }

  // ---------------------------------------------------------------------
  // One step
  // ---------------------------------------------------------------------

  /** The step hands a STOP to the spoke. */
  predicate DeliversStop(w: World, a: Action, sp: Spoke) {
    a.BySpoke? &&
    match a.spoke
    case Receive(to, id) =>
      to == sp && HasStream(w, to, id) && w.hub.entries[to].streams[id] != [] && w.hub.entries[to].streams[id][0].Stop?
    case LateArrives(to, d) => to == sp && d.Stop?
    case _ => false
  }

  /** The step can end shards of the spoke. */
  predicate Ends(w: World, a: Action, sp: Spoke) {
    DeliversStop(w, a, sp) || (a.ByList? && a.list.Collect? && a.list.sp == sp)
  }

  predicate Advances(a: Action, k: ShardKey) {
    a.BySpoke? && a.spoke.RunShard? && a.spoke.sp == k.0 && a.spoke.index == k.1
  }

  predicate Over(s: Shard) {
    s.phase.Done? || s.phase.Broken?
  }

  /** What a step leaves of a shard: all of it, or all but its phase if the step is the shard's own. */
  ghost predicate Follows(w: World, a: Action, k: ShardKey, v: World)
    requires k in w.shards
  {
    && (!Ends(w, a, k.0) ==> k in v.shards)
    && (k in v.shards ==>
          && v.shards[k].count == w.shards[k].count && v.shards[k].born == w.shards[k].born
          && (!Advances(a, k) || Over(w.shards[k]) ==> v.shards[k] == w.shards[k]))
  }

  lemma RemoteFollows(w: World, a: SpokeAction, v: World, k: ShardKey)
    requires Remote(w, a) == Some(v) && k in w.shards
    ensures Follows(w, BySpoke(a), k, v)
  {
    match a
    case Receive(sp, id) => HandledShards(w.shards, sp, w.hub.entries[sp].streams[id][0], w.now);
    case LateArrives(sp, d) => HandledShards(w.shards, sp, d, w.now);
    case _ =>
  }

  lemma StepFollows(w: World, a: Action, v: World, k: ShardKey)
    requires Do(w, a) == Some(v) && k in w.shards
    ensures Follows(w, a, k, v)
  {
    match a
    case ByUser(u) =>
    case ByJob(j) => JobFrame(w, j, v);
    case ByHub(h) => RegistryFrame(w, h, v);
    case BySpoke(s) => RemoteFollows(w, s, v, k);
    case ByList(l) =>
  }

  /** A new shard is born of a START that arrives in this step, with its count, waiting, and now. */
  lemma BornOfStart(w: World, a: Action, v: World, k: ShardKey)
    requires Do(w, a) == Some(v) && k in v.shards && k !in w.shards
    ensures v.shards[k].phase.Waiting? && v.shards[k].born == w.now
    ensures a.BySpoke? &&
            match a.spoke
            case Receive(sp, id) =>
              && HasStream(w, sp, id) && w.hub.entries[sp].streams[id] != []
              && sp == k.0 && w.hub.entries[sp].streams[id][0] == Start(k.1, v.shards[k].count)
            case LateArrives(sp, d) => sp == k.0 && d == Start(k.1, v.shards[k].count)
            case _ => false
  {
    match a
    case ByUser(u) =>
    case ByJob(j) => JobFrame(w, j, v);
    case ByHub(h) => RegistryFrame(w, h, v);
    case BySpoke(s) =>
      match s {
        case Receive(sp, id) => HandledShards(w.shards, sp, w.hub.entries[sp].streams[id][0], w.now);
        case LateArrives(sp, d) => HandledShards(w.shards, sp, d, w.now);
        case _ =>
      }
    case ByList(l) =>
  }

  // ---------------------------------------------------------------------
  // Whole runs
  // ---------------------------------------------------------------------

  /** The world after the first n steps. */
  ghost function At(w: World, steps: seq<Step>, n: nat): World
    requires n <= |steps| && Run(w, steps[..n]).Some?
  {
    Run(w, steps[..n]).value
  }

  /** A run has all its prefixes, so the conditions below leave no moment out. */
  lemma {:induction false} Prefixes(w: World, steps: seq<Step>, n: nat)
    requires Run(w, steps).Some? && n <= |steps|
    ensures Run(w, steps[..n]).Some?
  {
    if n == |steps| {
      assert steps[..n] == steps;
    } else {
      var init := steps[..|steps| - 1];
      Prefixes(w, init, n);
      assert init[..n] == steps[..n];
    }
  }

  /** No step of the run ends shards of the spoke. */
  ghost predicate Undisturbed(w: World, steps: seq<Step>, sp: Spoke) {
    forall n :: 0 <= n < |steps| && Run(w, steps[..n]).Some? ==> !Ends(At(w, steps, n), steps[n].action, sp)
  }

  /** The shard is there all the time. */
  ghost predicate Lives(w: World, steps: seq<Step>, k: ShardKey) {
    forall n :: 0 <= n <= |steps| && Run(w, steps[..n]).Some? ==> k in At(w, steps, n).shards
  }

  lemma LastStep(w: World, steps: seq<Step>, v: World)
    requires Run(w, steps) == Some(v) && steps != []
    ensures var n := |steps| - 1;
            && Run(w, steps[..n]).Some?
            && Do(At(w, steps, n), steps[n].action).Some?
            && v == Do(At(w, steps, n), steps[n].action).value.(now := v.now)
  {
    var n := |steps| - 1;
    var u := At(w, steps, n);
    assert Stepper()(u, steps[n]) == Next(u, steps[n]);
  }

  lemma Shorter(w: World, steps: seq<Step>, k: ShardKey)
    requires steps != []
    ensures Undisturbed(w, steps, k.0) ==> Undisturbed(w, steps[..|steps| - 1], k.0)
    ensures Lives(w, steps, k) ==> Lives(w, steps[..|steps| - 1], k)
  {
    var init := steps[..|steps| - 1];
    assert forall n :: 0 <= n <= |init| ==> init[..n] == steps[..n];
  }

  /** Without a STOP or a collection on its spoke a shard goes on living. */
  lemma {:induction false} LivesOn(w: World, steps: seq<Step>, v: World, k: ShardKey)
    requires Run(w, steps) == Some(v) && k in w.shards && Undisturbed(w, steps, k.0)
    ensures k in v.shards && Lives(w, steps, k)
  {
    if steps == [] {
    } else {
      var n := |steps| - 1;
      LastStep(w, steps, v);
      Shorter(w, steps, k);
      var u := At(w, steps, n);
      LivesOn(w, steps[..n], u, k);
      StepFollows(u, steps[n].action, Do(u, steps[n].action).value, k);
      forall m | 0 <= m <= |steps| && Run(w, steps[..m]).Some? ensures k in At(w, steps, m).shards {
        if m <= n {
          assert steps[..n][..m] == steps[..m];
        } else {
          assert steps[..m] == steps;
        }
      }
    }
  }

  /** As long as a shard lives, over any steps of any party, resent STARTs among them, it keeps its count and
      its birth; and once it is done or broken it does not change at all. */
  lemma {:induction false} ShardEndures(w: World, steps: seq<Step>, v: World, k: ShardKey)
    requires Run(w, steps) == Some(v) && k in w.shards && Lives(w, steps, k)
    ensures k in v.shards && v.shards[k].count == w.shards[k].count && v.shards[k].born == w.shards[k].born
    ensures Over(w.shards[k]) ==> v.shards[k] == w.shards[k]
  {
    if steps == [] {
    } else {
      var n := |steps| - 1;
      LastStep(w, steps, v);
      Shorter(w, steps, k);
      var u := At(w, steps, n);
      ShardEndures(w, steps[..n], u, k);
      assert steps[..|steps|] == steps;
      StepFollows(u, steps[n].action, Do(u, steps[n].action).value, k);
    }
  }

  /** A shard that runs on its own steps alone: its phase changes at no other. */
  lemma {:induction false} PhaseIsItsOwn(w: World, steps: seq<Step>, v: World, k: ShardKey)
    requires Run(w, steps) == Some(v) && k in w.shards && Lives(w, steps, k)
    requires forall i :: 0 <= i < |steps| ==> !Advances(steps[i].action, k)
    ensures k in v.shards && v.shards[k] == w.shards[k]
  {
    if steps == [] {
    } else {
      var n := |steps| - 1;
      LastStep(w, steps, v);
      Shorter(w, steps, k);
      var u := At(w, steps, n);
      PhaseIsItsOwn(w, steps[..n], u, k);
      assert steps[..|steps|] == steps;
      StepFollows(u, steps[n].action, Do(u, steps[n].action).value, k);
    }
  }

  /** A START resent for a running shard: it goes on as if nothing had come. */
  lemma ResentStart(sp: Spoke)
    ensures var running := map[(sp, 0) := Shard(2, Active, 100)];
            Handled(running, sp, Start(0, 2), 500) == running
  {
  }
}
