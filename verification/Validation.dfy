/**
 The pipeline constraint checker: five passes over the pipeline with local maps, against a declarative
 notion of a valid pipeline.
 */
module Validation {
  import opened Text
  import opened Options

  datatype Access = Shared | Exclusive

  datatype Claim = Claim(resource: string, access: Access)

  /** `accepts` is the config validator, if the plugin has one. */
  datatype Constraints = Constraints(
    accepts: Option<string -> bool>, conflictsWith: seq<string>,
    mustRunBefore: seq<string>, mustRunAfter: seq<string>, resources: seq<Claim>)

  datatype PluginRef = PluginRef(name: string, config: string)

  datatype Category = Unknown | Config | Conflict | Order | Resource

  datatype Error = Error(plugin: string, related: string, category: Category)

  type Known = map<string, Constraints>

  // ---------------------------------------------------------------------
  // What makes a pipeline invalid
  // ---------------------------------------------------------------------

  ghost predicate Present(pipeline: seq<PluginRef>, name: string) {
    exists i :: 0 <= i < |pipeline| && pipeline[i].name == name
  }

  predicate ConfigOk(known: Known, ref: PluginRef) {
    ref.name in known && known[ref.name].accepts.Some? ==> known[ref.name].accepts.value(ref.config)
  }

  predicate Conflicts(known: Known, a: string, b: string) {
    a in known && b in known[a].conflictsWith
  }

  /** `a` may stand at i and `b` at j, as far as the constraints of `a` are concerned. */
  predicate OrderOk(known: Known, a: string, i: int, b: string, j: int) {
    a in known ==> (b in known[a].mustRunBefore ==> i < j) && (b in known[a].mustRunAfter ==> i > j)
  }

  ghost predicate Claims(known: Known, name: string, resource: string, access: Access) {
    name in known && Claim(resource, access) in known[name].resources
  }

  /** `a` wants the resource for itself, and a different plugin `b` claims it too. */
  ghost predicate Contends(known: Known, a: string, b: string, resource: string) {
    a != b && Claims(known, a, resource, Exclusive) && (Claims(known, b, resource, Exclusive)
      || Claims(known, b, resource, Shared))
  }

  /** The error names something that is really wrong. */
  ghost predicate Genuine(known: Known, pipeline: seq<PluginRef>, e: Error) {
    && Present(pipeline, e.plugin)
    && match e.category
       case Unknown => e.plugin !in known
       case Config => exists i :: 0 <= i < |pipeline| && pipeline[i].name == e.plugin && !ConfigOk(known, pipeline[i])
       case Conflict => Present(pipeline, e.related) && Conflicts(known, e.plugin, e.related)
       case Order =>
         exists i, j :: 0 <= i < |pipeline| && 0 <= j < |pipeline| && pipeline[i].name == e.plugin
           && pipeline[j].name == e.related
                     && !OrderOk(known, e.plugin, i, e.related, j)
       case Resource => Present(pipeline, e.related) && exists resource ::
           Contends(known, e.plugin, e.related, resource)
  }

  ghost predicate AllGenuine(known: Known, pipeline: seq<PluginRef>, errs: seq<Error>) {
    forall k :: 0 <= k < |errs| ==> Genuine(known, pipeline, errs[k])
  }

  ghost predicate AllKnown(known: Known, pipeline: seq<PluginRef>) {
    forall i :: 0 <= i < |pipeline| ==> pipeline[i].name in known
  }

  ghost predicate ConfigsOk(known: Known, pipeline: seq<PluginRef>) {
    forall i :: 0 <= i < |pipeline| ==> ConfigOk(known, pipeline[i])
  }

  ghost predicate NoConflicts(known: Known, pipeline: seq<PluginRef>) {
    forall i, j :: 0 <= i < |pipeline| && 0 <= j < |pipeline| ==> !Conflicts(known, pipeline[i].name, pipeline[j].name)
  }

  ghost predicate Ordered(known: Known, pipeline: seq<PluginRef>) {
    forall i, j :: 0 <= i < |pipeline| && 0 <= j < |pipeline| ==>
      OrderOk(known, pipeline[i].name, i, pipeline[j].name, j)
  }

  ghost predicate NoContention(known: Known, pipeline: seq<PluginRef>) {
    forall i, j, r :: 0 <= i < |pipeline| && 0 <= j < |pipeline| ==>
      !Contends(known, pipeline[i].name, pipeline[j].name, r)
  }

  ghost predicate ValidPipeline(known: Known, pipeline: seq<PluginRef>) {
    AllKnown(known, pipeline) && ConfigsOk(known, pipeline) && NoConflicts(known, pipeline) && Ordered(known, pipeline)
      && NoContention(known, pipeline)
  }

  // ---------------------------------------------------------------------
  // The passes
  // ---------------------------------------------------------------------

  method CheckUnknown(known: Known, pipeline: seq<PluginRef>) returns (errs: seq<Error>)
    ensures AllGenuine(known, pipeline, errs)
    ensures errs == [] <==> AllKnown(known, pipeline)
  {
    errs := [];
    var seen: set<string> := {};
    for n := 0 to |pipeline|
      invariant AllGenuine(known, pipeline, errs)
      invariant forall s :: s in seen <==> Present(pipeline[..n], s)
      invariant errs == [] <==> AllKnown(known, pipeline[..n])
    {
      var ref := pipeline[n];
      assert pipeline[..n + 1][n] == ref && forall i :: 0 <= i < n ==> pipeline[..n + 1][i] == pipeline[..n][i];
      if ref.name !in seen {
        seen := seen + {ref.name};
        if ref.name !in known {
          errs := errs + [Error(ref.name, "", Unknown)];
        }
      }
    }
    assert pipeline[..|pipeline|] == pipeline;
  }

  method CheckConfigs(known: Known, pipeline: seq<PluginRef>) returns (errs: seq<Error>)
    ensures AllGenuine(known, pipeline, errs)
    ensures errs == [] <==> ConfigsOk(known, pipeline)
  {
    errs := [];
    for n := 0 to |pipeline|
      invariant AllGenuine(known, pipeline, errs)
      invariant errs == [] <==> forall i :: 0 <= i < n ==> ConfigOk(known, pipeline[i])
    {
      var ref := pipeline[n];
      if ref.name in known && known[ref.name].accepts.Some? && !known[ref.name].accepts.value(ref.config) {
        errs := errs + [Error(ref.name, "", Config)];
      }
    }
  }

  /** Plugin name to positions. */
  ghost predicate IsIndex(pipeline: seq<PluginRef>, n: nat, positions: map<string, seq<nat>>)
    requires n <= |pipeline|
  {
    && (forall s :: s in positions ==> positions[s] != [] && forall k :: 0 <= k < |positions[s]| ==>
        positions[s][k] < n && pipeline[positions[s][k]].name == s)
    && (forall i :: 0 <= i < n ==> pipeline[i].name in positions && i in positions[pipeline[i].name])
  }

  method Positions(pipeline: seq<PluginRef>) returns (positions: map<string, seq<nat>>)
    ensures IsIndex(pipeline, |pipeline|, positions)
  {
    positions := map[];
    for n := 0 to |pipeline|
      invariant IsIndex(pipeline, n, positions)
    {
      var name := pipeline[n].name;
      var before := if name in positions then positions[name] else [];
      positions := positions[name := before + [n]];
      assert n in before + [n];
    }
  }

  function NormalizePair(a: string, b: string): (string, string) {
    if Less(b, a) then (b, a) else (a, b)
  }

  /** The same two names, in one order or the other. */
  predicate SamePair(a: string, b: string, c: string, d: string) {
    (a == c && b == d) || (a == d && b == c)
  }

  lemma NormalizedAlike(a: string, b: string, c: string, d: string)
    ensures NormalizePair(a, b) == NormalizePair(c, d) <==> SamePair(a, b, c, d)
  {
    LessTotal(a, b);
    LessIrreflexive(a);
    if Less(a, b) { LessAsymmetric(a, b); }
    if Less(b, a) { LessAsymmetric(b, a); }
  }

  /** An error of this kind about these two. */
  ghost predicate Reports(errs: seq<Error>, kind: Category, a: string, b: string) {
    exists k :: 0 <= k < |errs| && errs[k].category == kind && SamePair(errs[k].plugin, errs[k].related, a, b)
  }

  /** The pairs noted are those with an error, and no pair has two. */
  ghost predicate Noted(errs: seq<Error>, kind: Category, reported: set<(string, string)>) {
    && (forall k :: 0 <= k < |errs| ==>
          errs[k].category == kind && NormalizePair(errs[k].plugin, errs[k].related) in reported)
    && (forall a, b :: NormalizePair(a, b) in reported ==> Reports(errs, kind, a, b))
    && (forall k, l :: 0 <= k < l < |errs| ==>
          !SamePair(errs[k].plugin, errs[k].related, errs[l].plugin, errs[l].related))
  }

  lemma NoteOne(errs: seq<Error>, kind: Category, reported: set<(string, string)>, e: Error)
    requires Noted(errs, kind, reported) && e.category == kind && NormalizePair(e.plugin, e.related) !in reported
    ensures Noted(errs + [e], kind, reported + {NormalizePair(e.plugin, e.related)})
    ensures forall a, b :: Reports(errs, kind, a, b) ==> Reports(errs + [e], kind, a, b)
    ensures Reports(errs + [e], kind, e.plugin, e.related)
  {
    var more, noted := errs + [e], reported + {NormalizePair(e.plugin, e.related)};
    forall a, b | Reports(errs, kind, a, b) ensures Reports(more, kind, a, b) {
      var k :| 0 <= k < |errs| && errs[k].category == kind && SamePair(errs[k].plugin, errs[k].related, a, b);
      assert more[k] == errs[k];
    }
    assert more[|errs|] == e;
    forall a, b | NormalizePair(a, b) in noted ensures Reports(more, kind, a, b) {
      if NormalizePair(a, b) !in reported {
        NormalizedAlike(e.plugin, e.related, a, b);
        assert SamePair(more[|errs|].plugin, more[|errs|].related, a, b);
      }
    }
    forall k | 0 <= k < |errs| ensures !SamePair(errs[k].plugin, errs[k].related, e.plugin, e.related) {
      NormalizedAlike(errs[k].plugin, errs[k].related, e.plugin, e.related);
    }
  }

  lemma NoteNone(kind: Category)
    ensures Noted([], kind, {})
  {
  }

  /** What has an error keeps it. */
  ghost predicate StillReports(errs: seq<Error>, more: seq<Error>, kind: Category) {
    forall a, b :: Reports(errs, kind, a, b) ==> Reports(more, kind, a, b)
  }

  /** Adds the error unless its pair has been reported. */
  method AddOnce(ghost known: Known, ghost pipeline: seq<PluginRef>, sofar: seq<Error>, noted: set<(string, string)>,
                 e: Error)
    returns (errs: seq<Error>, reported: set<(string, string)>)
    requires AllGenuine(known, pipeline, sofar) && Noted(sofar, e.category, noted) && Genuine(known, pipeline, e)
    ensures AllGenuine(known, pipeline, errs) && Noted(errs, e.category, reported)
    ensures StillReports(sofar, errs, e.category) && Reports(errs, e.category, e.plugin, e.related)
  {
    errs, reported := sofar, noted;
    var pair := NormalizePair(e.plugin, e.related);
    if pair !in reported {
      NoteOne(errs, e.category, reported, e);
      reported := reported + {pair};
      errs := errs + [e];
    }
  }

  /** The conflicts that the first n plugins declare have their errors. */
  ghost predicate ConflictsReported(known: Known, pipeline: seq<PluginRef>, n: nat, errs: seq<Error>)
    requires n <= |pipeline|
  {
    forall i, j :: 0 <= i < n && 0 <= j < |pipeline| ==>
      ConflictReported(known, pipeline[i].name, pipeline[j].name, errs)
  }

  ghost predicate ConflictReported(known: Known, a: string, b: string, errs: seq<Error>) {
    Conflicts(known, a, b) ==> Reports(errs, Conflict, a, b)
  }

  /** No pair has two errors. */
  ghost predicate Once(errs: seq<Error>) {
    forall k, l :: 0 <= k < l < |errs| ==>
      !SamePair(errs[k].plugin, errs[k].related, errs[l].plugin, errs[l].related)
  }

  /** Every conflict has its error, and no pair has two; so there is none if and only if nothing conflicts. */
  method CheckConflicts(known: Known, pipeline: seq<PluginRef>, positions: map<string, seq<nat>>)
    returns (errs: seq<Error>)
    requires IsIndex(pipeline, |pipeline|, positions)
    ensures AllGenuine(known, pipeline, errs)
    ensures errs == [] <==> NoConflicts(known, pipeline)
    ensures ConflictsReported(known, pipeline, |pipeline|, errs) && Once(errs)
  {
    errs := [];
    var reported: set<(string, string)> := {};
    NoteNone(Conflict);
    for n := 0 to |pipeline|
      invariant AllGenuine(known, pipeline, errs) && Noted(errs, Conflict, reported)
      invariant ConflictsReported(known, pipeline, n, errs)
    {
      if pipeline[n].name in known {
        ghost var before := errs;
        errs, reported := ConflictsOf(known, pipeline, positions, n, errs, reported);
        OneMoreReported(known, pipeline, n, before, errs);
      }
    }
    NoneMeansNone(known, pipeline, errs);
  }

  lemma OneMoreReported(known: Known, pipeline: seq<PluginRef>, n: nat, errs: seq<Error>, more: seq<Error>)
    requires n < |pipeline| && ConflictsReported(known, pipeline, n, errs) && StillReports(errs, more, Conflict)
    requires forall j :: 0 <= j < |pipeline| ==> ConflictReported(known, pipeline[n].name, pipeline[j].name, more)
    ensures ConflictsReported(known, pipeline, n + 1, more)
  {
    forall i, j | 0 <= i < n + 1 && 0 <= j < |pipeline|
      ensures ConflictReported(known, pipeline[i].name, pipeline[j].name, more)
    {
      if i < n {
        assert ConflictReported(known, pipeline[i].name, pipeline[j].name, errs);
      }
    }
  }

  lemma NoneMeansNone(known: Known, pipeline: seq<PluginRef>, errs: seq<Error>)
    requires AllGenuine(known, pipeline, errs) && ConflictsReported(known, pipeline, |pipeline|, errs)
    requires forall k :: 0 <= k < |errs| ==> errs[k].category == Conflict
    ensures errs == [] <==> NoConflicts(known, pipeline)
  {
    if errs != [] {
      assert Genuine(known, pipeline, errs[0]);
      var i :| 0 <= i < |pipeline| && pipeline[i].name == errs[0].plugin;
      var j :| 0 <= j < |pipeline| && pipeline[j].name == errs[0].related;
      assert Conflicts(known, pipeline[i].name, pipeline[j].name);
    } else {
      forall i, j | 0 <= i < |pipeline| && 0 <= j < |pipeline|
        ensures !Conflicts(known, pipeline[i].name, pipeline[j].name)
      {
        assert ConflictReported(known, pipeline[i].name, pipeline[j].name, errs);
      }
    }
  }

  /** The inner loop: the conflicts one plugin declares. */
  method ConflictsOf(known: Known, pipeline: seq<PluginRef>, positions: map<string, seq<nat>>, n: nat,
                     sofar: seq<Error>, noted: set<(string, string)>)
    returns (errs: seq<Error>, reported: set<(string, string)>)
    requires IsIndex(pipeline, |pipeline|, positions) && n < |pipeline| && pipeline[n].name in known
    requires AllGenuine(known, pipeline, sofar) && Noted(sofar, Conflict, noted)
    ensures AllGenuine(known, pipeline, errs) && Noted(errs, Conflict, reported)
    ensures StillReports(sofar, errs, Conflict)
    ensures forall j :: 0 <= j < |pipeline| ==> ConflictReported(known, pipeline[n].name, pipeline[j].name, errs)
  {
    var name := pipeline[n].name;
    var rivals := known[name].conflictsWith;
    errs, reported := sofar, noted;
    for k := 0 to |rivals|
      invariant AllGenuine(known, pipeline, errs) && Noted(errs, Conflict, reported)
      invariant StillReports(sofar, errs, Conflict) && RivalsReported(positions, name, rivals[..k], errs)
    {
      assert rivals[..k + 1] == rivals[..k] + [rivals[k]];
      ghost var before := errs;
      if rivals[k] in positions {
        RivalIsGenuine(known, pipeline, positions, n, k);
        errs, reported := AddOnce(known, pipeline, errs, reported, Error(name, rivals[k], Conflict));
        ReportedOn(sofar, before, errs);
      }
      OneMoreRival(positions, name, rivals[..k], rivals[k], before, errs);
    }
    assert rivals[..|rivals|] == rivals;
    AllRivals(known, pipeline, positions, n, errs);
  }

  /** Those of the rivals that are present have their errors. */
  ghost predicate RivalsReported(positions: map<string, seq<nat>>, name: string, rivals: seq<string>,
                                 errs: seq<Error>)
  {
    forall b :: b in rivals && b in positions ==> Reports(errs, Conflict, name, b)
  }

  lemma OneMoreRival(positions: map<string, seq<nat>>, name: string, rivals: seq<string>, b: string, errs: seq<Error>,
                     more: seq<Error>)
    requires RivalsReported(positions, name, rivals, errs) && (errs == more || StillReports(errs, more, Conflict))
    requires b in positions ==> Reports(more, Conflict, name, b)
    ensures RivalsReported(positions, name, rivals + [b], more)
  {
  }

  lemma ReportedOn(sofar: seq<Error>, errs: seq<Error>, more: seq<Error>)
    requires StillReports(sofar, errs, Conflict) && StillReports(errs, more, Conflict)
    ensures StillReports(sofar, more, Conflict)
  {
  }

  lemma RivalIsGenuine(known: Known, pipeline: seq<PluginRef>, positions: map<string, seq<nat>>, n: nat, k: nat)
    requires IsIndex(pipeline, |pipeline|, positions) && n < |pipeline| && pipeline[n].name in known
    requires k < |known[pipeline[n].name].conflictsWith| && known[pipeline[n].name].conflictsWith[k] in positions
    ensures Genuine(known, pipeline, Error(pipeline[n].name, known[pipeline[n].name].conflictsWith[k], Conflict))
  {
    var b := known[pipeline[n].name].conflictsWith[k];
    assert pipeline[positions[b][0]].name == b;
  }

  lemma AllRivals(known: Known, pipeline: seq<PluginRef>, positions: map<string, seq<nat>>, n: nat, errs: seq<Error>)
    requires IsIndex(pipeline, |pipeline|, positions) && n < |pipeline| && pipeline[n].name in known
    requires RivalsReported(positions, pipeline[n].name, known[pipeline[n].name].conflictsWith, errs)
    ensures forall j :: 0 <= j < |pipeline| ==> ConflictReported(known, pipeline[n].name, pipeline[j].name, errs)
  {
  }

  method CheckOrdering(known: Known, pipeline: seq<PluginRef>, positions: map<string, seq<nat>>)
    returns (errs: seq<Error>)
    requires IsIndex(pipeline, |pipeline|, positions)
    ensures AllGenuine(known, pipeline, errs)
    ensures errs == [] <==> Ordered(known, pipeline)
  {
    errs := [];
    for n := 0 to |pipeline|
      invariant AllGenuine(known, pipeline, errs)
      invariant errs == [] <==> forall i, j :: 0 <= i < n && 0 <= j < |pipeline| ==>
            OrderOk(known, pipeline[i].name, i, pipeline[j].name, j)
    {
      if pipeline[n].name in known {
        var before := Misplaced(known, pipeline, positions, n, true);
        var after := Misplaced(known, pipeline, positions, n, false);
        errs := errs + before + after;
        assert errs == [] ==> before == [] && after == [];
      }
    }
  }

  /** The two inner loops: every position of every listed plugin, before (`early`) or after this one. */
  method Misplaced(known: Known, pipeline: seq<PluginRef>, positions: map<string, seq<nat>>, n: nat, early: bool)
    returns (errs: seq<Error>)
    requires IsIndex(pipeline, |pipeline|, positions) && n < |pipeline| && pipeline[n].name in known
    ensures AllGenuine(known, pipeline, errs)
    ensures errs == []
       <==> forall j :: 0 <= j < |pipeline| && pipeline[j].name in Listed(known[pipeline[n].name], early) ==>
              InPlace(n, j, early)
  {
    errs := [];
    var names := Listed(known[pipeline[n].name], early);
    for k := 0 to |names|
      invariant AllGenuine(known, pipeline, errs)
      invariant errs == [] <==> forall j, m :: 0 <= j < |pipeline| && 0 <= m < k && pipeline[j].name == names[m] ==>
            InPlace(n, j, early)
    {
      if names[k] in positions {
        var some := MisplacedAt(known, pipeline, positions, n, names[k], early);
        errs := errs + some;
      }
    }
  }

  function Listed(c: Constraints, early: bool): seq<string> {
    if early then c.mustRunBefore else c.mustRunAfter
  }

  predicate InPlace(n: int, j: int, early: bool) {
    if early then n < j else n > j
  }

  method MisplacedAt(known: Known, pipeline: seq<PluginRef>, positions: map<string, seq<nat>>, n: nat, other: string,
                     early: bool) returns (errs: seq<Error>)
    requires IsIndex(pipeline, |pipeline|, positions) && n < |pipeline| && pipeline[n].name in known
    requires other in Listed(known[pipeline[n].name], early) && other in positions
    ensures AllGenuine(known, pipeline, errs)
    ensures errs == [] <==> forall j :: 0 <= j < |pipeline| && pipeline[j].name == other ==> InPlace(n, j, early)
  {
    errs := [];
    var at := positions[other];
    for k := 0 to |at|
      invariant AllGenuine(known, pipeline, errs)
      invariant errs == [] <==> forall m :: 0 <= m < k ==> InPlace(n, at[m], early)
    {
      if !InPlace(n, at[k], early) {
        assert !OrderOk(known, pipeline[n].name, n, pipeline[at[k]].name, at[k]);
        errs := errs + [Error(pipeline[n].name, other, Order)];
      }
    }
    assert forall j :: 0 <= j < |pipeline| && pipeline[j].name == other ==> j in at;
  }

  /** Who claims a resource, and how. */
  datatype Holder = Holder(plugin: string, access: Access)

  type Ledger = map<string, seq<Holder>>

  predicate Has(ledger: Ledger, resource: string, h: Holder) {
    resource in ledger && h in ledger[resource]
  }

  ghost predicate IsLedger(known: Known, pipeline: seq<PluginRef>, ledger: Ledger) {
    forall r, h :: Has(ledger, r, h) <==> Present(pipeline, h.plugin) && Claims(known, h.plugin, r, h.access)
  }

  method CollectClaims(known: Known, pipeline: seq<PluginRef>) returns (ledger: Ledger)
    ensures IsLedger(known, pipeline, ledger)
  {
    ledger := map[];
    for n := 0 to |pipeline|
      invariant IsLedger(known, pipeline[..n], ledger)
    {
      var name := pipeline[n].name;
      assert pipeline[..n + 1] == pipeline[..n] + [pipeline[n]];
      PresentSnoc(pipeline[..n], pipeline[n]);
      if name in known {
        ledger := AddClaims(ledger, name, known[name].resources);
      }
    }
    assert pipeline[..|pipeline|] == pipeline;
  }

  lemma PresentSnoc(pipeline: seq<PluginRef>, ref: PluginRef)
    ensures forall s :: Present(pipeline + [ref], s) <==> Present(pipeline, s) || s == ref.name
  {
    forall s ensures Present(pipeline + [ref], s) <==> Present(pipeline, s) || s == ref.name {
      if Present(pipeline, s) {
        var i :| 0 <= i < |pipeline| && pipeline[i].name == s;
        assert (pipeline + [ref])[i].name == s;
      }
      assert (pipeline + [ref])[|pipeline|] == ref;
    }
  }

  /** The inner loop: the claims of one plugin. */
  method AddClaims(ledger: Ledger, name: string, claims: seq<Claim>) returns (more: Ledger)
    ensures forall r, h :: Has(more, r, h) <==> Has(ledger, r, h) || (h.plugin == name && Claim(r, h.access) in claims)
  {
    more := ledger;
    for k := 0 to |claims|
      invariant forall r, h ::
        Has(more, r, h) <==> Has(ledger, r, h) || (h.plugin == name && Claim(r, h.access) in claims[..k])
    {
      var c := claims[k];
      assert claims[..k + 1] == claims[..k] + [c];
      var before := if c.resource in more then more[c.resource] else [];
      more := more[c.resource := before + [Holder(name, c.access)]];
    }
    assert claims[..|claims|] == claims;
  }

  predicate Disputes(a: Holder, b: Holder) {
    a.access.Exclusive? && a.plugin != b.plugin
  }

  ghost predicate ContentionReported(known: Known, a: string, b: string, r: string, errs: seq<Error>) {
    Contends(known, a, b, r) ==> Reports(errs, Resource, a, b)
  }

  ghost predicate ContentionsReported(known: Known, pipeline: seq<PluginRef>, errs: seq<Error>) {
    forall i, j, r :: 0 <= i < |pipeline| && 0 <= j < |pipeline| ==>
      ContentionReported(known, pipeline[i].name, pipeline[j].name, r, errs)
  }

  /** Every contention has its error, and no pair has two; so there is none if and only if nothing is contended. */
  method CheckResources(known: Known, pipeline: seq<PluginRef>) returns (errs: seq<Error>)
    ensures AllGenuine(known, pipeline, errs)
    ensures errs == [] <==> NoContention(known, pipeline)
    ensures ContentionsReported(known, pipeline, errs) && Once(errs)
  {
    var ledger := CollectClaims(known, pipeline);
    errs := [];
    var reported: set<(string, string)> := {};
    NoteNone(Resource);
    var left := ledger.Keys;
    while left != {}
      invariant left <= ledger.Keys
      invariant AllGenuine(known, pipeline, errs) && Noted(errs, Resource, reported)
      invariant forall r :: r in ledger && r !in left ==> Settled(ledger[r], errs)
    {
      var r :| r in left;
      left := left - {r};
      ghost var before := errs;
      errs, reported := DisputesOver(known, pipeline, ledger, r, errs, reported);
      forall q | q in ledger && q !in left ensures Settled(ledger[q], errs) {
        if q != r {
          SettledStill(ledger[q], before, errs);
        }
      }
    }
    forall i, j, r | 0 <= i < |pipeline| && 0 <= j < |pipeline|
      ensures ContentionReported(known, pipeline[i].name, pipeline[j].name, r, errs)
    {
      if Contends(known, pipeline[i].name, pipeline[j].name, r) {
        var x, y := ContentionIsDispute(known, pipeline, ledger, i, j, r);
        assert Settled(ledger[r], errs);
      }
    }
    SomeContention(known, pipeline, errs);
  }

  /** Every dispute among the holders has its error. */
  ghost predicate Settled(holders: seq<Holder>, errs: seq<Error>) {
    forall i, j :: 0 <= i < |holders| && 0 <= j < |holders| && Disputes(holders[i], holders[j]) ==>
      Reports(errs, Resource, holders[i].plugin, holders[j].plugin)
  }

  lemma SettledStill(holders: seq<Holder>, errs: seq<Error>, more: seq<Error>)
    requires Settled(holders, errs) && StillReports(errs, more, Resource)
    ensures Settled(holders, more)
  {
  }

  lemma SomeContention(known: Known, pipeline: seq<PluginRef>, errs: seq<Error>)
    requires AllGenuine(known, pipeline, errs) && ContentionsReported(known, pipeline, errs)
    requires forall k :: 0 <= k < |errs| ==> errs[k].category == Resource
    ensures errs == [] <==> NoContention(known, pipeline)
  {
    if errs != [] {
      var e := errs[0];
      assert Genuine(known, pipeline, e);
      var i :| 0 <= i < |pipeline| && pipeline[i].name == e.plugin;
      var j :| 0 <= j < |pipeline| && pipeline[j].name == e.related;
      var r :| Contends(known, e.plugin, e.related, r);
      assert Contends(known, pipeline[i].name, pipeline[j].name, r);
    } else {
      forall i, j, r | 0 <= i < |pipeline| && 0 <= j < |pipeline|
        ensures !Contends(known, pipeline[i].name, pipeline[j].name, r)
      {
        assert ContentionReported(known, pipeline[i].name, pipeline[j].name, r, errs);
      }
    }
  }

  /** Contending plugins hold the resource, and dispute it. */
  lemma ContentionIsDispute(known: Known, pipeline: seq<PluginRef>, ledger: Ledger, i: nat, j: nat, r: string)
    returns (x: nat, y: nat)
    requires IsLedger(known, pipeline, ledger) && i < |pipeline| && j < |pipeline|
    requires Contends(known, pipeline[i].name, pipeline[j].name, r)
    ensures r in ledger && x < |ledger[r]| && y < |ledger[r]| && Disputes(ledger[r][x], ledger[r][y])
    ensures ledger[r][x].plugin == pipeline[i].name && ledger[r][y].plugin == pipeline[j].name
  {
    var a := Holder(pipeline[i].name, Exclusive);
    var b := Holder(pipeline[j].name, if Claims(known, pipeline[j].name, r, Exclusive) then Exclusive else Shared);
    assert Present(pipeline, pipeline[i].name) && Present(pipeline, pipeline[j].name);
    assert Has(ledger, r, a) && Has(ledger, r, b);
    x :| 0 <= x < |ledger[r]| && ledger[r][x] == a;
    y :| 0 <= y < |ledger[r]| && ledger[r][y] == b;
  }

  lemma DisputeIsContention(known: Known, pipeline: seq<PluginRef>, ledger: Ledger, r: string, a: Holder, b: Holder)
    requires IsLedger(known, pipeline, ledger) && Has(ledger, r, a) && Has(ledger, r, b) && Disputes(a, b)
    ensures Contends(known, a.plugin, b.plugin, r) && Present(pipeline, a.plugin) && Present(pipeline, b.plugin)
  {
    assert Claims(known, a.plugin, r, a.access) && Claims(known, b.plugin, r, b.access);
    assert b.access.Shared? || b.access.Exclusive?;
  }

  /** The two inner loops: the holders of one resource, pair by pair. */
  method DisputesOver(known: Known, pipeline: seq<PluginRef>, ledger: Ledger, r: string, sofar: seq<Error>,
                      noted: set<(string, string)>)
    returns (errs: seq<Error>, reported: set<(string, string)>)
    requires IsLedger(known, pipeline, ledger) && r in ledger
    requires AllGenuine(known, pipeline, sofar) && Noted(sofar, Resource, noted)
    ensures AllGenuine(known, pipeline, errs) && Noted(errs, Resource, reported) && Settled(ledger[r], errs)
    ensures StillReports(sofar, errs, Resource)
  {
    errs, reported := sofar, noted;
    var holders := ledger[r];
    for i := 0 to |holders|
      invariant AllGenuine(known, pipeline, errs) && Noted(errs, Resource, reported)
      invariant StillReports(sofar, errs, Resource)
      invariant SettledFor(holders, i, errs)
    {
      ghost var before := errs;
      if holders[i].access.Exclusive? {
        errs, reported := DisputesWith(known, pipeline, ledger, r, i, errs, reported);
        StillOn(sofar, before, errs);
      }
      OneMoreHolder(holders, i, before, errs);
    }
  }

  /** Every dispute that one of the first n holders has with anybody has its error. */
  ghost predicate SettledFor(holders: seq<Holder>, n: nat, errs: seq<Error>)
    requires n <= |holders|
  {
    forall m, j :: 0 <= m < n && 0 <= j < |holders| && Disputes(holders[m], holders[j]) ==>
      Reports(errs, Resource, holders[m].plugin, holders[j].plugin)
  }

  lemma OneMoreHolder(holders: seq<Holder>, n: nat, errs: seq<Error>, more: seq<Error>)
    requires n < |holders| && SettledFor(holders, n, errs) && (errs == more || StillReports(errs, more, Resource))
    requires forall j :: 0 <= j < |holders| && Disputes(holders[n], holders[j]) ==>
      Reports(more, Resource, holders[n].plugin, holders[j].plugin)
    ensures SettledFor(holders, n + 1, more)
  {
  }

  lemma StillOn(sofar: seq<Error>, errs: seq<Error>, more: seq<Error>)
    requires StillReports(sofar, errs, Resource) && StillReports(errs, more, Resource)
    ensures StillReports(sofar, more, Resource)
  {
  }

  method DisputesWith(known: Known, pipeline: seq<PluginRef>, ledger: Ledger, r: string, i: nat, sofar: seq<Error>,
                      noted: set<(string, string)>)
    returns (errs: seq<Error>, reported: set<(string, string)>)
    requires IsLedger(known, pipeline, ledger) && r in ledger && i < |ledger[r]| && ledger[r][i].access.Exclusive?
    requires AllGenuine(known, pipeline, sofar) && Noted(sofar, Resource, noted)
    ensures AllGenuine(known, pipeline, errs) && Noted(errs, Resource, reported)
    ensures StillReports(sofar, errs, Resource)
    ensures forall j :: 0 <= j < |ledger[r]| && Disputes(ledger[r][i], ledger[r][j]) ==>
      Reports(errs, Resource, ledger[r][i].plugin, ledger[r][j].plugin)
  {
    errs, reported := sofar, noted;
    var holders := ledger[r];
    for j := 0 to |holders|
      invariant AllGenuine(known, pipeline, errs) && Noted(errs, Resource, reported)
      invariant StillReports(sofar, errs, Resource)
      invariant forall m :: 0 <= m < j && Disputes(holders[i], holders[m]) ==>
        Reports(errs, Resource, holders[i].plugin, holders[m].plugin)
    {
      if i != j && holders[i].plugin != holders[j].plugin {
        DisputeIsContention(known, pipeline, ledger, r, holders[i], holders[j]);
        errs, reported := AddOnce(known, pipeline, errs, reported,
          Error(holders[i].plugin, holders[j].plugin, Resource));
      }
    }
  }

  // ---------------------------------------------------------------------
  // The whole checker
  // ---------------------------------------------------------------------

  lemma ReportsWithin(before: seq<Error>, errs: seq<Error>, after: seq<Error>, kind: Category)
    ensures StillReports(errs, before + errs + after, kind)
  {
    var all := before + errs + after;
    forall a, b | Reports(errs, kind, a, b) ensures Reports(all, kind, a, b) {
      var k :| 0 <= k < |errs| && errs[k].category == kind && SamePair(errs[k].plugin, errs[k].related, a, b);
      assert all[|before| + k] == errs[k];
    }
  }

  lemma AllStillReported(known: Known, pipeline: seq<PluginRef>, conflicts: seq<Error>, resources: seq<Error>,
                         errs: seq<Error>)
    requires ConflictsReported(known, pipeline, |pipeline|, conflicts) && StillReports(conflicts, errs, Conflict)
    requires ContentionsReported(known, pipeline, resources) && StillReports(resources, errs, Resource)
    ensures ConflictsReported(known, pipeline, |pipeline|, errs) && ContentionsReported(known, pipeline, errs)
  {
    forall i, j | 0 <= i < |pipeline| && 0 <= j < |pipeline|
      ensures ConflictReported(known, pipeline[i].name, pipeline[j].name, errs)
    {
      assert ConflictReported(known, pipeline[i].name, pipeline[j].name, conflicts);
    }
    forall i, j, r | 0 <= i < |pipeline| && 0 <= j < |pipeline|
      ensures ContentionReported(known, pipeline[i].name, pipeline[j].name, r, errs)
    {
      assert ContentionReported(known, pipeline[i].name, pipeline[j].name, r, resources);
    }
  }

  /** Sound and complete: every reported error is real, and nothing is reported exactly for a valid pipeline. */
  method ValidatePipeline(known: Known, pipeline: seq<PluginRef>) returns (errs: seq<Error>)
    ensures AllGenuine(known, pipeline, errs)
    ensures errs == [] <==> ValidPipeline(known, pipeline)
    ensures ConflictsReported(known, pipeline, |pipeline|, errs) && ContentionsReported(known, pipeline, errs)
  {
    var positions := Positions(pipeline);
    var unknown := CheckUnknown(known, pipeline);
    var configs := CheckConfigs(known, pipeline);
    var conflicts := CheckConflicts(known, pipeline, positions);
    var order := CheckOrdering(known, pipeline, positions);
    var resources := CheckResources(known, pipeline);
    errs := unknown + configs + conflicts + order + resources;
    GenuineTogether(known, pipeline, unknown, configs);
    GenuineTogether(known, pipeline, unknown + configs, conflicts);
    GenuineTogether(known, pipeline, unknown + configs + conflicts, order);
    GenuineTogether(known, pipeline, unknown + configs + conflicts + order, resources);
    StillAmong(unknown, configs, conflicts, order, resources);
    AllStillReported(known, pipeline, conflicts, resources, errs);
  }

  lemma GenuineTogether(known: Known, pipeline: seq<PluginRef>, a: seq<Error>, b: seq<Error>)
    requires AllGenuine(known, pipeline, a) && AllGenuine(known, pipeline, b)
    ensures AllGenuine(known, pipeline, a + b)
  {
  }

  lemma StillAmong(unknown: seq<Error>, configs: seq<Error>, conflicts: seq<Error>, order: seq<Error>,
                   resources: seq<Error>)
    ensures var errs := unknown + configs + conflicts + order + resources;
            && StillReports(conflicts, errs, Conflict) && StillReports(resources, errs, Resource)
            && (errs == [] <==> unknown == [] && configs == [] && conflicts == [] && order == [] && resources == [])
  {
    ReportsWithin(unknown + configs, conflicts, order + resources, Conflict);
    ReportsWithin(unknown + configs + conflicts + order, resources, [], Resource);
    var errs := unknown + configs + conflicts + order + resources;
    assert errs == (unknown + configs) + conflicts + (order + resources)
        == (unknown + configs + conflicts + order) + resources + [];
    assert |errs| == |unknown| + |configs| + |conflicts| + |order| + |resources|;
  }

  /** One plugin has to run before the other, by the constraints of either. */
  ghost predicate Precedes(known: Known, a: string, b: string) {
    (a in known && b in known[a].mustRunBefore) || (b in known && a in known[b].mustRunAfter)
  }

  /** A chain of plugins present in the pipeline, each before the next. */
  ghost predicate Chain(known: Known, pipeline: seq<PluginRef>, names: seq<string>) {
    && (forall k :: 0 <= k < |names| ==> Present(pipeline, names[k]))
    && forall k :: 0 <= k < |names| - 1 ==> Precedes(known, names[k], names[k + 1])
  }

  /** Along a chain the positions go up, whichever occurrences are looked at. */
  lemma {:induction false} ChainAscends(known: Known, pipeline: seq<PluginRef>, names: seq<string>, i: nat, j: nat)
    requires Ordered(known, pipeline) && Chain(known, pipeline, names) && |names| >= 2
    requires i < |pipeline| && pipeline[i].name == names[0] && j < |pipeline| && pipeline[j].name == names[|names| - 1]
    ensures i < j
  {
    assert Precedes(known, names[0], names[1]);
    if |names| == 2 {
      assert OrderOk(known, pipeline[i].name, i, pipeline[j].name, j)
          && OrderOk(known, pipeline[j].name, j, pipeline[i].name, i);
    } else {
      assert Present(pipeline, names[1]);
      var m :| 0 <= m < |pipeline| && pipeline[m].name == names[1];
      assert OrderOk(known, pipeline[i].name, i, pipeline[m].name, m)
          && OrderOk(known, pipeline[m].name, m, pipeline[i].name, i);
      var rest := names[1..];
      assert forall k :: 0 <= k < |rest| ==> rest[k] == names[k + 1];
      ChainAscends(known, pipeline, rest, m, j);
    }
  }

  /** In an accepted pipeline the ordering constraints among the plugins present form no cycle. */
  lemma AcceptedIsAcyclic(known: Known, pipeline: seq<PluginRef>, names: seq<string>)
    requires ValidPipeline(known, pipeline) && Chain(known, pipeline, names) && |names| >= 2
    ensures names[0] != names[|names| - 1]
  {
    assert Present(pipeline, names[0]);
    var i :| 0 <= i < |pipeline| && pipeline[i].name == names[0];
    if names[0] == names[|names| - 1] {
      ChainAscends(known, pipeline, names, i, i);
    }
  }
}
