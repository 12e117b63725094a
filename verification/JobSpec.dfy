/** The counts and the environment the operator puts into the Kubernetes Job, and the segment each pod reads from it. */
module JobSpec {
  import opened Statuses
  import opened Segments
  import Decimal

  datatype EnvVar = EnvVar(name: string, value: string)

  /** An indexed Job: `completions` indexes, at most `parallelism` pods at a time, `backoffLimit` retries. */
  datatype Spec = Spec(parallelism: nat, completions: nat, backoffLimit: nat, env: seq<EnvVar>)

  /** The variable that Kubernetes gives every container of an indexed Job, unless the container has one of that name. */
  const INDEX_VAR: string := "JOB_COMPLETION_INDEX"

  function SegmentVarOf(index: string): string {
    "SEGMENT_" + index
  }

  function SegmentIdVarOf(index: string): string {
    "SEGMENT_ID_" + index
  }

  function SegmentVar(k: nat): string {
    SegmentVarOf(Decimal.Render(k))
  }

  function SegmentIdVar(k: nat): string {
    SegmentIdVarOf(Decimal.Render(k))
  }

  /** The library's upsert: the first variable of that name is overwritten in place, otherwise one is appended. */
  function Upsert(vars: seq<EnvVar>, v: EnvVar): seq<EnvVar> {
    if vars == [] then [v]
    else if vars[0].name == v.name then [v] + vars[1..]
    else [vars[0]] + Upsert(vars[1..], v)
  }

  function Lookup(vars: seq<EnvVar>, name: string): Option<string> {
    if vars == [] then None else if vars[0].name == name then Some(vars[0].value) else Lookup(vars[1..], name)
  }

  lemma {:induction false} LookupUpsert(vars: seq<EnvVar>, v: EnvVar, name: string)
    ensures Lookup(Upsert(vars, v), name) == if name == v.name then Some(v.value) else Lookup(vars, name)
  {
    if vars != [] {
      LookupUpsert(vars[1..], v, name);
      if vars[0].name == v.name {
        assert ([v] + vars[1..])[1..] == vars[1..];
      } else {
        assert ([vars[0]] + Upsert(vars[1..], v))[1..] == Upsert(vars[1..], v);
      }
    }
  }

  predicate DistinctNames(vars: seq<EnvVar>) {
    forall j, k | 0 <= j < k < |vars| :: vars[j].name != vars[k].name
  }

  lemma {:induction false} LookupAt(vars: seq<EnvVar>, k: nat)
    requires DistinctNames(vars) && k < |vars|
    ensures Lookup(vars, vars[k].name) == Some(vars[k].value)
  {
    if k > 0 {
      assert vars[0].name != vars[k].name;
      LookupAt(vars[1..], k - 1);
    }
  }

  lemma {:induction false} LookupMisses(vars: seq<EnvVar>, name: string)
    requires forall k | 0 <= k < |vars| :: vars[k].name != name
    ensures Lookup(vars, name) == None
  {
    if vars != [] {
      LookupMisses(vars[1..], name);
    }
  }

  /** The variable of that name in `more`, and failing that the one in `vars`. */
  function Prefer(more: seq<EnvVar>, vars: seq<EnvVar>, name: string): Option<string> {
    if Lookup(more, name).Some? then Lookup(more, name) else Lookup(vars, name)
  }

  lemma {:induction false} LookupSnoc(vars: seq<EnvVar>, v: EnvVar, name: string)
    ensures Lookup(vars + [v], name) ==
            if Lookup(vars, name).Some? then Lookup(vars, name) else if v.name == name then Some(v.value) else None
  {
    if vars == [] {
      assert [] + [v] == [v];
    } else {
      assert (vars + [v])[1..] == vars[1..] + [v];
      LookupSnoc(vars[1..], v, name);
    }
  }

  lemma OneMoreUpsert(r: seq<EnvVar>, vars: seq<EnvVar>, more: seq<EnvVar>, i: nat, name: string)
    requires DistinctNames(more) && i < |more| && Lookup(r, name) == Prefer(more[..i], vars, name)
    ensures Lookup(Upsert(r, more[i]), name) == Prefer(more[..i + 1], vars, name)
  {
    LookupUpsert(r, more[i], name);
    assert more[..i + 1] == more[..i] + [more[i]];
    LookupSnoc(more[..i], more[i], name);
    if name == more[i].name {
      LookupMisses(more[..i], name);
    }
  }

  /** Upserts the variables one by one; where names repeat the earlier `vars` lose to `more`. */
  method UpsertAll(vars: seq<EnvVar>, more: seq<EnvVar>) returns (r: seq<EnvVar>)
    requires DistinctNames(more)
    ensures forall name :: Lookup(r, name) == Prefer(more, vars, name)
  {
    r := vars;
    for i := 0 to |more|
      invariant forall name :: Lookup(r, name) == Prefer(more[..i], vars, name)
    {
      forall name ensures Lookup(Upsert(r, more[i]), name) == Prefer(more[..i + 1], vars, name) {
        OneMoreUpsert(r, vars, more, i, name);
      }
      r := Upsert(r, more[i]);
    }
    assert more[..|more|] == more;
  }

  lemma NamesDiffer(j: nat, k: nat)
    ensures SegmentVar(j) != SegmentIdVar(k)
    ensures SegmentVar(j) == SegmentVar(k) ==> j == k
    ensures SegmentIdVar(j) == SegmentIdVar(k) ==> j == k
  {
    assert SegmentVar(j)[8] == Decimal.Render(j)[0];
    assert SegmentIdVar(k)[8] == 'I';
    if SegmentVar(j) == SegmentVar(k) {
      assert SegmentVar(j)[8..] == Decimal.Render(j) && SegmentVar(k)[8..] == Decimal.Render(k);
      Decimal.RenderIsInjective(j, k);
    }
    if SegmentIdVar(j) == SegmentIdVar(k) {
      assert SegmentIdVar(j)[11..] == Decimal.Render(j) && SegmentIdVar(k)[11..] == Decimal.Render(k);
      Decimal.RenderIsInjective(j, k);
    }
  }

  /** The variables of the first segments, two each, named after their position. */
  predicate NamesInOrder(env: seq<EnvVar>, share: seq<Segment>, m: nat)
    requires m <= |share|
  {
    && |env| == 2 * m
    && forall k | 0 <= k < m ::
         env[2 * k] == EnvVar(SegmentVar(k), share[k].segment) && env[2 * k + 1] == EnvVar(SegmentIdVar(k), share[k].id)
  }

  lemma NewNames(env: seq<EnvVar>, share: seq<Segment>, m: nat, j: nat)
    requires m < |share| && NamesInOrder(env, share, m) && j < |env|
    ensures env[j].name != SegmentVar(m) && env[j].name != SegmentIdVar(m)
  {
    assert env[2 * (j / 2)] == EnvVar(SegmentVar(j / 2), share[j / 2].segment);
    NamesDiffer(j / 2, m);
    NamesDiffer(m, j / 2);
  }

  /** Two variables per assigned segment, named after its position. */
  method SegmentsEnv(share: seq<Segment>) returns (env: seq<EnvVar>)
    ensures DistinctNames(env) && NamesInOrder(env, share, |share|)
  {
    env := [];
    for i := 0 to |share|
      invariant DistinctNames(env) && NamesInOrder(env, share, i)
    {
      forall j | 0 <= j < |env| ensures env[j].name != SegmentVar(i) && env[j].name != SegmentIdVar(i) {
        NewNames(env, share, i, j);
      }
      NamesDiffer(i, i);
      env := env + [EnvVar(SegmentVar(i), share[i].segment), EnvVar(SegmentIdVar(i), share[i].id)];
    }
  }

  /** The variables the operator sets itself. */
  function OwnVars(target: string): seq<EnvVar> {
    [EnvVar("TARGET", target), EnvVar("K6_OUT", "output-statsd"), EnvVar("K6_STATSD_ENABLE_TAGS", "true")]
  }

  lemma OwnNamesAreDistinct(target: string)
    ensures DistinctNames(OwnVars(target))
  {
    var own := OwnVars(target);
    assert own[0].name[0] == 'T' && own[1].name[0] == 'K' && own[2].name[0] == 'K' && |own[1].name| != |own[2].name|;
  }

  lemma SegmentVarsAt(env: seq<EnvVar>, share: seq<Segment>, k: nat)
    requires DistinctNames(env) && NamesInOrder(env, share, |share|) && k < |share|
    ensures Lookup(env, SegmentVar(k)) == Some(share[k].segment)
    ensures Lookup(env, SegmentIdVar(k)) == Some(share[k].id)
  {
    LookupAt(env, 2 * k);
    LookupAt(env, 2 * k + 1);
  }

  lemma OwnVarsAre(target: string, name: string)
    ensures Lookup(OwnVars(target), name) ==
            if name == "TARGET" then Some(target)
            else if name == "K6_OUT" then Some("output-statsd")
            else if name == "K6_STATSD_ENABLE_TAGS" then Some("true")
            else None
  {
    var own := OwnVars(target);
    OwnNamesAreDistinct(target);
    LookupAt(own, 0);
    LookupAt(own, 1);
    LookupAt(own, 2);
    if name != own[0].name && name != own[1].name && name != own[2].name {
      LookupMisses(own, name);
    }
  }

  /** The environment without segments: the user's variables, and the operator's own three whatever the user set. */
  method BaseEnv(userVars: seq<EnvVar>, target: string) returns (env: seq<EnvVar>)
    requires DistinctNames(userVars)
    ensures forall name :: Lookup(env, name) == Prefer(OwnVars(target), userVars, name)
  {
    env := UpsertAll([], userVars);
    OwnNamesAreDistinct(target);
    env := UpsertAll(env, OwnVars(target));
  }

  /** One of the two variables of one of the first `m` segments. */
  ghost predicate IsSegmentName(name: string, m: nat) {
    exists k: nat {:trigger Decimal.Render(k)} ::
      k < m && (name == "SEGMENT_" + Decimal.Render(k) || name == "SEGMENT_ID_" + Decimal.Render(k))
  }

  lemma OtherNamesMiss(env: seq<EnvVar>, share: seq<Segment>, name: string)
    requires NamesInOrder(env, share, |share|) && !IsSegmentName(name, |share|)
    ensures Lookup(env, name) == None
  {
    forall j | 0 <= j < |env| ensures env[j].name != name {
      var k := j / 2;
      assert env[2 * k] == EnvVar(SegmentVar(k), share[k].segment);
      assert env[2 * k + 1] == EnvVar(SegmentIdVar(k), share[k].id);
      assert name != "SEGMENT_" + Decimal.Render(k) && name != "SEGMENT_ID_" + Decimal.Render(k);
    }
    LookupMisses(env, name);
  }

  lemma StartsWithS(name: string, m: nat)
    requires name != "" && name[0] != 'S'
    ensures !IsSegmentName(name, m)
  {
    forall k: nat ensures name != "SEGMENT_" + Decimal.Render(k) && name != "SEGMENT_ID_" + Decimal.Render(k) {
      assert ("SEGMENT_" + Decimal.Render(k))[0] == 'S' && ("SEGMENT_ID_" + Decimal.Render(k))[0] == 'S';
    }
  }

  /** An environment with the variables of all assigned segments, and with the user's completion index if there is one. */
  ghost predicate EnvFor(env: seq<EnvVar>, share: seq<Segment>, userVars: seq<EnvVar>) {
    && (forall k | 0 <= k < |share| ::
          Lookup(env, SegmentVar(k)) == Some(share[k].segment) && Lookup(env, SegmentIdVar(k)) == Some(share[k].id))
    && Lookup(env, INDEX_VAR) == Lookup(userVars, INDEX_VAR)
  }

  /**
   * The Job of one location: one completion index per assigned segment, no retries, and for every name what the container
   * finds under it. The segments win over the operator's own variables, which win over the user's; nothing else is there.
   */
  method SyncJob(share: seq<Segment>, userVars: seq<EnvVar>, target: string) returns (spec: Spec)
    requires DistinctNames(userVars)
    ensures spec.completions == spec.parallelism == |share| && spec.backoffLimit == 0
    ensures EnvFor(spec.env, share, userVars)
    ensures forall k: nat | k < |share| ::
              && Lookup(spec.env, "SEGMENT_" + Decimal.Render(k)) == Some(share[k].segment)
              && Lookup(spec.env, "SEGMENT_ID_" + Decimal.Render(k)) == Some(share[k].id)
    ensures Lookup(spec.env, "TARGET") == Some(target)
    ensures Lookup(spec.env, "K6_OUT") == Some("output-statsd") && Lookup(spec.env, "K6_STATSD_ENABLE_TAGS") == Some("true")
    ensures forall name | name !in {"TARGET", "K6_OUT", "K6_STATSD_ENABLE_TAGS"} && !IsSegmentName(name, |share|) ::
              Lookup(spec.env, name) == Lookup(userVars, name)
  {
    var segmentsEnv := SegmentsEnv(share);
    var base := BaseEnv(userVars, target);
    var env := UpsertAll(base, segmentsEnv);
    forall name | !IsSegmentName(name, |share|) ensures Lookup(env, name) == Prefer(OwnVars(target), userVars, name) {
      OtherNamesMiss(segmentsEnv, share, name);
    }
    NamesOfItsOwn(|share|);
    OwnVarsAre(target, "TARGET");
    OwnVarsAre(target, "K6_OUT");
    OwnVarsAre(target, "K6_STATSD_ENABLE_TAGS");
    OwnVarsAre(target, INDEX_VAR);
    forall k | 0 <= k < |share|
      ensures Lookup(env, SegmentVar(k)) == Some(share[k].segment) && Lookup(env, SegmentIdVar(k)) == Some(share[k].id)
    {
      SegmentVarsAt(segmentsEnv, share, k);
    }
    forall name | name !in {"TARGET", "K6_OUT", "K6_STATSD_ENABLE_TAGS"} && !IsSegmentName(name, |share|)
      ensures Lookup(env, name) == Lookup(userVars, name)
    {
      OwnVarsAre(target, name);
    }
    spec := Spec(|share|, |share|, 0, env);
  }

  lemma NamesOfItsOwn(m: nat)
    ensures !IsSegmentName("TARGET", m) && !IsSegmentName("K6_OUT", m) && !IsSegmentName("K6_STATSD_ENABLE_TAGS", m)
    ensures !IsSegmentName(INDEX_VAR, m)
  {
    assert "TARGET"[0] == 'T' && "K6_OUT"[0] == 'K' && "K6_STATSD_ENABLE_TAGS"[0] == 'K' && INDEX_VAR[0] == 'J';
    StartsWithS("TARGET", m);
    StartsWithS("K6_OUT", m);
    StartsWithS("K6_STATSD_ENABLE_TAGS", m);
    StartsWithS(INDEX_VAR, m);
  }

  // ----- What a pod reads

  /** The index that the pod of completion index `k` finds in its environment. */
  function IndexRead(env: seq<EnvVar>, k: nat): string {
    if Lookup(env, INDEX_VAR).Some? then Lookup(env, INDEX_VAR).value else Decimal.Render(k)
  }

  /** The segment and the number that the pod of completion index `k` passes to k6. */
  function PodReads(env: seq<EnvVar>, k: nat): Option<Segment> {
    var segment, id := Lookup(env, SegmentVarOf(IndexRead(env, k))), Lookup(env, SegmentIdVarOf(IndexRead(env, k)));
    if segment.Some? && id.Some? then Some(Segment(segment.value, id.value)) else None
  }

  lemma PodReadsItsSegment(env: seq<EnvVar>, share: seq<Segment>, userVars: seq<EnvVar>, k: nat)
    requires EnvFor(env, share, userVars) && k < |share| && Lookup(userVars, INDEX_VAR) == None
    ensures PodReads(env, k) == Some(share[k])
  {
    assert SegmentVarOf(IndexRead(env, k)) == SegmentVar(k) && SegmentIdVarOf(IndexRead(env, k)) == SegmentIdVar(k);
  }

  /** A completion index of the user's is the one that every pod reads. */
  lemma OneIndexForAll(env: seq<EnvVar>, j: nat, k: nat)
    requires Lookup(env, INDEX_VAR).Some?
    ensures PodReads(env, j) == PodReads(env, k)
  {
    assert IndexRead(env, j) == IndexRead(env, k);
  }

  /**
   * Every pod of location `p` reads its own segment and number when the user sets no variable called like the completion
   * index; with two workers or more, only then.
   */
  lemma PodsReadTheirSegmentsExactlyWhen(env: seq<EnvVar>, workers: seq<nat>, p: nat, userVars: seq<EnvVar>)
    requires p < |workers| && EnvFor(env, Assigned(workers, p), userVars)
    ensures Lookup(userVars, INDEX_VAR) == None ==>
              forall k: nat | k < workers[p] :: PodReads(env, k) == Some(Assigned(workers, p)[k])
    ensures workers[p] >= 2 && (forall k: nat | k < workers[p] :: PodReads(env, k) == Some(Assigned(workers, p)[k])) ==>
              Lookup(userVars, INDEX_VAR) == None
  {
    var share := Assigned(workers, p);
    if Lookup(userVars, INDEX_VAR) == None {
      forall k: nat | k < workers[p] ensures PodReads(env, k) == Some(share[k]) {
        PodReadsItsSegment(env, share, userVars, k);
      }
    } else if workers[p] >= 2 && PodReads(env, 0) == Some(share[0]) && PodReads(env, 1) == Some(share[1]) {
      OneIndexForAll(env, 0, 1);
      SegmentHasOneOwner(workers, p, 0, p, 1);
    }
  }

  /** Two workers and a user's completion index of 0: the second pod repeats the first one's segment, and leaves its own. */
  lemma TwoPodsOneSegment(env: seq<EnvVar>)
    requires EnvFor(env, Assigned([2], 0), [EnvVar("JOB_COMPLETION_INDEX", "0")])
    ensures PodReads(env, 1) == Some(Assigned([2], 0)[0]) && PodReads(env, 1) != Some(Assigned([2], 0)[1])
  {
    var share := Assigned([2], 0);
    assert IndexRead(env, 1) == "0" == Decimal.Render(0);
    assert SegmentVarOf(IndexRead(env, 1)) == SegmentVar(0) && SegmentIdVarOf(IndexRead(env, 1)) == SegmentIdVar(0);
    if share[0] == share[1] {
      SegmentHasOneOwner([2], 0, 0, 0, 1);
    }
  }
}
