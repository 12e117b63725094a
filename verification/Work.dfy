/** Conservation of work: what a completed run has executed is exactly the list of its segments. */
module Work {
  import opened Statuses
  import opened Protocol
  import opened Invariant
  import opened Safety
  import opened Segments
  import opened JobSpec
  import Decimal

  /** The completion indexes that have succeeded, over the first `m` clusters. */
  function Succeeded(clusters: seq<Cluster>, m: nat): nat
    requires m <= |clusters|
  {
    if m == 0 then 0 else Succeeded(clusters, m - 1) + |clusters[m - 1].done|
  }

  lemma DoneIsBounded(s: State, i: nat)
    requires Inv(s) && i < |s.clusters|
    ensures |s.clusters[i].done| <= s.workers[i]
  {
    assert OpInv(s.server, s.now, i, s.workers[i], s.clusters[i], s.ops[i]);
    assert s.clusters[i].done <= Indexes(s.workers[i]);
    SubsetIsSmaller(s.clusters[i].done, Indexes(s.workers[i]));
  }

  lemma {:induction false} SucceededIsBounded(clusters: seq<Cluster>, workers: seq<nat>, m: nat)
    requires m <= |clusters| == |workers|
    requires forall i | 0 <= i < m :: |clusters[i].done| <= workers[i]
    ensures Succeeded(clusters, m) <= Sum(workers[..m])
    ensures (forall i | 0 <= i < m :: |clusters[i].done| == workers[i]) ==> Succeeded(clusters, m) == Sum(workers[..m])
  {
    if m > 0 {
      SucceededIsBounded(clusters, workers, m - 1);
      SumOneMore(workers, m - 1);
    }
  }

  /** At no time have more indexes succeeded, over all clusters, than the run has workers; at completion just as many. */
  lemma WorkIsConserved(s: State)
    requires Reachable(s)
    ensures Succeeded(s.clusters, |s.clusters|) <= Sum(s.workers)
    ensures s.server.completedAt.Some? ==> Succeeded(s.clusters, |s.clusters|) == Sum(s.workers)
  {
    ReachableHasInv(s);
    forall i | 0 <= i < |s.clusters| ensures |s.clusters[i].done| <= s.workers[i] {
      DoneIsBounded(s, i);
    }
    SucceededIsBounded(s.clusters, s.workers, |s.clusters|);
    assert s.workers[..|s.workers|] == s.workers;
    if s.server.completedAt.Some? {
      CompletionIsExact(s);
    }
  }

  /** The environments that the operators put into the Jobs of a run whose variables are `userVars`. */
  ghost predicate EnvsFor(envs: seq<seq<EnvVar>>, workers: seq<nat>, userVars: seq<EnvVar>) {
    |envs| == |workers| && forall p | 0 <= p < |workers| :: EnvFor(envs[p], Assigned(workers, p), userVars)
  }

  lemma ReaderOf(envs: seq<seq<EnvVar>>, workers: seq<nat>, userVars: seq<EnvVar>, p: nat, k: nat)
    requires EnvsFor(envs, workers, userVars) && Lookup(userVars, INDEX_VAR) == None
    requires p < |workers| && k < workers[p]
    ensures PodReads(envs[p], k) == Some(Assigned(workers, p)[k])
  {
    PodsReadTheirSegmentsExactlyWhen(envs[p], workers, p, userVars);
  }

  /**
   * The worker that ran a given segment of a completed run: its location, and its completion index, which succeeded and
   * whose pod read that segment. No other index that succeeded read it.
   */
  lemma EverySegmentWasFinished(s: State, envs: seq<seq<EnvVar>>, userVars: seq<EnvVar>, q: nat) returns (p: nat, k: nat)
    requires Reachable(s) && s.server.completedAt.Some? && q < Sum(s.workers)
    requires EnvsFor(envs, s.workers, userVars) && Lookup(userVars, INDEX_VAR) == None
    ensures p < |s.clusters| && p < |envs| && k in s.clusters[p].done
    ensures PodReads(envs[p], k) == Some(AdjacentPairs(CutPoints(s.workers))[q])
    ensures forall p': nat, k': nat | p' < |s.clusters| && p' < |envs| && k' in s.clusters[p'].done &&
                            PodReads(envs[p'], k').Some? &&
                            PodReads(envs[p'], k').value.segment == PodReads(envs[p], k).value.segment :: p' == p && k' == k
  {
    ReachableHasInv(s);
    CompletionIsExact(s);
    assert s.workers[..|s.workers|] == s.workers;
    p, k := SegmentHasAnOwner(s.workers, q, |s.workers|);
    SharesAreThePartitionExactlyWhen(s.workers);
    SharesAreSegments(s.workers);
    ReaderOf(envs, s.workers, userVars, p, k);
    forall p': nat, k': nat | p' < |s.clusters| && p' < |envs| && k' in s.clusters[p'].done &&
                              PodReads(envs[p'], k').Some? &&
                              PodReads(envs[p'], k').value.segment == PodReads(envs[p], k).value.segment
      ensures p' == p && k' == k
    {
      assert k' < s.workers[p'];
      ReaderOf(envs, s.workers, userVars, p', k');
      SegmentHasOneOwner(s.workers, p, k, p', k');
    }
  }

  // ----- A completion index of the user's

  /** The segment numbers that the pods of the first `m` locations read when those of one location all read the same. */
  ghost function Reads(envs: seq<seq<EnvVar>>, workers: seq<nat>, m: nat): set<string>
    requires m <= |workers| == |envs|
  {
    if m == 0 then {}
    else if workers[m - 1] > 0 && PodReads(envs[m - 1], 0).Some? then Reads(envs, workers, m - 1) + {PodReads(envs[m - 1], 0).value.id}
    else Reads(envs, workers, m - 1)
  }

  lemma {:induction false} ReadsAreFew(envs: seq<seq<EnvVar>>, workers: seq<nat>, p: nat, m: nat)
    requires m <= |workers| == |envs| && p < |workers| && workers[p] >= 2
    ensures |Reads(envs, workers, m)| <= Sum(workers[..m])
    ensures p < m ==> |Reads(envs, workers, m)| < Sum(workers[..m])
  {
    if m > 0 {
      ReadsAreFew(envs, workers, p, m - 1);
      SumOneMore(workers, m - 1);
    }
  }

  lemma {:induction false} ReadIsAmongThem(envs: seq<seq<EnvVar>>, workers: seq<nat>, p: nat, k: nat, m: nat)
    requires p < m <= |workers| == |envs| && k < workers[p]
    requires Lookup(envs[p], INDEX_VAR).Some? && PodReads(envs[p], k).Some?
    ensures PodReads(envs[p], k).value.id in Reads(envs, workers, m)
  {
    if p < m - 1 {
      ReadIsAmongThem(envs, workers, p, k, m - 1);
    } else {
      OneIndexForAll(envs[p], 0, k);
    }
  }

  ghost function Numbers(m: nat): set<string> {
    if m == 0 then {} else Numbers(m - 1) + {Decimal.Render(m)}
  }

  lemma {:induction false} NumberIn(m: nat, x: string)
    requires x in Numbers(m)
    ensures 1 <= Decimal.Parse(x) <= m && x == Decimal.Render(Decimal.Parse(x))
  {
    if x == Decimal.Render(m) {
      Decimal.ParseRender(m);
    } else {
      NumberIn(m - 1, x);
    }
  }

  lemma {:induction false} NumbersAreMany(m: nat)
    ensures |Numbers(m)| == m
  {
    if m > 0 {
      NumbersAreMany(m - 1);
      if Decimal.Render(m) in Numbers(m - 1) {
        NumberIn(m - 1, Decimal.Render(m));
        Decimal.ParseRender(m);
        assert false;
      }
    }
  }

  /** If the user sets a variable called like the completion index and a location has two workers, some segment is run by no pod. */
  lemma SomeSegmentIsNeverRead(envs: seq<seq<EnvVar>>, workers: seq<nat>, userVars: seq<EnvVar>, p: nat) returns (q: nat)
    requires EnvsFor(envs, workers, userVars) && Lookup(userVars, INDEX_VAR).Some?
    requires p < |workers| && workers[p] >= 2
    ensures q < |AdjacentPairs(CutPoints(workers))|
    ensures forall p': nat, k': nat | p' < |workers| && k' < workers[p'] ::
              PodReads(envs[p'], k') != Some(AdjacentPairs(CutPoints(workers))[q])
  {
    var total, m := Sum(workers), |workers|;
    assert workers[..m] == workers;
    ReadsAreFew(envs, workers, p, m);
    NumbersAreMany(total);
    if Numbers(total) <= Reads(envs, workers, m) {
      SubsetIsSmaller(Numbers(total), Reads(envs, workers, m));
      assert false;
    }
    var x :| x in Numbers(total) && x !in Reads(envs, workers, m);
    NumberIn(total, x);
    q := Decimal.Parse(x) - 1;
    PairsAreSegments(workers);
    forall p': nat, k': nat | p' < m && k' < workers[p']
      ensures PodReads(envs[p'], k') != Some(AdjacentPairs(CutPoints(workers))[q])
    {
      assert EnvFor(envs[p'], Assigned(workers, p'), userVars);
      if PodReads(envs[p'], k').Some? {
        ReadIsAmongThem(envs, workers, p', k', m);
      }
    }
  }
}
