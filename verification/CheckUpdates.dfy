/** The command "checkforupdatesonserver": one job per repository puts a marked result into a queue, and
    after all jobs have finished the main thread drains the queue into five lists. */
module CheckUpdates {
  import opened Sums
  import IndexWords
  import J = JobSystem
  import P = Producer
  import Q = SubQueue
  import Solo = Quiescent

  type Repo = string

  /** What git printed: the two counts, or something else.  It is an arbitrary function of the repository. */
  datatype Counts = Counts(remote: int, local: int) | Unreadable

  /** checkSingleRepo */
  function Marker(c: Counts): char {
    if c.Unreadable? then 'f'
    else if c.remote == 0 && c.local == 0 then 'u'
    else if c.remote != 0 && c.local == 0 then 'n'
    else if c.remote == 0 && c.local != 0 then 'a'
    else 'd'
  }

  /** What the five markers say about the two counts; every outcome has exactly one. */
  lemma MarkerMeans(c: Counts)
    ensures Marker(c) == 'f' <==> c.Unreadable?
    ensures Marker(c) == 'u' <==> c == Counts(0, 0)
    ensures Marker(c) == 'n' <==> c.Counts? && c == Counts(c.remote, 0) && c.remote != 0
    ensures Marker(c) == 'a' <==> c.Counts? && c == Counts(0, c.local) && c.local != 0
    ensures Marker(c) == 'd' <==> c.Counts? && c.remote != 0 && c.local != 0
  {
  }

  function Result(git: Repo -> Counts, repo: Repo): string { [Marker(git(repo))] + repo }

  /** What the jobs of one thread put into its part of the result queue. */
  function Results(git: Repo -> Counts, repos: seq<Repo>): seq<string> {
    seq(|repos|, i requires 0 <= i < |repos| => Result(git, repos[i]))
  }

  function Outputs(git: Repo -> Counts, ran: seq<seq<Repo>>): seq<seq<string>> {
    seq(|ran|, t requires 0 <= t < |ran| => Results(git, ran[t]))
  }

  // ---------------------------------------------------------------------------------------------
  // The result queue when no other operation is in flight
  // ---------------------------------------------------------------------------------------------

  /** All elements, whichever producer they came from. */
  function Contents(queues: seq<seq<string>>): multiset<string> { J.AllRan(queues) }

  /** The main thread is the only consumer. */
  const MAIN: nat := 0

  /** A producer to which the elements of log have been enqueued, and at which nobody is at work. */
  ghost predicate Ready(s: P.State, log: seq<string>) { Solo.Settled(s, log) && |s.q.cons| == 1 }

  /** Its elements that have not been dequeued. */
  function Rest(s: P.State, log: seq<string>): seq<string> { if s.q.head <= |log| then log[s.q.head..] else [] }

  lemma ReadyMeans(s: P.State, log: seq<string>)
    requires Ready(s, log)
    ensures s.q.head <= s.q.tail == |log| && P.Enabled(s, P.Dequeue(MAIN, 1))
  {
    var vc, vq :| P.Inv(s, vc, vq) && vq.log == log;
    Solo.ReadyLog(s, vc, vq);
  }

  /** dequeue of one producer: without interference it takes the oldest element, if there is one. */
  method DequeueOne(s: P.State, ghost log: seq<string>) returns (s': P.State, ok: bool, item: string)
    requires Ready(s, log)
    ensures Ready(s', log) && ok == (Rest(s, log) != [])
    ensures if ok then item == Rest(s, log)[0] && Rest(s', log) == Rest(s, log)[1..] else Rest(s', log) == []
  {
    ReadyMeans(s, log);
    var got;
    ghost var ops;
    s', got, ops := Solo.DequeueAlone(s, MAIN, 1, log);
    ok, item := got != [], "";
    if ok { item := got[0]; }
  }

  ghost predicate AllReady(producers: seq<P.State>, logs: seq<seq<string>>) {
    |producers| == |logs| && forall p {:trigger Ready(producers[p], logs[p])} :: 0 <= p < |producers| ==> Ready(producers[p], logs[p])
  }

  function Rests(producers: seq<P.State>, logs: seq<seq<string>>): (qs: seq<seq<string>>)
    requires |producers| == |logs|
    ensures |qs| == |producers|
  { seq(|producers|, p requires 0 <= p < |producers| => Rest(producers[p], logs[p])) }

  function NonEmpty(queues: seq<seq<string>>): nat {
    if queues == [] then 0 else NonEmpty(queues[..|queues| - 1]) + if queues[|queues| - 1] == [] then 0 else 1
  }

  /** Among the first p queues, which hold the first three that are not empty, best is the first of the
      largest. */
  predicate Preferred(queues: seq<seq<string>>, p: nat, best: nat) {
    && best < p <= |queues| && queues[best] != []
    && (forall q :: 0 <= q < p ==> |queues[q]| <= |queues[best]|) && (forall q :: 0 <= q < best ==> |queues[q]| < |queues[best]|)
    && (NonEmpty(queues[..p]) == 3 || (NonEmpty(queues[..p]) < 3 && p == |queues|))
  }

  class ResultQueue {
    var producers: seq<P.State>
    ghost var logs: seq<seq<string>>

    ghost predicate Valid()
      reads this
    { AllReady(producers, logs) }

    /** The elements in each producer's queue, oldest first. */
    ghost function Queues(): (qs: seq<seq<string>>)
      requires Valid()
      reads this
      ensures |qs| == |producers|
    { Rests(producers, logs) }

    constructor (producers: seq<P.State>, ghost logs: seq<seq<string>>)
      requires AllReady(producers, logs) && forall p :: 0 <= p < |producers| ==> producers[p].q.head == 0
      ensures Valid() && Queues() == logs
    {
      this.producers, this.logs := producers, logs;
      new;
      assert Rests(producers, logs) == logs;
    }

    /** dequeue of one producer. */
    method Dequeue(p: nat) returns (ok: bool, item: string)
      requires Valid() && p < |producers|
      modifies this
      ensures Valid() && ok == (old(Queues())[p] != [])
      ensures if ok then item == old(Queues())[p][0] && Queues() == old(Queues())[p := old(Queues())[p][1..]]
              else Queues() == old(Queues())
    {
      assert Ready(producers[p], logs[p]);
      var s;
      s, ok, item := DequeueOne(producers[p], logs[p]);
      assert Rests(producers[p := s], logs) == Rests(producers, logs)[p := Rest(s, logs[p])];
      producers := producers[p := s];
    }

    /** size_approx: tail - head, or 0 if head is not before tail. */
    function SizeApprox(p: nat): nat
      requires p < |producers|
      reads this
    {
      if producers[p].q.head < producers[p].q.tail then producers[p].q.tail - producers[p].q.head else 0
    }

    lemma SizeIs(p: nat)
      requires Valid() && p < |producers|
      ensures SizeApprox(p) == |Queues()[p]|
    {
      ReadyMeans(producers[p], logs[p]);
    }

    /** The producer to try first: the largest of the first three that are not empty. */
    method Best() returns (nonEmptyCount: nat, best: nat, ghost scanned: nat)
      requires Valid()
      ensures nonEmptyCount == 0 ==> forall p :: 0 <= p < |producers| ==> Queues()[p] == []
      ensures nonEmptyCount > 0 ==> Preferred(Queues(), scanned, best)
    {
      var bestSize, p := 0, 0;
      ghost var qs := Queues();
      nonEmptyCount, best := 0, 0;
      while nonEmptyCount < 3 && p < |producers|
        invariant p <= |producers| == |qs| && nonEmptyCount == NonEmpty(qs[..p]) <= 3
        invariant nonEmptyCount == 0 ==> bestSize == 0
        invariant nonEmptyCount > 0 ==> best < p && bestSize == |qs[best]| > 0
        invariant forall q :: 0 <= q < p ==> |qs[q]| <= bestSize
        invariant forall q :: 0 <= q < best && nonEmptyCount > 0 ==> |qs[q]| < bestSize
      {
        SizeIs(p);
        assert qs[..p + 1][..p] == qs[..p];
        var size := SizeApprox(p);
        if size > 0 {
          if size > bestSize { bestSize, best := size, p; }
          nonEmptyCount := nonEmptyCount + 1;
        }
        p := p + 1;
      }
      scanned := p;
    }

    /** The end of try_dequeue: the preferred producer, and then all others in case it is empty. */
    method TryFrom(best: nat) returns (ok: bool, item: string, ghost from: nat)
      requires Valid() && best < |producers|
      modifies this
      ensures Valid()
      ensures ok ==> from < |old(Queues())| && old(Queues())[from] != [] && item == old(Queues())[from][0]
                     && Queues() == old(Queues())[from := old(Queues())[from][1..]]
      ensures !ok ==> Queues() == old(Queues()) && forall p :: 0 <= p < |producers| ==> Queues()[p] == []
      ensures old(Queues())[best] != [] ==> ok && from == best
    {
      ghost var qs := Queues();
      from := best;
      ok, item := Dequeue(best);
      var p := 0;
      while !ok && p < |producers|
        invariant Valid() && p <= |producers| == |qs|
        invariant ok ==> from < |qs| && qs[from] != [] && item == qs[from][0] && Queues() == qs[from := qs[from][1..]]
        invariant !ok ==> Queues() == qs && qs[best] == [] && forall q :: 0 <= q < p ==> qs[q] == []
        invariant qs[best] != [] ==> ok && from == best
      {
        if p != best {
          from := p;
          ok, item := Dequeue(p);
        }
        p := p + 1;
      }
    }

    /** try_dequeue: without interference it fails only on an empty queue, and it takes the oldest element
        of the preferred producer. */
    method TryDequeue() returns (ok: bool, item: string, ghost from: nat)
      requires Valid()
      modifies this
      ensures Valid()
      ensures ok ==> (exists scanned :: Preferred(old(Queues()), scanned, from)) && item == old(Queues())[from][0]
                     && Queues() == old(Queues())[from := old(Queues())[from][1..]]
      ensures !ok ==> Queues() == old(Queues()) && forall p :: 0 <= p < |producers| ==> Queues()[p] == []
    {
      var nonEmptyCount, best;
      ghost var scanned;
      nonEmptyCount, best, scanned := Best();
      ok, item, from := false, "", best;
      if nonEmptyCount > 0 {
        ok, item, from := TryFrom(best);
      }
    }
  }

  /** So many elements fit into one sub-queue, whatever the indices are. */
  predicate FitsIndex(n: nat) { n + 2 * Q.BLOCK_SIZE < IndexWords.Pow2(Q.INDEX_BITS - 1) }

  /** A producer with a pool for n elements that has enqueued those of log. */
  ghost predicate Partly(s: P.State, log: seq<string>, n: nat) {
    Ready(s, log) && s.q.head == 0 && s.q.tail == |log| && |s.q.free| == Q.Blocks(n) - Q.Blocks(|log|)
  }

  method EnqueueOne(s: P.State, x: string, n: nat, ghost log: seq<string>) returns (s': P.State)
    requires Partly(s, log, n) && s.q.tail < n && FitsIndex(n)
    ensures Partly(s', log + [x], n)
  {
    ghost var ops;
    s', ops := Solo.EnqueueAlone(s, [x], log);
  }

  /** The producer that a thread gets with its first enqueue. */
  method NewProducer(n: nat) returns (s: P.State)
    ensures Partly(s, [], n)
  {
    s := Solo.New(1, Q.Blocks(n));
    Solo.NewIsSettled(1, Q.Blocks(n));
  }

  lemma ResultsAppend(git: Repo -> Counts, repos: seq<Repo>, i: nat)
    requires i < |repos|
    ensures Results(git, repos[..i]) + [Result(git, repos[i])] == Results(git, repos[..i + 1])
  {
  }

  /** The results of one thread, enqueued by it one by one. */
  method FillOne(git: Repo -> Counts, repos: seq<Repo>) returns (s: P.State)
    requires FitsIndex(|repos|)
    ensures Ready(s, Results(git, repos)) && s.q.head == 0
  {
    s := NewProducer(|repos|);
    for i := 0 to |repos|
      invariant Partly(s, Results(git, repos[..i]), |repos|)
    {
      s := EnqueueOne(s, Result(git, repos[i]), |repos|, Results(git, repos[..i]));
      ResultsAppend(git, repos, i);
    }
    assert repos[..|repos|] == repos;
  }

  /** The result queue after all jobs have finished. */
  method Fill(git: Repo -> Counts, ran: seq<seq<Repo>>) returns (results: ResultQueue)
    requires forall t :: 0 <= t < |ran| ==> FitsIndex(|ran[t]|)
    ensures fresh(results) && results.Valid() && results.Queues() == Outputs(git, ran)
  {
    var producers: seq<P.State> := [];
    for t := 0 to |ran|
      invariant AllReady(producers, Outputs(git, ran[..t])) && forall u :: 0 <= u < t ==> producers[u].q.head == 0
    {
      var s := FillOne(git, ran[t]);
      Append(producers, Outputs(git, ran[..t]), s, Results(git, ran[t]));
      assert Outputs(git, ran[..t]) + [Results(git, ran[t])] == Outputs(git, ran[..t + 1]);
      producers := producers + [s];
    }
    assert ran[..|ran|] == ran;
    results := new ResultQueue(producers, Outputs(git, ran));
  }

  lemma Append(producers: seq<P.State>, logs: seq<seq<string>>, s: P.State, log: seq<string>)
    requires AllReady(producers, logs) && Ready(s, log)
    ensures AllReady(producers + [s], logs + [log])
  {
    var producers', logs' := producers + [s], logs + [log];
    forall p | 0 <= p < |producers'| ensures Ready(producers'[p], logs'[p]) {
      assert p < |producers| ==> Ready(producers[p], logs[p]);
    }
  }

  // ---------------------------------------------------------------------------------------------
  // The five lists
  // ---------------------------------------------------------------------------------------------

  /** The repositories of the items with marker m, in the order of the items. */
  function Bucket(items: seq<string>, m: char): seq<Repo> {
    if items == [] then []
    else
      var x := items[|items| - 1];
      Bucket(items[..|items| - 1], m) + if x != [] && x[0] == m then [x[1..]] else []
  }

  /** reposUpToDate, reposNeedUpdate, reposAhead, reposDiverged, reposFailed */
  datatype Report = Report(upToDate: seq<Repo>, needUpdate: seq<Repo>, ahead: seq<Repo>, diverged: seq<Repo>, failed: seq<Repo>)

  predicate Sorted(r: Report, items: seq<string>) {
    && r.upToDate == Bucket(items, 'u') && r.needUpdate == Bucket(items, 'n') && r.ahead == Bucket(items, 'a')
    && r.diverged == Bucket(items, 'd') && r.failed == Bucket(items, 'f')
  }

  lemma {:induction false} Take(producers: seq<seq<string>>, p: nat)
    requires p < |producers| && producers[p] != []
    ensures Contents(producers) == Contents(producers[p := producers[p][1..]]) + multiset{producers[p][0]}
    decreases |producers|
  {
    var n, producers' := |producers| - 1, producers[p := producers[p][1..]];
    assert producers[p] == [producers[p][0]] + producers[p][1..];
    if p == n {
      assert producers'[..n] == producers[..n];
    } else {
      assert producers'[..n] == producers[..n][p := producers[..n][p][1..]];
      Take(producers[..n], p);
    }
  }

  lemma {:induction false} Empty(producers: seq<seq<string>>)
    requires forall p :: 0 <= p < |producers| ==> producers[p] == []
    ensures Contents(producers) == multiset{}
    decreases |producers|
  {
    if producers != [] { Empty(producers[..|producers| - 1]); }
  }

  function Add(r: Report, x: string): Report {
    if x == [] then r
    else if x[0] == 'u' then r.(upToDate := r.upToDate + [x[1..]])
    else if x[0] == 'n' then r.(needUpdate := r.needUpdate + [x[1..]])
    else if x[0] == 'a' then r.(ahead := r.ahead + [x[1..]])
    else if x[0] == 'd' then r.(diverged := r.diverged + [x[1..]])
    else if x[0] == 'f' then r.(failed := r.failed + [x[1..]])
    else r
  }

  lemma AddSorts(r: Report, items: seq<string>, x: string)
    requires Sorted(r, items)
    ensures Sorted(Add(r, x), items + [x])
  {
    assert (items + [x])[..|items|] == items;
  }

  /** The drain loop of checkForUpdatesOnServer: it ends, with every element taken exactly once. */
  method Drain(results: ResultQueue) returns (r: Report, ghost items: seq<string>)
    modifies results
    requires results.Valid()
    ensures results.Valid() && Contents(results.Queues()) == multiset{}
    ensures Sorted(r, items) && multiset(items) == old(Contents(results.Queues()))
  {
    r, items := Report([], [], [], [], []), [];
    ghost var before := results.Queues();
    var ok, item, from := results.TryDequeue();
    while ok
      invariant results.Valid()
      invariant ok ==> 0 <= from < |before| && before[from] != [] && item == before[from][0]
                       && results.Queues() == before[from := before[from][1..]]
      invariant !ok ==> results.Queues() == before && forall p :: 0 <= p < |before| ==> before[p] == []
      invariant Sorted(r, items) && multiset(items) + Contents(before) == old(Contents(results.Queues()))
      decreases |Contents(before)|
    {
      AddSorts(r, items, item);
      Take(before, from);
      r, items := Add(r, item), items + [item];
      before := results.Queues();
      ok, item, from := results.TryDequeue();
    }
    Empty(results.Queues());
  }

  // ---------------------------------------------------------------------------------------------
  // The report
  // ---------------------------------------------------------------------------------------------

  predicate IsMarker(m: char) { m == 'u' || m == 'n' || m == 'a' || m == 'd' || m == 'f' }

  /** How often a repository is listed under a marker is how often its marked result was dequeued. */
  lemma {:induction false} BucketCounts(items: seq<string>, m: char, repo: Repo)
    ensures J.Times(Bucket(items, m), repo) == J.Times(items, [m] + repo)
    decreases |items|
  {
    if items != [] {
      var rest, x := items[..|items| - 1], items[|items| - 1];
      BucketCounts(rest, m, repo);
      assert items == rest + [x];
      J.TimesAppend(rest, x, [m] + repo);
      if x != [] && x[0] == m {
        J.TimesAppend(Bucket(rest, m), x[1..], repo);
        assert x == [m] + x[1..];
        assert x == [m] + repo ==> x[1..] == repo;
      }
    }
  }

  lemma {:induction false} ResultsCount(git: Repo -> Counts, repos: seq<Repo>, m: char, repo: Repo)
    ensures J.Times(Results(git, repos), [m] + repo) == if Marker(git(repo)) == m then J.Times(repos, repo) else 0
    decreases |repos|
  {
    if repos != [] {
      var rest, x := repos[..|repos| - 1], repos[|repos| - 1];
      ResultsCount(git, rest, m, repo);
      assert Results(git, repos) == Results(git, rest) + [Result(git, x)] && repos == rest + [x];
      J.TimesAppend(Results(git, rest), Result(git, x), [m] + repo);
      J.TimesAppend(rest, x, repo);
      assert Result(git, x)[1..] == x && Result(git, x)[0] == Marker(git(x)) && ([m] + repo)[1..] == repo;
    }
  }

  lemma {:induction false} OutputsCount(git: Repo -> Counts, ran: seq<seq<Repo>>, m: char, repo: Repo)
    ensures Contents(Outputs(git, ran))[[m] + repo] == if Marker(git(repo)) == m then J.AllRan(ran)[repo] else 0
    decreases |ran|
  {
    if ran != [] {
      var n := |ran| - 1;
      OutputsCount(git, ran[..n], m, repo);
      ResultsCount(git, ran[n], m, repo);
      assert Outputs(git, ran)[..n] == Outputs(git, ran[..n]) && Outputs(git, ran)[n] == Results(git, ran[n]);
    }
  }

  function Listed(r: Report, m: char): seq<Repo>
    requires IsMarker(m)
  { if m == 'u' then r.upToDate else if m == 'n' then r.needUpdate else if m == 'a' then r.ahead else if m == 'd' then r.diverged else r.failed }

  /** A repository stands in the list of its own marker as often as it was given, and in no other. */
  ghost predicate InItsList(git: Repo -> Counts, repos: seq<Repo>, r: Report, m: char, repo: Repo)
    requires IsMarker(m)
  { J.Times(Listed(r, m), repo) == if m == Marker(git(repo)) then J.Times(repos, repo) else 0 }

  lemma ListedOnce(git: Repo -> Counts, ran: seq<seq<Repo>>, repos: seq<Repo>, r: Report, items: seq<string>, m: char, repo: Repo)
    requires Sorted(r, items) && multiset(items) == Contents(Outputs(git, ran)) && J.AllRan(ran) == multiset(repos) && IsMarker(m)
    ensures InItsList(git, repos, r, m, repo)
  {
    BucketCounts(items, m, repo);
    OutputsCount(git, ran, m, repo);
  }

  /** No thread has run more jobs than there are repositories. */
  lemma {:induction false} RanIsSmall(ran: seq<seq<Repo>>, t: nat)
    requires t < |ran|
    ensures multiset(ran[t]) <= J.AllRan(ran) && |ran[t]| <= |J.AllRan(ran)|
    decreases |ran|
  {
    var n := |ran| - 1;
    if t < n { RanIsSmall(ran[..n], t); }
    assert |multiset(ran[t])| == |ran[t]|;
  }

  /** The whole command, for any schedule of the jobs: when the call of waitForAllJobsFinished after the
      submission of all repositories has returned, the results that the jobs have enqueued are drained into lists that hold
      exactly the repositories with their marker, and together are a permutation of the repositories. */
  method CheckForUpdates(ghost b: seq<J.State>, ghost ops: seq<J.Op>, ghost i: nat, ghost n: nat, ran: seq<seq<Repo>>, git: Repo -> Counts, ghost repos: seq<Repo>)
    returns (r: Report)
    requires J.Run(b, ops) && J.WaitCall(b, ops, i, n) && J.Submitted(ops, n) == repos && ran == b[n].ran
    requires FitsIndex(|repos|)
    ensures forall m, repo :: IsMarker(m) ==> InItsList(git, repos, r, m, repo)
    ensures multiset(r.upToDate + r.needUpdate + r.ahead + r.diverged + r.failed) == multiset(repos)
  {
    J.WaitMeansAllRan(b, ops, i, n);
    forall t | 0 <= t < |ran| ensures FitsIndex(|ran[t]|) { RanIsSmall(ran, t); }
    var results := Fill(git, ran);
    ghost var items;
    r, items := Drain(results);
    ListsAreRight(git, ran, repos, r, items);
  }

  lemma ListsAreRight(git: Repo -> Counts, ran: seq<seq<Repo>>, repos: seq<Repo>, r: Report, items: seq<string>)
    requires Sorted(r, items) && multiset(items) == Contents(Outputs(git, ran)) && J.AllRan(ran) == multiset(repos)
    ensures forall m, repo :: IsMarker(m) ==> InItsList(git, repos, r, m, repo)
    ensures multiset(r.upToDate + r.needUpdate + r.ahead + r.diverged + r.failed) == multiset(repos)
  {
    forall m, repo | IsMarker(m) ensures InItsList(git, repos, r, m, repo) { ListedOnce(git, ran, repos, r, items, m, repo); }
    PermutationOf(git, repos, r);
  }

  lemma PermutationOf(git: Repo -> Counts, repos: seq<Repo>, r: Report)
    requires forall m, repo :: IsMarker(m) ==> InItsList(git, repos, r, m, repo)
    ensures multiset(r.upToDate + r.needUpdate + r.ahead + r.diverged + r.failed) == multiset(repos)
  {
    forall repo ensures multiset(r.upToDate + r.needUpdate + r.ahead + r.diverged + r.failed)[repo] == multiset(repos)[repo] {
      assert InItsList(git, repos, r, 'u', repo) && InItsList(git, repos, r, 'n', repo) && InItsList(git, repos, r, 'a', repo)
             && InItsList(git, repos, r, 'd', repo) && InItsList(git, repos, r, 'f', repo);
    }
  }
}
