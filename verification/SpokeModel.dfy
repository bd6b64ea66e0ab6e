/** What a spoke holds, seen as values: the queued jobs, and the jobs that can be found by id. */
module SpokeModel {
  import opened Temporal
  import opened Jobs
  import opened Options

  /** pending is what the spoke's queue holds, index what its map holds. */
  datatype SpokeView = SpokeView(bound: Bound, pending: multiset<Job>, index: map<string, Job>)

  function EmptySpoke(bound: Bound): SpokeView {
    SpokeView(bound, multiset{}, map[])
  }

  /** The map only names queued jobs, each under its own id. */
  ghost predicate WellFormed(s: SpokeView) {
    && (forall id <- s.index :: s.index[id].id == id && s.index[id] in s.pending)
    && (forall j <- s.pending :: s.bound.ContainsTime(j.triggerAt))
  }

  /** Map and queue hold the same jobs: every queued job is queued once and found by its id. */
  ghost predicate Agrees(s: SpokeView) {
    forall j <- s.pending :: s.pending[j] == 1 && j.id in s.index && s.index[j.id] == j
  }

  function Insert(s: SpokeView, j: Job): SpokeView {
    s.(pending := s.pending + multiset{j}, index := s.index[j.id := j])
  }

  function Take(s: SpokeView, j: Job): SpokeView {
    s.(pending := s.pending - multiset{j}, index := s.index - {j.id})
  }

  /** j is a queued job with the least trigger. */
  ghost predicate Head(s: SpokeView, j: Job) {
    j in s.pending && forall k <- s.pending :: j.triggerAt <= k.triggerAt
  }

  /** Some queued job has reached its trigger. */
  ghost predicate Ready(s: SpokeView, now: int) {
    exists j <- s.pending :: j.triggerAt <= now
  }

  /** r is what spoke s gives at time now, and s' is what is then left of it. */
  ghost predicate Gives(s: SpokeView, now: int, r: Option<Job>, s': SpokeView) {
    match r
    case None => s' == s && !Ready(s, now)
    case Some(j) => Head(s, j) && j.triggerAt <= now && s' == Take(s, j)
  }

  /** r is what cancelling id in spoke s answers, and s' is what is then left of it. */
  ghost predicate Drops(s: SpokeView, id: string, r: Option<Job>, s': SpokeView) {
    if id in s.index then r == Some(s.index[id]) && s' == Take(s, s.index[id]) else r == None && s' == s
  }

  lemma Regroup(a: multiset<Job>, b: multiset<Job>, c: multiset<Job>)
    ensures a + b + c == a + (b + c)
  {
  }

  lemma InsertKeepsWellFormed(s: SpokeView, j: Job)
    requires WellFormed(s) && s.bound.ContainsTime(j.triggerAt)
    ensures WellFormed(Insert(s, j))
  {
    assert j in Insert(s, j).pending;
  }

  lemma TakeKeepsWellFormed(s: SpokeView, j: Job)
    requires WellFormed(s) && j in s.pending
    ensures WellFormed(Take(s, j))
  {
    var t := Take(s, j);
    forall id <- t.index
      ensures t.index[id] in t.pending
    {
      assert t.index[id] != j;
    }
  }

  /** Adding a job keeps map and queue in agreement exactly when its id is not in the map yet. */
  lemma InsertAgreesIff(s: SpokeView, j: Job)
    requires WellFormed(s) && Agrees(s)
    ensures Agrees(Insert(s, j)) <==> j.id !in s.index
  {
    var t := Insert(s, j);
    if j.id in s.index {
      var k := s.index[j.id];
      assert k in t.pending && t.index[k.id] == j;
      if k == j {
        assert t.pending[j] == 2;
      }
    } else {
      assert forall k <- s.pending :: k.id != j.id;
      assert s.pending[j] == 0;
    }
  }

  lemma TakeAgrees(s: SpokeView, j: Job)
    requires WellFormed(s) && Agrees(s) && j in s.pending
    ensures Agrees(Take(s, j))
  {
    forall k <- Take(s, j).pending
      ensures k.id != j.id
    {
      assert k in s.pending;
    }
  }
}
