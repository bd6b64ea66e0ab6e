/** The filter in front of the hub: when it can be trusted, and what the hub then amounts to. */
module HubFilter {
  import opened Options
  import opened Jobs
  import opened SpokeModel
  import opened HubModel
  import opened HubInvariants

  // ---------- The filter ----------

  /** The signatures of the jobs, each as often as it occurs. */
  ghost function Signatures(sig: string -> Signature, m: multiset<Job>): multiset<Signature>
    decreases |m|
  {
    if m == multiset{} then
      multiset{}
    else
      var j :| j in m;
      Signatures(sig, m - multiset{j}) + multiset{sig(j.id)}
  }

  lemma SignaturesPick(sig: string -> Signature, m: multiset<Job>) returns (k: Job)
    requires m != multiset{}
    ensures k in m && Signatures(sig, m) == Signatures(sig, m - multiset{k}) + multiset{sig(k.id)}
  {
    k :| k in m && Signatures(sig, m) == Signatures(sig, m - multiset{k}) + multiset{sig(k.id)};
  }

  lemma {:induction false} SignaturesSplit(sig: string -> Signature, m: multiset<Job>, j: Job)
    requires j in m
    ensures Signatures(sig, m) == Signatures(sig, m - multiset{j}) + multiset{sig(j.id)}
    decreases |m|
  {
    var k := SignaturesPick(sig, m);
    if j != k {
      var rest := m - multiset{k} - multiset{j};
      SignaturesSplit(sig, m - multiset{k}, j);
      TakeTwo(m, j, k);
      SignaturesSplit(sig, m - multiset{j}, k);
      Exchange(Signatures(sig, rest), sig(j.id), sig(k.id));
    }
  }

  lemma TakeTwo(m: multiset<Job>, j: Job, k: Job)
    requires j in m && k in m && j != k
    ensures m - multiset{j} - multiset{k} == m - multiset{k} - multiset{j}
    ensures |m - multiset{j}| < |m| && |m - multiset{k}| < |m|
    ensures j in m - multiset{k} && k in m - multiset{j}
  {
  }

  lemma Exchange(a: multiset<Signature>, x: Signature, y: Signature)
    ensures a + multiset{x} + multiset{y} == a + multiset{y} + multiset{x}
  {
  }

  lemma SignaturesAdd(sig: string -> Signature, m: multiset<Job>, j: Job)
    ensures Signatures(sig, m + multiset{j}) == Signatures(sig, m) + multiset{sig(j.id)}
  {
    SignaturesSplit(sig, m + multiset{j}, j);
    assert m + multiset{j} - multiset{j} == m;
  }

  lemma {:induction false} SignaturesMember(sig: string -> Signature, m: multiset<Job>, g: Signature)
    ensures g in Signatures(sig, m) <==> exists j <- m :: sig(j.id) == g
    decreases |m|
  {
    if j :| j in m && sig(j.id) == g {
      SignaturesSplit(sig, m, j);
    } else if m != multiset{} {
      var j :| j in m;
      SignaturesSplit(sig, m, j);
      SignaturesMember(sig, m - multiset{j}, g);
    }
  }

  /** The filter holds the signature of every queued job, as often as it is queued, and nothing else. */
  ghost predicate Faithful(sig: string -> Signature, v: HubView) {
    v.filter == Signatures(sig, Pending(v))
  }

  /** A cancel that the filter lets through although no spoke knows the id. */
  ghost predicate FalsePositive(sig: string -> Signature, v: HubView, e: Event) {
    e.CancelEvent? && sig(e.id) in v.filter && !Owned(v, e.id)
  }

  /** What an operation does to the filter, apart from a false positive, is what it does to the queued jobs. */
  lemma FilterFollows(sig: string -> Signature, v: HubView, e: Event, v': HubView)
    requires Shaped(v) && HubStep(sig, v, e, v') && !FalsePositive(sig, v, e)
    ensures if e.AddEvent? then
              v'.filter == if e.added == Accepted then v.filter + multiset{sig(e.job.id)} else v.filter
            else
              v'.filter == if e.result.Some? then v.filter - multiset{sig(e.result.value.id)} else v.filter
  {
    match e
    case AddEvent(j, now, added) =>
      FilterAfterAdd(sig, v, j, now);
    case CancelEvent(id, r) =>
      FilterAfterCancel(sig, v, id, v', r);
    case NextEvent(pastNow, expiryNow, readyNow, r) =>
      FilterAfterNext(sig, v, pastNow, expiryNow, readyNow, v', r);
  }

  lemma FilterAfterAdd(sig: string -> Signature, v: HubView, j: Job, now: int)
    ensures var (v', added) := AfterAdd(sig, v, j, now);
            v'.filter == if added == Accepted then v.filter + multiset{sig(j.id)} else v.filter
  {
  }

  lemma FilterAfterCancel(sig: string -> Signature, v: HubView, id: string, v': HubView, r: Option<Job>)
    requires Shaped(v) && CancelStep(sig, v, id, v', r)
    ensures r.Some? ==> r.value.id == id
    ensures v'.filter == if r.Some? || sig(id) in v.filter then v.filter - multiset{sig(id)} else v.filter
    ensures sig(id) in v.filter ==> (r.Some? <==> Owned(v, id))
  {
    if sig(id) in v.filter {
      var o :| IsOwner(v, id, o) && CancelAt(sig, v, id, o, v', r);
    }
  }

  lemma FilterAfterNext(sig: string -> Signature, v: HubView, pastNow: int, expiryNow: int, readyNow: int,
                        v': HubView, r: Option<Job>)
    requires NextStep(sig, v, pastNow, expiryNow, readyNow, v', r)
    ensures v'.filter == if r.Some? then v.filter - multiset{sig(r.value.id)} else v.filter
  {
    if !Ready(v.past, pastNow) {
      var w := Expire(v, expiryNow);
      if w.current.None? && w.queued != map[] {
        var b :| Earliest(w.queued, b) && Serve(sig, Promote(w, b), CurrentSpoke, readyNow, v', r);
      }
    }
  }

  /** The one operation that makes a faithful filter unfaithful is a falsely positive cancel. */
  lemma FaithfulIff(sig: string -> Signature, v: HubView, e: Event, v': HubView)
    requires Shaped(v) && Counted(v) && Faithful(sig, v) && HubStep(sig, v, e, v')
    ensures Faithful(sig, v') <==> !FalsePositive(sig, v, e)
  {
    StepKeeps(sig, v, e, v');
    SignaturesFollow(sig, Pending(v), Pending(v'), e);
    if FalsePositive(sig, v, e) {
      FilterAfterCancel(sig, v, e.id, v', e.result);
      assert |v'.filter| < |v.filter|;
    } else {
      FilterFollows(sig, v, e, v');
    }
  }

  lemma SignaturesFollow(sig: string -> Signature, p: multiset<Job>, p': multiset<Job>, e: Event)
    requires p' + Loss(e) == p + Gain(e)
    ensures var s, s' := Signatures(sig, p), Signatures(sig, p');
            if e.AddEvent? then
              s' == if e.added == Accepted then s + multiset{sig(e.job.id)} else s
            else
              s' == if e.result.Some? then s - multiset{sig(e.result.value.id)} else s
  {
    if Gain(e) != multiset{} {
      SignaturesAdd(sig, p, e.job);
      assert p' == p + multiset{e.job};
    } else if Loss(e) != multiset{} {
      SignaturesAdd(sig, p', e.result.value);
      assert p == p' + multiset{e.result.value};
    } else {
      assert p' + multiset{} == p' && p + multiset{} == p;
    }
  }
}
