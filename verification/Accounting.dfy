/** The memory account kept beside the hub: what the servers charge to the monitor for the jobs they put in and take
    out. */
module Accounting {
  import opened Options
  import opened Jobs
  import opened SpokeModel
  import opened HubModel
  import opened HubInvariants
  import opened HubRuns
  import opened HubRestore
  import opened Monitor

  /** The memory of these jobs, each counted as often as it occurs. */
  ghost function Footprint(sizeOf: Job -> uint64, jobs: multiset<Job>): nat
    decreases |jobs|
  {
    if jobs == multiset{} then
      0
    else
      var j :| j in jobs;
      Footprint(sizeOf, jobs - multiset{j}) + sizeOf(j)
  }

  lemma FootprintPick(sizeOf: Job -> uint64, jobs: multiset<Job>) returns (k: Job)
    requires jobs != multiset{}
    ensures k in jobs && Footprint(sizeOf, jobs) == Footprint(sizeOf, jobs - multiset{k}) + sizeOf(k)
  {
    k :| k in jobs && Footprint(sizeOf, jobs) == Footprint(sizeOf, jobs - multiset{k}) + sizeOf(k);
  }

  lemma {:induction false} FootprintSplit(sizeOf: Job -> uint64, jobs: multiset<Job>, j: Job)
    requires j in jobs
    ensures Footprint(sizeOf, jobs) == Footprint(sizeOf, jobs - multiset{j}) + sizeOf(j)
    decreases |jobs|
  {
    var k := FootprintPick(sizeOf, jobs);
    if j != k {
      TakeBoth(jobs, j, k);
      FootprintSplit(sizeOf, jobs - multiset{k}, j);
      FootprintSplit(sizeOf, jobs - multiset{j}, k);
    }
  }

  lemma TakeBoth(jobs: multiset<Job>, j: Job, k: Job)
    requires j in jobs && k in jobs && j != k
    ensures jobs - multiset{j} - multiset{k} == jobs - multiset{k} - multiset{j}
    ensures |jobs - multiset{j}| < |jobs| && |jobs - multiset{k}| < |jobs|
    ensures j in jobs - multiset{k} && k in jobs - multiset{j}
  {
  }

  lemma FootprintAdd(sizeOf: Job -> uint64, jobs: multiset<Job>, j: Job)
    ensures Footprint(sizeOf, jobs + multiset{j}) == Footprint(sizeOf, jobs) + sizeOf(j)
  {
    FootprintSplit(sizeOf, jobs + multiset{j}, j);
    assert jobs + multiset{j} - multiset{j} == jobs;
  }

  lemma FootprintMoves(sizeOf: Job -> uint64, p: multiset<Job>, p': multiset<Job>, e: Event)
    requires p' + Loss(e) == p + Gain(e)
    ensures if e.AddEvent? && e.added == Accepted then
              Footprint(sizeOf, p') == Footprint(sizeOf, p) + sizeOf(e.job)
            else if !e.AddEvent? && e.result.Some? then
              Footprint(sizeOf, p') + sizeOf(e.result.value) == Footprint(sizeOf, p)
            else
              p' == p
  {
    PlusNothing(p, p', Gain(e), Loss(e));
    if e.AddEvent? && e.added == Accepted {
      FootprintAdd(sizeOf, p, e.job);
    } else if !e.AddEvent? && e.result.Some? {
      FootprintAdd(sizeOf, p', e.result.value);
    }
  }

  lemma PlusNothing(p: multiset<Job>, p': multiset<Job>, gain: multiset<Job>, loss: multiset<Job>)
    requires p' + loss == p + gain
    ensures loss == multiset{} ==> p' == p + gain
    ensures gain == multiset{} ==> p' + loss == p
    ensures gain == loss == multiset{} ==> p' == p
  {
  }

  // ---------- Charging ----------

  /** What an operation does to the account: putting a job charges it, accepted or not, and a job that is handed out
      is taken off. */
  function Charge(sizeOf: Job -> uint64, recovery: uint64, current: uint64, e: Event): (uint64, Outcome) {
    match e
    case AddEvent(j, _, _) => (Add64(current, sizeOf(j)), Quiet)
    case _ => if e.result.Some? then AfterDecrement(current, sizeOf(e.result.value), recovery) else (current, Quiet)
  }

  /** The memory charged for a job that was refused. */
  function Refused(sizeOf: Job -> uint64, e: Event): nat {
    if e.AddEvent? && e.added != Accepted then sizeOf(e.job) else 0
  }

  ghost function AllRefused(sizeOf: Job -> uint64, es: seq<Event>): nat {
    if es == [] then 0 else AllRefused(sizeOf, es[..|es| - 1]) + Refused(sizeOf, es[|es| - 1])
  }

  lemma ModShift(x: int, k: int)
    ensures (x + k * WORD) % WORD == x % WORD
  {
    var q, r := x / WORD, x % WORD;
    assert x + k * WORD == (q + k) * WORD + r;
  }

  lemma ModPlus(x: int, d: int)
    ensures (x % WORD + d) % WORD == (x + d) % WORD
  {
    ModShift(x % WORD + d, x / WORD);
  }

  lemma PutOn(x: int, size: uint64)
    ensures Add64(x % WORD, size) == (x + size) % WORD
  {
    ModPlus(x, size);
  }

  lemma TakeOff(x: int, size: uint64, recovery: uint64)
    ensures var (current, outcome) := AfterDecrement(x % WORD, size, recovery);
            && (outcome == Panics <==> (x - size) % WORD > TEBIBYTE)
            && (outcome != Panics ==> current == (x - size) % WORD)
  {
    var d: int := size;
    ModPlus(x, -d);
    UnderflowTestIff(x % WORD, size);
  }

  /** An account that shows x, modulo 2^64, is charged for operation e so that it shows y; unless the monitor panics,
      which happens exactly if e hands out a job and what is left is more than a tebibyte. */
  ghost predicate ChargesTo(sizeOf: Job -> uint64, recovery: uint64, x: int, y: int, e: Event) {
    var (current, outcome) := Charge(sizeOf, recovery, x % WORD, e);
    && (outcome == Panics <==> Loss(e) != multiset{} && y % WORD > TEBIBYTE)
    && (outcome != Panics ==> current == y % WORD)
  }

  lemma ChargePut(sizeOf: Job -> uint64, recovery: uint64, x: int, y: int, e: Event)
    requires e.AddEvent? && y == x + sizeOf(e.job)
    ensures ChargesTo(sizeOf, recovery, x, y, e)
  {
    PutOn(x, sizeOf(e.job));
  }

  lemma ChargeTaken(sizeOf: Job -> uint64, recovery: uint64, x: int, y: int, e: Event)
    requires !e.AddEvent? && e.result.Some? && y + sizeOf(e.result.value) == x
    ensures ChargesTo(sizeOf, recovery, x, y, e)
  {
    TakeOff(x, sizeOf(e.result.value), recovery);
    assert e.result.value in Loss(e);
  }

  lemma ChargeNothing(sizeOf: Job -> uint64, recovery: uint64, x: int, y: int, e: Event)
    requires !e.AddEvent? && e.result.None? && y == x
    ensures ChargesTo(sizeOf, recovery, x, y, e)
  {
  }

  /** Every operation is charged for exactly what it changes in the hub, and for what it refuses. */
  lemma ChargeStep(sizeOf: Job -> uint64, recovery: uint64, x: int, y: int, p: multiset<Job>, p': multiset<Job>,
                   e: Event)
    requires p' + Loss(e) == p + Gain(e)
    requires y - x == Footprint(sizeOf, p') - Footprint(sizeOf, p) + Refused(sizeOf, e)
    ensures ChargesTo(sizeOf, recovery, x, y, e)
  {
    FootprintMoves(sizeOf, p, p', e);
    if e.AddEvent? {
      ChargePut(sizeOf, recovery, x, y, e);
    } else if e.result.Some? {
      ChargeTaken(sizeOf, recovery, x, y, e);
    } else {
      ChargeNothing(sizeOf, recovery, x, y, e);
    }
  }

  /** The accounts along a run, from c0 on. */
  ghost predicate Charged(sizeOf: Job -> uint64, recovery: uint64, c0: uint64, cs: seq<uint64>, es: seq<Event>) {
    && |cs| == |es| + 1 && cs[0] == c0
    && forall i :: 0 <= i < |es| ==> cs[i + 1] == Charge(sizeOf, recovery, cs[i], es[i]).0
  }

  /** The monitor panics at operation k. */
  ghost predicate PanicsAt(sizeOf: Job -> uint64, recovery: uint64, cs: seq<uint64>, es: seq<Event>, k: nat)
    requires k < |es| <= |cs|
  {
    Charge(sizeOf, recovery, cs[k], es[k]).1 == Panics
  }

  /** What is due after i operations: what the account was at first, with the footprint of the queued jobs and of all
      jobs refused so far, and without the footprint of the jobs that were queued at first. */
  ghost function Due(sizeOf: Job -> uint64, c0: uint64, ss: seq<HubState>, es: seq<Event>, i: nat): int
    requires i <= |es| && i < |ss|
  {
    c0 + Footprint(sizeOf, Pending(ss[i].hub)) + AllRefused(sizeOf, es[..i]) - Footprint(sizeOf, Pending(ss[0].hub))
  }

  lemma DueAtFirst(sizeOf: Job -> uint64, c0: uint64, ss: seq<HubState>, es: seq<Event>)
    requires ss != []
    ensures Due(sizeOf, c0, ss, es, 0) == c0 == c0 % WORD
  {
  }

  /** The account along any run, whatever it was at first: until the monitor panics, it is what is due, modulo 2^64.
      The monitor panics exactly when a job is handed out and more than a tebibyte is due. */
  lemma {:induction false} AccountIs(sig: string -> Signature, ss: seq<HubState>, es: seq<Event>,
                                     sizeOf: Job -> uint64, recovery: uint64, c0: uint64, cs: seq<uint64>, i: nat)
    requires RunInOrder(sig, ss, es) && Charged(sizeOf, recovery, c0, cs, es) && i <= |es|
    requires forall k :: 0 <= k < i ==> !PanicsAt(sizeOf, recovery, cs, es, k)
    ensures cs[i] == Due(sizeOf, c0, ss, es, i) % WORD
    ensures i < |es| ==>
              (PanicsAt(sizeOf, recovery, cs, es, i) <==>
               Loss(es[i]) != multiset{} && Due(sizeOf, c0, ss, es, i + 1) % WORD > TEBIBYTE)
  {
    if i == 0 {
      DueAtFirst(sizeOf, c0, ss, es);
    } else {
      var k := i - 1;
      AccountIs(sig, ss, es, sizeOf, recovery, c0, cs, k);
      assert !PanicsAt(sizeOf, recovery, cs, es, k);
      AccountNext(sig, ss, es, sizeOf, recovery, c0, cs, k, Due(sizeOf, c0, ss, es, k), Due(sizeOf, c0, ss, es, i));
    }
    if i < |es| {
      AccountNext(sig, ss, es, sizeOf, recovery, c0, cs, i, Due(sizeOf, c0, ss, es, i), Due(sizeOf, c0, ss, es, i + 1));
    }
  }

  lemma DueNext(sig: string -> Signature, ss: seq<HubState>, es: seq<Event>, sizeOf: Job -> uint64, c0: uint64, i: nat)
    requires RunInOrder(sig, ss, es) && i < |es|
    ensures Pending(ss[i + 1].hub) + Loss(es[i]) == Pending(ss[i].hub) + Gain(es[i])
    ensures Due(sizeOf, c0, ss, es, i + 1) - Due(sizeOf, c0, ss, es, i)
            == Footprint(sizeOf, Pending(ss[i + 1].hub)) - Footprint(sizeOf, Pending(ss[i].hub))
               + Refused(sizeOf, es[i])
  {
    MovesAt(sig, ss, es, i + 1);
    RefusedNext(sizeOf, es, i);
  }

  lemma AccountNext(sig: string -> Signature, ss: seq<HubState>, es: seq<Event>, sizeOf: Job -> uint64,
                    recovery: uint64, c0: uint64, cs: seq<uint64>, i: nat, x: int, y: int)
    requires RunInOrder(sig, ss, es) && Charged(sizeOf, recovery, c0, cs, es) && i < |es|
    requires x == Due(sizeOf, c0, ss, es, i) && y == Due(sizeOf, c0, ss, es, i + 1) && cs[i] == x % WORD
    ensures PanicsAt(sizeOf, recovery, cs, es, i) <==> Loss(es[i]) != multiset{} && y % WORD > TEBIBYTE
    ensures !PanicsAt(sizeOf, recovery, cs, es, i) ==> cs[i + 1] == y % WORD
  {
    DueNext(sig, ss, es, sizeOf, c0, i);
    ChargeStep(sizeOf, recovery, x, y, Pending(ss[i].hub), Pending(ss[i + 1].hub), es[i]);
    assert cs[i + 1] == Charge(sizeOf, recovery, cs[i], es[i]).0;
  }

  lemma RefusedNext(sizeOf: Job -> uint64, es: seq<Event>, i: nat)
    requires i < |es|
    ensures AllRefused(sizeOf, es[..i + 1]) == AllRefused(sizeOf, es[..i]) + Refused(sizeOf, es[i])
  {
    assert es[..i + 1][..i] == es[..i];
  }

  // ---------- Within a tebibyte ----------

  /** Within a tebibyte either way, the monitor panics exactly when a job is handed out for which less was charged than
      is taken off. */
  lemma PanicsIff(sig: string -> Signature, ss: seq<HubState>, es: seq<Event>,
                  sizeOf: Job -> uint64, recovery: uint64, c0: uint64, cs: seq<uint64>, i: nat)
    requires RunInOrder(sig, ss, es) && Charged(sizeOf, recovery, c0, cs, es) && i < |es|
    requires forall k :: 0 <= k < i ==> !PanicsAt(sizeOf, recovery, cs, es, k)
    requires -TEBIBYTE <= Due(sizeOf, c0, ss, es, i + 1) <= TEBIBYTE
    ensures PanicsAt(sizeOf, recovery, cs, es, i) <==> Loss(es[i]) != multiset{} && Due(sizeOf, c0, ss, es, i + 1) < 0
  {
    AccountIs(sig, ss, es, sizeOf, recovery, c0, cs, i);
    WordOf(Due(sizeOf, c0, ss, es, i + 1));
  }

  lemma WordOf(x: int)
    requires -TEBIBYTE <= x <= TEBIBYTE
    ensures x % WORD == if x < 0 then x + WORD else x
  {
  }

  /** Up to operation i, what is due is neither negative nor more than a tebibyte. */
  ghost predicate WithinTebibyte(sizeOf: Job -> uint64, c0: uint64, ss: seq<HubState>, es: seq<Event>, i: nat)
    requires i <= |es| && i < |ss|
  {
    forall k :: 0 <= k <= i ==> 0 <= Due(sizeOf, c0, ss, es, k) <= TEBIBYTE
  }

  /** As long as what is due is neither negative nor more than a tebibyte, the monitor does not panic, and its account
      is what is due. */
  lemma {:induction false} NeverPanics(sig: string -> Signature, ss: seq<HubState>, es: seq<Event>,
                                       sizeOf: Job -> uint64, recovery: uint64, c0: uint64, cs: seq<uint64>, i: nat)
    requires RunInOrder(sig, ss, es) && Charged(sizeOf, recovery, c0, cs, es) && i <= |es|
    requires WithinTebibyte(sizeOf, c0, ss, es, i)
    ensures forall k :: 0 <= k < i ==> !PanicsAt(sizeOf, recovery, cs, es, k)
    ensures cs[i] == Due(sizeOf, c0, ss, es, i)
  {
    if i == 0 {
      DueAtFirst(sizeOf, c0, ss, es);
    } else {
      var k := i - 1;
      NeverPanics(sig, ss, es, sizeOf, recovery, c0, cs, k);
      assert 0 <= Due(sizeOf, c0, ss, es, k) <= TEBIBYTE && 0 <= Due(sizeOf, c0, ss, es, i) <= TEBIBYTE;
      SmallNext(sig, ss, es, sizeOf, recovery, c0, cs, k, Due(sizeOf, c0, ss, es, k), Due(sizeOf, c0, ss, es, i));
    }
  }

  lemma SmallNext(sig: string -> Signature, ss: seq<HubState>, es: seq<Event>, sizeOf: Job -> uint64,
                  recovery: uint64, c0: uint64, cs: seq<uint64>, i: nat, x: int, y: int)
    requires RunInOrder(sig, ss, es) && Charged(sizeOf, recovery, c0, cs, es) && i < |es|
    requires x == Due(sizeOf, c0, ss, es, i) && y == Due(sizeOf, c0, ss, es, i + 1) && cs[i] == x
    requires 0 <= x <= TEBIBYTE && 0 <= y <= TEBIBYTE
    ensures !PanicsAt(sizeOf, recovery, cs, es, i) && cs[i + 1] == y
  {
    WordOf(x);
    WordOf(y);
    AccountNext(sig, ss, es, sizeOf, recovery, c0, cs, i, x, y);
  }

  /** Refused jobs stay on the account for ever, and jobs that were queued at first without being charged are missing
      from it: when the hub is empty again, the account is zero if and only if both come to the same. With a hub that
      was charged at first, that is so if and only if no job with a size was refused. */
  lemma EmptyAccountIff(sig: string -> Signature, ss: seq<HubState>, es: seq<Event>,
                        sizeOf: Job -> uint64, recovery: uint64, c0: uint64, cs: seq<uint64>, i: nat)
    requires RunInOrder(sig, ss, es) && Charged(sizeOf, recovery, c0, cs, es) && i <= |es|
    requires WithinTebibyte(sizeOf, c0, ss, es, i)
    requires Pending(ss[i].hub) == multiset{}
    ensures cs[i] == 0 <==> c0 + AllRefused(sizeOf, es[..i]) == Footprint(sizeOf, Pending(ss[0].hub))
    ensures c0 == Footprint(sizeOf, Pending(ss[0].hub)) ==>
              (cs[i] == 0 <==> forall k :: 0 <= k < i ==> Refused(sizeOf, es[k]) == 0)
  {
    NeverPanics(sig, ss, es, sizeOf, recovery, c0, cs, i);
    NoneRefusedIff(sizeOf, es, i);
  }

  lemma {:induction false} NoneRefusedIff(sizeOf: Job -> uint64, es: seq<Event>, i: nat)
    requires i <= |es|
    ensures AllRefused(sizeOf, es[..i]) == 0 <==> forall k :: 0 <= k < i ==> Refused(sizeOf, es[k]) == 0
  {
    if i > 0 {
      var k := i - 1;
      NoneRefusedIff(sizeOf, es, k);
      RefusedNext(sizeOf, es, k);
    }
  }

  // ---------- Restored jobs ----------

  /** Restored jobs are in the hub and not on the account: with one restored job and nothing else, the call of Next that
      hands it out makes the monitor panic. */
  lemma RestoredJobPanics(sig: string -> Signature, sizeOf: Job -> uint64, recovery: uint64, j: Job)
    returns (v: HubView, t: Tally, v': HubView, e: Event)
    requires j.triggerAt == UNIX_EPOCH && 0 < sizeOf(j) <= TEBIBYTE
    ensures (v, t) == Restored(sig, NewHub(10, UNIX_EPOCH), [GobEncode(j)], [UNIX_EPOCH])
    ensures t == Tally(0, 0, 1) && e == NextEvent(UNIX_EPOCH, UNIX_EPOCH, UNIX_EPOCH, Some(j))
    ensures HubStep(sig, v, e, v') && Charge(sizeOf, recovery, 0, e) == (0, Panics)
  {
    v, t := RestoredLate(sig, j);
    e := NextEvent(UNIX_EPOCH, UNIX_EPOCH, UNIX_EPOCH, Some(j));
    assert j in v.past.pending && Ready(v.past, UNIX_EPOCH);
    v' := Settle(sig, WithSpoke(v, PastSpoke, Take(v.past, j)), j.id);
    assert Serve(sig, v, PastSpoke, UNIX_EPOCH, v', Some(j));
  }

  lemma RestoredLate(sig: string -> Signature, j: Job) returns (v: HubView, t: Tally)
    requires j.triggerAt == UNIX_EPOCH
    ensures (v, t) == Restored(sig, NewHub(10, UNIX_EPOCH), [GobEncode(j)], [UNIX_EPOCH])
    ensures t == Tally(0, 0, 1) && v.past.pending == multiset{j}
  {
    var v0 := NewHub(10, UNIX_EPOCH);
    RoundTripIff(j);
    assert !Owned(v0, j.id) && v0.past.bound.ContainsTime(j.triggerAt);
    v, t := AfterAdd(sig, v0, j, UNIX_EPOCH).0, Tally(0, 0, 1);
    assert [GobEncode(j)][..0] == [] && [UNIX_EPOCH][..0] == [];
    assert Restored(sig, v0, [], []) == (v0, Tally(0, 0, 0));
    RestoreAdded(sig, v0, Tally(0, 0, 0), GobEncode(j), UNIX_EPOCH, v, Accepted);
  }

  // ---------- The order of charging and putting ----------

  /** Charging a job before it can be handed out leaves the account as it was, up to a tebibyte. Taking it off first,
      as can happen where the charge is deferred until the job is in the hub, does so if and only if as much is on the
      account already; otherwise the monitor panics and the job stays on the account. */
  lemma ChargeFirstIff(x: uint64, size: uint64, recovery: uint64)
    requires x <= TEBIBYTE && size <= TEBIBYTE
    ensures var (first, outcome) := AfterDecrement(Add64(x, size), size, recovery); first == x && outcome != Panics
    ensures var (late, outcome) := AfterDecrement(x, size, recovery);
            && (outcome != Panics <==> size <= x)
            && Add64(late, size) == if size <= x then x else size
  {
  }
}
