/** What Fence is for: it keeps the account from growing far beyond the watermark. */
module MonitorBound {
  import opened Monitor
  import opened MonitorProtocol

  /** The goroutines that have got out of Fence and have not charged anything since. */
  ghost function PassedAfter(s: MonitorState, e: Event, s': MonitorState, passed: set<Tid>): set<Tid> {
    if e.Increment? then passed - {e.t}
    else passed + set t | t in s.pcs && InFence(s.pcs[t]) && !(t in s'.pcs && InFence(s'.pcs[t]))
  }

  ghost function Passed(ss: seq<MonitorState>, es: seq<Event>, i: nat): set<Tid>
    requires i <= |es| < |ss|
  {
    if i == 0 then {} else PassedAfter(ss[i - 1], es[i - 1], ss[i], Passed(ss, es, i - 1))
  }

  /** Nobody charges more than most, nor without having passed Fence, and nobody takes off more than there is. */
  ghost predicate Courteous(s: MonitorState, e: Event, passed: set<Tid>, most: nat) {
    && (e.Increment? ==> e.t in passed && e.size <= most)
    && (e.Decrement? ==> e.size <= s.current)
  }

  /** The account, with what those may still charge that have passed Fence, stays below the watermark and what all
      goroutines together may charge. */
  ghost predicate Bounded(watermark: uint64, all: set<Tid>, current: uint64, passed: set<Tid>, most: nat) {
    passed <= all && current + |passed| * most < watermark + |all| * most
  }

  lemma Times(a: nat, b: nat, most: nat)
    requires a <= b
    ensures a * most <= b * most
  {
  }

  lemma OneMore(a: nat, most: nat)
    ensures (a + 1) * most == a * most + most
  {
  }

  lemma Subset(a: set<Tid>, b: set<Tid>)
    requires a <= b
    ensures |a| <= |b|
  {
    assert b == a + (b - a);
  }

  /** Below the watermark anybody may pass. */
  lemma BelowIsBounded(watermark: uint64, all: set<Tid>, current: uint64, passed: set<Tid>, most: nat)
    requires current < watermark && passed <= all
    ensures Bounded(watermark, all, current, passed, most)
  {
    Subset(passed, all);
    Times(|passed|, |all|, most);
  }

  /** Whoever charges has used up having passed. */
  lemma ChargeKeepsBounded(watermark: uint64, all: set<Tid>, current: uint64, passed: set<Tid>, most: nat, t: Tid,
                           current': uint64)
    requires Bounded(watermark, all, current, passed, most) && t in passed && current' <= current + most
    ensures Bounded(watermark, all, current', passed - {t}, most)
  {
    assert |passed| == |passed - {t}| + 1;
    OneMore(|passed - {t}|, most);
  }

  lemma NobodyLeaves(m: Marks, s: MonitorState, e: Event, s': MonitorState, passed: set<Tid>)
    requires Step(m, s, e, s') && !e.Increment?
    requires e.Internal? ==> !(InFence(s.pcs[e.t]) && !InFence(s'.pcs[e.t]))
    ensures PassedAfter(s, e, s', passed) == passed
  {
    forall t | t in s.pcs && InFence(s.pcs[t])
      ensures t in s'.pcs && InFence(s'.pcs[t])
    {
      if !(t in s'.pcs && InFence(s'.pcs[t])) {
        LeavesBelowWatermark(m, s, e, s', t);
      }
    }
  }

  lemma StepKeepsBounded(m: Marks, s: MonitorState, e: Event, s': MonitorState, passed: set<Tid>, most: nat)
    requires 0 < m.watermark && Step(m, s, e, s') && Courteous(s, e, passed, most)
    requires Bounded(m.watermark, s.pcs.Keys, s.current, passed, most)
    ensures Bounded(m.watermark, s.pcs.Keys, s'.current, PassedAfter(s, e, s', passed), most)
  {
    match e
    case Increment(t, size) =>
      ChargeKeepsBounded(m.watermark, s.pcs.Keys, s.current, passed, most, t, s'.current);
    case Decrement(t, size) =>
      AddNegated(s.current, size);
      NobodyLeaves(m, s, e, s', passed);
    case Fence(t) =>
      NobodyLeaves(m, s, e, s', passed);
    case Internal(t) =>
      if InFence(s.pcs[t]) && !InFence(s'.pcs[t]) {
        LeavesBelowWatermark(m, s, e, s', t);
        BelowIsBounded(m.watermark, s.pcs.Keys, s.current, PassedAfter(s, e, s', passed), most);
      } else {
        NobodyLeaves(m, s, e, s', passed);
      }
  }

  lemma PassedNext(ss: seq<MonitorState>, es: seq<Event>, i: nat)
    requires i < |es| < |ss|
    ensures Passed(ss, es, i + 1) == PassedAfter(ss[i], es[i], ss[i + 1], Passed(ss, es, i))
  {
  }

  lemma StepBounds(m: Marks, s: MonitorState, e: Event, s': MonitorState, all: set<Tid>, passed: set<Tid>,
                   passed': set<Tid>, most: nat)
    requires 0 < m.watermark && Step(m, s, e, s') && Courteous(s, e, passed, most)
    requires all == s.pcs.Keys && passed' == PassedAfter(s, e, s', passed)
    requires Bounded(m.watermark, all, s.current, passed, most)
    ensures Bounded(m.watermark, all, s'.current, passed', most) && s'.pcs.Keys == all
  {
    StepKeepsBounded(m, s, e, s', passed, most);
  }

  lemma BoundedNext(m: Marks, ss: seq<MonitorState>, es: seq<Event>, all: set<Tid>, passed: set<Tid>,
                    passed': set<Tid>, most: nat, i: nat)
    requires 0 < m.watermark && Run(m, ss, es) && i < |es| && Courteous(ss[i], es[i], passed, most)
    requires passed == Passed(ss, es, i) && passed' == Passed(ss, es, i + 1) && all == ss[i].pcs.Keys
    requires Bounded(m.watermark, all, ss[i].current, passed, most)
    ensures Bounded(m.watermark, all, ss[i + 1].current, passed', most) && ss[i + 1].pcs.Keys == all
  {
    assert Step(m, ss[i], es[i], ss[i + 1]);
    PassedNext(ss, es, i);
    StepBounds(m, ss[i], es[i], ss[i + 1], all, passed, passed', most);
  }

  /** If every Increment follows a passed Fence of the same goroutine, then along every interleaving the account stays
      below the watermark and one charge for each goroutine. */
  lemma FenceBounds(m: Marks, ss: seq<MonitorState>, es: seq<Event>, most: nat, i: nat)
    requires 0 < m.watermark && Run(m, ss, es) && Initial(ss[0]) && i <= |es|
    requires forall k :: 0 <= k < i ==> Courteous(ss[k], es[k], Passed(ss, es, k), most)
    ensures Bounded(m.watermark, ss[0].pcs.Keys, ss[i].current, Passed(ss, es, i), most)
    ensures ss[i].current < m.watermark + |ss[0].pcs.Keys| * most
  {
    var all := ss[0].pcs.Keys;
    BelowIsBounded(m.watermark, all, ss[0].current, {}, most);
    var k := 0;
    while k < i
      invariant k <= i && ss[k].pcs.Keys == all
      invariant Bounded(m.watermark, all, ss[k].current, Passed(ss, es, k), most)
    {
      BoundedNext(m, ss, es, all, Passed(ss, es, k), Passed(ss, es, k + 1), most, k);
      k := k + 1;
    }
    Times(0, |Passed(ss, es, i)|, most);
  }
}
