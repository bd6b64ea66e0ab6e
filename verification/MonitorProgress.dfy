/** Without new calls the monitor comes to rest, whatever the schedule. */
module MonitorProgress {
  import opened MonitorProtocol
  import opened Sums

  /** How far goroutine t is from standing still, with n goroutines in all. Whoever has a Broadcast before it counts
      for all those that the Broadcast may wake. */
  function Rank(s: MonitorState, t: Tid, n: nat): int {
    if t !in s.pcs then 0
    else
      match s.pcs[t]
      case Idle => 0
      case Added(_) => 4 * n + 4
      case Signal => 4 * n + 3
      case Signalling => 4 * n + 2
      case Signalled => 1
      case Panicking => 1
      case Fencing => 4
      case Checking => 3
      case Leaving => 1
      case Sleepy => 2
      case Enqueued => if t in s.list then 1 else 5
      case Asleep => if t in s.list then 0 else 4
  }

  function Ranks(s: MonitorState, n: nat): Tid -> int {
    (t: Tid) => Rank(s, t, n)
  }

  ghost function Measure(s: MonitorState): int {
    Sum(s.pcs.Keys, Ranks(s, |s.pcs|))
  }

  lemma RankDrops(m: Marks, s: MonitorState, t: Tid, s': MonitorState, n: nat)
    requires Step(m, s, Internal(t), s')
    ensures Rank(s', t, n) < Rank(s, t, n)
    ensures At(s, t, Signalling) ==> Rank(s', t, n) + 4 * n < Rank(s, t, n)
  {
  }

  lemma OthersRank(m: Marks, s: MonitorState, t: Tid, s': MonitorState, n: nat, u: Tid)
    requires Step(m, s, Internal(t), s') && u != t
    ensures Rank(s', u, n) <= Rank(s, u, n) + 4
    ensures !At(s, t, Signalling) ==> Rank(s', u, n) == Rank(s, u, n)
  {
  }

  /** Every step inside the monitor decreases the measure. */
  lemma StepDescends(m: Marks, s: MonitorState, t: Tid, s': MonitorState)
    requires Step(m, s, Internal(t), s')
    ensures Measure(s') < Measure(s)
  {
    var n := |s.pcs|;
    assert s'.pcs.Keys == s.pcs.Keys;
    assert |s'.pcs| == |s.pcs.Keys| == n;
    RankDrops(m, s, t, s', n);
    forall u | u != t
      ensures Rank(s', u, n) <= Rank(s, u, n) + 4
      ensures !At(s, t, Signalling) ==> Rank(s', u, n) == Rank(s, u, n)
    {
      OthersRank(m, s, t, s', n, u);
    }
    SumSplit(s.pcs.Keys, Ranks(s, n), t);
    SumSplit(s.pcs.Keys, Ranks(s', n), t);
    if At(s, t, Signalling) {
      SumAtMost(s.pcs.Keys - {t}, Ranks(s', n), Ranks(s, n), 4);
    } else {
      SumSame(s.pcs.Keys - {t}, Ranks(s', n), Ranks(s, n));
    }
  }

  lemma MeasureNatural(s: MonitorState)
    ensures Measure(s) >= 0
  {
    SumNatural(s.pcs.Keys, Ranks(s, |s.pcs|));
  }

  ghost predicate OnlyInternal(es: seq<Event>) {
    forall i :: 0 <= i < |es| ==> es[i].Internal?
  }

  /** So no schedule without new calls is longer than the measure of the state it starts in. */
  lemma {:induction false} SchedulesEnd(m: Marks, ss: seq<MonitorState>, es: seq<Event>, i: nat)
    requires Run(m, ss, es) && OnlyInternal(es) && i <= |es|
    ensures i + Measure(ss[i]) <= Measure(ss[0]) && i <= Measure(ss[0])
  {
    if i > 0 {
      var k := i - 1;
      SchedulesEnd(m, ss, es, k);
      assert Step(m, ss[k], es[k], ss[i]);
      StepDescends(m, ss[k], es[k].t, ss[i]);
    }
    MeasureNatural(ss[i]);
  }

  /** And every schedule can be continued until the monitor is at rest. */
  lemma {:induction false} ComesToRest(m: Marks, ss: seq<MonitorState>, es: seq<Event>)
    returns (ss': seq<MonitorState>, es': seq<Event>)
    requires Run(m, ss, es)
    ensures Run(m, ss', es') && ss <= ss' && es <= es' && AtRest(m, ss'[|es'|])
    ensures OnlyInternal(es'[|es|..])
    decreases Measure(ss[|es|])
  {
    var s := ss[|es|];
    MeasureNatural(s);
    if AtRest(m, s) {
      return ss, es;
    }
    var t :| t in s.pcs && Next(m, s, t).Some?;
    var s' := Next(m, s, t).value;
    Extend(m, ss, es, Internal(t), s');
    StepDescends(m, s, t, s');
    ss', es' := ComesToRest(m, ss + [s'], es + [Internal(t)]);
    assert es'[|es|..] == [es'[|es|]] + es'[|es| + 1..];
  }

  /** Whatever the schedule, once no goroutine inside the monitor can go on, nobody waits below the recovery mark,
      unless a step has stranded somebody; and that is after at most so many steps as the measure says. */
  lemma RestWakesAll(m: Marks, ss: seq<MonitorState>, es: seq<Event>, i: nat)
    requires Ordered(m) && Run(m, ss, es) && Initial(ss[0]) && i <= |es| && OnlyInternal(es[i..])
    requires forall k :: 0 <= k < |es| ==> !Strands(m, ss[k], es[k])
    ensures |es| - i <= Measure(ss[i])
    ensures AtRest(m, ss[|es|]) && ss[|es|].current < m.recovery ==> forall t <- ss[|es|].pcs :: ss[|es|].pcs[t] == Idle
  {
    var rs, ds := ss[i..], es[i..];
    forall k | 0 <= k < |ds|
      ensures Step(m, rs[k], ds[k], rs[k + 1])
    {
      assert Step(m, ss[i + k], es[i + k], ss[i + k + 1]);
    }
    SchedulesEnd(m, rs, ds, |ds|);
    if AtRest(m, ss[|es|]) {
      forall t <- ss[|es|].pcs
        ensures ss[|es|].pcs[t] == Idle || ss[|es|].current >= m.recovery
      {
        RestMeansFull(m, ss, es, |es|, t);
      }
    }
  }
}
