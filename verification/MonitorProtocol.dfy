/** The monitor under concurrent use. Every atomic operation, and every operation on the lock or the condition
    variable, is one step; steps of different goroutines interleave freely. */
module MonitorProtocol {
  import opened Options
  import opened Monitor

  type Tid = nat

  /** Where a goroutine stands. Added is after the atomic add of Decrement, with the value it returned; Signal is
      before taking the lock for Broadcast. Fencing is before the lock of Fence; Sleepy is in Wait before joining the
      list of the condition variable; Enqueued is on the list, with the lock still held; Asleep is without the lock. */
  datatype Pc =
    | Idle
    | Added(after: uint64) | Signal | Signalling | Signalled | Panicking
    | Fencing | Checking | Leaving | Sleepy | Enqueued | Asleep

  datatype Marks = Marks(watermark: uint64, recovery: uint64)

  /** list holds the goroutines that have not been notified since they joined it. */
  datatype MonitorState = MonitorState(current: uint64, lock: Option<Tid>, pcs: map<Tid, Pc>, list: set<Tid>)

  datatype Event =
    | Increment(t: Tid, size: uint64)
    | Decrement(t: Tid, size: uint64)
    | Fence(t: Tid)
    | Internal(t: Tid)

  /** t stands at p. */
  predicate At(s: MonitorState, t: Tid, p: Pc) {
    t in s.pcs && s.pcs[t] == p
  }

  /** s after t has moved to p. */
  function Go(s: MonitorState, t: Tid, p: Pc): MonitorState {
    s.(pcs := s.pcs[t := p])
  }

  /** What t does next, if it is inside a call of the monitor; None if it has to wait. */
  function Next(m: Marks, s: MonitorState, t: Tid): Option<MonitorState>
    requires t in s.pcs
  {
    match s.pcs[t]
    case Idle => None
    case Added(after) =>
      if LooksUnderflowed(after) then Some(Go(s, t, Panicking))
      else Some(Go(s, t, if s.current < m.recovery then Signal else Idle))
    case Panicking => Some(Go(s, t, Idle).(current := 0))
    case Signal => if s.lock == None then Some(Go(s, t, Signalling).(lock := Some(t))) else None
    case Signalling => Some(Go(s, t, Signalled).(list := {}))
    case Signalled => Some(Go(s, t, Idle).(lock := None))
    case Fencing => if s.lock == None then Some(Go(s, t, Checking).(lock := Some(t))) else None
    case Checking => Some(Go(s, t, if s.current >= m.watermark then Sleepy else Leaving))
    case Leaving => Some(Go(s, t, Idle).(lock := None))
    case Sleepy => Some(Go(s, t, Enqueued).(list := s.list + {t}))
    case Enqueued => Some(Go(s, t, Asleep).(lock := None))
    case Asleep => if t !in s.list && s.lock == None then Some(Go(s, t, Checking).(lock := Some(t))) else None
  }

  ghost predicate Step(m: Marks, s: MonitorState, e: Event, s': MonitorState) {
    && e.t in s.pcs
    && match e
       case Increment(t, size) => At(s, t, Idle) && s' == s.(current := Add64(s.current, size))
       case Decrement(t, size) =>
         var after := Add64(s.current, Negated(size));
         At(s, t, Idle) && s' == Go(s, t, Added(after)).(current := after)
       case Fence(t) => At(s, t, Idle) && s' == Go(s, t, Fencing)
       case Internal(t) => Next(m, s, t) == Some(s')
  }

  ghost predicate Run(m: Marks, ss: seq<MonitorState>, es: seq<Event>) {
    && |ss| == |es| + 1
    && forall i :: 0 <= i < |es| ==> Step(m, ss[i], es[i], ss[i + 1])
  }

  /** Nobody is in the monitor yet. */
  ghost predicate Initial(s: MonitorState) {
    s.current == 0 && s.lock == None && s.list == {} && forall t <- s.pcs :: s.pcs[t] == Idle
  }

  ghost predicate Ordered(m: Marks) {
    0 < m.recovery <= m.watermark
  }

  /** Decrements match increments: no more is taken off than is on the account, and the account stays small. */
  ghost predicate Matched(s: MonitorState, e: Event) {
    && (e.Increment? ==> s.current + e.size <= TEBIBYTE)
    && (e.Decrement? ==> e.size <= s.current)
  }

  ghost predicate AllMatched(ss: seq<MonitorState>, es: seq<Event>) {
    |es| <= |ss| && forall i :: 0 <= i < |es| ==> Matched(ss[i], es[i])
  }

  // ---------- When calls wait, go on, and signal ----------

  /** Inside a call of Fence that has not yet found the account below the watermark. */
  predicate InFence(p: Pc) {
    p.Fencing? || p.Checking? || p.Sleepy? || p.Enqueued? || p.Asleep?
  }

  /** A goroutine gets out of Fence only by its own step, and only when it has just found the account below the
      watermark, be it at the first look or after having slept. */
  lemma LeavesBelowWatermark(m: Marks, s: MonitorState, e: Event, s': MonitorState, t: Tid)
    requires Step(m, s, e, s') && t in s.pcs && InFence(s.pcs[t]) && !(t in s'.pcs && InFence(s'.pcs[t]))
    ensures e == Internal(t) && s.current < m.watermark
  {
  }

  /** A look at the account decides exactly: below the watermark Fence goes on, otherwise it waits. */
  lemma WaitsIff(m: Marks, s: MonitorState, t: Tid, s': MonitorState)
    requires Step(m, s, Internal(t), s') && At(s, t, Checking)
    ensures At(s', t, Sleepy) <==> s.current >= m.watermark
    ensures At(s', t, Leaving) <==> s.current < m.watermark
  {
  }

  /** Decrement goes on to notify exactly if it has found no underflow and the account, looked at anew, is below the
      recovery mark; nobody else does. */
  lemma SignalsIff(m: Marks, s: MonitorState, e: Event, s': MonitorState, t: Tid)
    requires Step(m, s, e, s') && t in s.pcs && s.pcs[t] != Signal
    ensures At(s', t, Signal) <==>
            e == Internal(t) && s.pcs[t].Added? && s.pcs[t].after <= 1_099_511_627_776 && s.current < m.recovery
  {
  }

  /** The list is emptied exactly by the holder of the lock that has gone on to notify. */
  lemma NotifiesIff(m: Marks, s: MonitorState, e: Event, s': MonitorState, t: Tid)
    requires Exclusive(s) && Step(m, s, e, s') && t in s.list
    ensures t !in s'.list <==> e.Internal? && s.pcs[e.t] == Signalling
    ensures t !in s'.list ==> s'.list == {} && s.lock == Some(e.t)
  {
  }

  // ---------- The invariant ----------

  predicate HoldsLock(p: Pc) {
    p.Signalling? || p.Signalled? || p.Checking? || p.Leaving? || p.Sleepy? || p.Enqueued?
  }

  /** t has decided to wait, and has not been notified. */
  ghost predicate Committed(s: MonitorState, t: Tid) {
    t in s.pcs && (s.pcs[t].Sleepy? || ((s.pcs[t].Enqueued? || s.pcs[t].Asleep?) && t in s.list))
  }

  /** t is in Decrement, after its atomic add and before its Broadcast. */
  ghost predicate InFlight(s: MonitorState, t: Tid) {
    t in s.pcs && (s.pcs[t].Added? || s.pcs[t].Signal? || s.pcs[t].Signalling?)
  }

  /** Nobody waits below the recovery mark unless a Broadcast is on its way. */
  ghost predicate NoLostWakeup(m: Marks, s: MonitorState) {
    s.current < m.recovery && (exists t :: Committed(s, t)) ==> exists d :: InFlight(s, d)
  }

  /** The lock has one holder, which knows it. */
  ghost predicate Exclusive(s: MonitorState) {
    && (forall t <- s.pcs :: HoldsLock(s.pcs[t]) ==> s.lock == Some(t))
    && (s.lock.Some? ==> s.lock.value in s.pcs && HoldsLock(s.pcs[s.lock.value]))
  }

  /** No underflow has been seen. */
  ghost predicate Calm(s: MonitorState) {
    && s.current <= TEBIBYTE
    && forall t <- s.pcs :: s.pcs[t] != Panicking && (s.pcs[t].Added? ==> s.pcs[t].after <= TEBIBYTE)
  }

  lemma StepKeepsExclusive(m: Marks, s: MonitorState, e: Event, s': MonitorState)
    requires Exclusive(s) && Step(m, s, e, s')
    ensures Exclusive(s') && s'.pcs.Keys == s.pcs.Keys
  {
  }

  lemma StepKeepsCalm(m: Marks, s: MonitorState, e: Event, s': MonitorState)
    requires Calm(s) && Step(m, s, e, s') && Matched(s, e)
    ensures Calm(s')
  {
    if e.Decrement? {
      AddNegated(s.current, e.size);
    }
  }

  /** A goroutine that is committed after a step was so before, or has just seen the account at the watermark. */
  lemma StillCommitted(m: Marks, s: MonitorState, e: Event, s': MonitorState, t: Tid)
    requires Step(m, s, e, s') && Committed(s', t)
    ensures Committed(s, t) || s'.current >= m.watermark
  {
  }

  /** A goroutine in flight stays so, or it has seen the account at the recovery mark, or panics, or has just notified
      everybody. */
  lemma StillInFlight(m: Marks, s: MonitorState, e: Event, s': MonitorState, d: Tid)
    requires Step(m, s, e, s') && InFlight(s, d)
    ensures InFlight(s', d) || (e == Internal(d) && (s'.current >= m.recovery || At(s', d, Panicking)
                                                      || (At(s, d, Signalling) && s'.list == {})))
  {
  }

  lemma NobodyAfterBroadcast(m: Marks, s: MonitorState, d: Tid, s': MonitorState, t: Tid)
    requires Exclusive(s) && At(s, d, Signalling) && Step(m, s, Internal(d), s')
    ensures !Committed(s', t)
  {
  }

  /** The steps that strand a sleeper: somebody waits, no other Decrement is on its way to a Broadcast, and
      an increment wraps round to below the recovery mark, or a goroutine finds an underflow while the account is
      below the mark, or the account is reset after an underflow. */
  ghost predicate Strands(m: Marks, s: MonitorState, e: Event) {
    && e.t in s.pcs
    && (exists u :: Committed(s, u))
    && (forall d :: InFlight(s, d) ==> e == Internal(d) && s.pcs[d].Added?)
    && match e
       case Increment(t, size) => s.current + size >= WORD && s.current + size - WORD < m.recovery
       case Internal(t) =>
         || (s.pcs[t].Added? && LooksUnderflowed(s.pcs[t].after) && s.current < m.recovery)
         || s.pcs[t] == Panicking
       case _ => false
  }

  /** The one way to lose a wakeup, over all steps, whatever the size of the account. */
  lemma KeepsWakeupsIff(m: Marks, s: MonitorState, e: Event, s': MonitorState)
    requires Ordered(m) && Exclusive(s) && NoLostWakeup(m, s) && Step(m, s, e, s')
    ensures NoLostWakeup(m, s') <==> !Strands(m, s, e)
  {
    if Strands(m, s, e) {
      StrandsSomebody(m, s, e, s');
    } else if s'.current < m.recovery {
      if t :| Committed(s', t) {
        StillCommitted(m, s, e, s', t);
        FlightGoesOn(m, s, e, s', t);
      }
    }
  }

  lemma StrandsSomebody(m: Marks, s: MonitorState, e: Event, s': MonitorState)
    requires Ordered(m) && Step(m, s, e, s') && Strands(m, s, e)
    ensures !NoLostWakeup(m, s')
  {
    var u :| Committed(s, u);
    assert Committed(s', u);
    forall d
      ensures !InFlight(s', d)
    {
      assert InFlight(s', d) ==> InFlight(s, d);
    }
  }

  /** Somebody waits below the mark after a step that strands nobody: then a Broadcast is on its way. */
  lemma FlightGoesOn(m: Marks, s: MonitorState, e: Event, s': MonitorState, t: Tid)
    requires Ordered(m) && Exclusive(s) && NoLostWakeup(m, s) && Step(m, s, e, s') && !Strands(m, s, e)
    requires s'.current < m.recovery && Committed(s, t) && Committed(s', t)
    ensures exists d :: InFlight(s', d)
  {
    if e.Decrement? {
      assert InFlight(s', e.t);
    } else if d :| InFlight(s, d) && !(e == Internal(d) && s.pcs[d].Added?) {
      StillInFlight(m, s, e, s', d);
      if At(s, d, Signalling) && e == Internal(d) {
        NobodyAfterBroadcast(m, s, d, s', t);
      }
      assert InFlight(s', d);
    } else {
      assert e.Internal? && s.pcs[e.t].Added?;
      assert InFlight(s', e.t);
    }
  }

  /** The invariant holds along a run as long as no step strands a sleeper, and the first step that does breaks it. */
  lemma {:induction false} NoWakeupIsLostIff(m: Marks, ss: seq<MonitorState>, es: seq<Event>, i: nat)
    requires Ordered(m) && Run(m, ss, es) && Initial(ss[0]) && i < |ss|
    requires forall k :: 0 <= k < i ==> !Strands(m, ss[k], es[k])
    ensures Exclusive(ss[i]) && NoLostWakeup(m, ss[i])
    ensures i < |es| ==> (NoLostWakeup(m, ss[i + 1]) <==> !Strands(m, ss[i], es[i]))
  {
    if i > 0 {
      var k := i - 1;
      NoWakeupIsLostIff(m, ss, es, k);
      assert Step(m, ss[k], es[k], ss[k + 1]);
      StepKeepsExclusive(m, ss[k], es[k], ss[i]);
    }
    if i < |es| {
      assert Step(m, ss[i], es[i], ss[i + 1]);
      KeepsWakeupsIff(m, ss[i], es[i], ss[i + 1]);
    }
  }

  lemma CalmStrandsNobody(m: Marks, s: MonitorState, e: Event)
    requires Calm(s) && Matched(s, e)
    ensures !Strands(m, s, e)
  {
  }

  lemma {:induction false} StaysCalm(m: Marks, ss: seq<MonitorState>, es: seq<Event>, i: nat)
    requires Run(m, ss, es) && Initial(ss[0]) && AllMatched(ss, es) && i < |ss|
    ensures Calm(ss[i])
  {
    if i > 0 {
      var k := i - 1;
      StaysCalm(m, ss, es, k);
      assert Step(m, ss[k], es[k], ss[k + 1]) && Matched(ss[k], es[k]);
      StepKeepsCalm(m, ss[k], es[k], ss[i]);
    }
  }

  /** No wakeup is lost: in every interleaving of matched increments and decrements with calls of Fence, a goroutine
      that waits below the recovery mark has a Broadcast on its way to it. */
  lemma NoWakeupIsLost(m: Marks, ss: seq<MonitorState>, es: seq<Event>, i: nat)
    requires Ordered(m) && Run(m, ss, es) && Initial(ss[0]) && AllMatched(ss, es) && i < |ss|
    ensures Exclusive(ss[i]) && Calm(ss[i]) && NoLostWakeup(m, ss[i])
  {
    forall k | 0 <= k < i
      ensures !Strands(m, ss[k], es[k])
    {
      StaysCalm(m, ss, es, k);
      assert Matched(ss[k], es[k]);
      CalmStrandsNobody(m, ss[k], es[k]);
    }
    StaysCalm(m, ss, es, i);
    NoWakeupIsLostIff(m, ss, es, i);
  }

  /** Whenever no Decrement is under way, nobody sleeps below the recovery mark, unless a step has stranded somebody. */
  lemma QuietMeansAwake(m: Marks, ss: seq<MonitorState>, es: seq<Event>, i: nat, t: Tid)
    requires Ordered(m) && Run(m, ss, es) && Initial(ss[0]) && i < |ss|
    requires forall k :: 0 <= k < i ==> !Strands(m, ss[k], es[k])
    requires Committed(ss[i], t) && forall d :: !InFlight(ss[i], d)
    ensures ss[i].current >= m.recovery
  {
    NoWakeupIsLostIff(m, ss, es, i);
  }

  // ---------- Where the monitor comes to rest ----------

  /** No goroutine inside the monitor can go on. */
  ghost predicate AtRest(m: Marks, s: MonitorState) {
    forall t <- s.pcs :: Next(m, s, t).None?
  }

  /** In every such state that is reached without stranding somebody, each goroutine is outside the monitor, or asleep
      with the account at the recovery mark or above. So there is no deadlock, and nobody sleeps for nothing. */
  lemma RestMeansFull(m: Marks, ss: seq<MonitorState>, es: seq<Event>, i: nat, t: Tid)
    requires Ordered(m) && Run(m, ss, es) && Initial(ss[0]) && i < |ss|
    requires forall k :: 0 <= k < i ==> !Strands(m, ss[k], es[k])
    requires AtRest(m, ss[i]) && t in ss[i].pcs
    ensures ss[i].lock == None
    ensures ss[i].pcs[t] == Idle || (ss[i].pcs[t] == Asleep && t in ss[i].list && ss[i].current >= m.recovery)
  {
    NoWakeupIsLostIff(m, ss, es, i);
    RestUnlocked(m, ss[i]);
    RestAt(m, ss[i], t);
  }

  lemma RestUnlocked(m: Marks, s: MonitorState)
    requires Exclusive(s) && AtRest(m, s)
    ensures s.lock == None
  {
    assert s.lock.Some? ==> Next(m, s, s.lock.value).None?;
  }

  lemma RestAt(m: Marks, s: MonitorState, t: Tid)
    requires Exclusive(s) && NoLostWakeup(m, s) && AtRest(m, s) && s.lock == None && t in s.pcs
    ensures s.pcs[t] == Idle || (s.pcs[t] == Asleep && t in s.list && s.current >= m.recovery)
  {
    assert Next(m, s, t).None?;
    if s.pcs[t] == Asleep {
      assert Committed(s, t);
      forall d
        ensures !InFlight(s, d)
      {
        assert d in s.pcs ==> Next(m, s, d).None?;
      }
    }
  }

  // ---------- The broadcast arrives ----------

  /** How many steps the holder of the lock takes to let it go, when the account is below the mark. */
  function ToRelease(p: Pc): nat {
    if p.Checking? || p.Sleepy? then 2 else 1
  }

  /** How many steps it takes until d has notified everybody. */
  function Distance(s: MonitorState, d: Tid): nat
    requires d in s.pcs
  {
    if s.pcs[d].Added? then 5
    else if s.pcs[d].Signal? then
      2 + if s.lock.Some? && s.lock.value in s.pcs then ToRelease(s.pcs[s.lock.value]) else 0
    else 1
  }

  /** One step towards the broadcast of d, by d itself or by the holder of the lock. */
  lemma StepCloser(m: Marks, s: MonitorState, d: Tid) returns (e: Event, s': MonitorState)
    requires Ordered(m) && Exclusive(s) && Calm(s) && s.current < m.recovery && InFlight(s, d)
    ensures e.Internal? && Step(m, s, e, s') && s'.current == s.current
    ensures (forall t :: !Committed(s', t)) || (InFlight(s', d) && Distance(s', d) < Distance(s, d))
  {
    var x := if s.pcs[d].Signal? && s.lock.Some? then s.lock.value else d;
    e, s' := Internal(x), Next(m, s, x).value;
    if At(s, x, Signalling) {
      forall t
        ensures !Committed(s', t)
      {
        NobodyAfterBroadcast(m, s, x, s', t);
      }
    }
  }

  /** The system cannot get stuck with sleepers below the recovery mark: from every state of a matched run in which
      somebody waits there, at most five steps inside the monitor lead to a state in which nobody does. */
  lemma {:induction false} Rescue(m: Marks, s: MonitorState, d: Tid) returns (ss: seq<MonitorState>, es: seq<Event>)
    requires Ordered(m) && Exclusive(s) && Calm(s) && s.current < m.recovery && InFlight(s, d)
    ensures Run(m, ss, es) && ss[0] == s && |es| <= Distance(s, d) <= 5
    ensures forall e <- es :: e.Internal?
    ensures forall t :: !Committed(ss[|es|], t)
    decreases Distance(s, d)
  {
    var e, s' := StepCloser(m, s, d);
    if forall t :: !Committed(s', t) {
      return [s, s'], [e];
    }
    StepKeepsExclusive(m, s, e, s');
    StepKeepsCalm(m, s, e, s');
    var ss', es' := Rescue(m, s', d);
    ss, es := [s] + ss', [e] + es';
    forall i | 0 <= i < |es|
      ensures Step(m, ss[i], es[i], ss[i + 1])
    {
      if i > 0 {
        assert Step(m, ss'[i - 1], es'[i - 1], ss'[i]);
      }
    }
  }

  lemma WakeupArrives(m: Marks, ss: seq<MonitorState>, es: seq<Event>, i: nat, t: Tid)
    returns (ss': seq<MonitorState>, es': seq<Event>)
    requires Ordered(m) && Run(m, ss, es) && Initial(ss[0]) && AllMatched(ss, es) && i < |ss|
    requires Committed(ss[i], t) && ss[i].current < m.recovery
    ensures Run(m, ss', es') && ss'[0] == ss[i] && |es'| <= 5
    ensures (forall e <- es' :: e.Internal?) && !Committed(ss'[|es'|], t)
  {
    NoWakeupIsLost(m, ss, es, i);
    var d :| InFlight(ss[i], d);
    ss', es' := Rescue(m, ss[i], d);
  }

  // ---------- Decrement without interference ----------

  lemma Extend(m: Marks, ss: seq<MonitorState>, es: seq<Event>, e: Event, s: MonitorState)
    requires Run(m, ss, es) && Step(m, ss[|es|], e, s)
    ensures Run(m, ss + [s], es + [e])
  {
    var ss', es' := ss + [s], es + [e];
    forall i | 0 <= i < |es'|
      ensures Step(m, ss'[i], es'[i], ss'[i + 1])
    {
      if i < |es| {
        assert Step(m, ss[i], es[i], ss[i + 1]);
      }
    }
  }

  /** When no other goroutine moves and the lock is free, the steps of Decrement do what the method does by itself: the
      account ends as the method says, and the list is emptied exactly if the method signals. */
  lemma Undisturbed(m: Marks, s: MonitorState, t: Tid, size: uint64) returns (ss: seq<MonitorState>, es: seq<Event>)
    requires At(s, t, Idle) && s.lock == None
    ensures Run(m, ss, es) && ss[0] == s && 0 < |es| && es[0] == Decrement(t, size)
    ensures forall i :: 0 < i < |es| ==> es[i] == Internal(t)
    ensures var (current, outcome) := AfterDecrement(s.current, size, m.recovery);
            ss[|es|] == s.(current := current, list := if outcome == Signals then {} else s.list)
  {
    AddNegated(s.current, size);
    UnderflowTestIff(s.current, size);
    var after := Add64(s.current, Negated(size));
    var s1 := Go(s, t, Added(after)).(current := after);
    var s2 := Next(m, s1, t).value;
    ss, es := [s, s1], [Decrement(t, size)];
    Extend(m, ss, es, Internal(t), s2);
    ss, es := ss + [s2], es + [Internal(t)];
    assert s.pcs == s1.pcs[t := Idle];
    if LooksUnderflowed(after) {
      var s3 := Next(m, s2, t).value;
      Extend(m, ss, es, Internal(t), s3);
      ss, es := ss + [s3], es + [Internal(t)];
    } else if after < m.recovery {
      ss, es := FromSignal(m, ss, es, t);
    }
  }

  /** From Signal on: lock, Broadcast, unlock. */
  lemma FromSignal(m: Marks, ss: seq<MonitorState>, es: seq<Event>, t: Tid)
    returns (ss': seq<MonitorState>, es': seq<Event>)
    requires Run(m, ss, es) && At(ss[|es|], t, Signal) && ss[|es|].lock == None
    ensures Run(m, ss', es') && es' == es + [Internal(t), Internal(t), Internal(t)]
    ensures ss <= ss' && ss'[|es'|] == Go(ss[|es|], t, Idle).(list := {})
  {
    var s := ss[|es|];
    var s1 := Next(m, s, t).value;
    var s2 := Next(m, s1, t).value;
    var s3 := Next(m, s2, t).value;
    Extend(m, ss, es, Internal(t), s1);
    Extend(m, ss + [s1], es + [Internal(t)], Internal(t), s2);
    Extend(m, ss + [s1] + [s2], es + [Internal(t)] + [Internal(t)], Internal(t), s3);
    ss', es' := ss + [s1] + [s2] + [s3], es + [Internal(t)] + [Internal(t)] + [Internal(t)];
  }

  // ---------- After an underflow ----------

  const MARKS := Marks(2048, RecoveryWatermark(2048))

  /** What is left after the account has been overdrawn: an account of zero, and a sleeper. */
  const STRANDED := MonitorState(0, None, map[0 := Asleep, 1 := Idle], {0})

  /** A wakeup that is lost: goroutine 0 sleeps in Fence at 4096 bytes, goroutine 1 takes off 5000 and panics. */
  lemma UnderflowLosesWakeup() returns (ss: seq<MonitorState>, es: seq<Event>)
    ensures Run(MARKS, ss, es) && Initial(ss[0]) && ss[|es|] == STRANDED
    ensures Committed(STRANDED, 0) && !NoLostWakeup(MARKS, STRANDED)
  {
    var before := MonitorState(4096, None, map[0 := Asleep, 1 := Idle], {0});
    var ss1, es1 := FallAsleep(before);
    var after := Add64(4096, Negated(5000));
    var s7 := Go(before, 1, Added(after)).(current := after);
    var s8 := Go(s7, 1, Panicking);
    ss, es := ss1 + [s7, s8, STRANDED], es1 + [Decrement(1, 5000), Internal(1), Internal(1)];
    assert Step(MARKS, before, Decrement(1, 5000), s7);
    assert Next(MARKS, s7, 1) == Some(s8);
    assert Go(s8, 1, Idle).(current := 0) == STRANDED;
    assert Committed(STRANDED, 0) && forall d :: !InFlight(STRANDED, d);
  }

  lemma FallAsleep(before: MonitorState) returns (ss: seq<MonitorState>, es: seq<Event>)
    requires before == MonitorState(4096, None, map[0 := Asleep, 1 := Idle], {0})
    ensures |es| == 6 && Run(MARKS, ss, es) && Initial(ss[0]) && ss[6] == before
  {
    var s0 := MonitorState(0, None, map[0 := Idle, 1 := Idle], {});
    var s1 := s0.(current := 4096);
    var s2 := Go(s1, 0, Fencing);
    Extend(MARKS, [s0], [], Increment(1, 4096), s1);
    Extend(MARKS, [s0] + [s1], [] + [Increment(1, 4096)], Fence(0), s2);
    ss, es := FromFencing(MARKS, [s0] + [s1] + [s2], [] + [Increment(1, 4096)] + [Fence(0)], 0);
    assert ss[6].pcs == before.pcs;
  }

  /** From the call of Fence on, with an account at the watermark or above: lock, look, enqueue, sleep. */
  lemma FromFencing(m: Marks, ss: seq<MonitorState>, es: seq<Event>, t: Tid)
    returns (ss': seq<MonitorState>, es': seq<Event>)
    requires Run(m, ss, es) && At(ss[|es|], t, Fencing) && ss[|es|].lock == None && ss[|es|].current >= m.watermark
    ensures Run(m, ss', es') && |es'| == |es| + 4 && ss <= ss'
    ensures ss'[|es'|] == Go(ss[|es|], t, Asleep).(list := ss[|es|].list + {t})
  {
    var s := ss[|es|];
    var s1 := Next(m, s, t).value;
    var s2 := Next(m, s1, t).value;
    var s3 := Next(m, s2, t).value;
    var s4 := Next(m, s3, t).value;
    Extend(m, ss, es, Internal(t), s1);
    Extend(m, ss + [s1], es + [Internal(t)], Internal(t), s2);
    Extend(m, ss + [s1] + [s2], es + [Internal(t)] + [Internal(t)], Internal(t), s3);
    Extend(m, ss + [s1] + [s2] + [s3], es + [Internal(t)] + [Internal(t)] + [Internal(t)], Internal(t), s4);
    ss' := ss + [s1] + [s2] + [s3] + [s4];
    es' := es + [Internal(t)] + [Internal(t)] + [Internal(t)] + [Internal(t)];
  }
}
