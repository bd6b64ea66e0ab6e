/** Requests served at the same time: the steps that charge, put, take and discharge jobs interleave freely, also with
    the goroutine that restores jobs. */
module ServerProtocol {
  import opened Options
  import opened Jobs
  import opened HubModel
  import opened HubInvariants
  import HubRuns
  import HubOrder
  import opened Monitor
  import opened Accounting
  import opened Sums

  type Tid = nat

  /** Where a request stands. Charged is after Increment and before the job is put into the hub; Deferred is after it
      has been offered to the hub and before Increment; Taken is after the hub has handed the job out and before
      Decrement; Panicking is after Decrement has found an underflow and before it resets the account. */
  datatype Task = Idle | Charged(job: Job) | Deferred(job: Job) | Taken(job: Job) | Panicking

  /** refused is what was offered to the hub by requests and not accepted, restored what was accepted without any
      request, both in bytes. The servers do not keep them. */
  datatype ServerState = ServerState(hub: HubView, account: uint64, tasks: map<Tid, Task>, refused: nat, restored: nat)

  datatype ServerEvent =
    | ChargeFirst(t: Tid, job: Job)
    | PutCharged(t: Tid, add: Event)
    | PutUncharged(t: Tid, add: Event)
    | ChargeLate(t: Tid)
    | TakeJob(t: Tid, take: Event)
    | Discharge(t: Tid)
    | Reset(t: Tid)
    | RestoreJob(add: Event)

  /** s after task t has moved to p. */
  function Go(s: ServerState, t: Tid, p: Task): ServerState {
    s.(tasks := s.tasks[t := p])
  }

  /** Task t stands at p. */
  predicate At(s: ServerState, t: Tid, p: Task) {
    t in s.tasks && s.tasks[t] == p
  }

  /** A job that comes into the hub. */
  function Brought(sizeOf: Job -> uint64, e: Event): nat {
    if e.AddEvent? && e.added == Accepted then sizeOf(e.job) else 0
  }

  ghost predicate Step(sig: string -> Signature, sizeOf: Job -> uint64, s: ServerState, e: ServerEvent, s': ServerState)
  {
    && (!e.RestoreJob? ==> e.t in s.tasks)
    && match e
       case ChargeFirst(t, j) =>
         s.tasks[t] == Idle && s' == Go(s, t, Charged(j)).(account := Add64(s.account, sizeOf(j)))
       case PutCharged(t, a) =>
         && a.AddEvent? && s.tasks[t] == Charged(a.job) && HubStep(sig, s.hub, a, s'.hub)
         && s' == Go(s, t, Idle).(hub := s'.hub, refused := s.refused + Refused(sizeOf, a))
       case PutUncharged(t, a) =>
         && a.AddEvent? && s.tasks[t] == Idle && HubStep(sig, s.hub, a, s'.hub)
         && s' == Go(s, t, Deferred(a.job)).(hub := s'.hub, refused := s.refused + Refused(sizeOf, a))
       case ChargeLate(t) =>
         && s.tasks[t].Deferred?
         && s' == Go(s, t, Idle).(account := Add64(s.account, sizeOf(s.tasks[t].job)))
       case TakeJob(t, a) =>
         && !a.AddEvent? && s.tasks[t] == Idle && HubStep(sig, s.hub, a, s'.hub)
         && s' == Go(s, t, if a.result.Some? then Taken(a.result.value) else Idle).(hub := s'.hub)
       case Discharge(t) =>
         && s.tasks[t].Taken?
         && var after := Add64(s.account, Negated(sizeOf(s.tasks[t].job)));
            s' == Go(s, t, if LooksUnderflowed(after) then Panicking else Idle).(account := after)
       case Reset(t) =>
         s.tasks[t] == Panicking && s' == Go(s, t, Idle).(account := 0)
       case RestoreJob(a) =>
         && a.AddEvent? && HubStep(sig, s.hub, a, s'.hub)
         && s' == s.(hub := s'.hub, restored := s.restored + Brought(sizeOf, a))
  }

  /** The steps es lead through the states ss. */
  ghost predicate Run(sig: string -> Signature, sizeOf: Job -> uint64, ss: seq<ServerState>, es: seq<ServerEvent>) {
    && |ss| == |es| + 1
    && forall i :: 0 <= i < |es| ==> Step(sig, sizeOf, ss[i], es[i], ss[i + 1])
  }

  // ---------- What the account stands for ----------

  /** What a request has on the account that is not in the hub, or the other way round. */
  function WeightOf(sizeOf: Job -> uint64, p: Task): int {
    match p
    case Charged(j) => sizeOf(j)
    case Taken(j) => sizeOf(j)
    case Deferred(j) => -(sizeOf(j) as int)
    case _ => 0
  }

  function Weights(sizeOf: Job -> uint64, tasks: map<Tid, Task>): Tid -> int {
    t => if t in tasks then WeightOf(sizeOf, tasks[t]) else 0
  }

  ghost function Floating(sizeOf: Job -> uint64, tasks: map<Tid, Task>): int {
    Sum(tasks.Keys, Weights(sizeOf, tasks))
  }

  /** The jobs in the hub and those refused, with those charged and not yet put and those taken and not yet discharged,
      without those put and not yet charged and those restored. */
  ghost function Weighs(sizeOf: Job -> uint64, s: ServerState): int {
    Held(sizeOf, s) + Floating(sizeOf, s.tasks)
  }

  lemma FloatingMoves(sizeOf: Job -> uint64, tasks: map<Tid, Task>, t: Tid, p: Task)
    requires t in tasks
    ensures Floating(sizeOf, tasks[t := p]) - Floating(sizeOf, tasks)
            == WeightOf(sizeOf, p) - WeightOf(sizeOf, tasks[t])
  {
    assert tasks[t := p].Keys == tasks.Keys;
    SumChange(tasks.Keys, Weights(sizeOf, tasks), Weights(sizeOf, tasks[t := p]), t);
  }

  /** What a step charges to the account. */
  function Charges(sizeOf: Job -> uint64, s: ServerState, e: ServerEvent): int {
    match e
    case ChargeFirst(_, j) => sizeOf(j)
    case ChargeLate(t) => if t in s.tasks && s.tasks[t].Deferred? then sizeOf(s.tasks[t].job) else 0
    case Discharge(t) => if t in s.tasks && s.tasks[t].Taken? then -(sizeOf(s.tasks[t].job) as int) else 0
    case _ => 0
  }

  /** The hub moves, and the footprint of its jobs with it. */
  lemma HubMoves(sig: string -> Signature, sizeOf: Job -> uint64, v: HubView, a: Event, v': HubView)
    requires Shaped(v) && Counted(v) && HubStep(sig, v, a, v')
    ensures Shaped(v') && Counted(v')
    ensures Footprint(sizeOf, Pending(v')) - Footprint(sizeOf, Pending(v))
            == if a.AddEvent? then Brought(sizeOf, a)
               else if a.result.Some? then -(sizeOf(a.result.value) as int)
               else 0
  {
    StepKeeps(sig, v, a, v');
    FootprintMoves(sizeOf, Pending(v), Pending(v'), a);
  }

  /** What the hub and the books of refused and restored jobs hold. */
  ghost function Held(sizeOf: Job -> uint64, s: ServerState): int {
    Footprint(sizeOf, Pending(s.hub)) + s.refused - s.restored
  }

  /** What a step brings to them. */
  function Brings(sizeOf: Job -> uint64, e: ServerEvent): int {
    match e
    case PutCharged(_, a) => if a.AddEvent? then sizeOf(a.job) else 0
    case PutUncharged(_, a) => if a.AddEvent? then sizeOf(a.job) else 0
    case TakeJob(_, a) => if !a.AddEvent? && a.result.Some? then -(sizeOf(a.result.value) as int) else 0
    case _ => 0
  }

  lemma OfferHeld(sig: string -> Signature, sizeOf: Job -> uint64, s: ServerState, a: Event, s': ServerState)
    requires Shaped(s.hub) && Counted(s.hub) && a.AddEvent? && HubStep(sig, s.hub, a, s'.hub)
    requires s'.refused == s.refused + Refused(sizeOf, a) && s'.restored == s.restored
    ensures Shaped(s'.hub) && Counted(s'.hub) && Held(sizeOf, s') - Held(sizeOf, s) == sizeOf(a.job)
  {
    HubMoves(sig, sizeOf, s.hub, a, s'.hub);
  }

  lemma TakeHeld(sig: string -> Signature, sizeOf: Job -> uint64, s: ServerState, a: Event, s': ServerState)
    requires Shaped(s.hub) && Counted(s.hub) && !a.AddEvent? && HubStep(sig, s.hub, a, s'.hub)
    requires s'.refused == s.refused && s'.restored == s.restored
    ensures Shaped(s'.hub) && Counted(s'.hub)
    ensures Held(sizeOf, s') == Held(sizeOf, s) - if a.result.Some? then sizeOf(a.result.value) else 0
  {
    HubMoves(sig, sizeOf, s.hub, a, s'.hub);
  }

  lemma RestoreHeld(sig: string -> Signature, sizeOf: Job -> uint64, s: ServerState, a: Event, s': ServerState)
    requires Shaped(s.hub) && Counted(s.hub) && a.AddEvent? && HubStep(sig, s.hub, a, s'.hub)
    requires s'.refused == s.refused && s'.restored == s.restored + Brought(sizeOf, a)
    ensures Shaped(s'.hub) && Counted(s'.hub) && Held(sizeOf, s') == Held(sizeOf, s)
  {
    HubMoves(sig, sizeOf, s.hub, a, s'.hub);
  }

  lemma HeldStep(sig: string -> Signature, sizeOf: Job -> uint64, s: ServerState, e: ServerEvent, s': ServerState)
    requires Shaped(s.hub) && Counted(s.hub) && Step(sig, sizeOf, s, e, s')
    ensures Shaped(s'.hub) && Counted(s'.hub) && Held(sizeOf, s') - Held(sizeOf, s) == Brings(sizeOf, e)
  {
    match e
    case PutCharged(_, a) => OfferHeld(sig, sizeOf, s, a, s');
    case PutUncharged(_, a) => OfferHeld(sig, sizeOf, s, a, s');
    case TakeJob(_, a) => TakeHeld(sig, sizeOf, s, a, s');
    case RestoreJob(a) => RestoreHeld(sig, sizeOf, s, a, s');
    case _ =>
  }

  lemma FloatingStep(sig: string -> Signature, sizeOf: Job -> uint64, s: ServerState, e: ServerEvent, s': ServerState)
    requires Step(sig, sizeOf, s, e, s')
    ensures Floating(sizeOf, s'.tasks) - Floating(sizeOf, s.tasks) == Charges(sizeOf, s, e) - Brings(sizeOf, e)
  {
    if !e.RestoreJob? {
      FloatingMoves(sizeOf, s.tasks, e.t, s'.tasks[e.t]);
    }
  }

  /** Whatever the step, what the account stands for changes by what is charged. */
  lemma WeighsStep(sig: string -> Signature, sizeOf: Job -> uint64, s: ServerState, e: ServerEvent, s': ServerState)
    requires Shaped(s.hub) && Counted(s.hub) && Step(sig, sizeOf, s, e, s')
    ensures Shaped(s'.hub) && Counted(s'.hub)
    ensures Weighs(sizeOf, s') - Weighs(sizeOf, s) == Charges(sizeOf, s, e)
  {
    HeldStep(sig, sizeOf, s, e, s');
    FloatingStep(sig, sizeOf, s, e, s');
  }

  /** The account changes by what is charged, modulo 2^64, except by a reset. */
  lemma AccountStep(sig: string -> Signature, sizeOf: Job -> uint64, s: ServerState, e: ServerEvent, s': ServerState,
                    x: int, y: int)
    requires Step(sig, sizeOf, s, e, s') && !e.Reset?
    requires s.account == x % WORD && y - x == Charges(sizeOf, s, e)
    ensures s'.account == y % WORD
    ensures e.Discharge? ==> (s'.tasks[e.t] == Panicking <==> y % WORD > TEBIBYTE)
  {
    ModPlus(x, y - x);
    if e.Discharge? {
      AddNegated(s.account, sizeOf(s.tasks[e.t].job));
    }
  }

  /** What the account should be after i steps: what it was, and what has been added to what it stands for. */
  ghost function Due(sizeOf: Job -> uint64, ss: seq<ServerState>, i: nat): int
    requires i < |ss|
  {
    ss[0].account + Weighs(sizeOf, ss[i]) - Weighs(sizeOf, ss[0])
  }

  lemma DueStep(sig: string -> Signature, sizeOf: Job -> uint64, ss: seq<ServerState>, es: seq<ServerEvent>, i: nat,
                x: int, y: int)
    requires Run(sig, sizeOf, ss, es) && i < |es| && Shaped(ss[i].hub) && Counted(ss[i].hub) && !es[i].Reset?
    requires x == Due(sizeOf, ss, i) && y == Due(sizeOf, ss, i + 1) && ss[i].account == x % WORD
    ensures Shaped(ss[i + 1].hub) && Counted(ss[i + 1].hub) && ss[i + 1].account == y % WORD
    ensures es[i].Discharge? ==> (ss[i + 1].tasks[es[i].t] == Panicking <==> y % WORD > TEBIBYTE)
  {
    assert Step(sig, sizeOf, ss[i], es[i], ss[i + 1]);
    WeighsStep(sig, sizeOf, ss[i], es[i], ss[i + 1]);
    AccountStep(sig, sizeOf, ss[i], es[i], ss[i + 1], x, y);
  }

  lemma DueAtFirst(sizeOf: Job -> uint64, ss: seq<ServerState>)
    requires ss != []
    ensures ss[0].account == Due(sizeOf, ss, 0) % WORD
  {
  }

  /** No account is reset before step i. */
  ghost predicate NoneReset(es: seq<ServerEvent>, i: nat)
    requires i <= |es|
  {
    forall k :: 0 <= k < i ==> !es[k].Reset?
  }

  /** In every interleaving, until an account is reset after an underflow, the account is what it should be, modulo
      2^64. */
  lemma {:induction false} AccountIsDue(sig: string -> Signature, sizeOf: Job -> uint64, ss: seq<ServerState>,
                                        es: seq<ServerEvent>, i: nat)
    requires Run(sig, sizeOf, ss, es) && Shaped(ss[0].hub) && Counted(ss[0].hub) && i <= |es| && NoneReset(es, i)
    ensures Shaped(ss[i].hub) && Counted(ss[i].hub) && ss[i].account == Due(sizeOf, ss, i) % WORD
  {
    if i == 0 {
      DueAtFirst(sizeOf, ss);
    } else {
      var k := i - 1;
      AccountIsDue(sig, sizeOf, ss, es, k);
      DueStep(sig, sizeOf, ss, es, k, Due(sizeOf, ss, k), Due(sizeOf, ss, i));
    }
  }

  /** A Decrement finds an underflow exactly if more than a tebibyte is then due. Within a tebibyte either way, that is
      if less than nothing is due. */
  lemma UnderflowIff(sig: string -> Signature, sizeOf: Job -> uint64, ss: seq<ServerState>, es: seq<ServerEvent>,
                     i: nat)
    requires Run(sig, sizeOf, ss, es) && Shaped(ss[0].hub) && Counted(ss[0].hub)
    requires i < |es| && NoneReset(es, i) && es[i].Discharge?
    ensures es[i].t in ss[i + 1].tasks
    ensures ss[i + 1].tasks[es[i].t] == Panicking <==> Due(sizeOf, ss, i + 1) % WORD > TEBIBYTE
    ensures -TEBIBYTE <= Due(sizeOf, ss, i + 1) <= TEBIBYTE ==>
              (ss[i + 1].tasks[es[i].t] == Panicking <==> Due(sizeOf, ss, i + 1) < 0)
  {
    AccountIsDue(sig, sizeOf, ss, es, i);
    assert Step(sig, sizeOf, ss[i], es[i], ss[i + 1]);
    DueStep(sig, sizeOf, ss, es, i, Due(sizeOf, ss, i), Due(sizeOf, ss, i + 1));
    if -TEBIBYTE <= Due(sizeOf, ss, i + 1) <= TEBIBYTE {
      WordOf(Due(sizeOf, ss, i + 1));
    }
  }

  // ---------- Charging first ----------

  /** Nothing is in the hub, or on its way, that was not charged. */
  ghost predicate AllCharged(s: ServerState) {
    s.restored == 0 && forall t <- s.tasks :: !s.tasks[t].Deferred?
  }

  /** No underflow has been found. */
  ghost predicate Calm(s: ServerState) {
    forall t <- s.tasks :: s.tasks[t] != Panicking
  }

  /** The step neither puts a job into the hub before charging it, nor restores one. */
  predicate ChargesAhead(e: ServerEvent) {
    !e.PutUncharged? && !e.RestoreJob?
  }

  lemma TasksStep(sig: string -> Signature, sizeOf: Job -> uint64, s: ServerState, e: ServerEvent, s': ServerState)
    requires Step(sig, sizeOf, s, e, s')
    ensures AllCharged(s) && ChargesAhead(e) ==> AllCharged(s')
    ensures Calm(s) ==> !e.Reset?
    ensures Calm(s) ==> forall t <- s'.tasks :: s'.tasks[t] == Panicking ==> e.Discharge? && t == e.t
  {
  }

  lemma {:induction false} StaysCharged(sig: string -> Signature, sizeOf: Job -> uint64, ss: seq<ServerState>,
                                        es: seq<ServerEvent>, i: nat)
    requires Run(sig, sizeOf, ss, es) && i <= |es| && AllCharged(ss[0])
    requires forall k :: 0 <= k < i ==> ChargesAhead(es[k])
    ensures AllCharged(ss[i]) && Weighs(sizeOf, ss[i]) >= 0
  {
    if i > 0 {
      var k := i - 1;
      StaysCharged(sig, sizeOf, ss, es, k);
      assert ChargesAhead(es[k]);
      TasksStep(sig, sizeOf, ss[k], es[k], ss[i]);
    }
    ChargedWeighs(sizeOf, ss[i]);
  }

  lemma ChargedWeighs(sizeOf: Job -> uint64, s: ServerState)
    requires AllCharged(s)
    ensures Weighs(sizeOf, s) >= 0
  {
    SumNatural(s.tasks.Keys, Weights(sizeOf, s.tasks));
  }

  /** Up to step i, what is due is neither negative nor more than a tebibyte. */
  ghost predicate WithinTebibyte(sizeOf: Job -> uint64, ss: seq<ServerState>, i: nat)
    requires i < |ss|
  {
    forall k :: 0 <= k <= i ==> 0 <= Due(sizeOf, ss, k) <= TEBIBYTE
  }

  lemma CalmNext(sig: string -> Signature, sizeOf: Job -> uint64, ss: seq<ServerState>, es: seq<ServerEvent>, k: nat)
    requires Run(sig, sizeOf, ss, es) && Shaped(ss[0].hub) && Counted(ss[0].hub) && k < |es|
    requires NoneReset(es, k) && Calm(ss[k]) && 0 <= Due(sizeOf, ss, k + 1) <= TEBIBYTE
    ensures NoneReset(es, k + 1) && Calm(ss[k + 1])
  {
    assert Step(sig, sizeOf, ss[k], es[k], ss[k + 1]);
    TasksStep(sig, sizeOf, ss[k], es[k], ss[k + 1]);
    if es[k].Discharge? {
      UnderflowIff(sig, sizeOf, ss, es, k);
    }
  }

  lemma StaysCalm(sig: string -> Signature, sizeOf: Job -> uint64, ss: seq<ServerState>, es: seq<ServerEvent>, i: nat)
    requires Run(sig, sizeOf, ss, es) && Shaped(ss[0].hub) && Counted(ss[0].hub) && Calm(ss[0])
    requires i <= |es| && WithinTebibyte(sizeOf, ss, i)
    ensures NoneReset(es, i) && Calm(ss[i])
  {
    var k := 0;
    while k < i
      invariant k <= i && NoneReset(es, k) && Calm(ss[k])
    {
      CalmNext(sig, sizeOf, ss, es, k);
      k := k + 1;
    }
  }

  /** As long as that is so, no Decrement finds an underflow, in any interleaving, and the account is what is due. */
  lemma NeverUnderflows(sig: string -> Signature, sizeOf: Job -> uint64, ss: seq<ServerState>, es: seq<ServerEvent>,
                        i: nat)
    requires Run(sig, sizeOf, ss, es) && Shaped(ss[0].hub) && Counted(ss[0].hub) && Calm(ss[0])
    requires i <= |es| && WithinTebibyte(sizeOf, ss, i)
    ensures NoneReset(es, i) && Calm(ss[i]) && ss[i].account == Due(sizeOf, ss, i)
  {
    StaysCalm(sig, sizeOf, ss, es, i);
    AccountIsDue(sig, sizeOf, ss, es, i);
    WordOf(Due(sizeOf, ss, i));
  }

  /** Where every job is charged before it is put, and none is restored, less than nothing is never due. So the jobs in
      the hub, refused, and on their way need only come to no more than a tebibyte; the account is what they come to. */
  lemma ChargedNeverUnderflows(sig: string -> Signature, sizeOf: Job -> uint64, ss: seq<ServerState>,
                               es: seq<ServerEvent>, i: nat)
    requires Run(sig, sizeOf, ss, es) && Shaped(ss[0].hub) && Counted(ss[0].hub) && Calm(ss[0])
    requires AllCharged(ss[0]) && ss[0].account == Weighs(sizeOf, ss[0])
    requires i <= |es| && forall k :: 0 <= k < i ==> ChargesAhead(es[k])
    requires forall k :: 0 <= k <= i ==> Weighs(sizeOf, ss[k]) <= TEBIBYTE
    ensures NoneReset(es, i) && Calm(ss[i]) && ss[i].account == Weighs(sizeOf, ss[i])
  {
    forall k | 0 <= k <= i
      ensures 0 <= Due(sizeOf, ss, k) <= TEBIBYTE
    {
      StaysCharged(sig, sizeOf, ss, es, k);
    }
    NeverUnderflows(sig, sizeOf, ss, es, i);
  }

  // ---------- Charging late ----------

  /** A job that is put before it is charged can be taken and discharged in between: then the monitor panics, and in
      the end the hub is empty while the job is on the account. */
  lemma DeferredUnderflows(sig: string -> Signature, sizeOf: Job -> uint64, j: Job, s: ServerState)
    returns (ss: seq<ServerState>, es: seq<ServerEvent>)
    requires j.triggerAt == 15 && 0 < sizeOf(j) <= TEBIBYTE
    requires s.hub == NewHub(10, 0) && s.account == 0 && At(s, 0, Idle) && At(s, 1, Idle)
    ensures Run(sig, sizeOf, ss, es) && ss[0] == s
    ensures es == [PutUncharged(0, AddEvent(j, 20, Accepted)), TakeJob(1, NextEvent(20, 20, 20, Some(j))),
                   Discharge(1), Reset(1), ChargeLate(0)]
    ensures At(ss[3], 1, Panicking)
    ensures ss[5] == s.(hub := ss[5].hub, account := sizeOf(j)) && Pending(ss[5].hub) == multiset{}
  {
    var v, w := PutAndTaken(sig, j);
    ss, es := DeferredRun(sig, sizeOf, s, 0, 1, AddEvent(j, 20, Accepted), v, NextEvent(20, 20, 20, Some(j)), w);
  }

  lemma OneStep(sig: string -> Signature, sizeOf: Job -> uint64, s: ServerState, e: ServerEvent, s': ServerState)
    requires Step(sig, sizeOf, s, e, s')
    ensures Run(sig, sizeOf, [s, s'], [e])
  {
  }

  lemma Extended(sig: string -> Signature, sizeOf: Job -> uint64, ss: seq<ServerState>, es: seq<ServerEvent>,
                 e: ServerEvent, s: ServerState)
    returns (ss': seq<ServerState>, es': seq<ServerEvent>)
    requires Run(sig, sizeOf, ss, es) && Run(sig, sizeOf, [ss[|es|], s], [e])
    ensures Run(sig, sizeOf, ss', es') && ss' == ss + [s] && es' == es + [e]
  {
    ss', es' := ss + [s], es + [e];
    forall i | 0 <= i < |es'|
      ensures Step(sig, sizeOf, ss'[i], es'[i], ss'[i + 1])
    {
      if i < |es| {
        assert Step(sig, sizeOf, ss[i], es[i], ss[i + 1]);
      } else {
        assert Step(sig, sizeOf, [ss[|es|], s][0], [e][0], [ss[|es|], s][1]);
      }
    }
  }

  /** Request t puts a job, request u takes and discharges it, and then t charges it. */
  lemma DeferredRun(sig: string -> Signature, sizeOf: Job -> uint64, s: ServerState, t: Tid, u: Tid,
                    a: Event, v: HubView, b: Event, w: HubView)
    returns (ss: seq<ServerState>, es: seq<ServerEvent>)
    requires HubStep(sig, s.hub, a, v) && HubStep(sig, v, b, w)
    requires t in s.tasks && u in s.tasks && t != u && s.tasks[t] == s.tasks[u] == Idle && s.account == 0
    requires a.AddEvent? && a.added == Accepted && b.NextEvent? && b.result == Some(a.job)
    requires 0 < sizeOf(a.job) <= TEBIBYTE
    ensures Run(sig, sizeOf, ss, es)
    ensures es == [PutUncharged(t, a), TakeJob(u, b), Discharge(u), Reset(u), ChargeLate(t)]
    ensures ss[0] == s && At(ss[3], u, Panicking) && ss[5] == s.(hub := w, account := sizeOf(a.job))
  {
    ss, es := PutThenTake(sig, sizeOf, s, t, u, a, v, b, w);
    ss, es := Overdrawn(sig, sizeOf, ss, es, t, u, a.job);
    BackToIdle(s.tasks, t, u, Deferred(a.job), Taken(a.job));
  }

  lemma PutThenTake(sig: string -> Signature, sizeOf: Job -> uint64, s: ServerState, t: Tid, u: Tid,
                    a: Event, v: HubView, b: Event, w: HubView)
    returns (ss: seq<ServerState>, es: seq<ServerEvent>)
    requires HubStep(sig, s.hub, a, v) && HubStep(sig, v, b, w)
    requires At(s, t, Idle) && At(s, u, Idle) && t != u
    requires a.AddEvent? && a.added == Accepted && b.NextEvent? && b.result == Some(a.job)
    ensures Run(sig, sizeOf, ss, es) && es == [PutUncharged(t, a), TakeJob(u, b)]
    ensures ss[0] == s && ss[2] == Go(Go(s, t, Deferred(a.job)), u, Taken(a.job)).(hub := w)
  {
    var s1 := Go(s, t, Deferred(a.job)).(hub := v);
    var s2 := Go(s1, u, Taken(a.job)).(hub := w);
    OneStep(sig, sizeOf, s, PutUncharged(t, a), s1);
    OneStep(sig, sizeOf, s1, TakeJob(u, b), s2);
    ss, es := Extended(sig, sizeOf, [s], [], PutUncharged(t, a), s1);
    ss, es := Extended(sig, sizeOf, ss, es, TakeJob(u, b), s2);
  }

  lemma BackToIdle(tasks: map<Tid, Task>, t: Tid, u: Tid, p: Task, q: Task)
    requires t in tasks && u in tasks && t != u && tasks[t] == tasks[u] == Idle
    ensures tasks[t := p][u := q][u := Panicking][u := Idle][t := Idle] == tasks
  {
  }

  lemma Overdrawn(sig: string -> Signature, sizeOf: Job -> uint64, ss: seq<ServerState>, es: seq<ServerEvent>,
                  t: Tid, u: Tid, j: Job)
    returns (ss': seq<ServerState>, es': seq<ServerEvent>)
    requires Run(sig, sizeOf, ss, es) && t != u && At(ss[|es|], t, Deferred(j)) && At(ss[|es|], u, Taken(j))
    requires ss[|es|].account == 0 && 0 < sizeOf(j) <= TEBIBYTE
    ensures Run(sig, sizeOf, ss', es') && es' == es + [Discharge(u)] + [Reset(u)] + [ChargeLate(t)]
    ensures ss <= ss' && |ss'| == |ss| + 3 && At(ss'[|ss|], u, Panicking)
    ensures ss'[|es'|] == Go(Go(Go(ss[|es|], u, Panicking), u, Idle), t, Idle).(account := sizeOf(j))
  {
    var s := ss[|es|];
    AddNegated(0, sizeOf(j));
    var s1 := Go(s, u, Panicking).(account := WORD - sizeOf(j));
    var s2 := Go(s1, u, Idle).(account := 0);
    var s3 := Go(s2, t, Idle).(account := sizeOf(j));
    OneStep(sig, sizeOf, s, Discharge(u), s1);
    OneStep(sig, sizeOf, s1, Reset(u), s2);
    OneStep(sig, sizeOf, s2, ChargeLate(t), s3);
    ss', es' := Extended(sig, sizeOf, ss, es, Discharge(u), s1);
    ss', es' := Extended(sig, sizeOf, ss', es', Reset(u), s2);
    ss', es' := Extended(sig, sizeOf, ss', es', ChargeLate(t), s3);
  }

  lemma PutAndTaken(sig: string -> Signature, j: Job) returns (v1: HubView, v2: HubView)
    requires j.triggerAt == 15
    ensures HubStep(sig, NewHub(10, 0), AddEvent(j, 20, Accepted), v1)
    ensures HubStep(sig, v1, NextEvent(20, 20, 20, Some(j)), v2) && Pending(v2) == multiset{}
  {
    var v0 := NewHub(10, 0);
    HubRuns.NewInOrder(10, 0);
    v1 := HubOrder.Late(sig, v0, j);
    HubOrder.LateStep(sig, v0, j);
    HubRuns.RunStep(sig, [HubState(v0, 0), HubState(v1, 20)], [AddEvent(j, 20, Accepted)], 0);
    v2 := HubOrder.PastStep(sig, v1, j);
    HubRuns.RunStep(sig, [HubState(v1, 20), HubState(v2, 20)], [NextEvent(20, 20, 20, Some(j))], 0);
    StepKeeps(sig, v0, AddEvent(j, 20, Accepted), v1);
    StepKeeps(sig, v1, NextEvent(20, 20, 20, Some(j)), v2);
    assert Pending(v2) + multiset{j} == multiset{j};
  }
}
