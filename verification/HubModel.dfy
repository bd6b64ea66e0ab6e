/** The hub as a state machine over values. Every operation holds the hub lock for its whole body, so it is one step. */
module HubModel {
  import opened Options
  import opened Temporal
  import opened Jobs
  import opened SpokeModel
  import opened Stats

  /** An id as the filter sees it: its fingerprint and its pair of buckets. */
  type Signature = nat

  /** queued are the spokes waiting in the hub's heap, keyed by bound. The current spoke is not among them. */
  datatype HubView = HubView(
    span: int,
    past: SpokeView,
    current: Option<SpokeView>,
    queued: map<Bound, SpokeView>,
    filter: multiset<Signature>,
    stats: Snapshot)

  const HUNDRED_YEARS := 24 * 365 * 100 * 3600 * 1_000_000_000

  function NewHub(span: int, now: int): HubView {
    HubView(span, EmptySpoke(Bound(now - HUNDRED_YEARS, now + HUNDRED_YEARS)), None, map[], multiset{},
            Snapshot(0, 0, 0))
  }

  // ---------- Adding ----------

  datatype AddResult = Accepted | Duplicate | OutOfBounds

  ghost predicate Owned(v: HubView, id: string) {
    || id in v.past.index
    || (v.current.Some? && id in v.current.value.index)
    || exists b <- v.queued :: id in v.queued[b].index
  }

  /** Puts the job into a spoke that can hold it, or nowhere. */
  function Place(v: HubView, j: Job, now: int): Option<HubView> {
    if j.AsTemporalState(now) == Past then
      if v.past.bound.ContainsTime(j.triggerAt) then Some(v.(past := Insert(v.past, j))) else None
    else if v.current.Some? && v.current.value.bound.ContainsTime(j.triggerAt) then
      Some(v.(current := Some(Insert(v.current.value, j))))
    else
      PlaceByBound(v, j, j.AsBound(v.span))
  }

  /** Looks the bound up among all spokes, and makes a new spoke if there is none. */
  function PlaceByBound(v: HubView, j: Job, b: Bound): Option<HubView> {
    if b in v.queued then
      if v.queued[b].bound.ContainsTime(j.triggerAt) then
        Some(v.(queued := v.queued[b := Insert(v.queued[b], j)]))
      else
        None
    else if v.current.Some? && v.current.value.bound == b then
      if b.ContainsTime(j.triggerAt) then Some(v.(current := Some(Insert(v.current.value, j)))) else None
    else if b.ContainsTime(j.triggerAt) then
      Some(v.(queued := v.queued[b := Insert(EmptySpoke(b), j)], stats := SpokeAdded(v.stats)))
    else
      None
  }

  /** The bookkeeping when a job has entered the hub. */
  function Admit(sig: string -> Signature, v: HubView, id: string): HubView {
    v.(filter := v.filter + multiset{sig(id)}, stats := JobAdded(v.stats))
  }

  ghost function AfterAdd(sig: string -> Signature, v: HubView, j: Job, now: int): (HubView, AddResult) {
    if sig(j.id) in v.filter && Owned(v, j.id) then
      (v, Duplicate)
    else
      match Place(v, j, now)
      case None => (v, OutOfBounds)
      case Some(w) => (Admit(sig, w, j.id), Accepted)
  }

  // ---------- Cancelling ----------

  /** Where a cancelled job is found. */
  datatype Owner = Nobody | PastSpoke | CurrentSpoke | QueuedSpoke(bound: Bound)

  /** The search order is past, current, then the map in any order. */
  ghost predicate IsOwner(v: HubView, id: string, o: Owner) {
    match o
    case Nobody => !Owned(v, id)
    case PastSpoke => id in v.past.index
    case CurrentSpoke => id !in v.past.index && v.current.Some? && id in v.current.value.index
    case QueuedSpoke(b) =>
      && id !in v.past.index
      && (v.current.Some? ==> id !in v.current.value.index)
      && b in v.queued && id in v.queued[b].index
  }

  function HasSpoke(v: HubView, o: Owner): bool {
    match o
    case Nobody => false
    case PastSpoke => true
    case CurrentSpoke => v.current.Some?
    case QueuedSpoke(b) => b in v.queued
  }

  function SpokeAt(v: HubView, o: Owner): SpokeView
    requires HasSpoke(v, o)
  {
    match o
    case PastSpoke => v.past
    case CurrentSpoke => v.current.value
    case QueuedSpoke(b) => v.queued[b]
  }

  function WithSpoke(v: HubView, o: Owner, s: SpokeView): HubView
    requires HasSpoke(v, o)
  {
    match o
    case PastSpoke => v.(past := s)
    case CurrentSpoke => v.(current := Some(s))
    case QueuedSpoke(b) => v.(queued := v.queued[b := s])
  }

  /** The bookkeeping when a job leaves the hub. */
  function Settle(sig: string -> Signature, v: HubView, id: string): HubView {
    v.(filter := v.filter - multiset{sig(id)}, stats := JobRemoved(v.stats))
  }

  ghost predicate CancelStep(sig: string -> Signature, v: HubView, id: string, v': HubView, r: Option<Job>) {
    if sig(id) !in v.filter then
      v' == v && r == None
    else
      exists o :: IsOwner(v, id, o) && CancelAt(sig, v, id, o, v', r)
  }

  /** A miss also takes the signature out of the filter: the search reports no error. */
  ghost predicate CancelAt(sig: string -> Signature, v: HubView, id: string, o: Owner, v': HubView, r: Option<Job>)
    requires IsOwner(v, id, o)
  {
    if o == Nobody then
      v' == v.(filter := v.filter - multiset{sig(id)}) && r == None
    else
      var s := SpokeAt(v, o);
      r == Some(s.index[id]) && v' == Settle(sig, WithSpoke(v, o, Take(s, s.index[id])), id)
  }

  // ---------- Taking the next job ----------

  /** Drops the current spoke if it is empty and expired. */
  function Expire(v: HubView, now: int): HubView {
    if v.current.Some? && v.current.value.pending == multiset{} && v.current.value.bound.IsExpired(now) then
      v.(current := None, stats := SpokeRemoved(v.stats))
    else
      v
  }

  ghost predicate Earliest(queued: map<Bound, SpokeView>, b: Bound) {
    b in queued && forall c <- queued :: b.start <= c.start
  }

  /** Pins a queued spoke as the current one, started or not. */
  function Promote(v: HubView, b: Bound): HubView
    requires b in v.queued
  {
    v.(current := Some(v.queued[b]), queued := v.queued - {b})
  }

  ghost predicate Serve(sig: string -> Signature, v: HubView, o: Owner, now: int, v': HubView, r: Option<Job>)
    requires HasSpoke(v, o)
  {
    var s := SpokeAt(v, o);
    if Ready(s, now) then
      && r.Some? && Head(s, r.value)
      && v' == Settle(sig, WithSpoke(v, o, Take(s, r.value)), r.value.id)
    else
      v' == v && r == None
  }

  ghost predicate NextFromCurrent(sig: string -> Signature, v: HubView, now: int, v': HubView, r: Option<Job>) {
    if v.current.Some? then
      Serve(sig, v, CurrentSpoke, now, v', r)
    else if v.queued == map[] then
      v' == v && r == None
    else
      exists b :: Earliest(v.queued, b) && Serve(sig, Promote(v, b), CurrentSpoke, now, v', r)
  }

  /** The spoke that Next pins when there is no current one. */
  lemma WhichPinned(sig: string -> Signature, v: HubView, now: int, v': HubView, r: Option<Job>) returns (b: Bound)
    requires NextFromCurrent(sig, v, now, v', r) && v.current.None? && v.queued != map[]
    ensures Earliest(v.queued, b) && Serve(sig, Promote(v, b), CurrentSpoke, now, v', r)
  {
    b :| Earliest(v.queued, b) && Serve(sig, Promote(v, b), CurrentSpoke, now, v', r);
  }

  /** The clock is read three times: for the past spoke, for expiry, and for the current spoke. */
  ghost predicate NextStep(sig: string -> Signature, v: HubView, pastNow: int, expiryNow: int, readyNow: int,
                           v': HubView, r: Option<Job>) {
    if Ready(v.past, pastNow) then
      Serve(sig, v, PastSpoke, pastNow, v', r)
    else
      NextFromCurrent(sig, Expire(v, expiryNow), readyNow, v', r)
  }

  // ---------- Runs ----------

  datatype Event =
    | AddEvent(job: Job, now: int, added: AddResult)
    | CancelEvent(id: string, result: Option<Job>)
    | NextEvent(pastNow: int, expiryNow: int, readyNow: int, result: Option<Job>)

  /** A hub together with the latest clock reading. */
  datatype HubState = HubState(hub: HubView, clock: int)

  ghost predicate HubStep(sig: string -> Signature, v: HubView, e: Event, v': HubView) {
    match e
    case AddEvent(j, now, added) => (v', added) == AfterAdd(sig, v, j, now)
    case CancelEvent(id, r) => CancelStep(sig, v, id, v', r)
    case NextEvent(pastNow, expiryNow, readyNow, r) => NextStep(sig, v, pastNow, expiryNow, readyNow, v', r)
  }

  /** Clock readings never go back. */
  ghost predicate Step(sig: string -> Signature, s: HubState, e: Event, s': HubState) {
    && HubStep(sig, s.hub, e, s'.hub)
    && match e
       case AddEvent(_, now, _) => s.clock <= now == s'.clock
       case CancelEvent(_, _) => s'.clock == s.clock
       case NextEvent(pastNow, expiryNow, readyNow, _) => s.clock <= pastNow <= expiryNow <= readyNow == s'.clock
  }

  /** The operations es lead through the states ss. */
  ghost predicate Run(sig: string -> Signature, ss: seq<HubState>, es: seq<Event>) {
    && |ss| == |es| + 1
    && forall i :: 0 <= i < |es| ==> Step(sig, ss[i], es[i], ss[i + 1])
  }

  ghost predicate RunFromNew(sig: string -> Signature, ss: seq<HubState>, es: seq<Event>, span: int) {
    Run(sig, ss, es) && ss[0].hub == NewHub(span, ss[0].clock)
  }

  // ---------- Contents ----------

  /** What the queued spokes hold, all together. */
  ghost function QueuedPending(queued: map<Bound, SpokeView>): multiset<Job>
    decreases |queued|
  {
    if queued == map[] then
      multiset{}
    else
      var b :| b in queued;
      assert (queued - {b}).Keys == queued.Keys - {b};
      queued[b].pending + QueuedPending(queued - {b})
  }

  ghost function CurrentPending(v: HubView): multiset<Job> {
    if v.current.Some? then v.current.value.pending else multiset{}
  }

  /** The jobs that are not in the past spoke. */
  ghost function LaterPending(v: HubView): multiset<Job> {
    CurrentPending(v) + QueuedPending(v.queued)
  }

  /** Every job in the hub, as often as it is queued. */
  ghost function Pending(v: HubView): multiset<Job> {
    v.past.pending + LaterPending(v)
  }

  lemma QueuedPendingPick(queued: map<Bound, SpokeView>) returns (c: Bound)
    requires queued != map[]
    ensures c in queued && QueuedPending(queued) == queued[c].pending + QueuedPending(queued - {c})
  {
    c :| c in queued && QueuedPending(queued) == queued[c].pending + QueuedPending(queued - {c});
  }

  lemma {:induction false} QueuedPendingSplit(queued: map<Bound, SpokeView>, b: Bound)
    requires b in queued
    ensures QueuedPending(queued) == queued[b].pending + QueuedPending(queued - {b})
    decreases |queued|
  {
    var c := QueuedPendingPick(queued);
    if b != c {
      assert (queued - {b}).Keys == queued.Keys - {b} && (queued - {c}).Keys == queued.Keys - {c};
      QueuedPendingSplit(queued - {c}, b);
      QueuedPendingSplit(queued - {b}, c);
      assert queued - {c} - {b} == queued - {b} - {c};
    }
  }

  lemma QueuedPendingUpdate(queued: map<Bound, SpokeView>, b: Bound, s: SpokeView)
    ensures QueuedPending(queued[b := s]) == s.pending + QueuedPending(queued - {b})
  {
    QueuedPendingSplit(queued[b := s], b);
    assert queued[b := s] - {b} == queued - {b};
  }

  lemma {:induction false} QueuedPendingMember(queued: map<Bound, SpokeView>, j: Job)
    ensures j in QueuedPending(queued) <==> exists b <- queued :: j in queued[b].pending
    decreases |queued|
  {
    if b :| b in queued && j in queued[b].pending {
      QueuedPendingSplit(queued, b);
    } else if queued != map[] {
      var b :| b in queued;
      QueuedPendingSplit(queued, b);
      assert (queued - {b}).Keys == queued.Keys - {b};
      QueuedPendingMember(queued - {b}, j);
    }
  }
}
