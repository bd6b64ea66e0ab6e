/** The hub seen from outside: a flat map from ids to jobs. */
module HubFlat {
  import opened Options
  import opened Temporal
  import opened Jobs
  import opened SpokeModel
  import opened HubModel
  import opened HubInvariants
  import opened HubFilter

  /** Spoke o finds a job under the id. */
  ghost predicate Holds(v: HubView, o: Owner, id: string) {
    HasSpoke(v, o) && id in SpokeAt(v, o).index
  }

  /** Map and queue agree in every spoke, and no id is known to two spokes. */
  ghost predicate Unambiguous(v: HubView) {
    && (forall o :: HasSpoke(v, o) ==> Agrees(SpokeAt(v, o)))
    && (forall o, p, id :: Holds(v, o, id) && Holds(v, p, id) ==> o == p)
  }

  /** The map m says what the spokes together say. */
  ghost predicate IsFlat(v: HubView, m: map<string, Job>) {
    && (forall o, id :: Holds(v, o, id) ==> id in m && m[id] == SpokeAt(v, o).index[id])
    && (forall id <- m :: exists o :: Holds(v, o, id))
  }

  function Ids(v: HubView): set<string> {
    v.past.index.Keys
    + (if v.current.Some? then v.current.value.index.Keys else {})
    + set b <- v.queued, id <- v.queued[b].index :: id
  }

  lemma OwnedHolds(v: HubView, id: string)
    ensures id in Ids(v) <==> exists o :: Holds(v, o, id)
    ensures Owned(v, id) <==> id in Ids(v)
  {
    if o :| Holds(v, o, id) {
      assert id in Ids(v);
    }
    if id in Ids(v) {
      if id in v.past.index {
        assert Holds(v, PastSpoke, id);
      } else if v.current.Some? && id in v.current.value.index {
        assert Holds(v, CurrentSpoke, id);
      } else {
        var b :| b in v.queued && id in v.queued[b].index;
        assert Holds(v, QueuedSpoke(b), id);
      }
    }
  }

  ghost function Find(v: HubView, id: string): Job
    requires exists o :: Holds(v, o, id)
  {
    var o :| Holds(v, o, id);
    SpokeAt(v, o).index[id]
  }

  /** All jobs the hub can find, by id. */
  ghost function Flat(v: HubView): map<string, Job> {
    map id | id in Ids(v) && (exists o :: Holds(v, o, id)) :: Find(v, id)
  }

  lemma FlatIsFlat(v: HubView)
    requires Unambiguous(v)
    ensures IsFlat(v, Flat(v))
  {
    forall o, id | Holds(v, o, id)
      ensures id in Flat(v) && Flat(v)[id] == SpokeAt(v, o).index[id]
    {
      OwnedHolds(v, id);
    }
  }

  lemma FlatUnique(v: HubView, m: map<string, Job>)
    requires Unambiguous(v) && IsFlat(v, m)
    ensures m == Flat(v)
  {
    FlatIsFlat(v);
    forall id
      ensures id in m <==> id in Flat(v)
      ensures id in m ==> m[id] == Flat(v)[id]
    {
      if o :| Holds(v, o, id) {
        assert id in m && id in Flat(v);
      }
    }
  }

  /** In an unambiguous hub the queued jobs are exactly the jobs of the flat map. */
  lemma PendingIsFlat(v: HubView, j: Job)
    requires Shaped(v) && Unambiguous(v)
    ensures j in Pending(v) <==> j.id in Flat(v) && Flat(v)[j.id] == j
  {
    FlatIsFlat(v);
    if j in Pending(v) {
      var o := WhereQueued(v, j);
      assert Agrees(SpokeAt(v, o));
      assert Holds(v, o, j.id);
    }
    if j.id in Flat(v) && Flat(v)[j.id] == j {
      var o :| Holds(v, o, j.id);
      SpokeAtFits(v, o);
      WithSpokePending(v, o, SpokeAt(v, o));
    }
  }

  lemma WhereQueued(v: HubView, j: Job) returns (o: Owner)
    requires j in Pending(v)
    ensures HasSpoke(v, o) && j in SpokeAt(v, o).pending
  {
    if j in v.past.pending {
      return PastSpoke;
    }
    if j in CurrentPending(v) {
      return CurrentSpoke;
    }
    QueuedPendingMember(v.queued, j);
    var b :| b in v.queued && j in v.queued[b].pending;
    return QueuedSpoke(b);
  }

  // ---------- One spoke changes ----------

  lemma WithSpokeAt(v: HubView, o: Owner, s: SpokeView, p: Owner)
    requires HasSpoke(v, o)
    ensures HasSpoke(WithSpoke(v, o, s), p) <==> HasSpoke(v, p)
    ensures HasSpoke(v, p) ==> SpokeAt(WithSpoke(v, o, s), p) == if p == o then s else SpokeAt(v, p)
  {
  }

  /** w differs from v only in that its spokes do not know id. */
  ghost predicate Forgets(v: HubView, w: HubView, id: string, p: Owner) {
    && (HasSpoke(w, p) ==> HasSpoke(v, p) && Agrees(SpokeAt(w, p)) && SpokeAt(w, p).index == SpokeAt(v, p).index - {id})
    && (HasSpoke(v, p) ==> HasSpoke(w, p))
  }

  lemma ForgetsFlat(v: HubView, w: HubView, id: string, m: map<string, Job>)
    requires Unambiguous(v) && IsFlat(v, m)
    requires forall p :: Forgets(v, w, id, p)
    ensures Unambiguous(w) && IsFlat(w, m - {id})
  {
    forall p, k
      ensures Holds(w, p, k) <==> Holds(v, p, k) && k != id
    {
      assert Forgets(v, w, id, p);
    }
    assert forall p :: HasSpoke(w, p) ==> Forgets(v, w, id, p);
  }

  /** w differs from v only in that spoke o also finds j. */
  ghost predicate Learns(v: HubView, w: HubView, o: Owner, j: Job, p: Owner) {
    && (HasSpoke(w, p) ==> Agrees(SpokeAt(w, p)))
    && (HasSpoke(v, p) ==> HasSpoke(w, p))
    && (p != o && HasSpoke(w, p) ==> HasSpoke(v, p) && SpokeAt(w, p) == SpokeAt(v, p))
    && (p == o ==>
          && HasSpoke(w, p)
          && SpokeAt(w, p).index == (if HasSpoke(v, p) then SpokeAt(v, p).index else map[])[j.id := j])
  }

  lemma LearnsUnambiguous(v: HubView, w: HubView, o: Owner, j: Job)
    requires Unambiguous(v) && (forall p :: Learns(v, w, o, j, p)) && !Owned(v, j.id)
    ensures Unambiguous(w)
  {
    OwnedHolds(v, j.id);
    forall p | HasSpoke(w, p)
      ensures Agrees(SpokeAt(w, p))
    {
      assert Learns(v, w, o, j, p);
    }
    forall p, q, id | Holds(w, p, id) && Holds(w, q, id)
      ensures p == q
    {
      assert Learns(v, w, o, j, p) && Learns(v, w, o, j, q);
      assert id != j.id ==> Holds(v, p, id) && Holds(v, q, id);
    }
  }

  lemma LearnsSays(v: HubView, w: HubView, o: Owner, j: Job, m: map<string, Job>, p: Owner, id: string)
    requires IsFlat(v, m) && j.id !in m && Learns(v, w, o, j, p) && Holds(w, p, id)
    ensures id in m[j.id := j] && m[j.id := j][id] == SpokeAt(w, p).index[id]
  {
    assert id != j.id ==> Holds(v, p, id);
    assert p != o && id == j.id ==> Holds(v, p, id);
  }

  lemma LearnsCovers(v: HubView, w: HubView, o: Owner, j: Job, m: map<string, Job>, id: string)
    requires IsFlat(v, m) && j.id !in m && (forall p :: Learns(v, w, o, j, p)) && id in m[j.id := j]
    ensures exists p :: Holds(w, p, id)
  {
    var p := o;
    if id != j.id {
      p :| Holds(v, p, id);
    }
    assert Learns(v, w, o, j, p);
    assert Holds(w, p, id);
  }

  lemma LearnsFlat(v: HubView, w: HubView, o: Owner, j: Job, m: map<string, Job>)
    requires Unambiguous(v) && IsFlat(v, m) && j.id !in m
    requires forall p :: Learns(v, w, o, j, p)
    ensures Unambiguous(w) && IsFlat(w, m[j.id := j])
  {
    OwnedHolds(v, j.id);
    LearnsUnambiguous(v, w, o, j);
    forall p, id | Holds(w, p, id)
      ensures id in m[j.id := j] && m[j.id := j][id] == SpokeAt(w, p).index[id]
    {
      LearnsSays(v, w, o, j, m, p, id);
    }
    var m' := m[j.id := j];
    forall id <- m'
      ensures exists p :: Holds(w, p, id)
    {
      LearnsCovers(v, w, o, j, m, id);
    }
  }

  lemma Untouched(v: HubView, w: HubView, id: string, p: Owner)
    requires Unambiguous(v) && !Holds(v, p, id)
    requires HasSpoke(w, p) <==> HasSpoke(v, p)
    requires HasSpoke(v, p) ==> SpokeAt(w, p) == SpokeAt(v, p)
    ensures Forgets(v, w, id, p)
  {
    if HasSpoke(v, p) {
      assert SpokeAt(v, p).index - {id} == SpokeAt(v, p).index;
    }
  }

  lemma TakeForgets(v: HubView, o: Owner, j: Job, p: Owner)
    requires Shaped(v) && Unambiguous(v) && HasSpoke(v, o) && j in SpokeAt(v, o).pending
    ensures Forgets(v, WithSpoke(v, o, Take(SpokeAt(v, o), j)), j.id, p)
  {
    assert Holds(v, o, j.id);
    WithSpokeAt(v, o, Take(SpokeAt(v, o), j), p);
    if p == o {
      SpokeAtFits(v, o);
      TakeAgrees(SpokeAt(v, o), j);
    } else {
      Untouched(v, WithSpoke(v, o, Take(SpokeAt(v, o), j)), j.id, p);
    }
  }

  lemma TakeFlat(v: HubView, o: Owner, j: Job, m: map<string, Job>)
    requires Shaped(v) && Unambiguous(v) && IsFlat(v, m)
    requires HasSpoke(v, o) && j in SpokeAt(v, o).pending
    ensures j.id in m && m[j.id] == j
    ensures Unambiguous(WithSpoke(v, o, Take(SpokeAt(v, o), j)))
    ensures IsFlat(WithSpoke(v, o, Take(SpokeAt(v, o), j)), m - {j.id})
  {
    assert Holds(v, o, j.id);
    forall p
      ensures Forgets(v, WithSpoke(v, o, Take(SpokeAt(v, o), j)), j.id, p)
    {
      TakeForgets(v, o, j, p);
    }
    ForgetsFlat(v, WithSpoke(v, o, Take(SpokeAt(v, o), j)), j.id, m);
  }

  lemma InsertFlat(v: HubView, o: Owner, j: Job, m: map<string, Job>)
    requires Shaped(v) && Unambiguous(v) && IsFlat(v, m) && j.id !in m
    requires HasSpoke(v, o)
    ensures var w := WithSpoke(v, o, Insert(SpokeAt(v, o), j)); Unambiguous(w) && IsFlat(w, m[j.id := j])
  {
    var t := Insert(SpokeAt(v, o), j);
    assert !Holds(v, o, j.id);
    SpokeAtFits(v, o);
    InsertAgreesIff(SpokeAt(v, o), j);
    forall p
      ensures Learns(v, WithSpoke(v, o, t), o, j, p)
    {
      WithSpokeAt(v, o, t, p);
    }
    LearnsFlat(v, WithSpoke(v, o, t), o, j, m);
  }

  lemma NewSpokeFlat(v: HubView, b: Bound, j: Job, m: map<string, Job>)
    requires Unambiguous(v) && IsFlat(v, m) && j.id !in m && b !in v.queued
    ensures Unambiguous(WithNewSpoke(v, b, j)) && IsFlat(WithNewSpoke(v, b, j), m[j.id := j])
  {
    var w := WithNewSpoke(v, b, j);
    forall p
      ensures Learns(v, w, QueuedSpoke(b), j, p)
    {
      if p == QueuedSpoke(b) {
        assert SpokeAt(w, p) == Insert(EmptySpoke(b), j);
      } else {
        assert HasSpoke(w, p) <==> HasSpoke(v, p);
      }
    }
    LearnsFlat(v, w, QueuedSpoke(b), j, m);
  }

  lemma ExpireFlat(v: HubView, now: int, m: map<string, Job>)
    requires Shaped(v) && Unambiguous(v) && IsFlat(v, m)
    ensures Unambiguous(Expire(v, now)) && IsFlat(Expire(v, now), m)
  {
    var w := Expire(v, now);
    forall p
      ensures HasSpoke(w, p) ==> HasSpoke(v, p) && SpokeAt(w, p) == SpokeAt(v, p)
      ensures forall id :: Holds(w, p, id) <==> Holds(v, p, id)
    {
    }
  }

  /** Where spoke p was before the spoke of bound b became the current one. */
  function Before(b: Bound, p: Owner): Owner {
    if p == CurrentSpoke then QueuedSpoke(b) else p
  }

  lemma PromoteFlat(v: HubView, b: Bound, m: map<string, Job>)
    requires Unambiguous(v) && IsFlat(v, m) && v.current.None? && b in v.queued
    ensures Unambiguous(Promote(v, b)) && IsFlat(Promote(v, b), m)
  {
    var w := Promote(v, b);
    forall p
      ensures HasSpoke(w, p) ==> HasSpoke(v, Before(b, p)) && SpokeAt(w, p) == SpokeAt(v, Before(b, p))
      ensures forall id :: Holds(w, p, id) ==> Holds(v, Before(b, p), id)
    {
    }
    forall id <- m
      ensures exists o :: Holds(w, o, id)
    {
      var o :| Holds(v, o, id);
      assert Holds(w, if o == QueuedSpoke(b) then CurrentSpoke else o, id);
    }
  }

  // ---------- The operations ----------

  /** The filter lets every id through that a spoke knows: it has no false negatives. */
  ghost predicate Covered(sig: string -> Signature, v: HubView) {
    forall id :: Owned(v, id) ==> sig(id) in v.filter
  }

  /** The hub is in order and its filter has no false negatives. */
  ghost predicate Usable(sig: string -> Signature, v: HubView) {
    Shaped(v) && Counted(v) && Unambiguous(v) && Covered(sig, v)
  }

  /** The hub is in order and its filter holds exactly what it should. */
  ghost predicate Sound(sig: string -> Signature, v: HubView) {
    Shaped(v) && Counted(v) && Faithful(sig, v) && Unambiguous(v)
  }

  /** The operations of a flat map from ids to jobs. Some jobs may be refused for their trigger alone. */
  ghost predicate FlatStep(m: map<string, Job>, e: Event, m': map<string, Job>) {
    match e
    case AddEvent(j, now, added) =>
      && (added == Duplicate <==> j.id in m)
      && m' == if added == Accepted then m[j.id := j] else m
    case CancelEvent(id, r) =>
      && r == (if id in m then Some(m[id]) else None)
      && (r.Some? ==> r.value.id == id)
      && m' == m - {id}
    case NextEvent(pastNow, expiryNow, readyNow, r) =>
      if r.None? then
        m' == m
      else
        && r.value.id in m && m[r.value.id] == r.value
        && r.value.triggerAt <= readyNow
        && m' == m - {r.value.id}
  }

  lemma OwnedIsFlat(v: HubView, id: string)
    requires Unambiguous(v)
    ensures Owned(v, id) <==> id in Flat(v)
  {
    FlatIsFlat(v);
    OwnedHolds(v, id);
  }

  lemma OwnedPasses(sig: string -> Signature, v: HubView, id: string)
    requires Usable(sig, v)
    ensures Owned(v, id) <==> id in Flat(v)
    ensures Owned(v, id) ==> sig(id) in v.filter
  {
    OwnedIsFlat(v, id);
  }

  /** A faithful filter lets every live id through. */
  lemma SoundIsUsable(sig: string -> Signature, v: HubView)
    requires Sound(sig, v)
    ensures Usable(sig, v)
  {
    forall id | Owned(v, id)
      ensures sig(id) in v.filter
    {
      OwnedIsFlat(v, id);
      FlatIsPending(v, id);
      SignaturesMember(sig, Pending(v), sig(id));
    }
  }

  lemma FlatIsPending(v: HubView, id: string)
    requires Shaped(v) && Unambiguous(v) && id in Flat(v)
    ensures Flat(v)[id] in Pending(v) && Flat(v)[id].id == id
  {
    FlatIsFlat(v);
    var o :| Holds(v, o, id);
    SpokeAtFits(v, o);
    PendingIsFlat(v, Flat(v)[id]);
  }

  lemma SameSpokes(v: HubView, w: HubView, m: map<string, Job>)
    requires Unambiguous(v) && IsFlat(v, m)
    requires w.past == v.past && w.current == v.current && w.queued == v.queued
    ensures Unambiguous(w) && IsFlat(w, m)
  {
    forall p
      ensures HasSpoke(w, p) <==> HasSpoke(v, p)
      ensures HasSpoke(v, p) ==> SpokeAt(w, p) == SpokeAt(v, p)
      ensures forall id :: Holds(w, p, id) <==> Holds(v, p, id)
    {
    }
  }

  lemma SettleFlat(sig: string -> Signature, v: HubView, o: Owner, j: Job, m: map<string, Job>)
    requires Shaped(v) && Unambiguous(v) && IsFlat(v, m)
    requires HasSpoke(v, o) && j in SpokeAt(v, o).pending
    ensures j.id in m && m[j.id] == j
    ensures Unambiguous(Settle(sig, WithSpoke(v, o, Take(SpokeAt(v, o), j)), j.id))
    ensures IsFlat(Settle(sig, WithSpoke(v, o, Take(SpokeAt(v, o), j)), j.id), m - {j.id})
  {
    var w := WithSpoke(v, o, Take(SpokeAt(v, o), j));
    TakeFlat(v, o, j, m);
    SameSpokes(w, Settle(sig, w, j.id), m - {j.id});
  }

  lemma PlaceFlat(v: HubView, j: Job, now: int, m: map<string, Job>)
    requires Shaped(v) && Unambiguous(v) && IsFlat(v, m) && j.id !in m && Place(v, j, now).Some?
    ensures Unambiguous(Place(v, j, now).value) && IsFlat(Place(v, j, now).value, m[j.id := j])
  {
    PlaceTarget(v, j, now);
    if Target(v, j, now) == Nobody {
      NewSpokeFlat(v, j.AsBound(v.span), j, m);
      SameSpokes(WithNewSpoke(v, j.AsBound(v.span), j), Place(v, j, now).value, m[j.id := j]);
    } else {
      InsertFlat(v, Target(v, j, now), j, m);
    }
  }

  lemma AddFlat(sig: string -> Signature, v: HubView, j: Job, now: int, v': HubView, added: AddResult)
    requires Usable(sig, v) && (v', added) == AfterAdd(sig, v, j, now)
    ensures Unambiguous(v') && FlatStep(Flat(v), AddEvent(j, now, added), Flat(v'))
    ensures added == Duplicate <==> Owned(v, j.id)
  {
    OwnedPasses(sig, v, j.id);
    FlatIsFlat(v);
    if added == Accepted {
      var w := Place(v, j, now).value;
      PlaceFlat(v, j, now, Flat(v));
      SameSpokes(w, Admit(sig, w, j.id), Flat(v)[j.id := j]);
      FlatUnique(v', Flat(v)[j.id := j]);
    }
  }

  lemma CancelFlat(sig: string -> Signature, v: HubView, id: string, v': HubView, r: Option<Job>)
    requires Usable(sig, v) && CancelStep(sig, v, id, v', r)
    ensures Unambiguous(v') && FlatStep(Flat(v), CancelEvent(id, r), Flat(v'))
  {
    OwnedPasses(sig, v, id);
    if r.Some? {
      var o := CancelHit(sig, v, id, v', r);
      SettledFlat(sig, v, o, r.value, v');
    } else {
      CancelMiss(sig, v, id, v', r);
      MissedFlat(v, v', id);
    }
  }

  lemma SettledFlat(sig: string -> Signature, v: HubView, o: Owner, j: Job, v': HubView)
    requires Shaped(v) && Unambiguous(v) && HasSpoke(v, o) && j in SpokeAt(v, o).pending
    requires v' == Settle(sig, WithSpoke(v, o, Take(SpokeAt(v, o), j)), j.id)
    ensures Unambiguous(v') && Flat(v') == Flat(v) - {j.id}
    ensures j.id in Flat(v) && Flat(v)[j.id] == j
  {
    FlatIsFlat(v);
    SettleFlat(sig, v, o, j, Flat(v));
    FlatUnique(v', Flat(v) - {j.id});
  }

  lemma MissedFlat(v: HubView, v': HubView, id: string)
    requires Unambiguous(v) && id !in Flat(v)
    requires v'.past == v.past && v'.current == v.current && v'.queued == v.queued
    ensures Unambiguous(v') && Flat(v') == Flat(v) == Flat(v) - {id}
  {
    FlatIsFlat(v);
    SameSpokes(v, v', Flat(v));
    FlatUnique(v', Flat(v));
    assert Flat(v) - {id} == Flat(v);
  }

  lemma CancelHit(sig: string -> Signature, v: HubView, id: string, v': HubView, r: Option<Job>) returns (o: Owner)
    requires Shaped(v) && CancelStep(sig, v, id, v', r) && r.Some?
    ensures HasSpoke(v, o) && r.value in SpokeAt(v, o).pending && r.value.id == id
    ensures v' == Settle(sig, WithSpoke(v, o, Take(SpokeAt(v, o), r.value)), id)
  {
    o :| IsOwner(v, id, o) && CancelAt(sig, v, id, o, v', r);
    SpokeAtFits(v, o);
  }

  lemma CancelMiss(sig: string -> Signature, v: HubView, id: string, v': HubView, r: Option<Job>)
    requires CancelStep(sig, v, id, v', r) && r.None?
    ensures v'.past == v.past && v'.current == v.current && v'.queued == v.queued
    ensures sig(id) in v.filter ==> !Owned(v, id)
  {
    if sig(id) in v.filter {
      var o :| IsOwner(v, id, o) && CancelAt(sig, v, id, o, v', r);
    }
  }

  lemma ServeFlat(sig: string -> Signature, v: HubView, o: Owner, now: int, v': HubView, r: Option<Job>,
                  m: map<string, Job>)
    requires Shaped(v) && Unambiguous(v) && IsFlat(v, m) && HasSpoke(v, o) && Serve(sig, v, o, now, v', r)
    ensures Unambiguous(v') && FlatStep(m, NextEvent(now, now, now, r), Flat(v'))
  {
    FlatUnique(v, m);
    if r.Some? {
      SettledFlat(sig, v, o, r.value, v');
    }
  }

  lemma NextFlat(sig: string -> Signature, v: HubView, pastNow: int, expiryNow: int, readyNow: int,
                 v': HubView, r: Option<Job>)
    requires Shaped(v) && Counted(v) && Unambiguous(v) && pastNow <= readyNow
    requires NextStep(sig, v, pastNow, expiryNow, readyNow, v', r)
    ensures Unambiguous(v') && FlatStep(Flat(v), NextEvent(pastNow, expiryNow, readyNow, r), Flat(v'))
  {
    FlatIsFlat(v);
    if Ready(v.past, pastNow) {
      ServeFlat(sig, v, PastSpoke, pastNow, v', r, Flat(v));
    } else {
      var w := Expire(v, expiryNow);
      ExpireKeeps(v, expiryNow);
      ExpireFlat(v, expiryNow, Flat(v));
      if w.current.Some? {
        ServeFlat(sig, w, CurrentSpoke, readyNow, v', r, Flat(v));
      } else if w.queued == map[] {
        FlatUnique(v', Flat(v));
      } else {
        var b :| Earliest(w.queued, b) && Serve(sig, Promote(w, b), CurrentSpoke, readyNow, v', r);
        PromoteKeeps(w, b);
        PromoteFlat(w, b, Flat(v));
        ServeFlat(sig, Promote(w, b), CurrentSpoke, readyNow, v', r, Flat(v));
      }
    }
  }

  /** On a usable hub every operation is the operation of the flat map: adding is refused as a duplicate exactly for
      an id that is there, cancelling removes exactly the named job or nothing, and Next removes one due job. */
  lemma StepIsFlat(sig: string -> Signature, s: HubState, e: Event, s': HubState)
    requires Usable(sig, s.hub) && Step(sig, s, e, s')
    ensures FlatStep(Flat(s.hub), e, Flat(s'.hub))
    ensures Shaped(s'.hub) && Counted(s'.hub) && Unambiguous(s'.hub)
  {
    var v, v' := s.hub, s'.hub;
    StepKeeps(sig, v, e, v');
    match e
    case AddEvent(j, now, added) =>
      AddFlat(sig, v, j, now, v', added);
    case CancelEvent(id, r) =>
      CancelFlat(sig, v, id, v', r);
    case NextEvent(pastNow, expiryNow, readyNow, r) =>
      NextFlat(sig, v, pastNow, expiryNow, readyNow, v', r);
  }
}
