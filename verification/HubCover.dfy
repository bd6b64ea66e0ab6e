/** False negatives of the filter: which operations leave one behind. */
module HubCover {
  import opened Options
  import opened HubModel
  import opened HubInvariants
  import opened HubFilter
  import opened HubFlat

  /** The id whose signature the operation takes out of the filter. */
  ghost function Removed(sig: string -> Signature, v: HubView, e: Event): Option<string> {
    match e
    case AddEvent(_, _, _) => None
    case CancelEvent(id, _) => if sig(id) in v.filter then Some(id) else None
    case NextEvent(_, _, _, r) => if r.Some? then Some(r.value.id) else None
  }

  /** The operation takes out the last entry of a signature that some other known id needs. */
  ghost predicate Uncovers(sig: string -> Signature, v: HubView, e: Event) {
    && Removed(sig, v, e).Some?
    && var x := Removed(sig, v, e).value;
       v.filter[sig(x)] == 1 && exists y :: Owned(v, y) && y != x && sig(y) == sig(x)
  }

  lemma FilterAfter(sig: string -> Signature, v: HubView, e: Event, v': HubView)
    requires Shaped(v) && HubStep(sig, v, e, v')
    ensures match Removed(sig, v, e)
            case None => v.filter <= v'.filter
            case Some(x) => v'.filter == v.filter - multiset{sig(x)}
    ensures e.AddEvent? && e.added == Accepted ==> sig(e.job.id) in v'.filter
  {
    match e
    case AddEvent(j, now, added) =>
      FilterAfterAdd(sig, v, j, now);
    case CancelEvent(id, r) =>
      FilterAfterCancel(sig, v, id, v', r);
    case NextEvent(pastNow, expiryNow, readyNow, r) =>
      FilterAfterNext(sig, v, pastNow, expiryNow, readyNow, v', r);
  }

  /** What the operation removes from the flat map goes with its signature. */
  lemma FlatAfter(sig: string -> Signature, s: HubState, e: Event, s': HubState)
    requires Usable(sig, s.hub) && Step(sig, s, e, s')
    ensures match Removed(sig, s.hub, e)
            case None =>
              forall id :: id in Flat(s'.hub) ==>
                id in Flat(s.hub) || (e.AddEvent? && e.added == Accepted && id == e.job.id)
            case Some(x) => Flat(s'.hub) == Flat(s.hub) - {x}
    ensures Unambiguous(s'.hub)
  {
    StepIsFlat(sig, s, e, s');
  }

  lemma UncoversBreaks(sig: string -> Signature, s: HubState, e: Event, s': HubState)
    requires Usable(sig, s.hub) && Step(sig, s, e, s') && Uncovers(sig, s.hub, e)
    ensures !Covered(sig, s'.hub)
  {
    var v, v' := s.hub, s'.hub;
    var x := Removed(sig, v, e).value;
    var y :| Owned(v, y) && y != x && sig(y) == sig(x);
    FlatAfter(sig, s, e, s');
    FilterAfter(sig, v, e, v');
    OwnedIsFlat(v, y);
    OwnedIsFlat(v', y);
  }

  lemma StaysCovered(sig: string -> Signature, s: HubState, e: Event, s': HubState, id: string)
    requires Usable(sig, s.hub) && Step(sig, s, e, s') && !Uncovers(sig, s.hub, e) && Owned(s'.hub, id)
    ensures sig(id) in s'.hub.filter
  {
    var v, v' := s.hub, s'.hub;
    FlatAfter(sig, s, e, s');
    FilterAfter(sig, v, e, v');
    OwnedIsFlat(v, id);
    OwnedIsFlat(v', id);
    if Removed(sig, v, e).Some? {
      EntryStays(v.filter, sig(Removed(sig, v, e).value), sig(id));
    }
  }

  lemma EntryStays(filter: multiset<Signature>, g: Signature, h: Signature)
    requires h in filter && !(filter[g] == 1 && h == g)
    ensures h in filter - multiset{g}
  {
  }

  /** Exactly when a step of a usable hub leaves a false negative, whatever has happened to the filter before: it takes
      out the last entry of a signature that some other known id needs. */
  lemma UsableIff(sig: string -> Signature, s: HubState, e: Event, s': HubState)
    requires Usable(sig, s.hub) && Step(sig, s, e, s')
    ensures Usable(sig, s'.hub) <==> !Uncovers(sig, s.hub, e)
  {
    if Uncovers(sig, s.hub, e) {
      UncoversBreaks(sig, s, e, s');
    } else {
      StepIsFlat(sig, s, e, s');
      forall id | Owned(s'.hub, id)
        ensures sig(id) in s'.hub.filter
      {
        StaysCovered(sig, s, e, s', id);
      }
    }
  }

  // ---------- Sound hubs ----------

  /** Exactly a falsely positive cancel makes a sound hub unsound. */
  lemma SoundIff(sig: string -> Signature, s: HubState, e: Event, s': HubState)
    requires Sound(sig, s.hub) && Step(sig, s, e, s')
    ensures Sound(sig, s'.hub) <==> !FalsePositive(sig, s.hub, e)
  {
    SoundIsUsable(sig, s.hub);
    StepIsFlat(sig, s, e, s');
    FaithfulIff(sig, s.hub, e, s'.hub);
  }

  /** On a sound hub only a falsely positive cancel can leave a false negative, and does so exactly if it takes out the
      last entry of its signature. */
  lemma SoundUncoversIff(sig: string -> Signature, s: HubState, e: Event, s': HubState)
    requires Sound(sig, s.hub) && Step(sig, s, e, s')
    ensures Uncovers(sig, s.hub, e) <==> FalsePositive(sig, s.hub, e) && s.hub.filter[sig(e.id)] == 1
  {
    SoundIsUsable(sig, s.hub);
    if FalsePositive(sig, s.hub, e) {
      var y := SomeoneBehind(sig, s.hub, sig(e.id));
    } else {
      SoundIff(sig, s, e, s');
      SoundIsUsable(sig, s'.hub);
      UsableIff(sig, s, e, s');
    }
  }

  /** Every signature in a faithful filter is that of a known id. */
  lemma SomeoneBehind(sig: string -> Signature, v: HubView, g: Signature) returns (id: string)
    requires Sound(sig, v) && g in v.filter
    ensures Owned(v, id) && sig(id) == g
  {
    SignaturesMember(sig, Pending(v), g);
    var j :| j in Pending(v) && sig(j.id) == g;
    id := j.id;
    PendingIsFlat(v, j);
    OwnedIsFlat(v, id);
  }
}
