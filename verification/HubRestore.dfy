/** Reading persisted jobs back into a hub, as values. */
module HubRestore {
  import opened Options
  import opened Temporal
  import opened Jobs
  import opened SpokeModel
  import opened HubModel
  import opened HubInvariants
  import opened HubFlat
  import opened HubCover
  import opened HubRefinement
  import opened Persistence

  /** What became of the records: how many could not be decoded, how many were not accepted, how many came back. */
  datatype Tally = Tally(errDecode: nat, errAdd: nat, recovered: nat)

  /** The hub after restoring the records in order, the i-th one when the clock reads clock[i]. */
  ghost function Restored(sig: string -> Signature, v: HubView, records: seq<Record>, clock: seq<int>): (HubView, Tally)
    requires |clock| == |records|
    decreases |records|
  {
    if records == [] then
      (v, Tally(0, 0, 0))
    else
      var n := |records| - 1;
      var (w, t) := Restored(sig, v, records[..n], clock[..n]);
      RestoreOne(sig, w, t, records[n], clock[n])
  }

  function Count(t: Tally, added: AddResult): Tally {
    if added == Accepted then t.(recovered := t.recovered + 1) else t.(errAdd := t.errAdd + 1)
  }

  ghost function RestoreOne(sig: string -> Signature, v: HubView, t: Tally, record: Record, now: int)
    : (HubView, Tally)
  {
    match GobDecode(record)
    case None => (v, t.(errDecode := t.errDecode + 1))
    case Some(j) =>
      var (w, added) := AfterAdd(sig, v, j, now);
      (w, Count(t, added))
  }

  lemma RestoreAdded(sig: string -> Signature, v: HubView, t: Tally, record: Record, now: int, w: HubView,
                     added: AddResult)
    requires GobDecode(record).Some? && (w, added) == AfterAdd(sig, v, GobDecode(record).value, now)
    ensures RestoreOne(sig, v, t, record, now) == (w, Count(t, added))
  {
  }

  lemma RestoredNext(sig: string -> Signature, v: HubView, records: seq<Record>, clock: seq<int>, i: nat)
    requires i < |records| == |clock|
    ensures var (w, t) := Restored(sig, v, records[..i], clock[..i]);
            Restored(sig, v, records[..i + 1], clock[..i + 1]) == RestoreOne(sig, w, t, records[i], clock[i])
  {
    assert records[..i + 1][..i] == records[..i] && clock[..i + 1][..i] == clock[..i];
  }

  /** Restoring keeps a hub in order. */
  lemma {:induction false} RestoredInOrder(sig: string -> Signature, v: HubView, records: seq<Record>, clock: seq<int>)
    requires Shaped(v) && Counted(v) && |clock| == |records|
    ensures var w := Restored(sig, v, records, clock).0; Shaped(w) && Counted(w)
  {
    if records != [] {
      var n := |records| - 1;
      RestoredInOrder(sig, v, records[..n], clock[..n]);
      if GobDecode(records[n]).Some? {
        var w := Restored(sig, v, records[..n], clock[..n]).0;
        var j := GobDecode(records[n]).value;
        var (w', added) := AfterAdd(sig, w, j, clock[n]);
        StepKeeps(sig, w, AddEvent(j, clock[n], added), w');
      }
    }
  }

  // ---------- Any records ----------

  /** The places of the records that cannot be decoded. */
  function Undecodable(records: seq<Record>): set<nat> {
    set i: nat | i < |records| && GobDecode(records[i]).None?
  }

  lemma UndecodableNext(records: seq<Record>, i: nat)
    requires i < |records|
    ensures Undecodable(records[..i + 1])
            == Undecodable(records[..i]) + if GobDecode(records[i]).None? then {i} else {}
    ensures i !in Undecodable(records[..i])
  {
    var a, b := records[..i], records[..i + 1];
    assert forall k :: 0 <= k < i ==> a[k] == b[k] == records[k];
    assert b[i] == records[i];
  }

  /** Every record is counted once: as one that cannot be decoded, as refused, or as recovered. */
  lemma {:induction false} EveryRecordCounts(sig: string -> Signature, v: HubView, records: seq<Record>,
                                             clock: seq<int>, i: nat)
    requires |clock| == |records| && i <= |records|
    ensures var t := Restored(sig, v, records[..i], clock[..i]).1;
            t.errDecode == |Undecodable(records[..i])| && t.errDecode + t.errAdd + t.recovered == i
  {
    if i > 0 {
      var k := i - 1;
      EveryRecordCounts(sig, v, records, clock, k);
      RestoredNext(sig, v, records, clock, k);
      UndecodableNext(records, k);
    }
  }

  lemma AllCount(sig: string -> Signature, v: HubView, records: seq<Record>, clock: seq<int>)
    requires |clock| == |records|
    ensures var t := Restored(sig, v, records, clock).1;
            t.errDecode == |Undecodable(records)| && t.errDecode + t.errAdd + t.recovered == |records|
  {
    EveryRecordCounts(sig, v, records, clock, |records|);
    assert records[..|records|] == records && clock[..|records|] == clock;
  }

  /** What a flat map becomes when the records are offered in order: of the jobs that can be decoded, each is added that
      has a new id and a trigger that can be taken at its time. */
  function Offered(span: int, window: Bound, m: map<string, Job>, records: seq<Record>, clock: seq<int>)
    : map<string, Job>
    requires |clock| == |records|
    decreases |records|
  {
    if records == [] then
      m
    else
      var n := |records| - 1;
      Offer(span, window, Offered(span, window, m, records[..n], clock[..n]), records[n], clock[n])
  }

  function Offer(span: int, window: Bound, m: map<string, Job>, record: Record, now: int): map<string, Job> {
    match GobDecode(record)
    case None => m
    case Some(j) => if j.id !in m && Takeable(span, window, j, now) then m[j.id := j] else m
  }

  /** A hub of this span and window, usable, with these jobs. */
  ghost predicate Stands(sig: string -> Signature, w: HubView, span: int, window: Bound, m: map<string, Job>) {
    Usable(sig, w) && w.span == span && w.past.bound == window && Flat(w) == m
  }

  /** One record, whatever it is. */
  lemma RestoreOneIs(sig: string -> Signature, w: HubView, t: Tally, record: Record, now: int)
    requires Usable(sig, w)
    ensures var (w', t') := RestoreOne(sig, w, t, record, now);
            && Stands(sig, w', w.span, w.past.bound, Offer(w.span, w.past.bound, Flat(w), record, now))
            && t'.recovered - t.recovered == |Flat(w')| - |Flat(w)|
  {
    match GobDecode(record)
    case None =>
    case Some(j) =>
      var (w', added) := AfterAdd(sig, w, j, now);
      RestoreAdded(sig, w, t, record, now, w', added);
      OfferIs(sig, w, j, now, w', added);
  }

  lemma OfferIs(sig: string -> Signature, w: HubView, j: Job, now: int, w': HubView, added: AddResult)
    requires Usable(sig, w) && (w', added) == AfterAdd(sig, w, j, now)
    ensures Usable(sig, w') && w'.span == w.span && w'.past.bound == w.past.bound
    ensures added == Accepted <==> j.id !in Flat(w) && Takeable(w.span, w.past.bound, j, now)
    ensures Flat(w') == if added == Accepted then Flat(w)[j.id := j] else Flat(w)
    ensures |Flat(w')| == |Flat(w)| + if added == Accepted then 1 else 0
  {
    var s, e, s' := HubState(w, now), AddEvent(j, now, added), HubState(w', now);
    assert Step(sig, s, e, s');
    StepIsFlat(sig, s, e, s');
    UsableIff(sig, s, e, s');
    StepKeeps(sig, w, e, w');
    AcceptedIff(sig, w, j, now);
    AddSize(Flat(w), j);
  }

  /** Restoring any records at all into a usable hub: it stays usable, and holds what it held and, of the jobs that can
      be decoded, the first of each new id that it takes by its trigger; so many are counted as recovered. */
  lemma {:induction false} RestoredIs(sig: string -> Signature, v: HubView, records: seq<Record>, clock: seq<int>)
    requires Usable(sig, v) && |clock| == |records|
    ensures var (w, t) := Restored(sig, v, records, clock);
            && Stands(sig, w, v.span, v.past.bound, Offered(v.span, v.past.bound, Flat(v), records, clock))
            && t.recovered == |Flat(w)| - |Flat(v)|
    decreases |records|
  {
    if records != [] {
      var n := |records| - 1;
      RestoredIs(sig, v, records[..n], clock[..n]);
      var (w, t) := Restored(sig, v, records[..n], clock[..n]);
      RestoreOneIs(sig, w, t, records[n], clock[n]);
    }
  }

  /** Records that cannot be decoded make no difference to the hub. */
  lemma {:induction false} OnlyDecodable(sig: string -> Signature, v: HubView, records: seq<Record>, clock: seq<int>)
    requires |clock| == |records|
    ensures var (rs, ts) := Decodable(records, clock); |rs| == |ts| && forall r <- rs :: GobDecode(r).Some?
    ensures var (rs, ts) := Decodable(records, clock);
            Restored(sig, v, records, clock).0 == Restored(sig, v, rs, ts).0
    decreases |records|
  {
    if records != [] {
      var n := |records| - 1;
      OnlyDecodable(sig, v, records[..n], clock[..n]);
      if GobDecode(records[n]).Some? {
        var (rs, ts) := Decodable(records[..n], clock[..n]);
        assert (rs + [records[n]])[..|rs|] == rs && (ts + [clock[n]])[..|ts|] == ts;
        SameHub(sig, Restored(sig, v, records[..n], clock[..n]), Restored(sig, v, rs, ts), records[n], clock[n]);
      }
    }
  }

  /** The records that can be decoded, with their times. */
  function Decodable(records: seq<Record>, clock: seq<int>): (seq<Record>, seq<int>)
    requires |clock| == |records|
    decreases |records|
  {
    if records == [] then
      ([], [])
    else
      var n := |records| - 1;
      var (rs, ts) := Decodable(records[..n], clock[..n]);
      if GobDecode(records[n]).Some? then (rs + [records[n]], ts + [clock[n]]) else (rs, ts)
  }

  /** What is counted has no bearing on the hub. */
  lemma SameHub(sig: string -> Signature, x: (HubView, Tally), y: (HubView, Tally), record: Record, now: int)
    requires x.0 == y.0
    ensures RestoreOne(sig, x.0, x.1, record, now).0 == RestoreOne(sig, y.0, y.1, record, now).0
  {
  }

  // ---------- The round trip ----------

  /** A hub of this span and past window takes the job at this time, if it does not know its id. */
  predicate Takeable(span: int, window: Bound, j: Job, now: int) {
    if j.triggerAt <= now then window.ContainsTime(j.triggerAt) else span > 0
  }

  predicate DistinctIds(js: seq<Job>) {
    forall m, n :: 0 <= m < n < |js| ==> js[m].id != js[n].id
  }

  /** The jobs by their ids. */
  function ById(js: seq<Job>): map<string, Job> {
    if js == [] then map[] else ById(js[..|js| - 1])[js[|js| - 1].id := js[|js| - 1]]
  }

  /** The jobs that the hub takes when they are offered at these times. */
  function Taken(span: int, window: Bound, js: seq<Job>, clock: seq<int>): seq<Job>
    requires |clock| == |js|
    decreases |js|
  {
    if js == [] then
      []
    else
      var n := |js| - 1;
      Taken(span, window, js[..n], clock[..n]) + if Takeable(span, window, js[n], clock[n]) then [js[n]] else []
  }

  lemma {:induction false} TakenFrom(span: int, window: Bound, js: seq<Job>, clock: seq<int>)
    requires |clock| == |js|
    ensures forall j <- Taken(span, window, js, clock) :: j in js
    ensures |Taken(span, window, js, clock)| <= |js|
    ensures |Taken(span, window, js, clock)| == |js| <==>
            forall i :: 0 <= i < |js| ==> Takeable(span, window, js[i], clock[i])
    ensures |Taken(span, window, js, clock)| == |js| ==> Taken(span, window, js, clock) == js
  {
    if js != [] {
      var n := |js| - 1;
      TakenFrom(span, window, js[..n], clock[..n]);
      assert js == js[..n] + [js[n]];
      assert forall i :: 0 <= i < n ==> js[..n][i] == js[i] && clock[..n][i] == clock[i];
    }
  }

  lemma {:induction false} ByIdKeys(js: seq<Job>, id: string)
    ensures id in ById(js) <==> exists j <- js :: j.id == id
  {
    if js != [] {
      var n := |js| - 1;
      ByIdKeys(js[..n], id);
      assert js == js[..n] + [js[n]];
    }
  }

  lemma ByIdAppend(js: seq<Job>, j: Job)
    ensures ById(js + [j]) == ById(js)[j.id := j]
  {
    assert (js + [j])[..|js|] == js;
  }

  /** Adding to a sound hub an id it does not know. */
  lemma TakeUnknown(sig: string -> Signature, v: HubView, j: Job, now: int) returns (w: HubView, added: AddResult)
    requires Sound(sig, v) && j.id !in Flat(v)
    ensures (w, added) == AfterAdd(sig, v, j, now)
    ensures Sound(sig, w) && w.span == v.span && w.past.bound == v.past.bound
    ensures added == Accepted <==> Takeable(v.span, v.past.bound, j, now)
    ensures Flat(w) == if added == Accepted then Flat(v)[j.id := j] else Flat(v)
  {
    w, added := AfterAdd(sig, v, j, now).0, AfterAdd(sig, v, j, now).1;
    var s, s' := HubState(v, now), HubState(w, now);
    assert Step(sig, s, AddEvent(j, now, added), s');
    SoundIsUsable(sig, v);
    StepIsFlat(sig, s, AddEvent(j, now, added), s');
    SoundIff(sig, s, AddEvent(j, now, added), s');
    StepKeeps(sig, v, AddEvent(j, now, added), w);
    PlaceAccepts(v, j, now);
  }

  /** The records hold these jobs. */
  predicate Hold(records: seq<Record>, js: seq<Job>) {
    |records| == |js| && forall i :: 0 <= i < |js| ==> GobDecode(records[i]) == Some(js[i])
  }

  /** Of n jobs those taken are in the hub w, and the tally t says so. */
  ghost predicate BackSoFar(sig: string -> Signature, span: int, window: Bound, w: HubView, t: Tally, taken: seq<Job>,
                            n: nat)
  {
    && Sound(sig, w) && w.span == span && w.past.bound == window
    && Flat(w) == ById(taken)
    && t.errDecode == 0 && t.recovered == |taken| && t.errAdd + |taken| == n
  }

  /** The books after one job more: it is in the hub w' and counted, if it was accepted. */
  lemma BookOne(sig: string -> Signature, span: int, window: Bound, w: HubView, t: Tally, taken: seq<Job>, n: nat,
                j: Job, now: int, w': HubView, added: AddResult)
    requires BackSoFar(sig, span, window, w, t, taken, n) && Sound(sig, w')
    requires w'.span == w.span && w'.past.bound == w.past.bound
    requires added == Accepted <==> Takeable(span, window, j, now)
    requires Flat(w') == if added == Accepted then Flat(w)[j.id := j] else Flat(w)
    ensures BackSoFar(sig, span, window, w', Count(t, added),
                      taken + (if Takeable(span, window, j, now) then [j] else []), n + 1)
  {
    ByIdAppend(taken, j);
    assert taken + [] == taken;
  }

  lemma OneMoreBack(sig: string -> Signature, span: int, window: Bound, w: HubView, t: Tally, taken: seq<Job>, n: nat,
                    record: Record, j: Job, now: int)
    requires BackSoFar(sig, span, window, w, t, taken, n) && GobDecode(record) == Some(j)
    requires forall k <- taken :: k.id != j.id
    ensures BackSoFar(sig, span, window, RestoreOne(sig, w, t, record, now).0, RestoreOne(sig, w, t, record, now).1,
                      taken + (if Takeable(span, window, j, now) then [j] else []), n + 1)
  {
    ByIdKeys(taken, j.id);
    var w', added := TakeUnknown(sig, w, j, now);
    BookOne(sig, span, window, w, t, taken, n, j, now, w', added);
    RestoreAdded(sig, w, t, record, now, w', added);
  }

  /** After the first i records. */
  ghost predicate BackAt(sig: string -> Signature, span: int, made: int, records: seq<Record>, js: seq<Job>,
                         clock: seq<int>, i: nat)
    requires |clock| == |records| == |js| && i <= |js|
  {
    var v := NewHub(span, made);
    var (w, t) := Restored(sig, v, records[..i], clock[..i]);
    BackSoFar(sig, span, v.past.bound, w, t, Taken(span, v.past.bound, js[..i], clock[..i]), i)
  }

  /** After all records. */
  ghost predicate BackAll(sig: string -> Signature, span: int, made: int, records: seq<Record>, js: seq<Job>,
                          clock: seq<int>)
    requires |clock| == |records| == |js|
  {
    var v := NewHub(span, made);
    var (w, t) := Restored(sig, v, records, clock);
    BackSoFar(sig, span, v.past.bound, w, t, Taken(span, v.past.bound, js, clock), |js|)
  }

  /** One record more. */
  ghost predicate BackNext(sig: string -> Signature, span: int, made: int, records: seq<Record>, js: seq<Job>,
                           clock: seq<int>, i: nat)
    requires |clock| == |records| == |js| && i < |js|
  {
    BackAt(sig, span, made, records, js, clock, i) ==> BackAt(sig, span, made, records, js, clock, i + 1)
  }

  lemma TakenNext(span: int, window: Bound, js: seq<Job>, clock: seq<int>, i: nat)
    requires |clock| == |js| && i < |js|
    ensures Taken(span, window, js[..i + 1], clock[..i + 1])
            == Taken(span, window, js[..i], clock[..i])
               + if Takeable(span, window, js[i], clock[i]) then [js[i]] else []
    ensures forall j <- Taken(span, window, js[..i], clock[..i]) :: j in js[..i]
  {
    assert js[..i + 1][..i] == js[..i] && clock[..i + 1][..i] == clock[..i];
    TakenFrom(span, window, js[..i], clock[..i]);
  }

  lemma RestoreNext(sig: string -> Signature, span: int, made: int, records: seq<Record>, js: seq<Job>, clock: seq<int>,
                    i: nat)
    requires |clock| == |js| && DistinctIds(js) && Hold(records, js) && i < |js|
    ensures BackNext(sig, span, made, records, js, clock, i)
  {
    var v := NewHub(span, made);
    if BackAt(sig, span, made, records, js, clock, i) {
      var (w, t) := Restored(sig, v, records[..i], clock[..i]);
      TakenNext(span, v.past.bound, js, clock, i);
      RestoredNext(sig, v, records, clock, i);
      OneMoreBack(sig, span, v.past.bound, w, t, Taken(span, v.past.bound, js[..i], clock[..i]), i,
                  records[i], js[i], clock[i]);
    }
  }

  /** Restoring jobs with distinct ids into a new hub: exactly those come back that the hub takes by their triggers,
      each as it was written, and the others are counted as errors. */
  lemma RestoreNew(sig: string -> Signature, span: int, made: int, records: seq<Record>, js: seq<Job>, clock: seq<int>)
    requires |clock| == |js| && DistinctIds(js) && Hold(records, js)
    ensures BackAll(sig, span, made, records, js, clock)
  {
    BackAtStart(sig, span, made, records, js, clock);
    var k := 0;
    while k < |js|
      invariant k <= |js| && BackAt(sig, span, made, records, js, clock, k)
    {
      RestoreNext(sig, span, made, records, js, clock, k);
      k := k + 1;
    }
    BackAtEnd(sig, span, made, records, js, clock);
  }

  lemma BackAtStart(sig: string -> Signature, span: int, made: int, records: seq<Record>, js: seq<Job>, clock: seq<int>)
    requires |clock| == |records| == |js|
    ensures BackAt(sig, span, made, records, js, clock, 0)
  {
    NewIsSound(sig, span, made);
  }

  lemma BackAtEnd(sig: string -> Signature, span: int, made: int, records: seq<Record>, js: seq<Job>, clock: seq<int>)
    requires |clock| == |records| == |js| && BackAt(sig, span, made, records, js, clock, |js|)
    ensures BackAll(sig, span, made, records, js, clock)
  {
    assert records[..|js|] == records && js[..|js|] == js && clock[..|js|] == clock;
  }

  // ---------- From hub to hub ----------

  /** The job that comes back from the record of j. */
  function Carried(j: Job): Job {
    j.(triggerAt := UNIX_EPOCH + UnixNano(j.triggerAt))
  }

  function AllCarried(js: seq<Job>): seq<Job> {
    seq(|js|, i requires 0 <= i < |js| => Carried(js[i]))
  }

  lemma RecordsHold(js: seq<Job>)
    ensures Hold(Records(js), AllCarried(js))
  {
    if js != [] {
      RecordsAt(js, 0);
    }
    forall i | 0 <= i < |js|
      ensures GobDecode(Records(js)[i]) == Some(Carried(js[i]))
    {
      RecordsAt(js, i);
    }
  }

  lemma {:induction false} ByIdAt(js: seq<Job>, i: nat)
    requires DistinctIds(js) && i < |js|
    ensures js[i].id in ById(js) && ById(js)[js[i].id] == js[i]
  {
    var n := |js| - 1;
    if i < n {
      ByIdAt(js[..n], i);
    }
  }

  lemma {:induction false} ByIdSize(js: seq<Job>)
    requires DistinctIds(js)
    ensures |ById(js)| == |js|
  {
    if js != [] {
      var n := |js| - 1;
      ByIdSize(js[..n]);
      ByIdKeys(js[..n], js[n].id);
      AddSize(ById(js[..n]), js[n]);
    }
  }

  lemma {:induction false} ByIdSizeAtMost(js: seq<Job>)
    ensures |ById(js)| <= |js|
  {
    if js != [] {
      var n := |js| - 1;
      ByIdSizeAtMost(js[..n]);
      AddSize(ById(js[..n]), js[n]);
    }
  }

  /** In an unambiguous hub no job is queued twice. */
  lemma PendingOnce(v: HubView, j: Job)
    requires Shaped(v) && Unambiguous(v) && j in Pending(v)
    ensures Pending(v)[j] == 1
  {
    var o := WhereQueued(v, j);
    OnlyThere(v, j, o);
    WithSpokePending(v, o, EmptySpoke(SpokeAt(v, o).bound));
    var w := WithSpoke(v, o, EmptySpoke(SpokeAt(v, o).bound));
    assert j !in Pending(w) by {
      if j in Pending(w) {
        var p := WhereQueued(w, j);
        WithSpokeAt(v, o, EmptySpoke(SpokeAt(v, o).bound), p);
      }
    }
    assert Agrees(SpokeAt(v, o));
  }

  lemma OnlyThere(v: HubView, j: Job, o: Owner)
    requires Unambiguous(v) && HasSpoke(v, o) && j in SpokeAt(v, o).pending
    ensures forall p :: HasSpoke(v, p) && j in SpokeAt(v, p).pending ==> p == o
  {
    forall p | HasSpoke(v, p) && j in SpokeAt(v, p).pending
      ensures p == o
    {
      assert Agrees(SpokeAt(v, p)) && Agrees(SpokeAt(v, o));
      assert Holds(v, p, j.id) && Holds(v, o, j.id);
    }
  }

  lemma ListedOnce(sig: string -> Signature, v: HubView, js: seq<Job>, m: nat, n: nat)
    requires Usable(sig, v) && multiset(js) <= Pending(v) && m < n < |js|
    ensures js[m].id != js[n].id
  {
    assert js[m] in multiset(js) && js[n] in multiset(js);
    if js[m].id == js[n].id {
      PendingIsFlat(v, js[m]);
      PendingIsFlat(v, js[n]);
      PendingOnce(v, js[m]);
      Twice(js, m, n);
    }
  }

  lemma ListedDistinct(sig: string -> Signature, v: HubView, js: seq<Job>)
    requires Usable(sig, v) && multiset(js) <= Pending(v)
    ensures DistinctIds(js)
  {
    forall m, n | 0 <= m < n < |js|
      ensures js[m].id != js[n].id
    {
      ListedOnce(sig, v, js, m, n);
    }
  }

  /** Any listing of the jobs of a usable hub is a listing of its flat map. */
  lemma ListingIsFlat(sig: string -> Signature, v: HubView, js: seq<Job>)
    requires Usable(sig, v) && multiset(js) == Pending(v)
    ensures DistinctIds(js) && ById(js) == Flat(v)
  {
    ListedDistinct(sig, v, js);
    ListingById(sig, v, js);
  }

  /** Whatever jobs of a usable hub have been saved, a new hub gets back exactly those of them that it takes by their
      triggers, each as its record carries it, and the others are counted. */
  lemma SavedComeBack(sig: string -> Signature, v: HubView, js: seq<Job>, span: int, made: int, clock: seq<int>)
    requires Usable(sig, v) && multiset(js) <= Pending(v) && |clock| == |js|
    ensures |Records(js)| == |js| && BackAll(sig, span, made, Records(js), AllCarried(js), clock)
  {
    ListedDistinct(sig, v, js);
    RecordsHold(js);
    RestoreNew(sig, span, made, Records(js), AllCarried(js), clock);
  }

  lemma Twice(js: seq<Job>, m: nat, n: nat)
    requires m < n < |js| && js[m] == js[n]
    ensures multiset(js)[js[m]] >= 2
  {
    assert js == js[..n] + [js[n]] + js[n + 1..];
    assert js[m] in js[..n];
    assert js[m] in multiset(js[..n]);
  }

  lemma ListingById(sig: string -> Signature, v: HubView, js: seq<Job>)
    requires Usable(sig, v) && multiset(js) == Pending(v) && DistinctIds(js)
    ensures ById(js) == Flat(v)
  {
    forall id | id in ById(js)
      ensures id in Flat(v) && Flat(v)[id] == ById(js)[id]
    {
      ListedIsFlat(sig, v, js, id);
    }
    forall id | id in Flat(v)
      ensures id in ById(js)
    {
      FlatIsListed(sig, v, js, id);
    }
  }

  lemma ListedIsFlat(sig: string -> Signature, v: HubView, js: seq<Job>, id: string)
    requires Usable(sig, v) && multiset(js) == Pending(v) && DistinctIds(js) && id in ById(js)
    ensures id in Flat(v) && Flat(v)[id] == ById(js)[id]
  {
    ByIdKeys(js, id);
    var i: nat :| i < |js| && js[i].id == id;
    assert js[i] in multiset(js);
    PendingIsFlat(v, js[i]);
    ByIdAt(js, i);
  }

  lemma FlatIsListed(sig: string -> Signature, v: HubView, js: seq<Job>, id: string)
    requires Usable(sig, v) && multiset(js) == Pending(v) && id in Flat(v)
    ensures id in ById(js)
  {
    FlatIsPending(v, id);
    assert Flat(v)[id] in multiset(js);
    ByIdKeys(js, id);
  }

  /** Persist and restore: a new hub made at any time has the same jobs by id as the usable hub that was persisted, if
      and only if every trigger is in the range of Unix nanoseconds, and is taken at the time of its restoration. */
  lemma RoundTrip(sig: string -> Signature, v: HubView, js: seq<Job>, span: int, made: int, clock: seq<int>)
    requires Usable(sig, v) && multiset(js) == Pending(v) && |clock| == |js|
    ensures |Records(js)| == |js|
    ensures var (w, t) := Restored(sig, NewHub(span, made), Records(js), clock);
            && Sound(sig, w) && t.errDecode == 0 && t.errAdd + t.recovered == |js|
            && (Flat(w) == Flat(v) <==>
                forall i :: 0 <= i < |js| ==>
                  InUnixRange(js[i].triggerAt) && Takeable(span, NewHub(span, made).past.bound, js[i], clock[i]))
  {
    var window := NewHub(span, made).past.bound;
    var ks := AllCarried(js);
    ListingIsFlat(sig, v, js);
    RecordsHold(js);
    RestoreNew(sig, span, made, Records(js), ks, clock);
    SameAgain(span, window, js, clock);
  }

  lemma SameAgain(span: int, window: Bound, js: seq<Job>, clock: seq<int>)
    requires DistinctIds(js) && |clock| == |js|
    ensures ById(Taken(span, window, AllCarried(js), clock)) == ById(js) <==>
            forall i :: 0 <= i < |js| ==> InUnixRange(js[i].triggerAt) && Takeable(span, window, js[i], clock[i])
  {
    if forall i :: 0 <= i < |js| ==> InUnixRange(js[i].triggerAt) && Takeable(span, window, js[i], clock[i]) {
      assert forall i :: 0 <= i < |js| ==> AllCarried(js)[i] == js[i];
      assert AllCarried(js) == js;
      TakenFrom(span, window, js, clock);
    }
    if ById(Taken(span, window, AllCarried(js), clock)) == ById(js) {
      SameOnlyIf(span, window, js, clock);
    }
  }

  lemma SameOnlyIf(span: int, window: Bound, js: seq<Job>, clock: seq<int>)
    requires DistinctIds(js) && |clock| == |js|
    requires ById(Taken(span, window, AllCarried(js), clock)) == ById(js)
    ensures forall i :: 0 <= i < |js| ==> InUnixRange(js[i].triggerAt) && Takeable(span, window, js[i], clock[i])
  {
    var ks := AllCarried(js);
    ByIdSize(js);
    ByIdSizeAtMost(Taken(span, window, ks, clock));
    TakenFrom(span, window, ks, clock);
    forall i | 0 <= i < |js|
      ensures InUnixRange(js[i].triggerAt) && Takeable(span, window, js[i], clock[i])
    {
      SameAt(js, ks, i);
      assert Takeable(span, window, ks[i], clock[i]);
    }
  }

  lemma SameAt(js: seq<Job>, ks: seq<Job>, i: nat)
    requires DistinctIds(js) && ks == AllCarried(js) && ById(ks) == ById(js) && i < |js|
    ensures ks[i] == js[i] && InUnixRange(js[i].triggerAt)
  {
    ByIdAt(js, i);
    ByIdAt(ks, i);
  }
}
