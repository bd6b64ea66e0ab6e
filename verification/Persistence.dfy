/** Where jobs go on shutdown and come from on start. The store behind it is not part of this model. */
module Persistence {
  import opened Jobs

  type Record = seq<Field>

  function Records(js: seq<Job>): seq<Record> {
    if js == [] then [] else Records(js[..|js| - 1]) + [GobEncode(js[|js| - 1])]
  }

  lemma {:induction false} RecordsAt(js: seq<Job>, i: nat)
    requires i < |js|
    ensures |Records(js)| == |js| && Records(js)[i] == GobEncode(js[i])
  {
    var n := |js| - 1;
    if i < n {
      RecordsAt(js[..n], i);
    } else if n > 0 {
      RecordsAt(js[..n], 0);
    }
  }

  class Persister {
    var records: seq<Record>
    var finalized: bool

    /** The jobs written, in this order, and those that could not be written. */
    ghost var saved: seq<Job>
    ghost var refused: seq<Job>
    /** Both together, in the order in which they were offered. */
    ghost var offered: seq<Job>

    ghost predicate Valid()
      reads this
    {
      records == Records(saved) && multiset(offered) == multiset(saved) + multiset(refused)
    }

    constructor ()
      ensures Valid() && offered == saved == refused == [] && !finalized
    {
      records, finalized := [], false;
      saved, refused, offered := [], [], [];
    }

    /** Writes one record. Writing may fail at any time; then nothing is written. */
    method Persist(j: Job) returns (ok: bool)
      requires Valid()
      modifies this
      ensures Valid() && finalized == old(finalized)
      ensures offered == old(offered) + [j]
      ensures if ok then saved == old(saved) + [j] && refused == old(refused)
              else saved == old(saved) && refused == old(refused) + [j]
    {
      ok := *;
      offered := offered + [j];
      if ok {
        records := records + [GobEncode(j)];
        assert (saved + [j])[..|saved|] == saved;
        saved := saved + [j];
      } else {
        refused := refused + [j];
      }
    }

    method Finalize()
      requires Valid()
      modifies this
      ensures Valid() && finalized && saved == old(saved) && refused == old(refused) && offered == old(offered)
    {
      finalized := true;
    }
  }
}
