/** Counters kept beside the hub, so that reporting does not have to walk the spokes. */
module Stats {

  datatype Snapshot = Snapshot(currentJobs: int, removedJobs: int, currentSpokes: int)

  function JobAdded(s: Snapshot): Snapshot {
    s.(currentJobs := s.currentJobs + 1)
  }

  function JobRemoved(s: Snapshot): Snapshot {
    s.(currentJobs := s.currentJobs - 1, removedJobs := s.removedJobs + 1)
  }

  function SpokeAdded(s: Snapshot): Snapshot {
    s.(currentSpokes := s.currentSpokes + 1)
  }

  function SpokeRemoved(s: Snapshot): Snapshot {
    s.(currentSpokes := s.currentSpokes - 1)
  }

  class Counters {
    var s: Snapshot

    constructor ()
      ensures s == Snapshot(0, 0, 0)
    {
      s := Snapshot(0, 0, 0);
    }

    method IncrJob()
      modifies this
      ensures s == JobAdded(old(s))
    {
      s := s.(currentJobs := s.currentJobs + 1);
    }

    method DecrJob()
      modifies this
      ensures s == JobRemoved(old(s))
    {
      s := s.(currentJobs := s.currentJobs - 1);
      s := s.(removedJobs := s.removedJobs + 1);
    }

    method IncrSpoke()
      modifies this
      ensures s == SpokeAdded(old(s))
    {
      s := s.(currentSpokes := s.currentSpokes + 1);
    }

    method DecrSpoke()
      modifies this
      ensures s == SpokeRemoved(old(s))
    {
      s := s.(currentSpokes := s.currentSpokes - 1);
    }
  }
}
