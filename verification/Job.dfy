/** The unit of work, and its persisted form. */
module Jobs {
  import opened Options
  import opened Temporal

  const INT32_MIN := -0x8000_0000
  const INT32_MAX := 0x7fff_ffff
  const INT64_MIN := -0x8000_0000_0000_0000
  const INT64_MAX := 0x7fff_ffff_ffff_ffff

  type int32 = x: int | INT32_MIN <= x <= INT32_MAX
  type int64 = x: int | INT64_MIN <= x <= INT64_MAX

  datatype Job = Job(id: string, triggerAt: int, body: seq<bv8>, pri: int32, ttr: int64) {

    /** A job is past from its trigger instant on; it is never Current. */
    function AsTemporalState(now: int): State {
      if now > triggerAt then Past else if triggerAt > now then Future else Past
    }

    /** The bucket of a hypothetical spoke that should hold this job. */
    function AsBound(spokeSpan: int): Bound {
      BoundOf(triggerAt, spokeSpan)
    }
  }

  // ---------- The persisted form ----------

  /** One value in a gob stream. Integers of all sizes look the same there. */
  datatype Field = Text(s: string) | Number(n: int64) | Bytes(b: seq<bv8>)

  /** 1 January 1970, UTC. */
  const UNIX_EPOCH := 62_135_596_800 * 1_000_000_000

  /** The 64-bit two's complement value of x. */
  function Wrap64(x: int): int64 {
    (x + 0x8000_0000_0000_0000) % 0x1_0000_0000_0000_0000 - 0x8000_0000_0000_0000
  }

  function UnixNano(t: int): int64 {
    Wrap64(t - UNIX_EPOCH)
  }

  /** Whether the distance of t from the epoch can be written in nanoseconds: about the years 1678 to 2262. */
  predicate InUnixRange(t: int) {
    INT64_MIN <= t - UNIX_EPOCH <= INT64_MAX
  }

  function GobEncode(j: Job): seq<Field> {
    [Text(j.id), Number(j.pri), Number(UnixNano(j.triggerAt)), Number(j.ttr), Bytes(j.body)]
  }

  /** Reads the values back one by one. The stream may end before the body, and may go on after it. */
  function GobDecode(data: seq<Field>): Option<Job> {
    if |data| < 4 || !data[0].Text? || !data[1].Number? || !data[2].Number? || !data[3].Number? then
      None
    else if !(INT32_MIN <= data[1].n <= INT32_MAX) then
      None
    else if |data| == 4 then
      Some(Job(data[0].s, UNIX_EPOCH + data[2].n, [], data[1].n, data[3].n))
    else if !data[4].Bytes? then
      None
    else
      Some(Job(data[0].s, UNIX_EPOCH + data[2].n, data[4].b, data[1].n, data[3].n))
  }

  /** A job survives the round trip exactly when its trigger is in the range of Unix nanoseconds. Otherwise all but
      the trigger survives. */
  lemma RoundTripIff(j: Job)
    ensures GobDecode(GobEncode(j)) == Some(j) <==> InUnixRange(j.triggerAt)
    ensures InUnixRange(j.triggerAt) <==>
            -9_223_372_036_854_775_808 <= j.triggerAt - 62_135_596_800_000_000_000 <= 9_223_372_036_854_775_807
    ensures GobDecode(GobEncode(j)).Some?
    ensures GobDecode(GobEncode(j)).value.(triggerAt := j.triggerAt) == j
  {
    var x := j.triggerAt - UNIX_EPOCH;
    assert GobDecode(GobEncode(j)) == Some(j.(triggerAt := UNIX_EPOCH + Wrap64(x)));
    assert Wrap64(x) == x <==> InUnixRange(j.triggerAt);
  }

  /** What stands where in a record: id, priority, trigger in nanoseconds since 1970, time to run, body. */
  lemma EncodedFields(j: Job)
    ensures |GobEncode(j)| == 5
    ensures GobEncode(j)[0] == Text(j.id) && GobEncode(j)[1] == Number(j.pri)
    ensures InUnixRange(j.triggerAt) ==> GobEncode(j)[2] == Number(j.triggerAt - 62_135_596_800_000_000_000)
    ensures GobEncode(j)[3] == Number(j.ttr) && GobEncode(j)[4] == Bytes(j.body)
  {
    RoundTripIff(j);
  }

  /** Exactly which values can be decoded, and to what. Whatever comes after the body is ignored. */
  lemma DecodesIff(data: seq<Field>)
    ensures GobDecode(data).Some? <==>
            && |data| >= 4 && data[0].Text? && data[1].Number? && data[2].Number? && data[3].Number?
            && -2_147_483_648 <= data[1].n <= 2_147_483_647 && (|data| == 4 || data[4].Bytes?)
    ensures GobDecode(data).Some? ==>
              var j := GobDecode(data).value;
              && j.id == data[0].s && j.pri == data[1].n && j.triggerAt == 62_135_596_800_000_000_000 + data[2].n
              && j.ttr == data[3].n && j.body == if |data| == 4 then [] else data[4].b
  {
  }

  /** A record cut short is noticed, unless exactly the body is missing: then the job comes back without it. */
  lemma CutRecord(j: Job, n: nat)
    requires n < |GobEncode(j)|
    ensures GobDecode(GobEncode(j)[..n]) ==
            if n == 4 then Some(GobDecode(GobEncode(j)).value.(body := [])) else None
  {
    RoundTripIff(j);
  }
}
