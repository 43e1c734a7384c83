/**
 The match record handed to an enhancement: a map from field names to
 values. An enhancement either keeps the match (possibly enriched), drops it
 (DropMatchException) or fails with an uncaught Python error.
 */
module Matches {

  /**
   A field value. `GiB(bytes)` is the text `str(round(bytes / 1024**3, 2))`
   the enhancements store under `bandwidth_used_GB`; the floating-point
   rendering itself is not modelled, only the byte count it is computed from.
   */
  datatype Value = Str(s: string) | Num(n: int) | GiB(bytes: nat)

  type Match = map<string, Value>

  const FilePathKey := "file_path.keyword"
  const FileNameKey := "file_name"
  const OccurencesKey := "occurences"
  const BandwidthKey := "bandwidth_used_GB"
  const QueueIdsKey := "last_10_queueIds_of_this_clientID"
  const NumHitsKey := "num_hits"
  const NumMatchesKey := "num_matches"

  /** The keys an enrichment removes from the match. */
  const SourceKeys: set<string> := {FilePathKey, NumHitsKey, NumMatchesKey}

  /** The match carries `path` as its `file_path.keyword` string. */
  predicate HasPath(m: Match, path: string) {
    FilePathKey in m && m[FilePathKey] == Str(path)
  }

  /** The field names are pairwise distinct, so no assignment or pop clobbers another. */
  lemma KeysDistinct()
    ensures FileNameKey !in SourceKeys && OccurencesKey !in SourceKeys
    ensures BandwidthKey !in SourceKeys && QueueIdsKey !in SourceKeys
    ensures |{FileNameKey, OccurencesKey, BandwidthKey, QueueIdsKey}| == 4
    ensures |SourceKeys| == 3
  {
  }

  /** Why a match was dropped; one per logged drop message. */
  datatype DropReason =
    | NotAFile
    | RegularUserFile
    | NotRegularUserFile
    | FileGone
    | BandwidthNotExceeded
    | Weekend

  /** The Python errors `process` lets escape. */
  datatype Fault =
    | MissingKey(key: string)   // KeyError on a match lookup
    | NotAString(key: string)   // TypeError: a substring test on a non-string value

  /**
   The result of `process`. In every case `m` is the match as the caller's
   dictionary holds it once `process` has returned or raised.
   */
  datatype Outcome =
    | Keep(m: Match)
    | Drop(reason: DropReason, m: Match)
    | Fault(fault: Fault, m: Match)

  /** `match[k] = v`. */
  function Assign(m: Match, k: string, v: Value): (r: Match)
    ensures r.Keys == m.Keys + {k}
    ensures r[k] == v
    ensures forall k' :: k' in m && k' != k ==> r[k'] == m[k']
  {
    m[k := v]
  }

  /** `match.pop(k, None)`: removes `k` when present, no error when absent. */
  function Pop(m: Match, k: string): (r: Match)
    ensures r.Keys == m.Keys - {k}
    ensures forall k' :: k' in r ==> r[k'] == m[k']
  {
    m - {k}
  }

  /**
   The three assignments common to both file enhancements: the path is
   copied to `file_name`, the hit count stored as `occurences` and the
   bandwidth as `bandwidth_used_GB`.
   */
  function Annotate(m: Match, hits: nat, bandwidth: nat): (r: Match)
    requires FilePathKey in m
    ensures r.Keys == m.Keys + {FileNameKey, OccurencesKey, BandwidthKey}
    ensures r[FileNameKey] == m[FilePathKey]
    ensures r[OccurencesKey] == Num(hits)
    ensures r[BandwidthKey] == GiB(bandwidth)
    ensures forall k :: k in m && k !in {FileNameKey, OccurencesKey, BandwidthKey} ==> r[k] == m[k]
  {
    var m1 := Assign(m, FileNameKey, m[FilePathKey]);
    var m2 := Assign(m1, OccurencesKey, Num(hits));
    Assign(m2, BandwidthKey, GiB(bandwidth))
  }

  /** The three pops that end both file enhancements. */
  function StripSource(m: Match): (r: Match)
    ensures r.Keys == m.Keys - SourceKeys
    ensures forall k :: k in r ==> r[k] == m[k]
  {
    Pop(Pop(Pop(m, FilePathKey), NumHitsKey), NumMatchesKey)
  }
}
