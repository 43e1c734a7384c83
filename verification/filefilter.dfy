/**
 FileFilterEnhancement: keeps a match about a file under `/alice` that is
 not a regular user file, still exists, and was read in the last day with a
 total bandwidth of at least 240 GiB.

 The Elasticsearch count and the AliEn `stat` are inputs: `statSizes` holds
 the `size` field of each entry of the stat result list and `hits` the
 count of read accesses.
 */
module FileFilter {
  import opened Matches
  import opened Paths
  import opened Bandwidth

  /** `FileFilterEnhancement.process(match)`. */
  function Process(m: Match, statSizes: seq<nat>, hits: nat): (o: Outcome)
    ensures !o.Keep? ==> o.m == m
    ensures o.Keep? ==> FilePathKey in m && o.m.Keys == (m.Keys + {FileNameKey, OccurencesKey, BandwidthKey}) - SourceKeys
  {
    if FilePathKey !in m then Fault(MissingKey(FilePathKey), m)
    else if m[FilePathKey].Num? then Fault(NotAString(FilePathKey), m)
    // a rendered float such as `279.4` never contains `/alice`
    else if m[FilePathKey].GiB? then Drop(NotAFile, m)
    else
      var path := m[FilePathKey].s;
      if !IsFile(path) then Drop(NotAFile, m)
      else if IsRegularUserFile(path) then Drop(RegularUserFile, m)
      else if |statSizes| == 0 then Drop(FileGone, m)
      else
        var bandwidth := Used(statSizes[0], hits);
        if bandwidth < AnyFileLimit then Drop(BandwidthNotExceeded, m)
        else Keep(StripSource(Annotate(m, hits, bandwidth)))
  }

  /** A path without `/alice` is dropped before anything is looked up. */
  lemma NotAFileDrops(m: Match, path: string, statSizes: seq<nat>, hits: nat)
    requires HasPath(m, path) && !IsFile(path)
    ensures Process(m, statSizes, hits) == Drop(NotAFile, m)
  {
  }

  /** A regular user file is left to UserFileEnhancement. */
  lemma RegularUserFileDrops(m: Match, path: string, statSizes: seq<nat>, hits: nat)
    requires HasPath(m, path) && IsRegularUserFile(path)
    ensures Process(m, statSizes, hits).Drop?
  {
  }

  /** An empty stat result means the file no longer exists. */
  lemma EmptyStatDrops(m: Match, path: string, hits: nat)
    requires HasPath(m, path)
    ensures Process(m, [], hits).Drop?
  {
  }

  /**
   A `bandwidth_used_GB`-style value stands for the text of a rounded float,
   which never contains `/alice`, so such a path is dropped as not a file.
   */
  lemma RenderedPathDrops(m: Match, statSizes: seq<nat>, hits: nat)
    requires FilePathKey in m && m[FilePathKey].GiB?
    ensures Process(m, statSizes, hits) == Drop(NotAFile, m)
  {
  }

  /** A match without `file_path.keyword` raises KeyError; a numeric path raises TypeError. */
  lemma BadPathFaults(m: Match, statSizes: seq<nat>, hits: nat)
    requires FilePathKey !in m || m[FilePathKey].Num?
    ensures Process(m, statSizes, hits) ==
      Fault(if FilePathKey !in m then MissingKey(FilePathKey) else NotAString(FilePathKey), m)
  {
  }

  /**
   Once the path has passed both classifiers and the file exists, the match
   is dropped exactly when its bandwidth is below 240 GiB, and kept otherwise.
   */
  lemma BandwidthGate(m: Match, path: string, size: nat, rest: seq<nat>, hits: nat)
    requires HasPath(m, path) && IsFile(path) && !IsRegularUserFile(path)
    ensures Process(m, [size] + rest, hits).Drop? <==> Used(size, hits) < AnyFileLimit
    ensures Process(m, [size] + rest, hits).Keep? <==> Exceeds(size, hits, AnyFileLimit)
  {
  }

  /** More reads of the same file never turn a kept match into a dropped one. */
  lemma KeepMonotone(m: Match, statSizes: seq<nat>, hits: nat, hits': nat)
    requires hits <= hits'
    requires Process(m, statSizes, hits).Keep?
    ensures Process(m, statSizes, hits').Keep?
  {
    ExceedsMonotone(statSizes[0], hits, hits', AnyFileLimit);
  }

  /**
   A kept match has its path moved to `file_name`, the hit count in
   `occurences` and the bandwidth in `bandwidth_used_GB`; `file_path.keyword`,
   `num_hits` and `num_matches` are gone and every other field is unchanged.
   */
  lemma KeptMatch(m: Match, statSizes: seq<nat>, hits: nat)
    requires Process(m, statSizes, hits).Keep?
    ensures var r := Process(m, statSizes, hits).m;
      && FileNameKey in r && r[FileNameKey] == m[FilePathKey]
      && OccurencesKey in r && r[OccurencesKey] == Num(hits)
      && BandwidthKey in r && r[BandwidthKey] == GiB(Used(statSizes[0], hits))
      && FilePathKey !in r && NumHitsKey !in r && NumMatchesKey !in r
      && (forall k :: k in m && k !in SourceKeys && k !in {FileNameKey, OccurencesKey, BandwidthKey} ==> k in r && r[k] == m[k])
  {
  }
}
