/**
 UserFileEnhancement: keeps a match about a regular user file under
 `/alice` that still exists and was read in the last day with a total
 bandwidth of at least 24 GiB, and lists the job ids the reading client
 logged in with.

 The Elasticsearch searches and the AliEn `stat` are inputs: `statSizes`
 holds the `size` field of each stat result entry, `hits` the total number
 of read accesses, `clientId` the `clientID` of the first access found and
 `loginArguments` the first `arguments` entry of each `login` hit of that
 client, in the order the search returns them.
 */
module UserFile {
  import opened Matches
  import opened Paths
  import opened Bandwidth
  import opened QueueIds
  import Strings

  /** `UserFileEnhancement.process(match)`. */
  function Process(m: Match, statSizes: seq<nat>, hits: nat, clientId: string, loginArguments: seq<string>): (o: Outcome)
    ensures !o.Keep? ==> o.m == m
    ensures o.Keep? ==> FilePathKey in m && o.m.Keys == (m.Keys + {FileNameKey, OccurencesKey, BandwidthKey, QueueIdsKey}) - SourceKeys
  {
    if FilePathKey !in m then Fault(MissingKey(FilePathKey), m)
    else if m[FilePathKey].Num? then Fault(NotAString(FilePathKey), m)
    // a rendered float such as `279.4` never contains `/alice`
    else if m[FilePathKey].GiB? then Drop(NotAFile, m)
    else
      var path := m[FilePathKey].s;
      if !IsFile(path) then Drop(NotAFile, m)
      else if !IsRegularUserFile(path) then Drop(NotRegularUserFile, m)
      else if |statSizes| == 0 then Drop(FileGone, m)
      else
        var bandwidth := Used(statSizes[0], hits);
        if bandwidth < UserFileLimit then Drop(BandwidthNotExceeded, m)
        else
          var queueIds := QueueIdsText(JobLinks(loginArguments), clientId);
          Keep(StripSource(Assign(Annotate(m, hits, bandwidth), QueueIdsKey, Str(queueIds))))
  }

  /** A path without `/alice` is dropped before anything is looked up. */
  lemma NotAFileDrops(m: Match, path: string, statSizes: seq<nat>, hits: nat, clientId: string, loginArguments: seq<string>)
    requires HasPath(m, path) && !IsFile(path)
    ensures Process(m, statSizes, hits, clientId, loginArguments) == Drop(NotAFile, m)
  {
  }

  /** Anything but a regular user file is left to FileFilterEnhancement. */
  lemma NotRegularUserFileDrops(m: Match, path: string, statSizes: seq<nat>, hits: nat, clientId: string, loginArguments: seq<string>)
    requires HasPath(m, path) && !IsRegularUserFile(path)
    ensures Process(m, statSizes, hits, clientId, loginArguments).Drop?
  {
  }

  /** An empty stat result means the file no longer exists. */
  lemma EmptyStatDrops(m: Match, path: string, hits: nat, clientId: string, loginArguments: seq<string>)
    requires HasPath(m, path)
    ensures Process(m, [], hits, clientId, loginArguments).Drop?
  {
  }

  /**
   A `bandwidth_used_GB`-style value stands for the text of a rounded float,
   which never contains `/alice`, so such a path is dropped as not a file.
   */
  lemma RenderedPathDrops(m: Match, statSizes: seq<nat>, hits: nat, clientId: string, loginArguments: seq<string>)
    requires FilePathKey in m && m[FilePathKey].GiB?
    ensures Process(m, statSizes, hits, clientId, loginArguments) == Drop(NotAFile, m)
  {
  }

  /** A match without `file_path.keyword` raises KeyError; a numeric path raises TypeError. */
  lemma BadPathFaults(m: Match, statSizes: seq<nat>, hits: nat, clientId: string, loginArguments: seq<string>)
    requires FilePathKey !in m || m[FilePathKey].Num?
    ensures Process(m, statSizes, hits, clientId, loginArguments) ==
      Fault(if FilePathKey !in m then MissingKey(FilePathKey) else NotAString(FilePathKey), m)
  {
  }

  /**
   Once the path is a regular user file that exists, the match is dropped
   exactly when its bandwidth is below 24 GiB, and kept otherwise; the job
   ids found never cause a drop.
   */
  lemma BandwidthGate(m: Match, path: string, size: nat, rest: seq<nat>, hits: nat, clientId: string, loginArguments: seq<string>)
    requires HasPath(m, path) && IsFile(path) && IsRegularUserFile(path)
    ensures Process(m, [size] + rest, hits, clientId, loginArguments).Drop? <==> Used(size, hits) < UserFileLimit
    ensures Process(m, [size] + rest, hits, clientId, loginArguments).Keep? <==> Exceeds(size, hits, UserFileLimit)
  {
  }

  /** More reads of the same file never turn a kept match into a dropped one. */
  lemma KeepMonotone(m: Match, statSizes: seq<nat>, hits: nat, hits': nat, clientId: string, loginArguments: seq<string>)
    requires hits <= hits'
    requires Process(m, statSizes, hits, clientId, loginArguments).Keep?
    ensures Process(m, statSizes, hits', clientId, loginArguments).Keep?
  {
    ExceedsMonotone(statSizes[0], hits, hits', UserFileLimit);
  }

  /**
   Whether a match is kept does not depend on the login search: the job ids
   only decide the text stored with it.
   */
  lemma KeepIgnoresLogins(m: Match, statSizes: seq<nat>, hits: nat, clientId: string, args: seq<string>, clientId': string, args': seq<string>)
    ensures Process(m, statSizes, hits, clientId, args).Keep? == Process(m, statSizes, hits, clientId', args').Keep?
  {
  }

  /**
   A kept match has its path moved to `file_name`, the hit count in
   `occurences`, the bandwidth in `bandwidth_used_GB` and the job links (or
   the fallback text naming the client) in
   `last_10_queueIds_of_this_clientID`; `file_path.keyword`, `num_hits` and
   `num_matches` are gone and every other field is unchanged.
   */
  lemma KeptMatch(m: Match, statSizes: seq<nat>, hits: nat, clientId: string, loginArguments: seq<string>)
    requires Process(m, statSizes, hits, clientId, loginArguments).Keep?
    ensures var r := Process(m, statSizes, hits, clientId, loginArguments).m;
      && FileNameKey in r && r[FileNameKey] == m[FilePathKey]
      && OccurencesKey in r && r[OccurencesKey] == Num(hits)
      && BandwidthKey in r && r[BandwidthKey] == GiB(Used(statSizes[0], hits))
      && QueueIdsKey in r
      && (|JobLinks(loginArguments)| > 0 ==> r[QueueIdsKey] == Str(Strings.Join(JobLinks(loginArguments), ", ")))
      && (|JobLinks(loginArguments)| == 0 ==> r[QueueIdsKey] == Str("No queueId found for clientID=" + clientId))
      && FilePathKey !in r && NumHitsKey !in r && NumMatchesKey !in r
      && (forall k :: k in m && k !in SourceKeys && k !in {FileNameKey, OccurencesKey, BandwidthKey, QueueIdsKey} ==> k in r && r[k] == m[k])
  {
    KeysDistinct();
    var bandwidth := Used(statSizes[0], hits);
    var annotated := Annotate(m, hits, bandwidth);
    var queueIds := QueueIdsText(JobLinks(loginArguments), clientId);
    var full := Assign(annotated, QueueIdsKey, Str(queueIds));
    assert Process(m, statSizes, hits, clientId, loginArguments).m == StripSource(full);
    assert full[QueueIdsKey] == Str(queueIds);
  }
}
