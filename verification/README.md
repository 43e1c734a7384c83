# Match enhancements of the ALICE ElastAlert rules, in Dafny

This project models the match enhancements in `elastalert/enhancements.py`.
ElastAlert calls an enhancement's `process(match)` on each alert match
before the alert is sent. The enhancement then keeps the match (and may
enrich it) or drops it by raising `DropMatchException`.

- **FileFilterEnhancement** drops a match unless its `file_path.keyword`
  has these properties:
  - it contains `/alice`;
  - it is not a regular user file (one whose path contains `/user/` but
    contains neither `/user/a/alitrain` nor `/user/a/aliprod`);
  - the AliEn `stat` still finds it;
  - its size times the number of read accesses in the last day is at least
    240 GiB.

  A kept match gets `file_name`, `occurences` and `bandwidth_used_GB`, and
  loses `file_path.keyword`, `num_hits` and `num_matches`.
- **UserFileEnhancement** keeps only regular user files, with a 24 GiB
  limit. It also adds `last_10_queueIds_of_this_clientID`. That field holds
  markdown links to the job viewer, one per job id found in the `login`
  entries of the client that read the file. When no id is found it holds a
  fallback text naming the client.
- **WeekendFilterEnhancement** drops every match on Saturday and Sunday.

Each `process` is a pure function returning an `Outcome`:
`Keep(match)`, `Drop(reason, match)` or `Fault(error, match)`. A `Fault`
stands for a Python error the enhancement does not catch. The match carried
by each outcome is the match as the caller holds it afterwards. The results
of external lookups are parameters:

- the `size` fields of the AliEn `stat` result list;
- the Elasticsearch hit count;
- the `clientID` of the first access;
- the first `arguments` string of each `login` hit;
- the ISO weekday.

There is one module per enhancement class, plus helper modules:

- `Options`: the optional result of a search that can miss.
- `Strings`: Python's `in`, `split` and `join`.
- `Matches`: the match record, its field names and the updates made to it.
- `Paths`: `isFile` and `isRegularUserFile`.
- `Bandwidth`: the limits and the gate.
- `QueueIds`: the regular expression and the job-link text.
- `FileFilter`, `UserFile`, `WeekendFilter`: one per enhancement class.
- `Pipeline`: facts about the enhancements taken together.

The regular expression `OU=queueid\\=(.+?)/resubmission\\=(.+?)` is
modelled as Python's `re.search` runs it:

- the leftmost starting index wins;
- at that index the lazy first group is as short as possible;
- `.` matches any character but a newline;
- one more character must follow `/resubmission\=`.

`QueueIds.ExtractJobId` is proved against this position-based definition.

Behaviour worth noting:

- A comma-separated piece the pattern does not match contributes no job id
  and raises nothing; the `except` at lines 155-156 swallows the miss.
- WeekendFilterEnhancement reads `match['file_name']` at line 179, before the
  day test at line 180. A match without that field therefore raises KeyError
  on every day, weekdays included.
- Each id found becomes a markdown link to the job viewer (line 153).

## Model

| member | source | states |
|---|---|---|
| Strings.Contains | elastalert/enhancements.py:88-92 | Python `sub in s` is true exactly when `sub` occurs in `s` at some index; the empty string occurs everywhere |
| Strings.Split | elastalert/enhancements.py:149 | `argument.split(",")` yields at least one piece, no piece contains the separator, and joining the pieces with the separator gives the argument back |
| Strings.Join | elastalert/enhancements.py:162 | Python's `sep.join(parts)`; Split and SplitOfJoin show it is the inverse of `split` on separator-free pieces, and QueueIds.JoinSpaced relates the `', '`-join to the `','`-join |
| Strings.SplitOfJoin | elastalert/enhancements.py:149 | splitting the join of separator-free pieces returns exactly those pieces, so Split is the inverse of Join |
| Matches.Assign | elastalert/enhancements.py:80-82 | `match[k] = v` adds `k`, maps it to `v` and leaves every other field as it was |
| Matches.Pop | elastalert/enhancements.py:84-86 | `match.pop(k, None)` removes `k` if present, raises nothing if absent, and leaves the other fields as they were |
| Matches.Annotate | elastalert/enhancements.py:80-82 | `file_name` gets the `file_path.keyword` value, `occurences` the hit count, `bandwidth_used_GB` the bandwidth; every other field is unchanged |
| Matches.StripSource | elastalert/enhancements.py:84-86 | the result has exactly the input's keys minus `file_path.keyword`, `num_hits` and `num_matches`, with their values unchanged |
| Matches.KeysDistinct | elastalert/enhancements.py:158-168 | the added and removed field names are pairwise distinct, so no assignment or pop undoes another |
| Paths.IsFile | elastalert/enhancements.py:88-89 | a path is a file exactly when `/alice` occurs in it |
| Paths.IsRegularUserFile | elastalert/enhancements.py:91-92 | a path is a regular user file exactly when `/user/` occurs in it and neither `/user/a/alitrain` nor `/user/a/aliprod` does |
| Paths.ProductionPathIsNotRegular | elastalert/enhancements.py:91-92 | a path under either production account also contains `/user/`, yet is never a regular user file |
| Bandwidth.Used | elastalert/enhancements.py:74 | the bandwidth is zero exactly when the file is empty or unread, and at least the size once it is read |
| Bandwidth.Exceeds | elastalert/enhancements.py:76 | the gate that lets a match through; ExceedsMonotone and ExceedsMonotoneInSize show it is monotone in hits and in size |
| Bandwidth.LimitsInBytes | elastalert/enhancements.py:73-76 | the limits are 240 * 1024^3 = 257698037760 and 24 * 1024^3 = 25769803776 bytes, one tenth of each other |
| Bandwidth.ExceedsMonotone | elastalert/enhancements.py:73-78 | if the gate passes for `h` hits it passes for every `h' >= h` at the same size |
| Bandwidth.ExceedsMonotoneInSize | elastalert/enhancements.py:132-137 | if the gate passes for a size it passes for every larger size at the same hit count |
| Bandwidth.AnyFileGateImpliesUserGate | elastalert/enhancements.py:132-137 | a bandwidth that reaches 240 GiB also reaches 24 GiB |
| Bandwidth.NothingReadIsDropped | elastalert/enhancements.py:74-78 | an empty file, or one never read, is below both limits |
| Bandwidth.GigabyteFileReadThreeHundredTimes | elastalert/enhancements.py:73-76 | 10^9 bytes read 300 times is 3 * 10^11 bytes and passes the 240 GiB gate |
| QueueIds.ShortestGroup | elastalert/enhancements.py:152 | the lazy `(.+?)` finds the shortest newline-free group after which `/resubmission\=` and one more non-newline character follow, or reports that no length works |
| QueueIds.SearchFrom | elastalert/enhancements.py:152 | the search reports the leftmost index at which the pattern matches, with the shortest group there, or that no index from the start position on matches |
| QueueIds.FirstMatchUnique | elastalert/enhancements.py:152 | there is only one leftmost-shortest match |
| QueueIds.ExtractJobId | elastalert/enhancements.py:151-156 | an id is found exactly when the pattern matches somewhere, and the id is then the group of the leftmost-shortest match |
| QueueIds.ExtractJobIdIsFirstMatch | elastalert/enhancements.py:152 | whenever a leftmost-shortest match exists, its group is the id found |
| QueueIds.MatchMentionsQueueId | elastalert/enhancements.py:150-152 | every piece the pattern matches contains `queueid` |
| QueueIds.NoMarkerNoId | elastalert/enhancements.py:150 | a piece without `queueid` yields no id |
| QueueIds.SegmentLinkIsMatch | elastalert/enhancements.py:149-156 | a piece contributes one link exactly when the pattern matches it, otherwise nothing, and raises no error; the `queueid` pre-filter changes nothing |
| QueueIds.ExtractedIdAvoidsChar | elastalert/enhancements.py:149-152 | the id is text of its piece, so it contains no character the piece lacks, in particular no comma after the split on `,` |
| QueueIds.ExampleSegment | elastalert/enhancements.py:152 | the piece `OU=queueid\=12345/resubmission\=0` yields the id `12345` |
| QueueIds.JobLink | elastalert/enhancements.py:153 | the id's markdown link; LinkIdOfJobLink shows it is injective (the id is read back) and JobLinkLacksComma that it adds no comma |
| QueueIds.SegmentLink | elastalert/enhancements.py:150-156 | what one piece contributes; SegmentLinkIsMatch shows it is one link exactly when the pattern matches and nothing otherwise |
| QueueIds.JobLinks | elastalert/enhancements.py:146-156 | the ids of all login hits; JobLinksAppend with SegmentLinkIsMatch shows it keeps hits and pieces in order, CollectJobIds that the nested loop computes it |
| QueueIds.QueueIdsText | elastalert/enhancements.py:161-164 | the stored queue-id text; QueueIdsTextSplits shows the links can be split back out of it and QueueIdsTextShowsFound that the fallback is told apart |
| QueueIds.LinkIdOfJobLink | elastalert/enhancements.py:153 | the link `[id](https://alimonitor.cern.ch/jobs/jdl.jsp?pid=id)` has length 2 * \|id\| plus a constant, and the id can be read back from it |
| QueueIds.JobLinkLacksComma | elastalert/enhancements.py:153 | a link built from a comma-free id has no comma |
| QueueIds.JobLinksAreLinks | elastalert/enhancements.py:153-154 | every collected element is such a markdown link |
| QueueIds.SegmentLinksAppend | elastalert/enhancements.py:149-154 | the links of concatenated piece lists are the concatenation of their links: pieces keep their order |
| QueueIds.JobLinksAppend | elastalert/enhancements.py:147-154 | the links of concatenated hit lists are the concatenation of their links: hits keep their order |
| QueueIds.ArgumentLinksLackComma | elastalert/enhancements.py:148-153 | no link found in one argument contains a comma |
| QueueIds.JobLinksLackComma | elastalert/enhancements.py:147-154 | no collected link contains a comma |
| QueueIds.SampleArgumentOneLink | elastalert/enhancements.py:147-154 | the argument `OU=queueid\=1/resubmission\=0` yields exactly one link |
| QueueIds.NoCapOfTen | elastalert/enhancements.py:146-162 | any `n` login hits that yield one link each give exactly `n` links, for any `n`: the loop itself applies no cap of ten |
| QueueIds.CollectArgumentIds | elastalert/enhancements.py:148-156 | the inner loop over the comma-separated pieces of one argument collects exactly that argument's links, in order |
| QueueIds.CollectJobIds | elastalert/enhancements.py:146-156 | the nested loop collects exactly the links of all hits, hits in order and pieces in order |
| QueueIds.JoinSpaced | elastalert/enhancements.py:162 | the `', '`-join of the links equals the `','`-join of the links with a blank in front of each one after the first |
| QueueIds.QueueIdsTextSplits | elastalert/enhancements.py:161-164 | splitting the stored text on `,` gives the links back, each after the first with its leading blank |
| QueueIds.QueueIdsTextShowsFound | elastalert/enhancements.py:161-164 | the stored text is never empty and starts with `[` exactly when an id was found, so the fallback text cannot be mistaken for a link list |
| FileFilter.Process | elastalert/enhancements.py:46-86 | a drop or fault leaves the match as it was; a kept match has exactly the input's keys plus the three added ones, minus the three removed ones |
| FileFilter.NotAFileDrops | elastalert/enhancements.py:47-50 | a path without `/alice` is dropped as not a file, whatever the lookups return |
| FileFilter.RegularUserFileDrops | elastalert/enhancements.py:52-54 | a regular user file is dropped |
| FileFilter.EmptyStatDrops | elastalert/enhancements.py:58-61 | an empty stat result drops the match |
| FileFilter.RenderedPathDrops | elastalert/enhancements.py:47-50 | a path holding rendered float text never contains `/alice` and is dropped as not a file |
| FileFilter.BadPathFaults | elastalert/enhancements.py:47-48 | a missing `file_path.keyword` raises KeyError (`MissingKey`) and a numeric one TypeError (`NotAString`), leaving the match as it was |
| FileFilter.BandwidthGate | elastalert/enhancements.py:73-78 | past the classifiers and the stat lookup, the match is dropped exactly when size * hits < 240 GiB and kept exactly when it is not |
| FileFilter.KeepMonotone | elastalert/enhancements.py:73-78 | a kept match stays kept with more hits |
| FileFilter.KeptMatch | elastalert/enhancements.py:80-86 | a kept match has `file_name` = the original path value, `occurences` = hits, `bandwidth_used_GB` set, no `file_path.keyword`/`num_hits`/`num_matches`, and every other field unchanged |
| UserFile.Process | elastalert/enhancements.py:107-168 | a drop or fault leaves the match as it was; a kept match has exactly the input's keys plus the four added ones, minus the three removed ones |
| UserFile.NotAFileDrops | elastalert/enhancements.py:108-112 | a path without `/alice` is dropped as not a file, whatever the lookups return |
| UserFile.NotRegularUserFileDrops | elastalert/enhancements.py:114-116 | a path that is not a regular user file is dropped |
| UserFile.EmptyStatDrops | elastalert/enhancements.py:120-123 | an empty stat result drops the match |
| UserFile.RenderedPathDrops | elastalert/enhancements.py:108-112 | a path holding rendered float text never contains `/alice` and is dropped as not a file |
| UserFile.BadPathFaults | elastalert/enhancements.py:108-110 | a missing `file_path.keyword` raises KeyError (`MissingKey`) and a numeric one TypeError (`NotAString`), leaving the match as it was |
| UserFile.BandwidthGate | elastalert/enhancements.py:132-137 | past the classifiers and the stat lookup, the match is dropped exactly when size * hits < 24 GiB and kept exactly when it is not |
| UserFile.KeepMonotone | elastalert/enhancements.py:132-137 | a kept match stays kept with more hits |
| UserFile.KeepIgnoresLogins | elastalert/enhancements.py:139-164 | the client id and the login hits never decide whether the match is kept |
| UserFile.KeptMatch | elastalert/enhancements.py:158-168 | a kept match has `file_name`, `occurences` and `bandwidth_used_GB` as in FileFilter; the queue-id field holds the `', '`-join of the links if any, else `No queueId found for clientID=` + client id; the three source fields are gone and every other field is unchanged |
| WeekendFilter.Process | elastalert/enhancements.py:177-182 | whatever the outcome, the match is left as it was |
| WeekendFilter.DropsExactlyOnWeekends | elastalert/enhancements.py:178-182 | with `file_name` present, the match is dropped exactly on ISO days 6 and 7 and kept unchanged exactly on days 1 to 5 |
| WeekendFilter.MissingFileNameFaults | elastalert/enhancements.py:179 | without `file_name` the enhancement raises KeyError on every day |
| Pipeline.ClassifiersComplementary | elastalert/enhancements.py:52-54 | for any path at least one file enhancement drops it at classification, and for a path containing `/alice` exactly one does |
| Pipeline.NeverKeptTwice | elastalert/enhancements.py:114-116 | no match is kept by both FileFilterEnhancement and UserFileEnhancement |
| Pipeline.ExactlyOneKeepsHeavyFile | elastalert/enhancements.py:132-137 | a file under `/alice` that exists and uses at least 240 GiB is kept by exactly one of the two file enhancements |
| Pipeline.WeekendAfterFileEnhancement | elastalert/enhancements.py:179 | a match kept by either file enhancement has `file_name`, so a weekend filter after it never raises KeyError |

## Left out

- Matches.Annotate: `bandwidth_used_GB` is the value `GiB(bandwidth)`. It stands for the text `str(round(bandwidth / 1024**3, 2))`. The float division, the rounding and the rendering are not modelled, because they are floating-point formatting.
- FileFilter.BadPathFaults: list- and dict-valued paths are not modelled. In Python `'/alice' in` a list tests membership instead of raising; the model's values are only strings, numbers and rendered bandwidths.
- UserFile.BadPathFaults: list- and dict-valued paths are not modelled, for the same reason.
- Building the Elasticsearch clients and running the `count` and `search` queries (lines 37-44, 66-71, 98-105, 126-130, 140-144). This is network I/O. The hit count, the client id and the login arguments are parameters instead.
- The query bodies: the index pattern, the one-day window, the duplicated `match_phrase` clauses and the sort order. These only shape the inputs.
- The page size of the login search (line 144). It sets no `size`, so Elasticsearch returns its default page of ten hits, newest first. This bounds the number of `loginArguments` entries; the model takes any list, so it does not promise that bound.
- The AliEn client, its memoisation on first use, and the `stat` command (lines 56-58, 118-120). This is a foreign library and I/O. The list of `size` fields is a parameter.
- `int(size)` parsing of the stat result's string. The sizes are given as `nat`. A non-numeric or negative size is not modelled.
- The IndexError raised when a login hit has an empty `arguments` list, or when the first search returns a total but no hit to read `clientID` from. The argument strings and the client id are given.
- TimeEnhancement (lines 24-26), because `pretty_ts` lives in the util module, which is not part of this model.
- `datetime.today()`, because the ISO weekday is a parameter.
- Logging (every `elastalert_logger.info` call). The log message is represented only by the `DropReason`.
- Python integer-to-float overflow in the bandwidth division for bandwidths beyond the float range, as part of the unmodelled rendering.
