/**
 Job-id extraction from the first argument of `login` log entries.

 Each argument is split on commas; every piece that mentions `queueid` is
 searched with the Python pattern `OU=queueid\\=(.+?)/resubmission\\=(.+?)`,
 whose literal text is `OU=queueid\=` ... `/resubmission\=`. Without the
 DOTALL flag `.` matches any character except a newline. A piece the
 pattern does not match is skipped silently (the AttributeError is caught).
 */
module QueueIds {
  import opened Options
  import opened Strings

  /** The literal text `OU=queueid\=` that opens a match. */
  const Opening := "OU=queueid\\="

  /** The literal text `/resubmission\=` that follows the job id. */
  const Resubmission := "/resubmission\\="

  /** The substring a piece must mention to be searched. */
  const QueueIdMarker := "queueid"

  /** The job viewer the formatted links point to. */
  const JdlUrl := "https://alimonitor.cern.ch/jobs/jdl.jsp?pid="

  /** Every character of `t` is one that the regex `.` matches. */
  ghost predicate NoNewline(t: string) {
    forall k :: 0 <= k < |t| ==> t[k] != '\n'
  }

  /** `/resubmission\=` at index `k`, then the one character `(.+?)` needs. */
  predicate TailAt(s: string, k: nat) {
    k + |Resubmission| < |s| && s[k..k + |Resubmission|] == Resubmission && s[k + |Resubmission|] != '\n'
  }

  /** A first group of length `n` starting at `j` lets the rest of the pattern match. */
  ghost predicate GroupAt(s: string, j: nat, n: nat) {
    1 <= n && j + n <= |s| && NoNewline(s[j..j + n]) && TailAt(s, j + n)
  }

  /** The whole pattern matches at index `i` with a first group of length `n`. */
  ghost predicate MatchAt(s: string, i: nat, n: nat) {
    i + |Opening| <= |s| && s[i..i + |Opening|] == Opening && GroupAt(s, i + |Opening|, n)
  }

  /**
   The match `re.search` reports: the leftmost starting index, and at that
   index the shortest first group (the group is lazy).
   */
  ghost predicate FirstMatch(s: string, i: nat, n: nat) {
    && MatchAt(s, i, n)
    && (forall i': nat, n': nat :: i' < i ==> !MatchAt(s, i', n'))
    && (forall n': nat :: n' < n ==> !MatchAt(s, i, n'))
  }

  /** The text of the first group of the match at `i` with length `n`. */
  function Group(s: string, i: nat, n: nat): string
    requires i + |Opening| + n <= |s|
  {
    s[i + |Opening|..i + |Opening| + n]
  }

  /**
   The lazy `(.+?)` at index `j`: the shortest length of at least `n` for
   which the rest of the pattern matches, given that the first `n - 1`
   characters are already known to be newline-free.
   */
  function ShortestGroup(s: string, j: nat, n: nat): (r: Option<nat>)
    requires 1 <= n && j + n <= |s| + 1 && NoNewline(s[j..j + n - 1])
    ensures r.Some? ==> n <= r.value && GroupAt(s, j, r.value)
    ensures r.Some? ==> forall k: nat :: n <= k < r.value ==> !GroupAt(s, j, k)
    ensures r.None? ==> forall k: nat :: n <= k ==> !GroupAt(s, j, k)
    decreases |s| + 1 - j - n
  {
    if j + n > |s| then None
    else if s[j + n - 1] == '\n' then
      NewlineEndsGroup(s, j, n);
      None
    else
      NoNewlineExtends(s, j, n);
      if TailAt(s, j + n) then Some(n)
      else ShortestGroup(s, j, n + 1)
  }

  /** A newline ends every longer first group: `.` does not match it. */
  lemma NewlineEndsGroup(s: string, j: nat, n: nat)
    requires 1 <= n && j + n <= |s| && s[j + n - 1] == '\n'
    ensures forall k: nat :: n <= k ==> !GroupAt(s, j, k)
  {
  }

  /** One more non-newline character keeps the group newline-free. */
  lemma NoNewlineExtends(s: string, j: nat, n: nat)
    requires 1 <= n && j + n <= |s| && NoNewline(s[j..j + n - 1]) && s[j + n - 1] != '\n'
    ensures NoNewline(s[j..j + n])
  {
    assert s[j..j + n] == s[j..j + n - 1] + [s[j + n - 1]];
  }

  /** `re.search` restricted to starting indices `i` and later. */
  function SearchFrom(s: string, i: nat): (r: Option<(nat, nat)>)
    requires i <= |s|
    ensures r.Some? ==> i <= r.value.0 && MatchAt(s, r.value.0, r.value.1)
    ensures r.Some? ==> forall i': nat, n: nat :: i <= i' < r.value.0 ==> !MatchAt(s, i', n)
    ensures r.Some? ==> forall n: nat :: n < r.value.1 ==> !MatchAt(s, r.value.0, n)
    ensures r.None? ==> forall i': nat, n: nat :: i <= i' ==> !MatchAt(s, i', n)
    decreases |s| - i
  {
    if i + |Opening| > |s| then None
    else if s[i..i + |Opening|] == Opening then
      match ShortestGroup(s, i + |Opening|, 1)
      case Some(n) => Some((i, n))
      case None => SearchFrom(s, i + 1)
    else SearchFrom(s, i + 1)
  }

  /** Two leftmost-shortest matches are the same match. */
  lemma FirstMatchUnique(s: string, i: nat, n: nat, i': nat, n': nat)
    requires FirstMatch(s, i, n) && FirstMatch(s, i', n')
    ensures i == i' && n == n'
  {
  }

  /**
   `re.search(pattern, s).group(1)`, or None where `re.search` returns None
   (and `.group` raises the AttributeError the source catches).
   */
  function ExtractJobId(s: string): (r: Option<string>)
    ensures r.Some? <==> exists i: nat, n: nat :: MatchAt(s, i, n)
    ensures r.Some? ==> exists i: nat, n: nat :: FirstMatch(s, i, n) && r.value == Group(s, i, n)
  {
    match SearchFrom(s, 0)
    case None => None
    case Some((i, n)) =>
      assert FirstMatch(s, i, n);
      Some(Group(s, i, n))
  }

  /** The id ExtractJobId reports is the group of the leftmost-shortest match. */
  lemma ExtractJobIdIsFirstMatch(s: string, i: nat, n: nat)
    requires FirstMatch(s, i, n)
    ensures ExtractJobId(s) == Some(Group(s, i, n))
  {
  }

  /**
   Every text the pattern matches mentions `queueid`, so the `'queueid' in s`
   test in front of the search never changes which ids are found.
   */
  lemma MatchMentionsQueueId(s: string, i: nat, n: nat)
    requires MatchAt(s, i, n)
    ensures Contains(s, QueueIdMarker)
  {
    assert OccursAt(s, Opening, i);
    assert OccursAt(Opening, QueueIdMarker, 3);
    OccursWithin(s, Opening, QueueIdMarker, i, 3);
  }

  /** The id found in a piece is text of that piece, so it has no comma when the piece has none. */
  lemma ExtractedIdAvoidsChar(s: string, c: char)
    requires c !in s && ExtractJobId(s).Some?
    ensures c !in ExtractJobId(s).value
  {
  }

  /** The piece `OU=queueid\=12345/resubmission\=0` yields the id `12345`. */
  lemma ExampleSegment()
    ensures ExtractJobId("OU=queueid\\=12345/resubmission\\=0") == Some("12345")
  {
    var s := "OU=queueid\\=12345/resubmission\\=0";
    assert s[0..|Opening|] == Opening;
    assert s[12..17] == "12345";
    assert TailAt(s, 17);
    assert GroupAt(s, 12, 5);
    assert MatchAt(s, 0, 5);
    forall n': nat | n' < 5
      ensures !MatchAt(s, 0, n')
    {
      if 1 <= n' {
        assert s[12 + n'] != '/';
        assert s[12 + n'..12 + n' + |Resubmission|][0] != Resubmission[0];
      }
    }
    assert FirstMatch(s, 0, 5);
    ExtractJobIdIsFirstMatch(s, 0, 5);
  }

  /** A piece with no `queueid` at all yields nothing. */
  lemma NoMarkerNoId(s: string)
    requires !Contains(s, QueueIdMarker)
    ensures ExtractJobId(s) == None
  {
    if ExtractJobId(s).Some? {
      var i: nat, n: nat :| MatchAt(s, i, n);
      MatchMentionsQueueId(s, i, n);
    }
  }

  /** The markdown link a found id is turned into. */
  function JobLink(id: string): string
  {
    "[" + id + "](" + JdlUrl + id + ")"
  }

  /** Reads the id back out of a link made by JobLink. */
  function LinkId(link: string): string
    requires |link| >= |JobLink("")|
  {
    link[1..1 + (|link| - |JobLink("")|) / 2]
  }

  /** JobLink loses nothing: the id can be read back from the link. */
  lemma LinkIdOfJobLink(id: string)
    ensures |JobLink(id)| == 2 * |id| + |JobLink("")|
    ensures LinkId(JobLink(id)) == id
  {
  }

  /** A link has no comma when its id has none. */
  lemma JobLinkLacksComma(id: string)
    requires ',' !in id
    ensures ',' !in JobLink(id)
  {
    assert ',' !in JdlUrl;
  }

  /** What one comma-separated piece contributes: its link, or nothing. */
  function SegmentLink(s: string): seq<string>
  {
    if Contains(s, QueueIdMarker) then
      match ExtractJobId(s)
      case Some(id) => [JobLink(id)]
      case None => []
    else []
  }

  /** The `'queueid' in s` pre-filter is redundant: a piece contributes exactly when the pattern matches it. */
  lemma SegmentLinkIsMatch(s: string)
    ensures SegmentLink(s) == (if ExtractJobId(s).Some? then [JobLink(ExtractJobId(s).value)] else [])
  {
    if !Contains(s, QueueIdMarker) {
      NoMarkerNoId(s);
    }
  }

  /**
   The list the source's `for` loops build with `append`: the elements
   `f` yields for each of `xs`, in order.
   */
  function Collect(f: string -> seq<string>, xs: seq<string>): seq<string>
  {
    if |xs| == 0 then []
    else Collect(f, xs[..|xs| - 1]) + f(xs[|xs| - 1])
  }

  /** Collecting over concatenated lists concatenates the results: order is preserved. */
  lemma {:induction false} CollectAppend(f: string -> seq<string>, a: seq<string>, b: seq<string>)
    ensures Collect(f, a + b) == Collect(f, a) + Collect(f, b)
    decreases |b|
  {
    if |b| == 0 {
      assert a + b == a;
    } else {
      var b' := b[..|b| - 1];
      assert (a + b)[..|a + b| - 1] == a + b';
      assert (a + b)[|a + b| - 1] == b[|b| - 1];
      CollectAppend(f, a, b');
    }
  }

  /** A property every yielded element has holds of the whole collection. */
  lemma {:induction false} CollectAll(f: string -> seq<string>, xs: seq<string>, P: string -> bool)
    requires forall x, y :: x in xs && y in f(x) ==> P(y)
    ensures forall y :: y in Collect(f, xs) ==> P(y)
    decreases |xs|
  {
    if |xs| > 0 {
      CollectAll(f, xs[..|xs| - 1], P);
      assert xs[|xs| - 1] in xs;
    }
  }

  /** The links of a list of pieces, in order. */
  function SegmentLinks(segments: seq<string>): seq<string>
  {
    Collect(SegmentLink, segments)
  }

  /** The links found in one login entry's argument. */
  function ArgumentLinks(argument: string): seq<string>
  {
    SegmentLinks(Split(argument, ','))
  }

  /** The links found in a list of login arguments: entries in order, pieces in order. */
  function JobLinks(arguments: seq<string>): seq<string>
  {
    Collect(ArgumentLinks, arguments)
  }

  /** The links of concatenated piece lists are the concatenated links. */
  lemma SegmentLinksAppend(a: seq<string>, b: seq<string>)
    ensures SegmentLinks(a + b) == SegmentLinks(a) + SegmentLinks(b)
  {
    CollectAppend(SegmentLink, a, b);
  }

  /** The links of concatenated argument lists are the concatenated links. */
  lemma JobLinksAppend(a: seq<string>, b: seq<string>)
    ensures JobLinks(a + b) == JobLinks(a) + JobLinks(b)
  {
    CollectAppend(ArgumentLinks, a, b);
  }

  /** No link found in an argument contains a comma. */
  lemma ArgumentLinksLackComma(argument: string)
    ensures forall l :: l in ArgumentLinks(argument) ==> ',' !in l
  {
    var segments := Split(argument, ',');
    forall s, l | s in segments && l in SegmentLink(s)
      ensures ',' !in l
    {
      ExtractedIdAvoidsChar(s, ',');
      JobLinkLacksComma(ExtractJobId(s).value);
    }
    CollectAll(SegmentLink, segments, l => ',' !in l);
  }

  /** No link found in any argument contains a comma. */
  lemma JobLinksLackComma(arguments: seq<string>)
    ensures forall l :: l in JobLinks(arguments) ==> ',' !in l
  {
    forall a, l | a in arguments && l in ArgumentLinks(a)
      ensures ',' !in l
    {
      ArgumentLinksLackComma(a);
    }
    CollectAll(ArgumentLinks, arguments, l => ',' !in l);
  }

  /** A login argument holding one well-formed piece and nothing else. */
  const SampleArgument := "OU=queueid\\=1/resubmission\\=0"

  /** The sample argument yields exactly one link. */
  lemma SampleArgumentOneLink()
    ensures |JobLinks([SampleArgument])| == 1
  {
    var s := SampleArgument;
    assert |s| == 29;
    assert ',' !in s;
    assert Split(s, ',') == [s];
    assert s[0..|Opening|] == Opening;
    assert TailAt(s, 13);
    assert MatchAt(s, 0, 1);
    MatchMentionsQueueId(s, 0, 1);
    assert SegmentLinks([s]) == SegmentLinks([]) + SegmentLink(s);
    assert JobLinks([s]) == JobLinks([]) + ArgumentLinks(s);
  }

  /**
   The loop applies no cap of its own although the field is named
   `last_10_...`: `n` login entries that yield one link each, such as
   SampleArgument, give `n` links, and as one argument may hold several
   `queueid` pieces the links can outnumber the entries.
   */
  lemma {:induction false} NoCapOfTen(args: seq<string>)
    requires forall i :: 0 <= i < |args| ==> |JobLinks([args[i]])| == 1
    ensures |JobLinks(args)| == |args|
    decreases |args|
  {
    if |args| > 0 {
      var init := args[..|args| - 1];
      assert args == init + [args[|args| - 1]];
      assert forall i :: 0 <= i < |init| ==> init[i] == args[i];
      NoCapOfTen(init);
      JobLinksAppend(init, [args[|args| - 1]]);
    }
  }

  /**
   The loop of UserFileEnhancement.process over the login hits, appending
   the links found in each hit's first argument.
   */
  method CollectJobIds(arguments: seq<string>) returns (jobIds: seq<string>)
    ensures jobIds == JobLinks(arguments)
  {
    jobIds := [];
    var i := 0;
    while i < |arguments|
      invariant 0 <= i <= |arguments|
      invariant jobIds == JobLinks(arguments[..i])
    {
      var found := CollectArgumentIds(arguments[i]);
      jobIds := jobIds + found;
      PrefixStep(arguments, i);
      i := i + 1;
    }
    assert arguments[..i] == arguments;
  }

  /**
   The inner loop over the comma-separated pieces of one argument: each
   piece mentioning `queueid` that the pattern matches adds one link.
   */
  method CollectArgumentIds(argument: string) returns (found: seq<string>)
    ensures found == ArgumentLinks(argument)
  {
    found := [];
    var segments := Split(argument, ',');
    var j := 0;
    while j < |segments|
      invariant 0 <= j <= |segments|
      invariant found == SegmentLinks(segments[..j])
    {
      var s := segments[j];
      if Contains(s, QueueIdMarker) {
        var id := ExtractJobId(s);
        if id.Some? {
          found := found + [JobLink(id.value)];
        }
      }
      PrefixStep(segments, j);
      j := j + 1;
    }
    assert segments[..j] == segments;
  }

  /** The links of a one-longer prefix add the links of its new last element. */
  lemma PrefixStep(xs: seq<string>, j: nat)
    requires j < |xs|
    ensures SegmentLinks(xs[..j + 1]) == SegmentLinks(xs[..j]) + SegmentLink(xs[j])
    ensures JobLinks(xs[..j + 1]) == JobLinks(xs[..j]) + ArgumentLinks(xs[j])
  {
    assert xs[..j + 1][..j] == xs[..j];
    assert xs[..j + 1][j] == xs[j];
  }

  /** The text shown when no job id was found for the client. */
  function NoQueueIdText(clientId: string): string
  {
    "No queueId found for clientID=" + clientId
  }

  /** The value stored under `last_10_queueIds_of_this_clientID`. */
  function QueueIdsText(links: seq<string>, clientId: string): string
  {
    if |links| > 0 then Join(links, ", ") else NoQueueIdText(clientId)
  }

  /** Each piece with a leading blank. */
  function Blanked(links: seq<string>): (r: seq<string>)
    ensures |r| == |links|
    ensures forall i :: 0 <= i < |links| ==> r[i] == " " + links[i]
  {
    if |links| == 0 then [] else [" " + links[0]] + Blanked(links[1..])
  }

  /** The pieces of a `", "` join as a `","` split sees them: all but the first keep the blank. */
  function Spaced(links: seq<string>): seq<string>
  {
    if |links| == 0 then [] else [links[0]] + Blanked(links[1..])
  }

  /** The blank after each `,` of `", "` moves onto the following piece. */
  lemma {:induction false} LeadingBlank(links: seq<string>)
    requires |links| >= 1
    ensures " " + Join(links, ", ") == Join(Blanked(links), ",")
    decreases |links|
  {
    if |links| >= 2 {
      var rest := links[1..];
      LeadingBlank(rest);
      assert Blanked(links)[1..] == Blanked(rest);
      assert " " + Join(links, ", ") == (" " + links[0]) + "," + (" " + Join(rest, ", "));
    }
  }

  /** A `", "` join is the `","` join of the spaced pieces. */
  lemma {:induction false} JoinSpaced(links: seq<string>)
    requires |links| >= 1
    ensures Join(links, ", ") == Join(Spaced(links), ",")
  {
    if |links| >= 2 {
      var rest := links[1..];
      LeadingBlank(rest);
      assert Spaced(links)[1..] == Blanked(rest);
      assert Join(links, ", ") == links[0] + "," + (" " + Join(rest, ", "));
    }
  }

  /**
   The stored text can be read back: splitting it on `,` gives the links,
   each but the first with the blank of the `", "` separator in front.
   */
  lemma QueueIdsTextSplits(arguments: seq<string>, clientId: string)
    requires |JobLinks(arguments)| > 0
    ensures Split(QueueIdsText(JobLinks(arguments), clientId), ',') == Spaced(JobLinks(arguments))
  {
    var links := JobLinks(arguments);
    JobLinksLackComma(arguments);
    JoinSpaced(links);
    assert forall i :: 0 <= i < |Spaced(links)| ==> ',' !in Spaced(links)[i] by {
      forall i | 0 <= i < |Spaced(links)|
        ensures ',' !in Spaced(links)[i]
      {
        assert links[i] in links;
        if i > 0 {
          assert Spaced(links)[i] == Blanked(links[1..])[i - 1];
        }
      }
    }
    SplitOfJoin(Spaced(links), ',');
  }

  /** `link` is the markdown link of some id. */
  predicate IsLink(link: string) {
    |link| >= |JobLink("")| && link == JobLink(LinkId(link))
  }

  /** The stored text tells whether an id was found: only a list of links starts with `[`. */
  lemma QueueIdsTextShowsFound(arguments: seq<string>, clientId: string)
    ensures var t := QueueIdsText(JobLinks(arguments), clientId);
      |t| > 0 && (t[0] == '[' <==> |JobLinks(arguments)| > 0)
  {
    var links := JobLinks(arguments);
    if |links| > 0 {
      JobLinksAreLinks(arguments);
      assert links[0] in links;
      JoinStartsWith(links, ", ");
      assert Join(links, ", ")[0] == links[0][0];
    }
  }

  /** A non-empty join starts with its first piece. */
  lemma JoinStartsWith(parts: seq<string>, sep: string)
    requires |parts| >= 1
    ensures Join(parts, sep)[..|parts[0]|] == parts[0]
  {
  }

  /** Every element of JobLinks is a link made by JobLink. */
  lemma JobLinksAreLinks(arguments: seq<string>)
    ensures forall l :: l in JobLinks(arguments) ==> IsLink(l)
  {
    forall a, l | a in arguments && l in ArgumentLinks(a)
      ensures IsLink(l)
    {
      forall s, l' | s in Split(a, ',') && l' in SegmentLink(s)
        ensures IsLink(l')
      {
        LinkIdOfJobLink(ExtractJobId(s).value);
      }
      CollectAll(SegmentLink, Split(a, ','), IsLink);
    }
    CollectAll(ArgumentLinks, arguments, IsLink);
  }
}
