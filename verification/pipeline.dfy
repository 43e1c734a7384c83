/**
 Facts relating the enhancements to one another, as a rule applies them to
 the same match.
 */
module Pipeline {
  import opened Matches
  import opened Paths
  import opened Bandwidth
  import FileFilter
  import UserFile
  import WeekendFilter

  /** The outcome is a drop by the path classifiers. */
  predicate DroppedByClassifier(o: Outcome) {
    o.Drop? && o.reason in {NotAFile, RegularUserFile, NotRegularUserFile}
  }

  /**
   The two file enhancements split the files between them: for any path at
   most one of them gets past the classifiers, and for a path under `/alice`
   exactly one does.
   */
  lemma ClassifiersComplementary(
    m: Match, path: string,
    sizes: seq<nat>, hits: nat,
    sizes': seq<nat>, hits': nat, clientId: string, loginArguments: seq<string>)
    requires HasPath(m, path)
    ensures var a := FileFilter.Process(m, sizes, hits);
      var b := UserFile.Process(m, sizes', hits', clientId, loginArguments);
      && (DroppedByClassifier(a) || DroppedByClassifier(b))
      && (IsFile(path) ==> (DroppedByClassifier(a) <==> !DroppedByClassifier(b)))
  {
  }

  /** No match is kept by both file enhancements. */
  lemma NeverKeptTwice(
    m: Match,
    sizes: seq<nat>, hits: nat,
    sizes': seq<nat>, hits': nat, clientId: string, loginArguments: seq<string>)
    ensures !(FileFilter.Process(m, sizes, hits).Keep? && UserFile.Process(m, sizes', hits', clientId, loginArguments).Keep?)
  {
  }

  /**
   With the same stat result and hit count, a file under `/alice` that uses
   at least 240 GiB is kept by exactly one of the two file enhancements.
   */
  lemma ExactlyOneKeepsHeavyFile(m: Match, path: string, size: nat, rest: seq<nat>, hits: nat, clientId: string, loginArguments: seq<string>)
    requires HasPath(m, path) && IsFile(path)
    requires Exceeds(size, hits, AnyFileLimit)
    ensures FileFilter.Process(m, [size] + rest, hits).Keep? != UserFile.Process(m, [size] + rest, hits, clientId, loginArguments).Keep?
  {
    AnyFileGateImpliesUserGate(size, hits);
  }

  /**
   A match kept by either file enhancement carries `file_name`, so a
   WeekendFilterEnhancement placed after it never raises KeyError.
   */
  lemma WeekendAfterFileEnhancement(
    m: Match, sizes: seq<nat>, hits: nat, clientId: string, loginArguments: seq<string>, day: WeekendFilter.IsoWeekday)
    ensures FileFilter.Process(m, sizes, hits).Keep? ==>
      !WeekendFilter.Process(FileFilter.Process(m, sizes, hits).m, day).Fault?
    ensures UserFile.Process(m, sizes, hits, clientId, loginArguments).Keep? ==>
      !WeekendFilter.Process(UserFile.Process(m, sizes, hits, clientId, loginArguments).m, day).Fault?
  {
    KeysDistinct();
  }
}
