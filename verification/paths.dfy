/**
 The two path classifiers shared (as identical copies) by
 FileFilterEnhancement and UserFileEnhancement.
 */
module Paths {
  import opened Strings

  const AliceRoot := "/alice"
  const UserDir := "/user/"
  const AlitrainDir := "/user/a/alitrain"
  const AliprodDir := "/user/a/aliprod"

  /** `isFile`: the path mentions the `/alice` root somewhere. */
  predicate IsFile(path: string)
    ensures IsFile(path) <==> exists i :: OccursAt(path, AliceRoot, i)
  {
    Contains(path, AliceRoot)
  }

  /**
   `isRegularUserFile`: the path mentions `/user/` but neither of the two
   production accounts `/user/a/alitrain` and `/user/a/aliprod`.
   */
  predicate IsRegularUserFile(path: string)
    ensures IsRegularUserFile(path) <==>
      && (exists i :: OccursAt(path, UserDir, i))
      && (forall i :: !OccursAt(path, AlitrainDir, i))
      && (forall i :: !OccursAt(path, AliprodDir, i))
  {
    Contains(path, UserDir) && !Contains(path, AlitrainDir) && !Contains(path, AliprodDir)
  }

  /**
   A path under one of the production accounts is under `/user/` as well,
   and is never a regular user file.
   */
  lemma ProductionPathIsNotRegular(path: string)
    requires Contains(path, AlitrainDir) || Contains(path, AliprodDir)
    ensures Contains(path, UserDir)
    ensures !IsRegularUserFile(path)
  {
    assert OccursAt(AlitrainDir, UserDir, 0);
    assert OccursAt(AliprodDir, UserDir, 0);
    if Contains(path, AlitrainDir) {
      var i :| OccursAt(path, AlitrainDir, i);
      OccursWithin(path, AlitrainDir, UserDir, i, 0);
    } else {
      var i :| OccursAt(path, AliprodDir, i);
      OccursWithin(path, AliprodDir, UserDir, i, 0);
    }
  }
}
