/**
 WeekendFilterEnhancement: drops every match on a Saturday or a Sunday. The
 day of the week, `datetime.today().isoweekday()`, is an input.
 */
module WeekendFilter {
  import opened Matches

  /** ISO 8601 day numbers: Monday is 1, Sunday is 7. */
  type IsoWeekday = d: int | 1 <= d <= 7 witness 1

  /**
   `WeekendFilterEnhancement.process(match)`. The `file_name` field is read
   (for the log message) before the day is looked at, so a match without it
   raises KeyError on every day.
   */
  function Process(m: Match, day: IsoWeekday): (o: Outcome)
    ensures o.m == m
  {
    if FileNameKey !in m then Fault(MissingKey(FileNameKey), m)
    else if day == 6 || day == 7 then Drop(Weekend, m)
    else Keep(m)
  }

  /**
   For a match with a `file_name`: dropped exactly on Saturday and Sunday,
   kept unchanged on Monday to Friday.
   */
  lemma DropsExactlyOnWeekends(m: Match, day: IsoWeekday)
    requires FileNameKey in m
    ensures Process(m, day).Drop? <==> day >= 6
    ensures day <= 5 <==> Process(m, day) == Keep(m)
  {
  }

  /** Without `file_name` the enhancement fails whatever the day. */
  lemma MissingFileNameFaults(m: Match, day: IsoWeekday)
    requires FileNameKey !in m
    ensures Process(m, day) == Fault(MissingKey(FileNameKey), m)
  {
  }
}
