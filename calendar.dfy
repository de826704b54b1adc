/** Calendar dates and the day gates that decide whether a run does any work. */
module Calendar {
  import opened Answers

  /** A date as its proleptic Gregorian ordinal: 1 January of year 1 is day 1,
      as Python's `date.toordinal()` counts. */
  datatype Date = Date(ordinal: int)

  /** `date.weekday()`: Monday is 0 and Sunday is 6; 1 January of year 1 was a
      Monday. */
  function Weekday(d: Date): (w: int)
    ensures 0 <= w < 7
  {
    (d.ordinal + 6) % 7
  }

  const Saturday: int := 5

  /** `last_update and last_update == current_date`: a run already happened on
      this date.  No saved date (a missing or unreadable file) never matches. */
  predicate UpdatedOn(lastUpdate: Option<Date>, today: Date)
  {
    lastUpdate.Some? && lastUpdate.value == today
  }
}
