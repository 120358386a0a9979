/** The records the app keeps: one work entry per user and day, and the workday milestones. */
module Records {
  import opened Wrappers
  import opened Calendar

  /** An entry id, the text `<date>_<Date.now()>`. */
  datatype EntryId = EntryId(day: Day, epochMillis: int)

  /**
   * One calendar day of work for one user. Times are seconds of the day;
   * `hoursWorked` is in hundredths of an hour.
   */
  datatype WorkEntry = WorkEntry(
    id: EntryId,
    date: Day,
    startTime: Option<Second>,
    endTime: Option<Second>,
    hoursWorked: int,
    extraMiles: int,
    isActive: bool)

  /** The four milestones of the workday panel, each the minute it was pressed. */
  datatype Workday = Workday(
    startTime: Option<Minute>,
    lunchStart: Option<Minute>,
    lunchEnd: Option<Minute>,
    endTime: Option<Minute>)

  const ClearedWorkday: Workday := Workday(None, None, None, None)

}
