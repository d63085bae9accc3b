/** frontend/src/pages/PublishSchedule.js: the schedule list of the calendar
    page. A `dayjs` moment is modelled by its calendar fields. */
module PublishSchedule {

  import opened Options
  import opened Lists

  /** A `dayjs` moment. */
  datatype Moment = Moment(year: int, month: int, day: int, hour: int, minute: int, second: int, millisecond: int)

  datatype Schedule = Schedule(id: int, articleId: int, articleTitle: string, scheduledTime: Moment,
                               status: string, repeat: string, description: string)

  /** `a.format('YYYY-MM-DD') === b.format('YYYY-MM-DD')` */
  predicate SameDate(a: Moment, b: Moment) {
    a.year == b.year && a.month == b.month && a.day == b.day
  }

  /** `getDateSchedules`: the schedules on the calendar date of `date`, in
      list order. */
  function DateSchedules(schedules: seq<Schedule>, date: Moment): (r: seq<Schedule>)
    ensures forall s :: s in r <==> s in schedules && SameDate(s.scheduledTime, date)
  {
    Filter(schedules, (s: Schedule) => SameDate(s.scheduledTime, date))
  }

  /** The schedules of one date keep their relative order. */
  lemma {:induction false} DateSchedulesOrder(xs: seq<Schedule>, ys: seq<Schedule>, date: Moment)
    ensures DateSchedules(xs + ys, date) == DateSchedules(xs, date) + DateSchedules(ys, date)
  {
    FilterAppend(xs, ys, (s: Schedule) => SameDate(s.scheduledTime, date));
  }

  /** What one calendar cell shows: the first two schedules and, when there
      are more, the number of the others (`+n 更多`). */
  datatype Cell = Cell(shown: seq<Schedule>, more: Option<int>)

  /** `dateCellRender`: nothing for a day without schedules. */
  function DateCell(schedules: seq<Schedule>, date: Moment): (r: Option<Cell>)
    ensures var day := DateSchedules(schedules, date);
      && (r.None? <==> |day| == 0)
      && (r.Some? ==> |r.value.shown| == if |day| < 2 then |day| else 2)
      && (r.Some? ==> r.value.shown == day[..|r.value.shown|])
      && (r.Some? ==> (r.value.more.Some? <==> |day| > 2))
      && (r.Some? && r.value.more.Some? ==> r.value.more.value == |day| - 2 && |r.value.shown| + r.value.more.value == |day|)
  {
    var day := DateSchedules(schedules, date);
    if |day| == 0 then None
    else Some(Cell(if |day| < 2 then day else day[..2], if |day| > 2 then Some(|day| - 2) else None))
  }

  /** The line shown for a schedule: its time and the first ten characters
      of the title followed by `...`. */
  function CellLabel(s: Schedule): (r: (int, int, string))
    ensures r.0 == s.scheduledTime.hour && r.1 == s.scheduledTime.minute
    ensures 3 <= |r.2| <= 13 && r.2[|r.2| - 3..] == "..."
    ensures |r.2| - 3 <= |s.articleTitle| && r.2[..|r.2| - 3] == s.articleTitle[..|r.2| - 3]
    ensures |s.articleTitle| >= 10 ==> |r.2| == 13
  {
    var n := if |s.articleTitle| < 10 then |s.articleTitle| else 10;
    (s.scheduledTime.hour, s.scheduledTime.minute, s.articleTitle[..n] + "...")
  }

  /** `handleDelete` once confirmed: the schedules with another id, in order. */
  function DeleteSchedule(schedules: seq<Schedule>, id: int): (r: seq<Schedule>)
    ensures forall s :: s in r <==> s in schedules && s.id != id
    ensures (forall i :: 0 <= i < |schedules| ==> schedules[i].id != id) ==> r == schedules
  {
    FilterAll(schedules, (s: Schedule) => s.id != id);
    Filter(schedules, (s: Schedule) => s.id != id)
  }

  /** `dayjs(date).hour(time.hour()).minute(time.minute())` */
  function CombineDateTime(date: Moment, time: Moment): (m: Moment)
    ensures SameDate(m, date) && m.hour == time.hour && m.minute == time.minute
    ensures m.second == date.second && m.millisecond == date.millisecond
  {
    date.(hour := time.hour, minute := time.minute)
  }

  /** The validated form of the schedule modal. */
  datatype FormValues = FormValues(articleId: int, scheduledDate: Moment, scheduledTime: Moment,
                                   repeat: string, description: Option<string>)

  datatype ArticleRef = ArticleRef(id: int, title: string)

  /** `scheduleData` of `handleModalOk`: always pending, the description
      defaulting to `''`, the id kept when editing. `None` when the article
      is not in the list (the `article.title` access throws). */
  function ScheduleData(articles: seq<ArticleRef>, current: Option<Schedule>, values: FormValues, newId: int): (r: Option<Schedule>)
    ensures r.Some? <==> exists i :: 0 <= i < |articles| && articles[i].id == values.articleId
    ensures r.Some? ==> r.value.status == "pending" && r.value.articleId == values.articleId
    ensures r.Some? ==> r.value.id == (if current.Some? then current.value.id else newId)
    ensures r.Some? ==> r.value.scheduledTime == CombineDateTime(values.scheduledDate, values.scheduledTime)
    ensures r.Some? ==> r.value.description == (if values.description.Some? then values.description.value else "")
    ensures r.Some? ==> exists i :: 0 <= i < |articles| && articles[i].id == values.articleId && articles[i].title == r.value.articleTitle
  {
    var article := Find(articles, (a: ArticleRef) => a.id == values.articleId);
    if article.None? then None
    else
      Some(Schedule(if current.Some? then current.value.id else newId, values.articleId, article.value.title,
                    CombineDateTime(values.scheduledDate, values.scheduledTime), "pending", values.repeat,
                    if values.description.Some? then values.description.value else ""))
  }

  /** `handleModalOk`: editing replaces the entries with the edited id in
      place, creating appends one entry; a failed validation (`None`) or an
      unknown article changes nothing. */
  function SaveSchedule(schedules: seq<Schedule>, articles: seq<ArticleRef>, current: Option<Schedule>,
                        values: Option<FormValues>, newId: int): (r: seq<Schedule>)
    ensures values.None? ==> r == schedules
    ensures values.Some? && ScheduleData(articles, current, values.value, newId).None? ==> r == schedules
    ensures values.Some? && ScheduleData(articles, current, values.value, newId).Some? ==>
      var data := ScheduleData(articles, current, values.value, newId).value;
      && (current.None? ==> r == schedules + [data])
      && (current.Some? ==> |r| == |schedules| && forall i :: 0 <= i < |r| ==>
            r[i] == if schedules[i].id == current.value.id then data else schedules[i])
  {
    if values.None? then schedules
    else
      var data := ScheduleData(articles, current, values.value, newId);
      if data.None? then schedules
      else if current.Some? then
        seq(|schedules|, i requires 0 <= i < |schedules| => if schedules[i].id == current.value.id then data.value else schedules[i])
      else schedules + [data.value]
  }

  /** Each saved entry is pending and an edit keeps every id in the list. */
  lemma {:induction false} SaveKeepsIds(schedules: seq<Schedule>, articles: seq<ArticleRef>, current: Schedule, values: FormValues, newId: int)
    ensures var r := SaveSchedule(schedules, articles, Some(current), Some(values), newId);
      |r| == |schedules| && forall i :: 0 <= i < |r| ==> r[i].id == schedules[i].id
    ensures var r := SaveSchedule(schedules, articles, None, Some(values), newId);
      ScheduleData(articles, None, values, newId).Some? ==> |r| == |schedules| + 1 && r[|schedules|].status == "pending" && r[|schedules|].id == newId
  {
  }

  /** The pending counter of the statistics card. */
  function PendingCount(schedules: seq<Schedule>): (n: nat)
    ensures n <= |schedules|
    ensures n == |Filter(schedules, (s: Schedule) => s.status == "pending")|
  {
    |Filter(schedules, (s: Schedule) => s.status == "pending")|
  }

  /** Creating a schedule adds one pending entry to the counter. */
  lemma {:induction false} CreateAddsPending(schedules: seq<Schedule>, articles: seq<ArticleRef>, values: FormValues, newId: int)
    requires ScheduleData(articles, None, values, newId).Some?
    ensures PendingCount(SaveSchedule(schedules, articles, None, Some(values), newId)) == PendingCount(schedules) + 1
  {
    var data := ScheduleData(articles, None, values, newId).value;
    FilterAppend(schedules, [data], (s: Schedule) => s.status == "pending");
    assert [data][..0] == [];
  }
}
