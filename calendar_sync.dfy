/** The google-calendar-sync edge function (google-calendar-sync/index.ts):
    it mirrors one appointment into the company's Google Calendar. It
    deletes the event, or it creates or replaces it with a start in
    Brasília time and an end one service duration later, and it remembers
    the id of a newly created event. */
module CalendarSync {
  import opened Optional
  import opened Text
  import opened Tables

  // ---- the calendar --------------------------------------------------------

  /** A wall-clock minute at the fixed offset -03:00. */
  datatype LocalTime = LocalTime(year: int, month: int, day: int, hour: int, minute: int)

  /** Gregorian leap years, extended to every integer year. */
  predicate IsLeap(y: int) {
    (y % 4 == 0 && y % 100 != 0) || y % 400 == 0
  }

  function DaysInMonth(y: int, m: int): int
    requires 1 <= m <= 12
  {
    if m == 2 then (if IsLeap(y) then 29 else 28)
    else if m == 4 || m == 6 || m == 9 || m == 11 then 30
    else 31
  }

  function DaysInYear(y: int): int {
    if IsLeap(y) then 366 else 365
  }

  predicate ValidTime(t: LocalTime) {
    && 1 <= t.month <= 12 && 1 <= t.day <= DaysInMonth(t.year, t.month)
    && 0 <= t.hour < 24 && 0 <= t.minute < 60
  }

  /** The days of year y before the first of month m. */
  function DaysBeforeMonth(y: int, m: int): int
    requires 1 <= m <= 13
  {
    if m == 1 then 0 else DaysBeforeMonth(y, m - 1) + DaysInMonth(y, m - 1)
  }

  /** The days between the first of January of year 0 and that of year y. */
  function DaysBeforeYear(y: int): int
    decreases if y >= 0 then y else -y
  {
    if y == 0 then 0
    else if y > 0 then DaysBeforeYear(y - 1) + DaysInYear(y - 1)
    else DaysBeforeYear(y + 1) - DaysInYear(y)
  }

  /** The position of a day in the calendar, one per day. */
  function DayNumber(t: LocalTime): int
    requires 1 <= t.month <= 12
  {
    DaysBeforeYear(t.year) + DaysBeforeMonth(t.year, t.month) + t.day - 1
  }

  /** The position of a minute on the time line. */
  function MinuteNumber(t: LocalTime): int
    requires 1 <= t.month <= 12
  {
    DayNumber(t) * 1440 + t.hour * 60 + t.minute
  }

  /** Each year starts a whole year after the previous one. */
  lemma YearStep(y: int)
    ensures DaysBeforeYear(y + 1) == DaysBeforeYear(y) + DaysInYear(y)
  {
  }

  /** The twelve months fill the year. */
  lemma MonthsFillYear(y: int)
    ensures DaysBeforeMonth(y, 13) == DaysInYear(y)
  {
    var feb := DaysInMonth(y, 2);
    assert DaysBeforeMonth(y, 2) == 31;
    assert DaysBeforeMonth(y, 3) == 31 + feb;
    assert DaysBeforeMonth(y, 4) == 62 + feb;
    assert DaysBeforeMonth(y, 5) == 92 + feb;
    assert DaysBeforeMonth(y, 6) == 123 + feb;
    assert DaysBeforeMonth(y, 7) == 153 + feb;
    assert DaysBeforeMonth(y, 8) == 184 + feb;
    assert DaysBeforeMonth(y, 9) == 215 + feb;
    assert DaysBeforeMonth(y, 10) == 245 + feb;
    assert DaysBeforeMonth(y, 11) == 276 + feb;
    assert DaysBeforeMonth(y, 12) == 306 + feb;
  }

  /** The day after a valid day. */
  function NextDay(t: LocalTime): LocalTime
    requires ValidTime(t)
  {
    if t.day < DaysInMonth(t.year, t.month) then t.(day := t.day + 1)
    else if t.month < 12 then t.(month := t.month + 1, day := 1)
    else t.(year := t.year + 1, month := 1, day := 1)
  }

  /** The day before a valid day. */
  function PrevDay(t: LocalTime): LocalTime
    requires ValidTime(t)
  {
    if t.day > 1 then t.(day := t.day - 1)
    else if t.month > 1 then t.(month := t.month - 1, day := DaysInMonth(t.year, t.month - 1))
    else t.(year := t.year - 1, month := 12, day := 31)
  }

  lemma NextDayNumber(t: LocalTime)
    requires ValidTime(t)
    ensures ValidTime(NextDay(t)) && DayNumber(NextDay(t)) == DayNumber(t) + 1
    ensures NextDay(t).hour == t.hour && NextDay(t).minute == t.minute
  {
    if t.day == DaysInMonth(t.year, t.month) && t.month == 12 {
      YearStep(t.year);
      MonthsFillYear(t.year);
    }
  }

  lemma PrevDayNumber(t: LocalTime)
    requires ValidTime(t)
    ensures ValidTime(PrevDay(t)) && DayNumber(PrevDay(t)) == DayNumber(t) - 1
    ensures PrevDay(t).hour == t.hour && PrevDay(t).minute == t.minute
  {
    if t.day == 1 && t.month == 1 {
      YearStep(t.year - 1);
      MonthsFillYear(t.year - 1);
    }
  }

  /** k days later (earlier when k is negative), at the same clock time. */
  function AddDays(t: LocalTime, k: int): (r: LocalTime)
    requires ValidTime(t)
    ensures ValidTime(r) && DayNumber(r) == DayNumber(t) + k
    ensures r.hour == t.hour && r.minute == t.minute
    decreases if k >= 0 then k else -k
  {
    if k == 0 then t
    else if k > 0 then
      NextDayNumber(t);
      AddDays(NextDay(t), k - 1)
    else
      PrevDayNumber(t);
      AddDays(PrevDay(t), k + 1)
  }

  /** n minutes later (earlier when n is negative): `new Date(start +
      n * 60000)` read back on the same clock. */
  function AddMinutes(t: LocalTime, n: int): LocalTime
    requires ValidTime(t)
  {
    var total := t.hour * 60 + t.minute + n;
    AddDays(t, total / 1440).(hour := (total % 1440) / 60, minute := total % 60)
  }

  /** Adding n minutes moves exactly n minutes along the time line and
      gives a valid time. */
  lemma AddMinutesExact(t: LocalTime, n: int)
    requires ValidTime(t)
    ensures ValidTime(AddMinutes(t, n))
    ensures MinuteNumber(AddMinutes(t, n)) == MinuteNumber(t) + n
  {
    var total := t.hour * 60 + t.minute + n;
    var rest := total % 1440;
    assert rest / 60 * 60 + rest % 60 == rest;
    assert total % 60 == rest % 60 by {
      assert total == (total / 1440) * 1440 + rest;
      assert 1440 == 24 * 60;
    }
    assert total == (total / 1440) * 1440 + rest;
  }

  /** Different positions are different minutes; the same position on
      valid times is the same minute. */
  lemma MinuteNumberInjective(a: LocalTime, b: LocalTime)
    requires ValidTime(a) && ValidTime(b) && MinuteNumber(a) == MinuteNumber(b)
    ensures a == b
  {
    assert a.hour * 60 + a.minute == MinuteNumber(a) % 1440 && DayNumber(a) == MinuteNumber(a) / 1440;
    assert b.hour * 60 + b.minute == MinuteNumber(b) % 1440 && DayNumber(b) == MinuteNumber(b) / 1440;
    DayNumberInjective(a, b);
  }

  lemma DayNumberInjective(a: LocalTime, b: LocalTime)
    requires ValidTime(a) && ValidTime(b) && DayNumber(a) == DayNumber(b)
    ensures a.year == b.year && a.month == b.month && a.day == b.day
  {
    MonthBounds(a.year, a.month);
    MonthBounds(b.year, b.month);
    DaysBeforeMonthMonotone(a.year, 1, a.month);
    DaysBeforeMonthMonotone(b.year, 1, b.month);
    if a.year < b.year {
      DaysBeforeYearMonotone(a.year, b.year);
    } else if b.year < a.year {
      DaysBeforeYearMonotone(b.year, a.year);
    }
    assert a.year == b.year;
    if a.month < b.month {
      DaysBeforeMonthMonotone(a.year, a.month, b.month);
    } else if b.month < a.month {
      DaysBeforeMonthMonotone(a.year, b.month, a.month);
    }
  }

  /** A month's days lie before the first of the next month. */
  lemma MonthBounds(y: int, m: int)
    requires 1 <= m <= 12
    ensures DaysBeforeMonth(y, m) + DaysInMonth(y, m) <= DaysInYear(y)
  {
    DaysBeforeMonthMonotone(y, m + 1, 13);
    MonthsFillYear(y);
  }

  lemma {:induction false} DaysBeforeMonthMonotone(y: int, m: int, n: int)
    requires 1 <= m <= n <= 13
    ensures DaysBeforeMonth(y, m) <= DaysBeforeMonth(y, n)
    ensures m < n ==> DaysBeforeMonth(y, m) + DaysInMonth(y, m) <= DaysBeforeMonth(y, n)
    decreases n - m
  {
    if m < n {
      DaysBeforeMonthMonotone(y, m + 1, n);
    }
  }

  /** A later year starts at least a whole year later. */
  lemma {:induction false} DaysBeforeYearMonotone(a: int, b: int)
    requires a < b
    ensures DaysBeforeYear(a) + DaysInYear(a) <= DaysBeforeYear(b)
    decreases b - a
  {
    YearStep(a);
    if a + 1 < b {
      DaysBeforeYearMonotone(a + 1, b);
    }
  }

  // ---- reading and writing times -------------------------------------------

  /** Two and four decimal digits as a number. */
  function Digits2(a: char, b: char): int
    requires IsDigit(a) && IsDigit(b)
  {
    DigitValue(a) * 10 + DigitValue(b)
  }

  predicate DateShaped(date: string) {
    && |date| == 10 && date[4] == '-' && date[7] == '-'
    && IsDigit(date[0]) && IsDigit(date[1]) && IsDigit(date[2]) && IsDigit(date[3])
    && IsDigit(date[5]) && IsDigit(date[6]) && IsDigit(date[8]) && IsDigit(date[9])
  }

  predicate ClockShaped(clock: string) {
    |clock| == 5 && clock[2] == ':' && IsDigit(clock[0]) && IsDigit(clock[1]) && IsDigit(clock[3]) && IsDigit(clock[4])
  }

  /** `new Date(`<date>T<clock>:00-03:00`)` as a wall-clock time: None for
      an Invalid Date, on which formatting the end throws. */
  function ParseStart(date: string, clock: string): (r: Option<LocalTime>)
    ensures r.Some? ==> ValidTime(r.value)
  {
    if !DateShaped(date) || !ClockShaped(clock) then None
    else
      var t := LocalTime(Digits2(date[0], date[1]) * 100 + Digits2(date[2], date[3]), Digits2(date[5], date[6]),
        Digits2(date[8], date[9]), Digits2(clock[0], clock[1]), Digits2(clock[3], clock[4]));
      if ValidTime(t) then Some(t) else None
  }

  /** The offset the function writes on both ends of the event. */
  const Offset: string := ":00-03:00"

  /** formatToISOWithOffset: year, then two digits each for month, day,
      hour and minute, zero seconds and the fixed offset. */
  function FormatLocal(t: LocalTime): string
    requires ValidTime(t)
  {
    YearText(t.year) + "-" + Pad2(t.month) + "-" + Pad2(t.day) + "T" + Pad2(t.hour) + ":" + Pad2(t.minute) + Offset
  }

  /** The year as Intl's numeric year writes it. */
  function YearText(y: int): string {
    if y < 0 then "-" + NatToString(-y) else NatToString(y)
  }

  /** `${apt.appointment_date}T${timeClean}:00-03:00` */
  function StartText(apt: Appointment): string {
    apt.date + "T" + Take(apt.time, 5) + Offset
  }

  /** A well-formed start is written back exactly as it was read: the end
      is in the same format as the start. */
  lemma FormatParsed(date: string, clock: string)
    requires ParseStart(date, clock).Some?
    requires date[0] != '0'
    ensures FormatLocal(ParseStart(date, clock).value) == date + "T" + clock + Offset
  {
    var t := ParseStart(date, clock).value;
    Pad2Digits(date[5], date[6]);
    Pad2Digits(date[8], date[9]);
    Pad2Digits(clock[0], clock[1]);
    Pad2Digits(clock[3], clock[4]);
    Year4Digits(date[0], date[1], date[2], date[3]);
    assert date == [date[0], date[1], date[2], date[3]] + "-" + [date[5], date[6]] + "-" + [date[8], date[9]];
    assert clock == [clock[0], clock[1]] + ":" + [clock[3], clock[4]];
  }

  lemma Pad2Digits(a: char, b: char)
    requires IsDigit(a) && IsDigit(b)
    ensures Pad2(Digits2(a, b)) == [a, b]
  {
    var n := Digits2(a, b);
    assert n / 10 == DigitValue(a) && n % 10 == DigitValue(b);
  }

  lemma Year4Digits(a: char, b: char, c: char, d: char)
    requires IsDigit(a) && IsDigit(b) && IsDigit(c) && IsDigit(d) && a != '0'
    ensures YearText(Digits2(a, b) * 100 + Digits2(c, d)) == [a, b, c, d]
  {
    var y := Digits2(a, b) * 100 + Digits2(c, d);
    assert 1000 <= y;
    assert y / 10 / 10 / 10 == DigitValue(a) && (y / 10 / 10) % 10 == DigitValue(b);
    assert (y / 10) % 10 == DigitValue(c) && y % 10 == DigitValue(d);
    assert NatToString(y / 10 / 10 / 10) == [a];
    assert NatToString(y / 10 / 10) == [a, b];
    assert NatToString(y / 10) == [a, b, c];
  }

  // ---- the event -----------------------------------------------------------

  /** The primary calendar's events. */
  const Collection: string := "https://www.googleapis.com/calendar/v3/calendars/primary/events"
  const DeleteAction: string := "DELETE"
  const DefaultSummary: string := "Agendamento"
  const DefaultClient: string := "Cliente"
  const DefaultDuration: int := 60

  /** `apt.google_event_id` is set. */
  predicate HasEvent(apt: Appointment) {
    apt.googleEventId.Some? && apt.googleEventId.value != ""
  }

  function EventUrl(id: string): string {
    Collection + "/" + id
  }

  /** `apt.services?.duration_minutes || 60` */
  function Duration(service: Option<Service>): int {
    if service.Some? && service.value.durationMinutes.Some? && service.value.durationMinutes.value != 0
    then service.value.durationMinutes.value
    else DefaultDuration
  }

  /** `${apt.services?.name || 'Agendamento'} - ${apt.contacts?.name || 'Cliente'}` */
  function Summary(service: Option<Service>, contact: Option<Contact>): string {
    (if service.Some? && service.value.name != "" then service.value.name else DefaultSummary)
    + " - " + (if contact.Some? && contact.value.name != "" then contact.value.name else DefaultClient)
  }

  /** The event sent for an appointment; None when its date and time are
      not a valid moment, so that formatting the end throws. */
  function EventOf(apt: Appointment, service: Option<Service>, contact: Option<Contact>): Option<CalendarEvent> {
    var start := ParseStart(apt.date, Take(apt.time, 5));
    if start.None? then None
    else Some(CalendarEvent(Summary(service, contact), StartText(apt), FormatLocal(AddMinutes(start.value, Duration(service)))))
  }

  /** Where an event goes: PUT over the event the appointment already has,
      else POST to the collection. */
  function Route(apt: Appointment): (HttpMethod, string) {
    if HasEvent(apt) then (Put, EventUrl(apt.googleEventId.value)) else (Post, Collection)
  }

  /** `.update({ google_event_id }).eq('id', id)` */
  function SetEventId(rows: seq<Appointment>, id: Id, eventId: string): (r: seq<Appointment>)
    ensures |r| == |rows|
    ensures forall i :: 0 <= i < |rows| ==> r[i] == if rows[i].id == id then rows[i].(googleEventId := Some(eventId)) else rows[i]
  {
    seq(|rows|, i requires 0 <= i < |rows| => if rows[i].id == id then rows[i].(googleEventId := Some(eventId)) else rows[i])
  }

  /** The id of a new event is stored on its appointment; an appointment
      that already had an event keeps it. */
  function WriteBack(t: Tables, apt: Appointment, createdId: Option<string>): Tables {
    if !HasEvent(apt) && createdId.Some? && createdId.value != ""
    then t.(appointments := SetEventId(t.appointments, apt.id, createdId.value))
    else t
  }

  /** The answer: the event's id as Google returned it, the deletion, or
      the 400 error. */
  datatype SyncReply = Synced(googleEventId: Option<string>) | Deleted | SyncFailed

  /** The appointment a call is about, when it exists and its company has a
      refresh token. */
  function Syncable(t: Tables, appointmentId: Id): Option<Appointment> {
    var apt := FindAppointment(t.appointments, appointmentId);
    if apt.None? then None
    else
      var profile := FindProfile(t.profiles, apt.value.companyId);
      if profile.None? || profile.value.googleRefreshToken == "" then None else apt
  }

  /** The function. `createdId` is the `id` of Google's answer to the PUT or
      POST. */
  function SyncEffect(t: Tables, appointmentId: Id, action: Option<string>, createdId: Option<string>): (Tables, SyncReply) {
    var apt := Syncable(t, appointmentId);
    if apt.None? then (t, SyncFailed)
    else if action == Some(DeleteAction) && HasEvent(apt.value) then
      (t.(outbox := t.outbox + [CalendarRequest(Delete, EventUrl(apt.value.googleEventId.value), None)]), Deleted)
    else
      var event := EventOf(apt.value, FindService(t.services, apt.value.serviceId), FindContact(t.contacts, apt.value.contactId));
      if event.None? then (t, SyncFailed)
      else
        var route := Route(apt.value);
        var sent := t.(outbox := t.outbox + [CalendarRequest(route.0, route.1, event)]);
        (WriteBack(sent, apt.value, createdId), Synced(createdId))
  }

  /** The handler. */
  method Sync(db: Database, appointmentId: Id, action: Option<string>, createdId: Option<string>) returns (reply: SyncReply)
    modifies db
    ensures (db.Snapshot(), reply) == SyncEffect(old(db.Snapshot()), appointmentId, action, createdId)
  {
    var apt := Syncable(db.Snapshot(), appointmentId);
    if apt.None? {
      return SyncFailed;
    }
    if action == Some(DeleteAction) && HasEvent(apt.value) {
      db.outbox := db.outbox + [CalendarRequest(Delete, EventUrl(apt.value.googleEventId.value), None)];
      return Deleted;
    }
    var event := EventOf(apt.value, FindService(db.services, apt.value.serviceId), FindContact(db.contacts, apt.value.contactId));
    if event.None? {
      return SyncFailed;
    }
    var route := Route(apt.value);
    db.outbox := db.outbox + [CalendarRequest(route.0, route.1, event)];
    StoreEventId(db, apt.value, createdId);
    reply := Synced(createdId);
  }

  /** Writing the new event's id back. */
  method StoreEventId(db: Database, apt: Appointment, createdId: Option<string>)
    modifies db
    ensures db.Snapshot() == WriteBack(old(db.Snapshot()), apt, createdId)
  {
    if !HasEvent(apt) && createdId.Some? && createdId.value != "" {
      db.appointments := SetEventId(db.appointments, apt.id, createdId.value);
    }
  }

  // ---- what a call does ----------------------------------------------------

  /** A missing appointment or refresh token is the 400 error, with no
      writes and no call to the calendar. */
  lemma MissingDataFails(t: Tables, appointmentId: Id, action: Option<string>, createdId: Option<string>)
    ensures Syncable(t, appointmentId).None? ==> SyncEffect(t, appointmentId, action, createdId) == (t, SyncFailed)
    ensures SyncEffect(t, appointmentId, action, createdId).1 == SyncFailed ==> SyncEffect(t, appointmentId, action, createdId).0 == t
    ensures FindAppointment(t.appointments, appointmentId).None? ==> Syncable(t, appointmentId).None?
    ensures FindAppointment(t.appointments, appointmentId).Some? ==>
      (Syncable(t, appointmentId).None? <==>
         FindProfile(t.profiles, FindAppointment(t.appointments, appointmentId).value.companyId).None?
         || FindProfile(t.profiles, FindAppointment(t.appointments, appointmentId).value.companyId).value.googleRefreshToken == "")
  {
  }

  /** The event is deleted exactly when the call asks for DELETE and the
      appointment has an event; then one DELETE goes to that event and
      nothing else changes. A DELETE for an appointment without an event
      creates one instead. */
  lemma DeleteIff(t: Tables, appointmentId: Id, action: Option<string>, createdId: Option<string>)
    ensures var (t2, reply) := SyncEffect(t, appointmentId, action, createdId);
      var apt := Syncable(t, appointmentId);
      && (reply == Deleted <==> apt.Some? && action == Some(DeleteAction) && HasEvent(apt.value))
      && (reply == Deleted ==> t2 == t.(outbox := t.outbox + [CalendarRequest(Delete, EventUrl(apt.value.googleEventId.value), None)]))
      && (apt.Some? && action == Some(DeleteAction) && !HasEvent(apt.value) && reply != SyncFailed ==>
            t2.outbox[|t.outbox|].verb == Post)
  {
  }

  /** A sync sends one event by the route `Route` picks: a PUT to the
      existing event when there is one, a POST to the collection
      otherwise; then the new id is written back. */
  lemma SyncSends(t: Tables, appointmentId: Id, action: Option<string>, createdId: Option<string>)
    requires SyncEffect(t, appointmentId, action, createdId).1.Synced?
    ensures var (t2, reply) := SyncEffect(t, appointmentId, action, createdId);
      var apt := Syncable(t, appointmentId).value;
      var service := FindService(t.services, apt.serviceId);
      var event := EventOf(apt, service, FindContact(t.contacts, apt.contactId));
      && event.Some?
      && t2.outbox == t.outbox + [CalendarRequest(if HasEvent(apt) then Put else Post,
                                    if HasEvent(apt) then EventUrl(apt.googleEventId.value) else Collection, event)]
      && t2 == WriteBack(t.(outbox := t2.outbox), apt, createdId)
      && reply.googleEventId == createdId
  {
  }

  /** The start is the stored date and the first five characters of the
      stored time at -03:00; the end is a valid moment exactly the
      service's duration later (60 minutes when it has none or 0), written
      in the same format. */
  lemma EventTimes(apt: Appointment, service: Option<Service>, contact: Option<Contact>)
    requires EventOf(apt, service, contact).Some?
    ensures var e := EventOf(apt, service, contact).value;
      var start := ParseStart(apt.date, Take(apt.time, 5)).value;
      && e.startDateTime == apt.date + "T" + Take(apt.time, 5) + ":00-03:00"
      && (exists end :: ValidTime(end) && MinuteNumber(end) == MinuteNumber(start) + Duration(service)
                        && e.endDateTime == FormatLocal(end))
      && e.summary == Summary(service, contact)
    ensures Duration(service) == if service.Some? && service.value.durationMinutes.Some? && service.value.durationMinutes.value != 0
                                 then service.value.durationMinutes.value else 60
  {
    var start := ParseStart(apt.date, Take(apt.time, 5)).value;
    AddMinutesExact(start, Duration(service));
    var end := AddMinutes(start, Duration(service));
    assert ValidTime(end) && MinuteNumber(end) == MinuteNumber(start) + Duration(service);
  }

  /** Without a service name or a client name the summary says
      "Agendamento" and "Cliente". */
  lemma SummaryDefaults(service: Option<Service>, contact: Option<Contact>)
    ensures (service.None? || service.value.name == "") && (contact.None? || contact.value.name == "") ==>
      Summary(service, contact) == "Agendamento - Cliente"
    ensures service.Some? && service.value.name != "" ==> StartsWith(Summary(service, contact), service.value.name + " - ")
  {
    if service.Some? && service.value.name != "" {
      StartsWithConcat(service.value.name + " - ", if contact.Some? && contact.value.name != "" then contact.value.name else DefaultClient);
    }
  }

  /** The event id is written only for an appointment that had none and
      only when Google answered with one; it goes on that appointment's
      row and changes nothing else on any row. */
  lemma WriteBackOnlyNew(t: Tables, apt: Appointment, createdId: Option<string>)
    ensures var t2 := WriteBack(t, apt, createdId);
      && t2.(appointments := t.appointments) == t
      && |t2.appointments| == |t.appointments|
      && (HasEvent(apt) || createdId.None? || createdId == Some("") ==> t2 == t)
      && (forall i :: 0 <= i < |t.appointments| && t.appointments[i].id != apt.id ==> t2.appointments[i] == t.appointments[i])
      && (forall i :: 0 <= i < |t.appointments| ==> t2.appointments[i].(googleEventId := t.appointments[i].googleEventId) == t.appointments[i])
      && (!HasEvent(apt) && createdId.Some? && createdId.value != "" ==>
            forall i :: 0 <= i < |t.appointments| && t.appointments[i].id == apt.id ==> t2.appointments[i].googleEventId == createdId)
  {
  }
}
