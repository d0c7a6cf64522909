/** The appointment tools of the AI agent (ai-chat/tools_appointments.ts):
    the service and professional listings, the contact's upcoming
    appointments, free slots, and creating and cancelling appointments.
    "Today" is the ISO date and "now" the São Paulo clock, both given. A
    query that fails is given as `fault`, the error message it returns. */
module AppointmentTools {
  import opened Optional
  import opened Text
  import opened Seqs
  import opened Tables
  import opened ToolResults
  import opened BusinessHours

  // ---- list_services and list_professionals -----------------------------

  function ServiceInfoOf(s: Service): ServiceInfo {
    ServiceInfo(s.id, s.name, s.price, s.durationMinutes)
  }

  function ProfessionalInfoOf(p: Professional): ProfessionalInfo {
    ProfessionalInfo(p.id, p.name, p.role)
  }

  /** `.eq("company_id", companyId)` on services: the company's rows, in
      table order. */
  function CompanyServices(rows: seq<Service>, companyId: Id): (r: seq<Service>)
    ensures forall s :: s in r <==> s in rows && s.companyId == companyId
    ensures IsSubsequence(r, rows)
  {
    var p := (s: Service) => s.companyId == companyId;
    FilterIsSubsequence(rows, p);
    Filter(rows, p)
  }

  function CompanyProfessionals(rows: seq<Professional>, companyId: Id): (r: seq<Professional>)
    ensures forall p :: p in r <==> p in rows && p.companyId == companyId
    ensures IsSubsequence(r, rows)
  {
    var p := (x: Professional) => x.companyId == companyId;
    FilterIsSubsequence(rows, p);
    Filter(rows, p)
  }

  /** handleListServices: JSON of the company's services, `null` when the
      query fails. */
  function ListServices(t: Tables, companyId: Id, failed: bool): (r: ToolResult)
    ensures r.ServiceRows? && (r.services.None? <==> failed)
    ensures r.services.Some? ==> forall x :: x in r.services.value <==>
      exists s :: s in t.services && s.companyId == companyId && x == ServiceInfoOf(s)
  {
    if failed then ServiceRows(None)
    else
      var rows := CompanyServices(t.services, companyId);
      var r := Map(rows, ServiceInfoOf);
      assert forall x :: x in r ==> exists i :: 0 <= i < |rows| && x == ServiceInfoOf(rows[i]);
      ServiceRows(Some(r))
  }

  /** handleListProfessionals */
  function ListProfessionals(t: Tables, companyId: Id, failed: bool): (r: ToolResult)
    ensures r.ProfessionalRows? && (r.professionals.None? <==> failed)
    ensures r.professionals.Some? ==> forall x :: x in r.professionals.value <==>
      exists p :: p in t.professionals && p.companyId == companyId && x == ProfessionalInfoOf(p)
  {
    if failed then ProfessionalRows(None)
    else
      var rows := CompanyProfessionals(t.professionals, companyId);
      var r := Map(rows, ProfessionalInfoOf);
      assert forall x :: x in r ==> exists i :: 0 <= i < |rows| && x == ProfessionalInfoOf(rows[i]);
      ProfessionalRows(Some(r))
  }

  // ---- list_my_appointments ----------------------------------------------

  predicate IsUpcomingFor(a: Appointment, contactId: Id, today: string) {
    a.contactId == contactId && LexLe(today, a.date)
  }

  /** `.eq("contact_id", c).gte("appointment_date", today)` */
  function UpcomingRows(rows: seq<Appointment>, contactId: Id, today: string): (r: seq<Appointment>)
    ensures forall a :: a in r <==> a in rows && IsUpcomingFor(a, contactId, today)
  {
    Filter(rows, (a: Appointment) => IsUpcomingFor(a, contactId, today))
  }

  ghost predicate SortedByDate(xs: seq<Appointment>) {
    forall i, j :: 0 <= i < j < |xs| ==> LexLe(xs[i].date, xs[j].date)
  }

  /** Places `a` before the first row with a date not earlier than its own. */
  function InsertByDate(a: Appointment, xs: seq<Appointment>): seq<Appointment> {
    if xs == [] then [a]
    else if LexLe(a.date, xs[0].date) then [a] + xs
    else [xs[0]] + InsertByDate(a, xs[1..])
  }

  /** `.order("appointment_date", { ascending: true })`; rows on the same
      date keep their table order. */
  function SortByDate(xs: seq<Appointment>): seq<Appointment> {
    if xs == [] then [] else InsertByDate(xs[0], SortByDate(xs[1..]))
  }

  lemma {:induction false} InsertByDateCount(a: Appointment, xs: seq<Appointment>)
    ensures multiset(InsertByDate(a, xs)) == multiset(xs) + multiset{a}
  {
    if xs != [] && !LexLe(a.date, xs[0].date) {
      InsertByDateCount(a, xs[1..]);
      assert xs == [xs[0]] + xs[1..];
    }
  }

  /** Every row after the first of a sorted sequence is dated no earlier. */
  lemma SortedHead(xs: seq<Appointment>, x: Appointment)
    requires SortedByDate(xs) && xs != [] && x in xs[1..]
    ensures LexLe(xs[0].date, x.date)
  {
    var k :| 0 <= k < |xs[1..]| && xs[1..][k] == x;
    assert xs[k + 1] == x;
  }

  /** When `a` goes after the head, the head is not later than anything in
      the inserted tail. */
  lemma InsertAfterHead(a: Appointment, xs: seq<Appointment>, x: Appointment)
    requires SortedByDate(xs) && xs != [] && !LexLe(a.date, xs[0].date)
    requires x in InsertByDate(a, xs[1..])
    ensures LexLe(xs[0].date, x.date)
  {
    InsertByDateCount(a, xs[1..]);
    assert x in multiset(InsertByDate(a, xs[1..]));
    if x == a {
      LexLeTotal(a.date, xs[0].date);
    } else {
      assert x in multiset(xs[1..]);
      SortedHead(xs, x);
    }
  }

  /** A row dated no later than every row of a sorted sequence can go in
      front of it. */
  lemma ConsSorted(x: Appointment, rest: seq<Appointment>)
    requires SortedByDate(rest)
    requires forall k :: 0 <= k < |rest| ==> LexLe(x.date, rest[k].date)
    ensures SortedByDate([x] + rest)
  {
    var r := [x] + rest;
    forall i, j | 0 <= i < j < |r|
      ensures LexLe(r[i].date, r[j].date)
    {
      if i > 0 {
        assert r[i] == rest[i - 1] && r[j] == rest[j - 1];
      }
    }
  }

  lemma {:induction false} InsertByDateSorted(a: Appointment, xs: seq<Appointment>)
    requires SortedByDate(xs)
    ensures SortedByDate(InsertByDate(a, xs))
    ensures multiset(InsertByDate(a, xs)) == multiset(xs) + multiset{a}
  {
    InsertByDateCount(a, xs);
    if xs == [] {
    } else if LexLe(a.date, xs[0].date) {
      forall k | 0 <= k < |xs|
        ensures LexLe(a.date, xs[k].date)
      {
        if k > 0 {
          LexLeTransitive(a.date, xs[0].date, xs[k].date);
        }
      }
      ConsSorted(a, xs);
    } else {
      var tail := xs[1..];
      assert SortedByDate(tail);
      InsertByDateSorted(a, tail);
      var rest := InsertByDate(a, tail);
      forall k | 0 <= k < |rest|
        ensures LexLe(xs[0].date, rest[k].date)
      {
        InsertAfterHead(a, xs, rest[k]);
      }
      ConsSorted(xs[0], rest);
    }
  }

  lemma {:induction false} SortByDateSorted(xs: seq<Appointment>)
    ensures SortedByDate(SortByDate(xs))
    ensures multiset(SortByDate(xs)) == multiset(xs)
  {
    if xs != [] {
      SortByDateSorted(xs[1..]);
      InsertByDateSorted(xs[0], SortByDate(xs[1..]));
      assert xs == [xs[0]] + xs[1..];
    }
  }

  /** The rows list_my_appointments shows. */
  function Upcoming(rows: seq<Appointment>, contactId: Id, today: string): seq<Appointment> {
    Limit(SortByDate(UpcomingRows(rows, contactId, today)), 10)
  }

  /** A prefix of a sorted sequence is sorted, and no row after it is
      dated earlier than a row in it. */
  lemma LimitSorted(s: seq<Appointment>, n: nat)
    requires SortedByDate(s)
    ensures var r := Limit(s, n);
      && SortedByDate(r)
      && multiset(r) + multiset(s[|r|..]) == multiset(s)
      && (forall i, x :: 0 <= i < |r| && x in s[|r|..] ==> LexLe(r[i].date, x.date))
  {
    var r := Limit(s, n);
    assert s == r + s[|r|..];
    forall i, x | 0 <= i < |r| && x in s[|r|..]
      ensures LexLe(r[i].date, x.date)
    {
      var k :| 0 <= k < |s[|r|..]| && s[|r|..][k] == x;
      assert s[|r| + k] == x;
    }
  }

  /** The listing is empty exactly when no row of the contact is dated today
      or later. */
  lemma UpcomingEmpty(rows: seq<Appointment>, contactId: Id, today: string)
    ensures Upcoming(rows, contactId, today) == [] <==> forall a :: a in rows ==> !IsUpcomingFor(a, contactId, today)
  {
    var all := UpcomingRows(rows, contactId, today);
    SortByDateSorted(all);
    assert |SortByDate(all)| == |multiset(SortByDate(all))| == |all|;
    if all != [] {
      assert all[0] in all;
    }
  }

  /** At most ten rows, all of this contact and dated today or later, in
      ascending date order; they are all such rows when there are at most
      ten, and otherwise none left out is earlier than any shown. */
  lemma UpcomingSpec(rows: seq<Appointment>, contactId: Id, today: string)
    ensures var r := Upcoming(rows, contactId, today);
      var all := UpcomingRows(rows, contactId, today);
      && |r| <= 10
      && (forall a :: a in r ==> a in rows && IsUpcomingFor(a, contactId, today))
      && SortedByDate(r)
      && multiset(r) <= multiset(all)
      && (|all| <= 10 ==> multiset(r) == multiset(all))
      && (forall i, x :: 0 <= i < |r| && x in multiset(all) - multiset(r) ==> LexLe(r[i].date, x.date))
  {
    var all := UpcomingRows(rows, contactId, today);
    var s := SortByDate(all);
    SortByDateSorted(all);
    var r := Limit(s, 10);
    LimitSorted(s, 10);
    assert multiset(all) - multiset(r) == multiset(s[|r|..]);
    forall a | a in r
      ensures a in rows && IsUpcomingFor(a, contactId, today)
    {
      assert a in multiset(all);
    }
    if |all| <= 10 {
      assert |s| == |multiset(s)| == |all|;
    }
  }

  function StatusName(s: AppointmentStatus): string {
    match s
    case Pending => "PENDING"
    case Confirmed => "CONFIRMED"
    case Cancelled => "CANCELLED"
  }

  const IdLabel: string := "- ID: "
  const ServiceLabel: string := " | Serviço: "
  const ProfessionalLabel: string := " | Profissional: "
  const DateLabel: string := " | Data: "
  const TimeLabel: string := " | Hora: "
  const StatusLabel: string := " | Status: "

  function LineParts(a: Appointment, serviceName: string, professionalName: string): seq<string> {
    [IdLabel, a.id, ServiceLabel, serviceName, ProfessionalLabel, professionalName,
     DateLabel, a.date, TimeLabel, a.time, StatusLabel, StatusName(a.status)]
  }

  /** One line of the listing. */
  function AppointmentLine(a: Appointment, serviceName: string, professionalName: string): (r: string)
    ensures StartsWith(r, IdLabel + a.id)
  {
    var parts := LineParts(a, serviceName, professionalName);
    ConcatStartsWith(parts, 2);
    assert parts[..2] == [IdLabel, a.id];
    assert Concat([a.id]) == a.id;
    Concat(parts)
  }

  /** Every listed row has a service and a professional to name. */
  predicate JoinsResolve(t: Tables, rows: seq<Appointment>) {
    forall a :: a in rows ==> FindService(t.services, a.serviceId).Some? && FindProfessional(t.professionals, a.professionalId).Some?
  }

  /** The lines of the rows, in order; None when a row's service or
      professional is missing, where `a.services.name` throws. */
  function AppointmentLines(t: Tables, rows: seq<Appointment>): (r: Option<seq<string>>)
    ensures r.Some? <==> JoinsResolve(t, rows)
    ensures r.Some? ==> |r.value| == |rows| && forall i :: 0 <= i < |rows| ==> StartsWith(r.value[i], IdLabel + rows[i].id)
    ensures r.Some? ==> forall i :: 0 <= i < |rows| ==>
      r.value[i] == AppointmentLine(rows[i], FindService(t.services, rows[i].serviceId).value.name,
                                    FindProfessional(t.professionals, rows[i].professionalId).value.name)
  {
    if rows == [] then Some([])
    else
      var a := rows[0];
      var s := FindService(t.services, a.serviceId);
      var p := FindProfessional(t.professionals, a.professionalId);
      var rest := AppointmentLines(t, rows[1..]);
      assert forall x :: x in rows <==> x == a || x in rows[1..];
      if s.None? || p.None? || rest.None? then None
      else Some([AppointmentLine(a, s.value.name, p.value.name)] + rest.value)
  }

  const NoUpcomingMessage: string := "Nenhum agendamento futuro encontrado para este usuário."
  const UpcomingHeader: string := "Agendamentos encontrados (hoje e futuros):\n"
  const NullNameError: string := "Cannot read properties of null (reading 'name')"
  const ListFailedHeading: string := "Erro ao buscar agendamentos: "

  /** handleListMyAppointments */
  function ListMyAppointments(t: Tables, contactId: Id, today: string, fault: Option<string>): (r: HandlerOutcome)
    ensures r == Says(NoUpcomingMessage) <==>
      fault.None? && forall a :: a in t.appointments ==> !IsUpcomingFor(a, contactId, today)
    ensures fault.Some? ==> r == Says(ListFailedHeading + fault.value)
    ensures r.Raised? <==> (fault.None? && Upcoming(t.appointments, contactId, today) != []
      && !JoinsResolve(t, Upcoming(t.appointments, contactId, today)))
    ensures var rows := Upcoming(t.appointments, contactId, today);
      fault.None? && rows != [] && JoinsResolve(t, rows) ==>
        && r.Returned? && r.result.Reply?
        && StartsWith(r.result.text, UpcomingHeader)
        && r.result.text == UpcomingHeader + Join(AppointmentLines(t, rows).value, "\n")
        && forall i :: 0 <= i < |rows| ==> Contains(r.result.text, IdLabel + rows[i].id)
  {
    if fault.Some? then
      assert (ListFailedHeading + fault.value)[28] == ListFailedHeading[28] == ' ' != NoUpcomingMessage[28];
      Says(ListFailedHeading + fault.value)
    else
      var rows := Upcoming(t.appointments, contactId, today);
      UpcomingEmpty(t.appointments, contactId, today);
      if rows == [] then Says(NoUpcomingMessage)
      else Listing(t, rows)
  }

  /** The listing of rows found: a throw when a join is missing, else the
      header and one line per row, joined by newlines. */
  function Listing(t: Tables, rows: seq<Appointment>): (r: HandlerOutcome)
    ensures r != Says(NoUpcomingMessage)
    ensures r.Raised? <==> !JoinsResolve(t, rows)
    ensures JoinsResolve(t, rows) ==>
      && r.Returned? && r.result.Reply?
      && StartsWith(r.result.text, UpcomingHeader)
      && r.result.text == UpcomingHeader + Join(AppointmentLines(t, rows).value, "\n")
      && forall i :: 0 <= i < |rows| ==> Contains(r.result.text, IdLabel + rows[i].id)
  {
    match AppointmentLines(t, rows)
    case None => Raised(NullNameError)
    case Some(lines) =>
      var text := UpcomingHeader + Join(lines, "\n");
      assert text[42] == UpcomingHeader[42] == '\n' != NoUpcomingMessage[42];
      StartsWithConcat(UpcomingHeader, Join(lines, "\n"));
      ListingNamesEach(UpcomingHeader, lines, rows);
      Says(text)
  }

  /** Every row of a listing has its line in the text, so the text names
      every listed id. */
  lemma ListingNamesEach(header: string, lines: seq<string>, rows: seq<Appointment>)
    requires |lines| == |rows| && forall i :: 0 <= i < |rows| ==> StartsWith(lines[i], IdLabel + rows[i].id)
    ensures forall i :: 0 <= i < |rows| ==> Contains(header + Join(lines, "\n"), IdLabel + rows[i].id)
  {
    var text := header + Join(lines, "\n");
    forall i | 0 <= i < |rows|
      ensures Contains(text, IdLabel + rows[i].id)
    {
      var head := IdLabel + rows[i].id;
      assert lines[i] == head + lines[i][|head|..];
      ContainsLeft(head, lines[i][|head|..]);
      JoinContains(lines, "\n", i);
      ContainsRight(header, Join(lines, "\n"));
      ContainsTransitive(Join(lines, "\n"), lines[i], head);
      ContainsTransitive(text, Join(lines, "\n"), head);
    }
  }

  // ---- cancel_appointment ------------------------------------------------

  const CancelSuccess: string := "Sucesso! O agendamento foi cancelado e removido do calendário Google."
  const CancelFailedHeading: string := "Erro ao cancelar: "

  /** `.update({ status: 'CANCELLED' }).eq("id", id)` */
  function CancelRows(rows: seq<Appointment>, id: Id): (r: seq<Appointment>)
    ensures |r| == |rows|
    ensures forall i :: 0 <= i < |rows| ==> r[i] == if rows[i].id == id then rows[i].(status := Cancelled) else rows[i]
  {
    seq(|rows|, i requires 0 <= i < |rows| => if rows[i].id == id then rows[i].(status := Cancelled) else rows[i])
  }

  /** handleCancelAppointment: on success the row is cancelled and a DELETE
      sync is requested; the update succeeds even when no row has the id. */
  function CancelEffect(t: Tables, id: Id, fault: Option<string>): Effect {
    if fault.Some? then Effect(t, Says(CancelFailedHeading + fault.value))
    else
      Effect(t.(appointments := CancelRows(t.appointments, id),
                outbox := t.outbox + [CalendarSyncCall(id, Some("DELETE"))]),
             Says(CancelSuccess))
  }

  method CancelAppointment(db: Database, id: Id, fault: Option<string>) returns (out: HandlerOutcome)
    modifies db
    ensures var e := CancelEffect(old(db.Snapshot()), id, fault);
      db.Snapshot() == e.tables && out == e.outcome
  {
    if fault.Some? {
      out := Says(CancelFailedHeading + fault.value);
      return;
    }
    db.appointments := CancelRows(db.appointments, id);
    db.outbox := db.outbox + [CalendarSyncCall(id, Some("DELETE"))];
    out := Says(CancelSuccess);
  }

  /** Only the row with the id changes, and only its status; the DELETE
      sync is requested exactly when the update succeeded; no other table
      changes. */
  lemma CancelOnlyTarget(t: Tables, id: Id, fault: Option<string>)
    ensures var t' := CancelEffect(t, id, fault).tables;
      && |t'.appointments| == |t.appointments|
      && (forall i :: 0 <= i < |t.appointments| && t.appointments[i].id != id ==> t'.appointments[i] == t.appointments[i])
      && (forall i :: 0 <= i < |t.appointments| && t.appointments[i].id == id ==>
            t'.appointments[i] == t.appointments[i].(status := if fault.None? then Cancelled else t.appointments[i].status))
      && (fault.None? <==> t'.outbox == t.outbox + [CalendarSyncCall(id, Some("DELETE"))])
      && (fault.Some? ==> t' == t)
      && t'.(appointments := t.appointments, outbox := t.outbox) == t
  {
    var t' := CancelEffect(t, id, fault).tables;
    if fault.Some? {
      assert t'.outbox == t.outbox;
      assert |t.outbox + [CalendarSyncCall(id, Some("DELETE"))]| != |t.outbox|;
    }
  }

  /** Cancelling twice leaves the rows as cancelling once does. */
  lemma CancelIdempotent(t: Tables, id: Id)
    ensures var once := CancelEffect(t, id, None).tables;
      CancelEffect(once, id, None).tables.appointments == once.appointments
  {
  }

  // ---- create_appointment ------------------------------------------------

  const CreatedPrefix: string := "Sucesso! Agendamento criado e sincronizado com o calendário Google. ID_DO_AGENDAMENTO: "
  const CreatedSuffix: string := ". Peça ao usuário se ele deseja gerar o pagamento PIX agora."

  function CreatedMessage(id: Id): string {
    CreatedPrefix + id + CreatedSuffix
  }

  predicate FreshAppointmentId(t: Tables, id: Id) {
    forall a :: a in t.appointments ==> a.id != id
  }

  /** The row the insert writes. */
  function NewAppointment(newId: Id, contactId: Id, companyId: Id, serviceId: Id, professionalId: Id, date: string, time: string): Appointment {
    Appointment(newId, companyId, contactId, serviceId, professionalId, date, time, Pending, None)
  }

  /** handleCreateAppointment: the insert either fails with `fault` or adds
      the row under the store's fresh id `newId` and requests a sync. */
  function CreateEffect(t: Tables, contactId: Id, companyId: Id, serviceId: Id, professionalId: Id,
                        date: string, time: string, newId: Id, fault: Option<string>): Effect
  {
    if fault.Some? then Effect(t, Says("Erro: " + fault.value))
    else
      Effect(t.(appointments := t.appointments + [NewAppointment(newId, contactId, companyId, serviceId, professionalId, date, time)],
                outbox := t.outbox + [CalendarSyncCall(newId, None)]),
             Says(CreatedMessage(newId)))
  }

  method CreateAppointment(db: Database, contactId: Id, companyId: Id, serviceId: Id, professionalId: Id,
                           date: string, time: string, newId: Id, fault: Option<string>) returns (out: HandlerOutcome)
    modifies db
    ensures var e := CreateEffect(old(db.Snapshot()), contactId, companyId, serviceId, professionalId, date, time, newId, fault);
      db.Snapshot() == e.tables && out == e.outcome
  {
    if fault.Some? {
      out := Says("Erro: " + fault.value);
      return;
    }
    var row := NewAppointment(newId, contactId, companyId, serviceId, professionalId, date, time);
    db.appointments := db.appointments + [row];
    db.outbox := db.outbox + [CalendarSyncCall(newId, None)];
    out := Says(CreatedMessage(newId));
  }

  lemma {:induction false} FindAppointmentAppended(rows: seq<Appointment>, a: Appointment)
    requires forall x :: x in rows ==> x.id != a.id
    ensures FindAppointment(rows + [a], a.id) == Some(a)
  {
    if rows != [] {
      assert (rows + [a])[1..] == rows[1..] + [a];
      FindAppointmentAppended(rows[1..], a);
    }
  }

  /** A successful create adds exactly one PENDING row with the given
      contact, company, service, professional, date and time, found under the
      new id; the message names that id; the earlier rows are untouched. */
  lemma CreateAddsOnePending(t: Tables, contactId: Id, companyId: Id, serviceId: Id, professionalId: Id,
                             date: string, time: string, newId: Id)
    requires FreshAppointmentId(t, newId)
    ensures var e := CreateEffect(t, contactId, companyId, serviceId, professionalId, date, time, newId, None);
      && |e.tables.appointments| == |t.appointments| + 1
      && e.tables.appointments[..|t.appointments|] == t.appointments
      && FindAppointment(e.tables.appointments, newId) ==
           Some(Appointment(newId, companyId, contactId, serviceId, professionalId, date, time, Pending, None))
      && e.tables.outbox == t.outbox + [CalendarSyncCall(newId, None)]
      && e.outcome.Returned? && Contains(e.outcome.result.text, newId)
  {
    var row := NewAppointment(newId, contactId, companyId, serviceId, professionalId, date, time);
    FindAppointmentAppended(t.appointments, row);
    ContainsMiddle(CreatedPrefix, newId, CreatedSuffix);
  }

  /** A failed insert writes nothing and requests no sync. */
  lemma CreateFailureWritesNothing(t: Tables, contactId: Id, companyId: Id, serviceId: Id, professionalId: Id,
                                   date: string, time: string, newId: Id, msg: string)
    ensures CreateEffect(t, contactId, companyId, serviceId, professionalId, date, time, newId, Some(msg))
      == Effect(t, Says("Erro: " + msg))
  {
  }

  // ---- get_available_slots -----------------------------------------------

  /** toLocaleTimeString with two-digit hour and minute. */
  function FormatHHMM(m: nat): string {
    Pad2(m / 60) + ":" + Pad2(m % 60)
  }

  /** The slot's hour and minute, read back from its label, against the
      clock: earlier hour, or same hour and a minute not later. */
  predicate IsPastSlot(m: nat, now: Clock) {
    var slotH, slotM := m / 60, m % 60;
    slotH < now.hour || (slotH == now.hour && slotM <= now.minute)
  }

  /** A slot is past exactly when it starts at or before the current minute. */
  lemma IsPastSlotMeaning(m: nat, now: Clock)
    requires ValidClock(now)
    ensures IsPastSlot(m, now) <==> m <= MinuteOfDay(now)
  {
  }

  predicate Keep(m: nat, occupied: seq<string>, isToday: bool, now: Clock) {
    FormatHHMM(m) !in occupied && !(isToday && IsPastSlot(m, now))
  }

  /** The loop's values of `curr`: m, m + d, m + 2d, … while below `end`. */
  function Candidates(m: nat, end: nat, d: nat): seq<nat>
    requires d > 0
    decreases end - m
  {
    if m >= end then [] else [m] + Candidates(m + d, end, d)
  }

  /** The i-th candidate is m + i * d; all are below `end` and the next one
      would not be. */
  lemma {:induction false} CandidatesSpec(m: nat, end: nat, d: nat)
    requires d > 0
    ensures var c := Candidates(m, end, d);
      (forall i :: 0 <= i < |c| ==> c[i] == m + i * d && c[i] < end)
      && m + |c| * d >= end
    decreases end - m
  {
    if m < end {
      CandidatesSpec(m + d, end, d);
      var c, rest := Candidates(m, end, d), Candidates(m + d, end, d);
      forall i | 0 < i < |c|
        ensures c[i] == m + i * d
      {
        assert c[i] == rest[i - 1] == m + d + (i - 1) * d;
      }
      assert m + d + |rest| * d == m + |c| * d;
    }
  }

  /** The test the loop applies to each candidate. */
  function SlotTest(occupied: seq<string>, isToday: bool, now: Clock): nat -> bool {
    (x: nat) => Keep(x, occupied, isToday, now)
  }

  lemma {:induction false} CandidatesRange(m: nat, end: nat, d: nat)
    requires d > 0
    ensures forall x :: x in Candidates(m, end, d) ==> m <= x < end
    decreases end - m
  {
    if m < end {
      CandidatesRange(m + d, end, d);
    }
  }

  /** The candidates that pass `keep`, in order. */
  function FreeMinutes(m: nat, end: nat, d: nat, keep: nat -> bool): seq<nat>
    requires d > 0
    decreases end - m
  {
    if m >= end then [] else (if keep(m) then [m] else []) + FreeMinutes(m + d, end, d, keep)
  }

  /** The kept minutes are exactly the candidates that pass the test. */
  lemma {:induction false} FreeMinutesMembers(m: nat, end: nat, d: nat, keep: nat -> bool)
    requires d > 0
    ensures forall x :: x in FreeMinutes(m, end, d, keep) <==> x in Candidates(m, end, d) && keep(x)
    decreases end - m
  {
    if m < end {
      FreeMinutesMembers(m + d, end, d, keep);
    }
  }

  predicate Increasing(xs: seq<nat>) {
    forall i, j :: 0 <= i < j < |xs| ==> xs[i] < xs[j]
  }

  lemma IncreasingCons(m: nat, rest: seq<nat>)
    requires forall i :: 0 <= i < |rest| ==> m < rest[i]
    requires Increasing(rest)
    ensures Increasing([m] + rest)
  {
  }

  /** The kept minutes lie in [m, end) and strictly increase. */
  lemma {:induction false} FreeMinutesIncreasing(m: nat, end: nat, d: nat, keep: nat -> bool)
    requires d > 0
    ensures var f := FreeMinutes(m, end, d, keep);
      && (forall i :: 0 <= i < |f| ==> m <= f[i] < end)
      && Increasing(f)
    decreases end - m
  {
    CandidatesRange(m, end, d);
    FreeMinutesMembers(m, end, d, keep);
    var f := FreeMinutes(m, end, d, keep);
    assert forall i :: 0 <= i < |f| ==> f[i] in Candidates(m, end, d);
    if m < end {
      FreeMinutesIncreasing(m + d, end, d, keep);
      var rest := FreeMinutes(m + d, end, d, keep);
      if keep(m) {
        IncreasingCons(m, rest);
      }
    }
  }

  function Labels(ms: seq<nat>): seq<string> {
    Map(ms, FormatHHMM)
  }

  /** One turn of the loop: the label of `curr` if it is kept, then the rest. */
  lemma LabelsStep(m: nat, end: nat, d: nat, keep: nat -> bool)
    requires d > 0 && m < end
    ensures Labels(FreeMinutes(m, end, d, keep)) ==
      (if keep(m) then [FormatHHMM(m)] else []) + Labels(FreeMinutes(m + d, end, d, keep))
  {
    var head: seq<nat> := if keep(m) then [m] else [];
    MapConcat(head, FreeMinutes(m + d, end, d, keep), FormatHHMM);
  }

  /** The loop invariant survives one turn, whatever the test. */
  lemma SlotsStep(slots: seq<string>, kept: seq<string>, curr: nat, end: nat, d: nat, keep: nat -> bool,
                  whole: seq<string>)
    requires d > 0 && curr < end
    requires slots + Labels(FreeMinutes(curr, end, d, keep)) == whole
    requires kept == (if keep(curr) then [FormatHHMM(curr)] else [])
    ensures (slots + kept) + Labels(FreeMinutes(curr + d, end, d, keep)) == whole
  {
    LabelsStep(curr, end, d, keep);
    AppendAssociative(slots, kept, Labels(FreeMinutes(curr + d, end, d, keep)));
  }

  /** The while loop of handleGetAvailableSlots, on minutes after midnight:
      `keep` is the loop's test of a slot (SlotTest). */
  method GenerateSlots(start: nat, end: nat, d: nat, keep: nat -> bool) returns (slots: seq<string>)
    requires d > 0
    ensures slots == Labels(FreeMinutes(start, end, d, keep))
  {
    ghost var whole := Labels(FreeMinutes(start, end, d, keep));
    var curr := start;
    slots := [];
    while curr < end
      invariant slots + Labels(FreeMinutes(curr, end, d, keep)) == whole
      decreases end - curr
    {
      var kept := if keep(curr) then [FormatHHMM(curr)] else [];
      SlotsStep(slots, kept, curr, end, d, keep, whole);
      slots := slots + kept;
      curr := curr + d;
    }
    assert FreeMinutes(curr, end, d, keep) == [];
  }

  lemma Pad2Injective(a: nat, b: nat)
    requires a < 100 && b < 100 && Pad2(a) == Pad2(b)
    ensures a == b
  {
    Pad2Value(a);
    Pad2Value(b);
  }

  /** Distinct minutes of one day get distinct labels. */
  lemma FormatHHMMInjective(a: nat, b: nat)
    requires a < 1440 && b < 1440 && FormatHHMM(a) == FormatHHMM(b)
    ensures a == b
  {
    var sa, sb := FormatHHMM(a), FormatHHMM(b);
    assert sa[..2] == Pad2(a / 60) && sb[..2] == Pad2(b / 60);
    assert sa[3..] == Pad2(a % 60) && sb[3..] == Pad2(b % 60);
    Pad2Injective(a / 60, b / 60);
    Pad2Injective(a % 60, b % 60);
  }

  /** Within a day, a candidate's label is offered iff the label is not
      occupied and, on today's date, the slot starts after the current
      minute; the labels are pairwise distinct. */
  lemma SlotOffered(start: nat, end: nat, d: nat, occupied: seq<string>, isToday: bool, now: Clock, m: nat)
    requires d > 0 && end <= 1440 && ValidClock(now)
    requires m in Candidates(start, end, d)
    ensures FormatHHMM(m) in Labels(FreeMinutes(start, end, d, SlotTest(occupied, isToday, now))) <==>
      FormatHHMM(m) !in occupied && !(isToday && m <= MinuteOfDay(now))
  {
    var f := FreeMinutes(start, end, d, SlotTest(occupied, isToday, now));
    FreeMinutesMembers(start, end, d, SlotTest(occupied, isToday, now));
    CandidatesRange(start, end, d);
    FreeMinutesIncreasing(start, end, d, SlotTest(occupied, isToday, now));
    IsPastSlotMeaning(m, now);
    if FormatHHMM(m) in Labels(f) {
      var i :| 0 <= i < |f| && Labels(f)[i] == FormatHHMM(m);
      FormatHHMMInjective(f[i], m);
    }
    if Keep(m, occupied, isToday, now) {
      var i :| 0 <= i < |f| && f[i] == m;
      assert Labels(f)[i] == FormatHHMM(m);
    }
  }

  lemma LabelsDistinct(start: nat, end: nat, d: nat, occupied: seq<string>, isToday: bool, now: Clock)
    requires d > 0 && end <= 1440
    ensures var l := Labels(FreeMinutes(start, end, d, SlotTest(occupied, isToday, now)));
      forall i, j :: 0 <= i < j < |l| ==> l[i] != l[j]
  {
    var f := FreeMinutes(start, end, d, SlotTest(occupied, isToday, now));
    FreeMinutesIncreasing(start, end, d, SlotTest(occupied, isToday, now));
    forall i, j | 0 <= i < j < |f|
      ensures FormatHHMM(f[i]) != FormatHHMM(f[j])
    {
      if FormatHHMM(f[i]) == FormatHHMM(f[j]) {
        FormatHHMMInjective(f[i], f[j]);
      }
    }
  }

  predicate IsBooking(a: Appointment, rows: seq<Appointment>, professionalId: Id, date: string) {
    a in rows && a.professionalId == professionalId && a.date == date && a.status != Cancelled
  }

  /** Start times of the professional's other bookings that day:
      `appointment_time.substring(0, 5)` of the rows not CANCELLED. */
  function Occupied(rows: seq<Appointment>, professionalId: Id, date: string): (r: seq<string>)
    ensures forall s :: s in r <==> (exists a :: IsBooking(a, rows, professionalId, date) && s == Take(a.time, 5))
  {
    var booked := Filter(rows, (a: Appointment) => a.professionalId == professionalId && a.date == date && a.status != Cancelled);
    var r := Map(booked, (a: Appointment) => Take(a.time, 5));
    assert forall a :: a in booked <==> IsBooking(a, rows, professionalId, date);
    assert forall s :: s in r ==> exists i :: 0 <= i < |booked| && s == Take(booked[i].time, 5);
    r
  }

  const NotFoundMessage: string := "Erro: Profissional ou serviço não encontrado."
  const NoSlotsMessage: string := "Nenhum horário disponível para esta data."

  /** The start times the slot loop avoids: `existing?.map(...) || []`,
      where `existing` is null when its query failed (`bookingsFault`). */
  function OccupiedOrNone(rows: seq<Appointment>, professionalId: Id, date: string, bookingsFault: bool): (r: seq<string>)
    ensures bookingsFault ==> r == []
    ensures !bookingsFault ==> r == Occupied(rows, professionalId, date)
  {
    if bookingsFault then [] else Occupied(rows, professionalId, date)
  }

  /** handleGetAvailableSlots. `dateReadable` says whether the runtime reads
      `date` as a calendar date: when it does not, both bounds are Invalid
      Date and the loop does not run. A missing or non-positive duration with
      a non-empty window never ends the loop. A failed read of the bookings
      leaves nothing occupied. */
  function SlotsOutcome(t: Tables, professionalId: Id, serviceId: Id, date: string, today: string,
                        now: Clock, dateReadable: bool, bookingsFault: bool): HandlerOutcome
  {
    var service := FindService(t.services, serviceId);
    var prof := FindProfessional(t.professionals, professionalId);
    if service.None? || prof.None? then Says(NotFoundMessage)
    else
      var start, end := prof.value.startMinute, prof.value.endMinute;
      var d := service.value.durationMinutes.GetOr(0);
      if !dateReadable || start >= end then Says(NoSlotsMessage)
      else if d <= 0 then Diverges
      else
        var occupied := OccupiedOrNone(t.appointments, professionalId, date, bookingsFault);
        var slots := Labels(FreeMinutes(start, end, d, SlotTest(occupied, date == today, now)));
        if slots == [] then Says(NoSlotsMessage) else Returned(SlotTimes(slots))
  }

  method GetAvailableSlots(db: Database, professionalId: Id, serviceId: Id, date: string, today: string,
                           now: Clock, dateReadable: bool, bookingsFault: bool) returns (out: HandlerOutcome)
    ensures out == SlotsOutcome(db.Snapshot(), professionalId, serviceId, date, today, now, dateReadable, bookingsFault)
  {
    var service := FindService(db.services, serviceId);
    var prof := FindProfessional(db.professionals, professionalId);
    var occupied := if bookingsFault then [] else Occupied(db.appointments, professionalId, date);
    if service.None? || prof.None? {
      return Says(NotFoundMessage);
    }
    var start, end := prof.value.startMinute, prof.value.endMinute;
    var d := service.value.durationMinutes.GetOr(0);
    if !dateReadable || start >= end {
      return Says(NoSlotsMessage);
    }
    if d <= 0 {
      return Diverges;
    }
    var slots := GenerateSlots(start, end, d, SlotTest(occupied, date == today, now));
    out := if slots == [] then Says(NoSlotsMessage) else Returned(SlotTimes(slots));
  }

  /** When the bookings cannot be read, the slots offered are those of a
      day without bookings: every slot that is not past. */
  lemma FailedBookingsReadOffersAll(t: Tables, professionalId: Id, serviceId: Id, date: string, today: string,
                                    now: Clock, dateReadable: bool)
    ensures SlotsOutcome(t, professionalId, serviceId, date, today, now, dateReadable, true)
         == SlotsOutcome(t.(appointments := []), professionalId, serviceId, date, today, now, dateReadable, false)
  {
    assert Occupied([], professionalId, date) == [];
  }

  lemma Labels540To690()
    ensures FormatHHMM(540) == "09:00" && FormatHHMM(570) == "09:30" && FormatHHMM(600) == "10:00"
    ensures FormatHHMM(630) == "10:30" && FormatHHMM(660) == "11:00" && FormatHHMM(690) == "11:30"
  {
    Labels540To600();
    Labels630To690();
  }

  lemma Labels540To600()
    ensures FormatHHMM(540) == "09:00" && FormatHHMM(570) == "09:30" && FormatHHMM(600) == "10:00"
  {
    FormatHHMMDigits(540);
    FormatHHMMDigits(570);
    FormatHHMMDigits(600);
  }

  lemma Labels630To690()
    ensures FormatHHMM(630) == "10:30" && FormatHHMM(660) == "11:00" && FormatHHMM(690) == "11:30"
  {
    FormatHHMMDigits(630);
    FormatHHMMDigits(660);
    FormatHHMMDigits(690);
  }

  /** The five characters of a label within the first 100 hours. */
  lemma FormatHHMMDigits(m: nat)
    requires m < 6000
    ensures FormatHHMM(m) == [DigitChar(m / 600), DigitChar(m / 60 % 10), ':', DigitChar(m % 60 / 10), DigitChar(m % 60 % 10)]
  {
  }

  /** 09:00 to 12:00 in 30-minute steps under a test that refuses only
      10:00. */
  lemma WorkedExampleMinutes(k: nat -> bool)
    requires k(540) && k(570) && !k(600) && k(630) && k(660) && k(690)
    ensures FreeMinutes(540, 720, 30, k) == [540, 570, 630, 660, 690]
  {
    assert FreeMinutes(720, 720, 30, k) == [];
    assert FreeMinutes(690, 720, 30, k) == [690];
    assert FreeMinutes(660, 720, 30, k) == [660, 690];
    assert FreeMinutes(630, 720, 30, k) == [630, 660, 690];
    assert FreeMinutes(600, 720, 30, k) == [630, 660, 690];
    assert FreeMinutes(570, 720, 30, k) == [570, 630, 660, 690];
  }

  /** With 10:00 booked on another day, of 09:00 to 11:30 only 10:00 is
      refused. */
  lemma SlotTestExample(now: Clock)
    ensures var k := SlotTest(["10:00"], false, now);
      k(540) && k(570) && !k(600) && k(630) && k(660) && k(690)
  {
    Labels540To690();
  }

  /** 09:00 to 12:00 in 30-minute steps with 10:00 booked, on another day:
      09:00, 09:30, 10:30, 11:00 and 11:30 are offered. */
  lemma WorkedExample(now: Clock)
    ensures Labels(FreeMinutes(540, 720, 30, SlotTest(["10:00"], false, now))) == ["09:00", "09:30", "10:30", "11:00", "11:30"]
  {
    SlotTestExample(now);
    WorkedExampleMinutes(SlotTest(["10:00"], false, now));
    LabelsOfFive(540, 570, 630, 660, 690);
    Labels540To690();
  }

  lemma LabelsOfFive(a: nat, b: nat, c: nat, d: nat, e: nat)
    ensures Labels([a, b, c, d, e]) == [FormatHHMM(a), FormatHHMM(b), FormatHHMM(c), FormatHHMM(d), FormatHHMM(e)]
  {
  }
}
