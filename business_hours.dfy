/** The business-hours evaluator of the AI agent (ai-chat/helpers.ts):
    whether the company is open now, and the context block that tells the
    model about the company's schedule. "Now" is given as the weekday, hour
    and minute in the company's time zone. */
module BusinessHours {
  import opened Optional
  import opened Text
  import opened Tables

  /** The current moment in São Paulo: weekday 0 = Sunday … 6 = Saturday. */
  datatype Clock = Clock(weekday: int, hour: int, minute: int)

  predicate ValidClock(now: Clock) {
    0 <= now.weekday < 7 && 0 <= now.hour < 24 && 0 <= now.minute < 60
  }

  function MinuteOfDay(now: Clock): int {
    now.hour * 60 + now.minute
  }

  const DefaultWorkingDays: seq<string> := ["Segunda", "Terça", "Quarta", "Quinta", "Sexta"]
  const DefaultStart: string := "09:00"
  const DefaultEnd: string := "18:00"
  const DefaultOfflineMessage: string :=
    "No momento nossa equipe humana não está disponível, mas eu (IA) posso te ajudar com agendamentos e informações gerais."

  /** The weekdays a working-day name stands for; unknown names stand for
      none. */
  function DaysOf(name: string): set<int> {
    match name
    case "Domingo" => {0}
    case "Segunda" => {1}
    case "Terça" => {2}
    case "Quarta" => {3}
    case "Quinta" => {4}
    case "Sexta" => {5}
    case "Sábado" => {6}
    case "Segunda a Sexta" => {1, 2, 3, 4, 5}
    case "Segunda a Sábado" => {1, 2, 3, 4, 5, 6}
    case "Todos os dias" => {0, 1, 2, 3, 4, 5, 6}
    case _ => {}
  }

  /** `settings?.working_days || [Segunda … Sexta]`: a missing row or column
      gives Monday to Friday; an empty list is kept. */
  function WorkingDays(settings: Option<SettingsRow>): seq<string> {
    if settings.Some? && settings.value.workingDays.Some? then settings.value.workingDays.value
    else DefaultWorkingDays
  }

  function HoursStart(settings: Option<SettingsRow>): string {
    if settings.Some? && settings.value.hoursStart != "" then settings.value.hoursStart else DefaultStart
  }

  function HoursEnd(settings: Option<SettingsRow>): string {
    if settings.Some? && settings.value.hoursEnd != "" then settings.value.hoursEnd else DefaultEnd
  }

  /** `const [h, m] = s.split(':').map(Number)` followed by `h * 60 + (m || 0)`:
      None stands for NaN, which an unreadable hour gives; a missing or
      unreadable minute counts as 0. */
  function ClockMinutes(s: string): Option<int> {
    HourAndMinute(JsNumber(BeforeFirst(s, ':')), MinutePart(s))
  }

  /** The second ':'-separated field, read as a number. */
  function MinutePart(s: string): Option<int> {
    if ':' in s then JsNumber(BeforeFirst(AfterFirst(s, ':'), ':')) else None
  }

  function HourAndMinute(h: Option<int>, m: Option<int>): Option<int> {
    if h.None? then None else Some(h.value * 60 + m.GetOr(0))
  }

  /** The weekday is covered by some entry of the list. */
  ghost predicate IsWorkingDay(days: seq<string>, weekday: int) {
    exists i :: 0 <= i < |days| && weekday in DaysOf(days[i])
  }

  /** Both bounds are inclusive; a NaN bound makes every comparison false. */
  predicate WithinHours(settings: Option<SettingsRow>, now: Clock) {
    var start := ClockMinutes(HoursStart(settings));
    var end := ClockMinutes(HoursEnd(settings));
    start.Some? && end.Some? && start.value <= MinuteOfDay(now) <= end.value
  }

  ghost predicate IsOpen(settings: Option<SettingsRow>, now: Clock) {
    IsWorkingDay(WorkingDays(settings), now.weekday) && WithinHours(settings, now)
  }

  /** checkBusinessHours: the working-day flag is raised inside a loop over
      the configured names, then combined with the hours test. */
  method CheckBusinessHours(settings: Option<SettingsRow>, now: Clock) returns (open: bool)
    ensures open == IsOpen(settings, now)
  {
    var isWorkingDay := false;
    var days := WorkingDays(settings);
    var i := 0;
    while i < |days|
      invariant 0 <= i <= |days|
      invariant isWorkingDay <==> exists k :: 0 <= k < i && now.weekday in DaysOf(days[k])
    {
      if now.weekday in DaysOf(days[i]) {
        isWorkingDay := true;
      }
      i := i + 1;
    }
    open := isWorkingDay && WithinHours(settings, now);
  }

  /** The order of the working-day entries, and repeated entries, do not
      matter: only which names occur. */
  lemma WorkingDayOrderIrrelevant(days: seq<string>, other: seq<string>, weekday: int)
    requires forall d :: d in days <==> d in other
    ensures IsWorkingDay(days, weekday) <==> IsWorkingDay(other, weekday)
  {
    if IsWorkingDay(days, weekday) {
      var i :| 0 <= i < |days| && weekday in DaysOf(days[i]);
      assert days[i] in other;
      var j :| 0 <= j < |other| && other[j] == days[i];
    }
    if IsWorkingDay(other, weekday) {
      var j :| 0 <= j < |other| && weekday in DaysOf(other[j]);
      assert other[j] in days;
      var i :| 0 <= i < |days| && days[i] == other[j];
    }
  }

  /** An entry the table does not know adds no working day. */
  lemma UnknownNameContributesNothing(days: seq<string>, name: string, weekday: int)
    requires DaysOf(name) == {}
    ensures IsWorkingDay(days + [name], weekday) <==> IsWorkingDay(days, weekday)
  {
    if IsWorkingDay(days + [name], weekday) {
      var i :| 0 <= i < |days + [name]| && weekday in DaysOf((days + [name])[i]);
      assert i < |days| && (days + [name])[i] == days[i];
    }
    if IsWorkingDay(days, weekday) {
      var i :| 0 <= i < |days| && weekday in DaysOf(days[i]);
      assert (days + [name])[i] == days[i];
    }
  }

  /** Each single weekday name covers exactly its own day. */
  lemma SingleNames()
    ensures forall d :: 0 <= d < 7 ==> DaysOf(DayName(d)) == {d}
  {
  }

  function DayName(d: int): string
    requires 0 <= d < 7
  {
    ["Domingo", "Segunda", "Terça", "Quarta", "Quinta", "Sexta", "Sábado"][d]
  }

  /** With no settings row the company works Monday to Friday. */
  lemma DefaultDaysAreWeekdays(weekday: int)
    requires 0 <= weekday < 7
    ensures IsWorkingDay(WorkingDays(None), weekday) <==> 1 <= weekday <= 5
  {
    var days := WorkingDays(None);
    if 1 <= weekday <= 5 {
      assert weekday in DaysOf(days[weekday - 1]);
    }
    if IsWorkingDay(days, weekday) {
      var i :| 0 <= i < |days| && weekday in DaysOf(days[i]);
      assert DaysOf(days[i]) == {i + 1};
    }
  }

  /** An "HH:MM" time is read back as its minute of the day. */
  lemma ClockMinutesOfPadded(h: nat, m: nat)
    requires h < 24 && m < 60
    ensures ClockMinutes(Pad2(h) + ":" + Pad2(m)) == Some(h * 60 + m)
  {
    var s := Pad2(h) + ":" + Pad2(m);
    assert BeforeFirst(s, ':') == Pad2(h) by { BeforeFirstJoin(Pad2(h), ':', Pad2(m)); }
    assert JsNumber(Pad2(h)) == Some(h) by { Pad2Value(h); }
    MinutePartOfPadded(h, m);
    ClockMinutesOfParts(s, h, m);
  }

  lemma ClockMinutesOfParts(s: string, h: int, m: int)
    requires JsNumber(BeforeFirst(s, ':')) == Some(h) && MinutePart(s) == Some(m)
    ensures ClockMinutes(s) == Some(h * 60 + m)
  {
    ClockMinutesUnfold(s, h, m);
    HourAndMinuteOf(Some(h), Some(m), h, m);
  }

  lemma ClockMinutesUnfold(s: string, h: int, m: int)
    requires JsNumber(BeforeFirst(s, ':')) == Some(h) && MinutePart(s) == Some(m)
    ensures ClockMinutes(s) == HourAndMinute(Some(h), Some(m))
  {
  }

  lemma HourAndMinuteOf(a: Option<int>, b: Option<int>, h: int, m: int)
    requires a == Some(h) && b == Some(m)
    ensures HourAndMinute(a, b) == Some(h * 60 + m)
  {
  }

  lemma MinutePartOfPadded(h: nat, m: nat)
    requires h < 24 && m < 60
    ensures MinutePart(Pad2(h) + ":" + Pad2(m)) == Some(m)
  {
    var s := Pad2(h) + ":" + Pad2(m);
    BeforeFirstJoin(Pad2(h), ':', Pad2(m));
    assert ':' in s by { assert s[2] == ':'; }
    assert AfterFirst(s, ':') == Pad2(m);
    BeforeFirstAbsent(Pad2(m), ':');
    Pad2Value(m);
  }

  lemma {:induction false} BeforeFirstJoin(a: string, c: char, b: string)
    requires c !in a
    ensures BeforeFirst(a + [c] + b, c) == a
  {
    if a != [] {
      assert (a + [c] + b)[1..] == a[1..] + [c] + b;
      BeforeFirstJoin(a[1..], c, b);
    }
  }

  lemma {:induction false} BeforeFirstAbsent(a: string, c: char)
    requires c !in a
    ensures BeforeFirst(a, c) == a
  {
    if a != [] {
      BeforeFirstAbsent(a[1..], c);
    }
  }

  lemma PaddedDefaults()
    ensures DefaultStart == Pad2(9) + ":" + Pad2(0)
    ensures DefaultEnd == Pad2(18) + ":" + Pad2(0)
  {
    assert Pad2(9) == ['0', '9'];
    assert Pad2(18) == ['1', '8'];
    assert Pad2(0) == ['0', '0'];
  }

  /** Bounds written "HH:MM" compare the minute of the day against
      HH * 60 + MM, both ends inclusive. */
  lemma PaddedHours(settings: Option<SettingsRow>, now: Clock, h1: nat, m1: nat, h2: nat, m2: nat)
    requires h1 < 24 && m1 < 60 && h2 < 24 && m2 < 60
    requires HoursStart(settings) == Pad2(h1) + ":" + Pad2(m1)
    requires HoursEnd(settings) == Pad2(h2) + ":" + Pad2(m2)
    ensures WithinHours(settings, now) <==> h1 * 60 + m1 <= MinuteOfDay(now) <= h2 * 60 + m2
  {
    ClockMinutesOfPadded(h1, m1);
    ClockMinutesOfPadded(h2, m2);
  }

  /** Without a settings row the company is open Monday to Friday from
      09:00 to 18:00, both minutes included. */
  lemma DefaultSchedule(now: Clock)
    requires ValidClock(now)
    ensures IsOpen(None, now) <==> 1 <= now.weekday <= 5 && 540 <= MinuteOfDay(now) <= 1080
  {
    PaddedDefaults();
    PaddedHours(None, now, 9, 0, 18, 0);
    DefaultDaysAreWeekdays(now.weekday);
  }

  /** With no settings row: Tuesday 18:00 is open and 18:01 closed,
      Tuesday 10:00 is open and Saturday 10:00 closed. */
  lemma DefaultScheduleExamples()
    ensures IsOpen(None, Clock(2, 18, 0))
    ensures !IsOpen(None, Clock(2, 18, 1))
    ensures IsOpen(None, Clock(2, 10, 0))
    ensures !IsOpen(None, Clock(6, 10, 0))
  {
    DefaultSchedule(Clock(2, 18, 0));
    DefaultSchedule(Clock(2, 18, 1));
    DefaultSchedule(Clock(2, 10, 0));
    DefaultSchedule(Clock(6, 10, 0));
  }

  /** A minute component that is missing or unreadable counts as 0. */
  lemma MissingMinuteIsZero(h: nat)
    requires h < 100
    ensures ClockMinutes(Pad2(h)) == Some(h * 60)
    ensures ClockMinutes(Pad2(h) + ":") == Some(h * 60)
  {
    BeforeFirstAbsent(Pad2(h), ':');
    Pad2Value(h);
    BeforeFirstJoin(Pad2(h), ':', "");
    assert Pad2(h) + ":" == Pad2(h) + [':'] + "";
    assert AfterFirst(Pad2(h) + ":", ':') == "";
  }

  // ---- the context block -------------------------------------------------

  const ContextHead: string := "\n[CONFIGURAÇÕES DA EMPRESA]\n- Status Atual: "

  const RulesBlock: string :=
    "\n\n[REGRAS DE ATENDIMENTO]\n"
    + "1. Se o status da empresa for FECHADO(A), você DEVE informar ao cliente que a equipe humana não está disponível no momento.\n"
    + "2. Seja cortês e informe que o atendimento humano retornará no horário comercial.\n"
    + "3. SEMPRE tente ajudar com informações da base de conhecimento ou realize agendamentos, pois você (IA) funciona 24h.\n"
    + "4. Se estiver fechado, use a \"Mensagem de Ausência\" como base para sua resposta inicial.\n    "

  function StatusWord(isOpen: bool): string {
    if isOpen then "ABERTO(A)" else "FECHADO(A)"
  }

  function Informacoes(settings: Option<SettingsRow>): string {
    if settings.Some? then settings.value.informacoes else ""
  }

  function Address(settings: Option<SettingsRow>): string {
    if settings.Some? then settings.value.address else ""
  }

  function Website(settings: Option<SettingsRow>): string {
    if settings.Some? then settings.value.website else ""
  }

  function OfflineMessage(settings: Option<SettingsRow>): string {
    if settings.Some? && settings.value.offlineMessage != "" then settings.value.offlineMessage
    else DefaultOfflineMessage
  }

  function HoursLine(settings: Option<SettingsRow>): string {
    "- Horário de Funcionamento: " + HoursStart(settings) + " às " + HoursEnd(settings)
  }

  function DaysLine(workingDays: seq<string>): string {
    "- Dias de Trabalho: " + Join(workingDays, ", ")
  }

  function AbsenceLine(settings: Option<SettingsRow>): string {
    "- Mensagem de Ausência: " + OfflineMessage(settings)
  }

  /** The pieces of getBusinessContext, in order. */
  function ContextParts(settings: Option<SettingsRow>, isOpen: bool, workingDays: seq<string>): seq<string> {
    [ContextHead, StatusWord(isOpen),
     "\n", HoursLine(settings),
     "\n", DaysLine(workingDays),
     "\n- Informações Institucionais: ", Informacoes(settings),
     "\n- Endereço: ", Address(settings),
     "\n- Website: ", Website(settings),
     "\n", AbsenceLine(settings),
     RulesBlock]
  }

  /** getBusinessContext */
  function BusinessContext(settings: Option<SettingsRow>, isOpen: bool, workingDays: seq<string>): string {
    Concat(ContextParts(settings, isOpen, workingDays))
  }

  /** The status line reads ABERTO(A) exactly when the company is open (the
      rules block further down always mentions FECHADO(A), so the test is on
      the status line itself). */
  lemma ContextStatus(settings: Option<SettingsRow>, isOpen: bool, workingDays: seq<string>)
    ensures StartsWith(BusinessContext(settings, isOpen, workingDays), ContextHead + "ABERTO(A)") <==> isOpen
    ensures StartsWith(BusinessContext(settings, isOpen, workingDays), ContextHead + "FECHADO(A)") <==> !isOpen
  {
    var parts := ContextParts(settings, isOpen, workingDays);
    var ctx := Concat(parts);
    ConcatStartsWith(parts, 2);
    assert parts[..2] == [ContextHead, StatusWord(isOpen)];
    assert Concat([StatusWord(isOpen)]) == StatusWord(isOpen);
    var hw := ContextHead + StatusWord(isOpen);
    assert Concat(parts[..2]) == hw;
    var n := |ContextHead|;
    assert ctx[n] == hw[n] == StatusWord(isOpen)[0];
    if isOpen {
      assert (ContextHead + "FECHADO(A)")[n] == 'F';
    } else {
      assert (ContextHead + "ABERTO(A)")[n] == 'A';
    }
  }

  /** The context shows the configured hours, the working days joined by
      ", " and the absence message. */
  lemma ContextShowsSchedule(settings: Option<SettingsRow>, isOpen: bool, workingDays: seq<string>)
    ensures Contains(BusinessContext(settings, isOpen, workingDays), HoursLine(settings))
    ensures Contains(BusinessContext(settings, isOpen, workingDays), DaysLine(workingDays))
    ensures Contains(BusinessContext(settings, isOpen, workingDays), AbsenceLine(settings))
  {
    var parts := ContextParts(settings, isOpen, workingDays);
    ConcatContainsPart(parts, 3);
    ConcatContainsPart(parts, 5);
    ConcatContainsPart(parts, 13);
  }

  lemma DefaultHoursLine()
    ensures HoursLine(None) == "- Horário de Funcionamento: 09:00 às 18:00"
  {
  }

  /** Without a settings row the context shows 09:00 às 18:00 and the
      default absence message, and each working day is named. */
  lemma ContextDefaults(isOpen: bool, workingDays: seq<string>, k: int)
    requires 0 <= k < |workingDays|
    ensures Contains(BusinessContext(None, isOpen, workingDays), "- Horário de Funcionamento: 09:00 às 18:00")
    ensures Contains(BusinessContext(None, isOpen, workingDays), "- Mensagem de Ausência: " + DefaultOfflineMessage)
    ensures Contains(BusinessContext(None, isOpen, workingDays), workingDays[k])
  {
    ContextShowsSchedule(None, isOpen, workingDays);
    DefaultHoursLine();
    JoinContains(workingDays, ", ", k);
    ContainsRight("- Dias de Trabalho: ", Join(workingDays, ", "));
    ContainsTransitive(DaysLine(workingDays), Join(workingDays, ", "), workingDays[k]);
    ContainsTransitive(BusinessContext(None, isOpen, workingDays), DaysLine(workingDays), workingDays[k]);
  }
}
