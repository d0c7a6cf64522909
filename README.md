# zap-ai: a verified model of the attendant back end

zap-ai is a WhatsApp and Instagram attendant for small businesses. A customer's
message reaches a webhook, which stores it on the contact's conversation and
hands the text to an AI agent. The agent answers through a language model that
may call eight tools: list services and professionals, find free slots, list,
create and cancel appointments, generate a PIX charge and check its payment.
Appointments are mirrored into the company's Google Calendar. A few screens of
the web app hold logic of their own: the chat bubble and the management page.

This project models that core in Dafny and proves what each part promises.

| module | file | models |
|---|---|---|
| `Optional`, `Text` | text.dfy | the optional value, and the JavaScript string operations used (trim, lower- and upper-case, includes, replace, substring, Number) |
| `Seqs` | seqs.dfy | order-preserving filters, subsequences and prefixes (`filter`, `.limit(n)`) |
| `JsValues` | js_values.dfy | JSON values as webhooks deliver them, with truthiness, optional access, the TypeError of reading a property of null, and `String()` |
| `Tables` | tables.dfy | the rows of the store, the outbound requests, and the store as a class `Database` |
| `BusinessHours` | business_hours.dfy | `checkBusinessHours` and `getBusinessContext` (ai-chat/helpers.ts) |
| `ToolResults` | tool_results.dfy | what a tool handler returns, raises, or that it never returns |
| `AppointmentTools` | appointment_tools.dfy | the appointment tool handlers (ai-chat/tools_appointments.ts) |
| `PaymentTools` | payment_tools.dfy | PIX generation and payment checking (ai-chat/tools_payments.ts) |
| `ToolRegistry` | tool_registry.dfy | the eight tool declarations (ai-chat/tools_definitions.ts) |
| `ToolDispatch` | tool_dispatch.dfy | `executeTool` (ai-chat/tools_execute.ts) |
| `SystemPrompt` | prompt.dfy | the system message of a turn (ai-chat/index.ts) |
| `ConversationEngine` | conversation_engine.dfy | the debounce, the history, the tool-calling loop and the reply (ai-chat/index.ts) |
| `WhatsAppGateway` | whatsapp_gateway.dfy | the WhatsApp webhook |
| `InstagramAutomation` | instagram_automation.dfy | the Instagram webhook: verification, keyword replies and leads |
| `CalendarSync` | calendar_sync.dfy | the Google Calendar sync function |
| `MessageBubble` | message_bubble.dfy | media tags, prefix stripping and sender labels of the chat bubble |
| `Management` | management.dfy | roles, default role, new drafts and list filters of the management page |

How the model is built:

- The store is one object, `Tables.Database`, with one `seq` field per table
  and an `outbox` of the requests sent out. Every handler is a method that
  `modifies` it. Each method ensures that its new store and its reply equal a
  pure function of the old store, such as `SyncEffect` or `CheckEffect`. The
  lemmas prove what the source promises about those functions.
- Loops stay loops. Examples are the working-day scan in `checkBusinessHours`,
  the slot generator's `while` and the agent's tool-calling `while`. Each is a
  method whose invariants tie it to its specification function.
- Outside answers are parameters of the handlers: the model API, Whisper, the
  vision model, the Evolution and Graph APIs, the invoicing webhooks and
  Google. So are a query's failure, the clock and the ids the store assigns.
  A supabase query that fails is its error message, a failure flag, or the
  absence of a row. In the agent, a call to the model API, the reply send
  or a webhook that throws is an input too, and the turn or handler it
  breaks is modelled.
- In the agent, the 10-second wait splits a turn into two methods, `Stamp`
  before it and `Resume` after it. Other turns may run on the same store in
  between, and lemmas about two interleaved turns show what the debounce does.

## Model

| member | source | states |
|---|---|---|
| BusinessHours.CheckBusinessHours | supabase/functions/ai-chat/helpers.ts:10-42 | open exactly when some entry of the working-day list (Monday to Friday when the setting is missing) covers the current weekday and start <= minute of day <= end |
| BusinessHours.WorkingDayOrderIrrelevant | supabase/functions/ai-chat/helpers.ts:23-32 | only which day names occur matters, not their order or repetition |
| BusinessHours.UnknownNameContributesNothing | supabase/functions/ai-chat/helpers.ts:26-31 | a name missing from the day table adds no working day |
| BusinessHours.SingleNames | supabase/functions/ai-chat/helpers.ts:16-17 | each single weekday name covers exactly its own day number |
| BusinessHours.DefaultDaysAreWeekdays | supabase/functions/ai-chat/helpers.ts:24-32 | without settings the working days are exactly Monday to Friday |
| BusinessHours.ClockMinutesOfPadded | supabase/functions/ai-chat/helpers.ts:34-39 | an "HH:MM" setting is read as HH * 60 + MM |
| BusinessHours.MissingMinuteIsZero | supabase/functions/ai-chat/helpers.ts:38-39 | a missing minute field counts as 0 |
| BusinessHours.PaddedHours | supabase/functions/ai-chat/helpers.ts:34-41 | with padded bounds the hours test is start <= now <= end, both ends included |
| BusinessHours.DefaultSchedule | supabase/functions/ai-chat/helpers.ts:24-42 | without settings the company is open exactly Monday to Friday from 09:00 to 18:00 inclusive |
| BusinessHours.DefaultScheduleExamples | supabase/functions/ai-chat/helpers.ts:24-42 | Tuesday 18:00 open, 18:01 closed, Saturday 10:00 closed |
| BusinessHours.ContextStatus | supabase/functions/ai-chat/helpers.ts:45-48 | the status line says ABERTO(A) exactly when open and FECHADO(A) exactly when closed |
| BusinessHours.ContextShowsSchedule | supabase/functions/ai-chat/helpers.ts:49-54 | the context carries the hours line, the joined working days and the absence message |
| BusinessHours.DefaultHoursLine | supabase/functions/ai-chat/helpers.ts:49 | without settings the hours line shows 09:00 às 18:00 |
| BusinessHours.ContextDefaults | supabase/functions/ai-chat/helpers.ts:49-54 | without settings the context shows the default hours, the default absence message and every working day |
| AppointmentTools.CompanyServices | supabase/functions/ai-chat/tools_appointments.ts:4 | exactly the company's services, in table order |
| AppointmentTools.CompanyProfessionals | supabase/functions/ai-chat/tools_appointments.ts:9 | exactly the company's professionals, in table order |
| AppointmentTools.ListServices | supabase/functions/ai-chat/tools_appointments.ts:3-6 | the result is null exactly when the query fails, otherwise the id, name, price and duration of exactly the company's services |
| AppointmentTools.ListProfessionals | supabase/functions/ai-chat/tools_appointments.ts:8-11 | the result is null exactly when the query fails, otherwise the id, name and role of exactly the company's professionals |
| AppointmentTools.UpcomingRows | supabase/functions/ai-chat/tools_appointments.ts:26-27 | exactly the contact's rows dated today or later |
| AppointmentTools.InsertByDateSorted | supabase/functions/ai-chat/tools_appointments.ts:28 | inserting into a date-sorted list keeps it sorted and adds exactly that row |
| AppointmentTools.SortByDateSorted | supabase/functions/ai-chat/tools_appointments.ts:28 | the ordering is sorted by date and a permutation of its input |
| AppointmentTools.LimitSorted | supabase/functions/ai-chat/tools_appointments.ts:28-29 | the first n of a sorted list are sorted and dated no later than any row left out |
| AppointmentTools.UpcomingEmpty | supabase/functions/ai-chat/tools_appointments.ts:26-32 | the listing is empty exactly when the contact has no row dated today or later |
| AppointmentTools.UpcomingSpec | supabase/functions/ai-chat/tools_appointments.ts:16-29 | at most 10 rows, all the contact's and upcoming, sorted by date, drawn from the matching rows, and all of them when there are at most 10 |
| AppointmentTools.AppointmentLine | supabase/functions/ai-chat/tools_appointments.ts:35 | each line starts with "- ID: " and the appointment id |
| AppointmentTools.Listing | supabase/functions/ai-chat/tools_appointments.ts:34-36 | a non-empty listing throws exactly when a row's join is missing; otherwise it is the header followed by the rows' lines joined by newlines, naming "- ID: <id>" of every row, and is never the "no upcoming appointment" message |
| AppointmentTools.AppointmentLines | supabase/functions/ai-chat/tools_appointments.ts:34-36 | one line per row, in order, each the row's id, service name, professional name, date, time and status, unless some row's service or professional is missing, where the mapping throws |
| AppointmentTools.ListMyAppointments | supabase/functions/ai-chat/tools_appointments.ts:13-37 | the query error message on a failure, the "no upcoming appointment" message exactly when none is upcoming, a throw exactly when a listed row's join is missing, and otherwise the header followed by the listed rows' lines joined by newlines, the text naming "- ID: <id>" of every listed row |
| AppointmentTools.CancelRows | supabase/functions/ai-chat/tools_appointments.ts:40 | the rows with that id become CANCELLED and every other row is unchanged |
| AppointmentTools.CancelAppointment | supabase/functions/ai-chat/tools_appointments.ts:39-45 | the new store and the reply are those of the cancel effect: on success the row is cancelled and a DELETE sync is requested |
| AppointmentTools.CancelOnlyTarget | supabase/functions/ai-chat/tools_appointments.ts:39-45 | only rows with the id change, the DELETE sync is requested exactly on success, and a failure writes nothing |
| AppointmentTools.CancelIdempotent | supabase/functions/ai-chat/tools_appointments.ts:40 | cancelling twice leaves the same rows as cancelling once |
| AppointmentTools.CreateAppointment | supabase/functions/ai-chat/tools_appointments.ts:79-93 | the new store and reply are those of the create effect: a PENDING row with the store's fresh id plus a sync request, or nothing on an error |
| AppointmentTools.CreateAddsOnePending | supabase/functions/ai-chat/tools_appointments.ts:80-88 | a successful insert appends exactly one PENDING row with the given fields, found under the new id, and keeps the earlier rows |
| AppointmentTools.CreateFailureWritesNothing | supabase/functions/ai-chat/tools_appointments.ts:90-92 | a failed insert writes nothing, requests no sync and replies with the error |
| AppointmentTools.IsPastSlotMeaning | supabase/functions/ai-chat/tools_appointments.ts:69-72 | a slot is past exactly when it starts at or before the current minute |
| AppointmentTools.CandidatesSpec | supabase/functions/ai-chat/tools_appointments.ts:63-75 | the loop visits start + i * duration for every i while below the end |
| AppointmentTools.FreeMinutesMembers | supabase/functions/ai-chat/tools_appointments.ts:66-75 | the kept minutes are exactly the visited minutes that pass the test |
| AppointmentTools.FreeMinutesIncreasing | supabase/functions/ai-chat/tools_appointments.ts:66-75 | the kept minutes lie in [start, end) and strictly increase |
| AppointmentTools.GenerateSlots | supabase/functions/ai-chat/tools_appointments.ts:58-75 | the loop pushes exactly the labels of the kept candidate minutes, in order |
| AppointmentTools.FormatHHMMInjective | supabase/functions/ai-chat/tools_appointments.ts:67 | two minutes of one day with the same HH:MM label are equal |
| AppointmentTools.SlotOffered | supabase/functions/ai-chat/tools_appointments.ts:66-75 | a visited slot is offered exactly when its label is not occupied and it is not past today |
| AppointmentTools.LabelsDistinct | supabase/functions/ai-chat/tools_appointments.ts:66-75 | no slot is offered twice |
| AppointmentTools.Occupied | supabase/functions/ai-chat/tools_appointments.ts:53-57 | exactly the first five characters of the times of the professional's non-cancelled bookings that day |
| AppointmentTools.OccupiedOrNone | supabase/functions/ai-chat/tools_appointments.ts:53-57 | nothing is occupied when the bookings read failed, else exactly the occupied start times |
| AppointmentTools.FailedBookingsReadOffersAll | supabase/functions/ai-chat/tools_appointments.ts:53-76 | a failed bookings read offers the slots of a day without bookings |
| AppointmentTools.GetAvailableSlots | supabase/functions/ai-chat/tools_appointments.ts:47-77 | the reply is the slots outcome: the not-found error without service or professional, the JSON slot list with nothing occupied when the bookings read fails, or the "no slot" message when it is empty; nothing is written |
| AppointmentTools.WorkedExample | supabase/functions/ai-chat/tools_appointments.ts:63-75 | 09:00 to 12:00 in 30-minute steps with 10:00 booked offers 09:00, 09:30, 10:30, 11:00, 11:30 |
| PaymentTools.NormalizeArray | supabase/functions/ai-chat/tools_payments.ts:16 | an array answer is read through its first element; an empty array reads as undefined |
| PaymentTools.NormalizeObject | supabase/functions/ai-chat/tools_payments.ts:17 | a truthy `response` member is unwrapped once; otherwise the object is taken as it is |
| PaymentTools.StripScheme | supabase/functions/ai-chat/tools_payments.ts:33-34 | a code starting with "https://" loses exactly that prefix; any other code is kept |
| PaymentTools.HttpCodeUnchanged | supabase/functions/ai-chat/tools_payments.ts:34 | an "http://" code is not stripped, because the guard tests "https://" only |
| PaymentTools.StripSchemeOnce | supabase/functions/ai-chat/tools_payments.ts:34 | only one leading scheme is removed |
| PaymentTools.AppointmentInvoices | supabase/functions/ai-chat/tools_payments.ts:20 | exactly the appointment's invoices |
| PaymentTools.InvoiceCharges | supabase/functions/ai-chat/tools_payments.ts:55 | exactly the invoice's PIX charges |
| PaymentTools.MaybeSingle | supabase/functions/ai-chat/tools_payments.ts:20 | a row exactly when the query matched exactly one row, and then that row |
| PaymentTools.UpsertCharge | supabase/functions/ai-chat/tools_payments.ts:36-43 | a row with the charge's txid takes every column the charge sends and keeps its stored expiry when `data_expiracao` is undefined; without one the charge is appended; every other row is kept, and the table grows by one exactly when the txid was new |
| PaymentTools.WriteCharge | supabase/functions/ai-chat/tools_payments.ts:19-46 | the store and reply after the charge data was accepted are those of the record effect |
| PaymentTools.StoreCharge | supabase/functions/ai-chat/tools_payments.ts:32-45 | the store and reply of the charge upsert; a code that is not a string throws |
| PaymentTools.GeneratePayment | supabase/functions/ai-chat/tools_payments.ts:3-49 | the store and reply are those of the generate effect: missing URL, missing appointment, price and contact reads, a webhook call that rejects or answers non-JSON (a throw, no write), a refused charge, and the recorded charge |
| PaymentTools.RefusedPixWritesNothing | supabase/functions/ai-chat/tools_payments.ts:19-48 | without a txid or a copy-paste code nothing is written, and the reply is "Erro ao gerar PIX." once the appointment is found |
| PaymentTools.RecordAtMostOneInvoice | supabase/functions/ai-chat/tools_payments.ts:20-30 | only invoices and charges change; at most one Aberta invoice is appended, and none when exactly one exists |
| PaymentTools.AtMostOneInvoice | supabase/functions/ai-chat/tools_payments.ts:3-49 | a generation writes only invoices and charges and adds at most one open invoice for that appointment under the new id |
| PaymentTools.ChargeStored | supabase/functions/ai-chat/tools_payments.ts:33-45 | the charge is stored PENDENTE under its txid with the cleaned code, other txids are kept, and the reply names the appointment and the code |
| PaymentTools.StoredExpiry | supabase/functions/ai-chat/tools_payments.ts:36-43 | a charge stored again under its txid takes the answer's expiry, or keeps the stored one when the answer has none |
| PaymentTools.ChargeUpserted | supabase/functions/ai-chat/tools_payments.ts:3-49 | when generation proceeds, the PENDENTE charge under the txid is stored and other charges are kept |
| PaymentTools.TempTxid | supabase/functions/ai-chat/tools_payments.ts:38 | without a txid the charge is keyed `temp_` followed by the clock value |
| PaymentTools.StatusPrecedence | supabase/functions/ai-chat/tools_payments.ts:65 | the status comes from `response.status` first, then `status`, else "" |
| PaymentTools.LettersOnlyMembers | supabase/functions/ai-chat/tools_payments.ts:66 | the letter filter keeps exactly the ASCII letters |
| PaymentTools.CleanStatus | supabase/functions/ai-chat/tools_payments.ts:66 | the cleaned status holds only upper-case ASCII letters and is no longer than the raw one |
| PaymentTools.PaidWords | supabase/functions/ai-chat/tools_payments.ts:66-68 | "concluida" and "Pago" surrounded by non-letters count as paid |
| PaymentTools.UnpaidWords | supabase/functions/ai-chat/tools_payments.ts:66-68 | "Concluída" with the accent does not count as paid (the accented letter is dropped), nor does "pendente" |
| PaymentTools.InvoiceIds | supabase/functions/ai-chat/tools_payments.ts:71 | the ids of the updated invoices, in order |
| PaymentTools.ConfirmRows | supabase/functions/ai-chat/tools_payments.ts:69 | the appointment becomes CONFIRMED and every other row is unchanged |
| PaymentTools.PayInvoices | supabase/functions/ai-chat/tools_payments.ts:70 | the appointment's invoices become Paga and every other invoice is unchanged |
| PaymentTools.ConcludeByInvoice | supabase/functions/ai-chat/tools_payments.ts:72 | the charges of those invoices become CONCLUIDA and every other charge is unchanged |
| PaymentTools.ConcludeByTxid | supabase/functions/ai-chat/tools_payments.ts:73 | the charges with that txid become CONCLUIDA and every other charge is unchanged |
| PaymentTools.ApplyPayment | supabase/functions/ai-chat/tools_payments.ts:69-74 | the four writes of a paid check, in order |
| PaymentTools.CheckPaymentStatus | supabase/functions/ai-chat/tools_payments.ts:51-78 | the store and reply are those of the check effect: missing URL, missing appointment, a webhook call that rejects or answers non-JSON (a throw, no write), the confirmation on a paid status, and the raw status otherwise |
| PaymentTools.PaidCheckEffect | supabase/functions/ai-chat/tools_payments.ts:69-74 | a paid check confirms the appointment, pays its invoices, concludes their charges and the checked txid, requests one sync, and writes nothing else |
| PaymentTools.UnpaidCheckWritesNothing | supabase/functions/ai-chat/tools_payments.ts:52-77 | without a URL, without the appointment or without a paid status nothing is written, and a found appointment gets the raw status or "Pendente" |
| PaymentTools.FailedWebhookThrows | supabase/functions/ai-chat/tools_payments.ts:10-15 | a webhook call that rejects or whose answer is not JSON throws its message, and neither payment handler writes anything |
| PaymentTools.PaidCheckWrites | supabase/functions/ai-chat/tools_payments.ts:68-75 | a paid status on a found appointment writes exactly the confirmation |
| PaymentTools.ConfirmTwice | supabase/functions/ai-chat/tools_payments.ts:69-74 | confirming twice equals confirming once, except for one more sync request |
| PaymentTools.ConfirmKeepsCheckedTxid | supabase/functions/ai-chat/tools_payments.ts:58 | confirming does not change the txid that a later check reads |
| PaymentTools.CheckIdempotent | supabase/functions/ai-chat/tools_payments.ts:51-78 | a second paid check changes nothing but adds one more sync request |
| ToolRegistry.ParseName | supabase/functions/ai-chat/tools_execute.ts:22-40 | a name that is recognised is the wire name of the tool it gives |
| ToolRegistry.ParseNameOf | supabase/functions/ai-chat/tools_execute.ts:22-38 | every one of the eight wire names is recognised as its own tool |
| ToolRegistry.NamesDistinct | supabase/functions/ai-chat/tools_definitions.ts:1-101 | two tools share a wire name only when they are the same tool |
| ToolRegistry.Position | supabase/functions/ai-chat/tools_definitions.ts:1-101 | every tool has a declaration in the array under its own name |
| ToolRegistry.DeclaredNamesAreDispatched | supabase/functions/ai-chat/tools_definitions.ts:1-101 | eight declarations, each with a name that executeTool dispatches, every dispatched name declared, and no name declared twice |
| ToolRegistry.PositionOfParsed | supabase/functions/ai-chat/tools_definitions.ts:1-101 | the declaration found for a parsed name is the one it was read from |
| ToolRegistry.Definition | supabase/functions/ai-chat/tools_definitions.ts:1-101 | the declaration of a tool is in the array and carries its name |
| ToolRegistry.RequiredArguments | supabase/functions/ai-chat/tools_definitions.ts:23-98 | the slots and create tools require their ids, date and time, the payment and cancel tools require appointment_id, and the list tools take no parameters |
| ToolRegistry.AllDeclaredRequired | supabase/functions/ai-chat/tools_definitions.ts:23-98 | every declared property is required |
| ToolDispatch.Caught | supabase/functions/ai-chat/tools_execute.ts:42-44 | an exception becomes "Erro ao executar <name>: <message>"; a returned value passes unchanged; the result never raises |
| ToolDispatch.ExecuteTool | supabase/functions/ai-chat/tools_execute.ts:14-45 | the new store and the result are those of the dispatch effect: the tool's handler, where null arguments or a missing conversation row make the tools that read them throw, followed by the catch |
| ToolDispatch.RunHandler | supabase/functions/ai-chat/tools_execute.ts:22-38 | the new store and the result are those of the tool's handler, called with the arguments the switch passes; reading `conversation.contact_id` on a missing row, or a property of null arguments, throws before the handler's query |
| ToolDispatch.RoutesToHandler | supabase/functions/ai-chat/tools_execute.ts:22-38 | each wire name runs its own handler, wrapped in the catch |
| ToolDispatch.UnknownToolWritesNothing | supabase/functions/ai-chat/tools_execute.ts:39-40 | a name outside the eight writes nothing and answers "Erro: Ferramenta <name> não implementada." |
| ToolDispatch.FailedInvoiceWebhookAnswered | supabase/functions/ai-chat/tools_payments.ts:10-15 | a failed invoicing-webhook call is answered "Erro ao executar generate_payment: <message>" and writes nothing |
| ToolDispatch.FailedStatusWebhookAnswered | supabase/functions/ai-chat/tools_payments.ts:59-64 | a failed status-webhook call is answered "Erro ao executar check_payment_status: <message>" and writes nothing |
| ToolDispatch.DispatchNeverRaises | supabase/functions/ai-chat/tools_execute.ts:21-44 | the dispatch never throws: a handler's exception is answered with its message and a returned value is passed through |
| ToolDispatch.ReadsDeclaredArguments | supabase/functions/ai-chat/tools_execute.ts:22-38 | a handler's effect depends on the arguments only through whether they are null and the properties its declaration lists |
| ToolDispatch.ContextIdsNotFromArguments | supabase/functions/ai-chat/tools_definitions.ts:23-98 | no tool declares contact_id or company_id as an argument |
| ToolDispatch.CreateUsesContext | supabase/functions/ai-chat/tools_execute.ts:33-34 | with a conversation row and arguments that are not null, a created appointment takes its contact from the conversation and its company from the instance, never from the model's arguments |
| ToolDispatch.MissingConversationThrows | supabase/functions/ai-chat/tools_execute.ts:27-34 | without a conversation row, list_my_appointments and create_appointment throw "Cannot read properties of null (reading 'contact_id')" and write nothing |
| ToolDispatch.NullArgumentsThrow | supabase/functions/ai-chat/tools_execute.ts:23-38 | null or undefined arguments make cancel_appointment, create_appointment (with a conversation row) and, once their URL is set, the two payment tools throw the property-read TypeError; get_available_slots throws the destructuring TypeError; none of these writes anything; list_services and list_professionals read neither the arguments nor the conversation |
| ToolDispatch.ListArgsIgnored | supabase/functions/ai-chat/tools_execute.ts:23-28 | the three list tools' effect does not depend on the arguments at all |
| ToolDispatch.RunCancel | supabase/functions/ai-chat/tools_execute.ts:29-30 | the store and the result are those of the cancel_appointment case of the handler effect, which throws on null arguments before the handler runs |
| ToolDispatch.RunSlots | supabase/functions/ai-chat/tools_execute.ts:31-32 | the store and the result are those of the get_available_slots case, which throws the destructuring error on null arguments |
| ToolDispatch.RunCreate | supabase/functions/ai-chat/tools_execute.ts:33-34 | the store and the result are those of the create_appointment case: a throw without a conversation row, then a throw on null arguments, else the handler with the conversation's contact and the instance's company |
| ToolDispatch.RunGenerate | supabase/functions/ai-chat/tools_execute.ts:35-36 | the store and the result are those of the generate_payment case, which throws on null arguments once the invoice URL is set |
| ToolDispatch.RunCheck | supabase/functions/ai-chat/tools_execute.ts:37-38 | the store and the result are those of the check_payment_status case, which throws on null arguments once the status URL is set |
| SystemPrompt.KnowledgeBlock | supabase/functions/ai-chat/index.ts:67 | the knowledge block is empty exactly without an agent or with an empty knowledge base, and otherwise the heading followed by the text |
| SystemPrompt.KnowledgeBlockPlacement | supabase/functions/ai-chat/index.ts:66-69 | the knowledge block sits between the prompt and the business context exactly when the knowledge base is non-empty; otherwise the context follows the prompt after one line break |
| SystemPrompt.EndsWithInstructions | supabase/functions/ai-chat/index.ts:66-84 | the system message ends with the instructions it is given, which the turn binds to the fixed text |
| ConversationEngine.Stamp | supabase/functions/ai-chat/index.ts:30-34 | returns the row as read and writes back the trimmed buffer with the fragment appended, stamped with this turn's id |
| ConversationEngine.StampedRow | supabase/functions/ai-chat/index.ts:31-34 | the stamped row holds the old buffer, a space and the fragment, trimmed, and this turn's id; other rows and tables are unchanged |
| ConversationEngine.BallotOf | supabase/functions/ai-chat/index.ts:37-43 | a turn gives way exactly when a human is active or a later turn stamped the row; otherwise it claims the buffer as it now is |
| ConversationEngine.BallotWrites | supabase/functions/ai-chat/index.ts:37-45 | a turn that does not claim writes nothing; a claiming turn empties its buffer and changes nothing else |
| ConversationEngine.LoneTurnClaims | supabase/functions/ai-chat/index.ts:30-43 | a turn that nobody has overtaken claims the buffer it wrote |
| ConversationEngine.EqualStampProceeds | supabase/functions/ai-chat/index.ts:38 | a stamp equal to the turn's own id does not make it give way |
| ConversationEngine.StampOnEmpty | supabase/functions/ai-chat/index.ts:32 | on an empty buffer the stamp stores the fragment itself |
| ConversationEngine.StampOnEmptyClaims | supabase/functions/ai-chat/index.ts:30-43 | a lone turn on an empty buffer claims exactly its fragment |
| ConversationEngine.LaterTurnClaimsBoth | supabase/functions/ai-chat/index.ts:30-45 | of two overlapping turns the earlier gives way and the later claims both fragments, joined by a space |
| ConversationEngine.SeparateTurnsClaimSeparately | supabase/functions/ai-chat/index.ts:30-45 | a turn that starts after another has claimed and cleared the buffer claims only its own fragment |
| ConversationEngine.InsertByTime | supabase/functions/ai-chat/index.ts:58 | inserting adds exactly that message |
| ConversationEngine.InsertByTimeSorted | supabase/functions/ai-chat/index.ts:58 | inserting into a list ordered newest first keeps it ordered |
| ConversationEngine.NewestFirst | supabase/functions/ai-chat/index.ts:58 | the ordering by timestamp, descending, is a permutation |
| ConversationEngine.OwnMessages | supabase/functions/ai-chat/index.ts:58 | exactly the conversation's messages |
| ConversationEngine.HistoryCount | supabase/functions/ai-chat/index.ts:58-61 | the window holds as many of the conversation's messages as exist, up to ten, none more often than stored |
| ConversationEngine.HistoryOwn | supabase/functions/ai-chat/index.ts:58 | every message of the window belongs to the conversation |
| ConversationEngine.HistoryOldestFirst | supabase/functions/ai-chat/index.ts:58-61 | the window, once reversed, is oldest first |
| ConversationEngine.HistoryKeepsNewest | supabase/functions/ai-chat/index.ts:58 | no message left out of the window is newer than one in it |
| ConversationEngine.Opening | supabase/functions/ai-chat/index.ts:61-90 | the system message, then the history in order with USER as user and anything else as assistant, then the claimed text as the user's message |
| ConversationEngine.CallsEffect | supabase/functions/ai-chat/index.ts:107-112 | the tool calls of one answer never end the loop with a reply |
| ConversationEngine.LoopEffect | supabase/functions/ai-chat/index.ts:101-114 | every scripted run of the loop ends |
| ConversationEngine.RunCalls | supabase/functions/ai-chat/index.ts:107-112 | the store and message list after the calls of one answer are those of the calls effect |
| ConversationEngine.ToolLoop | supabase/functions/ai-chat/index.ts:101-114 | the store, the message list and the ending are those of the loop effect |
| ConversationEngine.FirstReply | supabase/functions/ai-chat/index.ts:103 | the index of the first answer without tool calls: every earlier answer calls tools |
| ConversationEngine.CallsAnswerEach | supabase/functions/ai-chat/index.ts:107-112 | when the calls succeed, the list grows by one tool message per call, carrying its id and name, in order |
| ConversationEngine.LoopReply | supabase/functions/ai-chat/index.ts:92-116 | an answered loop ends on the first answer without tool calls, which the model API did answer, and the reply is its content |
| ConversationEngine.LoopTranscript | supabase/functions/ai-chat/index.ts:103-114 | an answered loop appends, for each earlier answer, the assistant's message followed by one tool answer per call |
| ConversationEngine.Deliver | supabase/functions/ai-chat/index.ts:118-126 | the store and turn ending after the reply are the deliver effect: a rejected send fails the turn before the writes |
| ConversationEngine.DeliveredReply | supabase/functions/ai-chat/index.ts:116-126 | a non-empty reply is sent once, stored once as the AI's message and shown cut to 100 characters; no reply writes nothing |
| ConversationEngine.RejectedSendFails | supabase/functions/ai-chat/index.ts:118-132 | the turn fails exactly when a non-empty reply's send rejects, and then writes nothing; otherwise it finishes with the delivery |
| ConversationEngine.AgentOf | supabase/functions/ai-chat/index.ts:48-49 | a found agent is the one the instance names |
| ConversationEngine.AnswerEffect | supabase/functions/ai-chat/index.ts:101-129 | a claiming turn never reports Skipped |
| ConversationEngine.ClaimedEffect | supabase/functions/ai-chat/index.ts:48-129 | a claimed turn never reports Skipped |
| ConversationEngine.Recheck | supabase/functions/ai-chat/index.ts:37-45 | returns the ballot of the row as it now is and writes the ballot's store |
| ConversationEngine.OpenTurn | supabase/functions/ai-chat/index.ts:48-90 | the first message list is the turn opening of the store; nothing is written |
| ConversationEngine.Conclude | supabase/functions/ai-chat/index.ts:116-132 | the store and turn ending after the loop are those of the loop outcome: a broken loop fails, a hung one never ends, an answered one delivers its reply unless the send rejects |
| ConversationEngine.Answer | supabase/functions/ai-chat/index.ts:92-132 | the store and turn ending of the loop and the reply are the answer effect, where a model call that rejects or answers non-JSON, or a rejected send, fails the turn |
| ConversationEngine.Resume | supabase/functions/ai-chat/index.ts:37-132 | the store and turn ending after the wait are the resume effect |
| ConversationEngine.ResumeWithFixedInstructions | supabase/functions/ai-chat/index.ts:37-132 | the turn after the wait, with the source's fixed instruction text closing the system message, is the resume effect |
| ConversationEngine.Proceed | supabase/functions/ai-chat/index.ts:48-132 | the store and turn ending of a claimed turn are the claimed effect |
| ConversationEngine.ResumeOutcomes | supabase/functions/ai-chat/index.ts:31-110 | a turn is skipped exactly when it gives way, writes nothing unless it claims, fails after claiming when the instance is missing, and otherwise answers with the tools of that instance and of the row the first half read, a missing row included |
| ConversationEngine.AnsweredTurn | supabase/functions/ai-chat/index.ts:101-132 | a turn finishes exactly when the loop is answered and its send does not reject, and then the reply of the first answer without tool calls is delivered; a rejected send fails with the store as the tools left it |
| ConversationEngine.UnansweredCallFails | supabase/functions/ai-chat/index.ts:92-101 | a first model call that rejects or answers non-JSON fails the turn, and the answer effect writes nothing |
| ConversationEngine.TurnOpeningShape | supabase/functions/ai-chat/index.ts:48-90 | 2 to 12 messages: the system message from the agent, the settings and the clock first, the claimed text last |
| WhatsAppGateway.StatePrecedence | supabase/functions/whatsapp-webhook/index.ts:19 | the state is `state` when set, else `status`, else only for instance.update the nested `instance.status` |
| WhatsAppGateway.StatusEffect | supabase/functions/whatsapp-webhook/index.ts:18-26 | with a string state every instance of that name takes the lowercased state and nothing else changes; no state writes nothing; a non-string state throws (500) |
| WhatsAppGateway.PhoneOf | supabase/functions/whatsapp-webhook/index.ts:34 | the phone is the JID's text before its first '@' |
| WhatsAppGateway.Transcription | supabase/functions/whatsapp-webhook/index.ts:180-193 | a transcription is never empty: the text, "(Áudio vazio)" or "(Erro na transcrição)" |
| WhatsAppGateway.Description | supabase/functions/whatsapp-webhook/index.ts:195-215 | an image description is never empty: the text, "(Sem descrição)" or "(Erro na análise da imagem)" |
| WhatsAppGateway.TextFirst | supabase/functions/whatsapp-webhook/index.ts:86-88 | a plain or extended text wins over any media and is taken as the payload holds it, and the media results are then irrelevant |
| WhatsAppGateway.MediaGatedByAgent | supabase/functions/whatsapp-webhook/index.ts:89-96 | with audio disabled no transcription reaches the content; with image disabled no description does |
| WhatsAppGateway.AudioContent | supabase/functions/whatsapp-webhook/index.ts:89-91 | an enabled audio becomes its transcription, or nothing when the download fails |
| WhatsAppGateway.ImageContent | supabase/functions/whatsapp-webhook/index.ts:92-96 | an enabled image becomes "[Imagem]: " and its description, or nothing when the download fails |
| WhatsAppGateway.PdfContent | supabase/functions/whatsapp-webhook/index.ts:97-102 | a PDF document becomes the PDF marker with its file name, "documento.pdf" when there is none |
| WhatsAppGateway.ContactIndex | supabase/functions/whatsapp-webhook/index.ts:62-70 | the position of a contact with that phone and company, or none when there is no such contact |
| WhatsAppGateway.UpsertContact | supabase/functions/whatsapp-webhook/index.ts:62-70 | the returned contact has the phone, name and company and is in the table |
| WhatsAppGateway.UpsertContactKeepsKeyUnique | supabase/functions/whatsapp-webhook/index.ts:62-70 | the upsert keeps (phone, company) unique, updates the existing contact in place or appends one under the new id |
| WhatsAppGateway.UpsertContactIdempotent | supabase/functions/whatsapp-webhook/index.ts:62-70 | repeating the upsert changes nothing |
| WhatsAppGateway.ConversationIndex | supabase/functions/whatsapp-webhook/index.ts:74-81 | the position of the contact's conversation, or none when it has none |
| WhatsAppGateway.UpsertConversation | supabase/functions/whatsapp-webhook/index.ts:74-81 | the returned conversation is the contact's, on the instance, and is in the table |
| WhatsAppGateway.UpsertConversationKeepsKeyUnique | supabase/functions/whatsapp-webhook/index.ts:74-81 | the upsert keeps contact_id unique, moves the existing conversation to the instance or appends a fresh one (no human, no unread) |
| WhatsAppGateway.UpsertConversationIdempotent | supabase/functions/whatsapp-webhook/index.ts:74-81 | repeating the upsert changes nothing |
| WhatsAppGateway.InstanceNamed | supabase/functions/whatsapp-webhook/index.ts:45-59 | a found instance is a row with that name |
| WhatsAppGateway.NamedInstances | supabase/functions/whatsapp-webhook/index.ts:45-57 | exactly the instances with that name |
| WhatsAppGateway.SenderOf | supabase/functions/whatsapp-webhook/index.ts:31-35 | the sender's phone is the JID's text before '@' |
| WhatsAppGateway.HandleWebhook | supabase/functions/whatsapp-webhook/index.ts:9-144 | the new store and the reply are those of the webhook effect |
| WhatsAppGateway.ClassifyContent | supabase/functions/whatsapp-webhook/index.ts:86-102 | the value of `userMessage` is the content of the message |
| WhatsAppGateway.Arrive | supabase/functions/whatsapp-webhook/index.ts:62-135 | the store and reply after the upserts and the recording are those of the arrival effect |
| WhatsAppGateway.Record | supabase/functions/whatsapp-webhook/index.ts:104-131 | the store and reply of recording the message are those of the record effect |
| WhatsAppGateway.QuietReplies | supabase/functions/whatsapp-webhook/index.ts:18-59 | ignored events, groups and unknown instances write nothing; a status update writes only instances; a delivery that fails (500) never triggers the agent and writes no instance |
| WhatsAppGateway.ArrivalReplies | supabase/functions/whatsapp-webhook/index.ts:62-119 | a message from a known instance is answered "Sem conteúdo processável", success or 500, and a 500 leaves the outbox and the instances as they were |
| WhatsAppGateway.IgnoredEvents | supabase/functions/whatsapp-webhook/index.ts:13-28 | exactly the bodies that are not null and are neither status events nor message events with data are ignored; a null body fails with a 500 and writes nothing |
| WhatsAppGateway.FailedArrival | supabase/functions/whatsapp-webhook/index.ts:62-119 | a failed contact upsert writes nothing, a failed conversation upsert keeps the contact, a failed insert keeps both upserts, and a text that is not a string is stored before `substring` throws; each answers 500 |
| WhatsAppGateway.EmptyContent | supabase/functions/whatsapp-webhook/index.ts:104 | after the upserts, a customer message without content stores only the upserts and triggers nothing; a message the instance sent with string content is stored unless the insert fails |
| WhatsAppGateway.StoredArrival | supabase/functions/whatsapp-webhook/index.ts:107-119 | an accepted message has string content and makes one message row, its text or "(Mídia)", OPERATOR exactly when the instance sent it; the summary shows the text cut to 100 or "(Mídia)", and the unread count resets or grows by one |
| WhatsAppGateway.TriggersAgent | supabase/functions/whatsapp-webhook/index.ts:122-131 | the agent is invoked once with the content exactly for a customer message on a conversation without an active human |
| InstagramAutomation.VerifyIff | supabase/functions/instagram-webhook/index.ts:14-29 | the challenge is echoed with 200 exactly when the mode is "subscribe" and the token is the effective one (the company's own when it has one, else the default), otherwise 403 |
| InstagramAutomation.ActiveRules | supabase/functions/instagram-webhook/index.ts:61-65 | exactly the company's active rules, in table order |
| InstagramAutomation.Keys | supabase/functions/instagram-webhook/index.ts:68-70 | each rule's keyword, normalised, position by position |
| InstagramAutomation.FindKey | supabase/functions/instagram-webhook/index.ts:68-70 | the first position holding the normalised text, or none when no position does |
| InstagramAutomation.MatchWithExact | supabase/functions/instagram-webhook/index.ts:61-70 | a match is an active rule of the company whose normalised keyword equals the normalised text; no match only when no such rule exists |
| InstagramAutomation.MatchRuleExact | supabase/functions/instagram-webhook/index.ts:61-70 | the same under lower-casing followed by trimming |
| InstagramAutomation.FirstMatchWins | supabase/functions/instagram-webhook/index.ts:68-70 | rules after a matching one are never consulted |
| InstagramAutomation.FirstMatchWinsWith | supabase/functions/instagram-webhook/index.ts:68-70 | the same for any normalisation |
| InstagramAutomation.ActiveRulesAppend | supabase/functions/instagram-webhook/index.ts:61-65 | the rule filter distributes over concatenation |
| InstagramAutomation.FindKeyPrefix | supabase/functions/instagram-webhook/index.ts:68-70 | a key found in a prefix is found at the same place in the whole |
| InstagramAutomation.KeywordIsNotSubstring | supabase/functions/instagram-webhook/index.ts:143-146 | matching is whole-text equality: a keyword "oi" does not match "oi tudo bem" |
| InstagramAutomation.Buttons | supabase/functions/instagram-webhook/index.ts:81-85 | one text button per quick reply, with its title and payload, in order |
| InstagramAutomation.PublicReply | supabase/functions/instagram-webhook/index.ts:152 | the public reply is never empty |
| InstagramAutomation.ReplyShapes | supabase/functions/instagram-webhook/index.ts:74-86 | a direct reply carries the rule's text and buttons exactly when the rule has quick replies; the private reply to a comment is text only; the public reply falls back to the default text |
| InstagramAutomation.AccountRows | supabase/functions/instagram-webhook/index.ts:54-58 | exactly the settings rows of that business account |
| InstagramAutomation.UpsertLead | supabase/functions/instagram-webhook/index.ts:126-132 | the lead is present, replaces every lead with its Instagram id, and every other lead is kept |
| InstagramAutomation.RemoveLead | supabase/functions/instagram-webhook/index.ts:126-132 | exactly the leads with another Instagram id |
| InstagramAutomation.UpsertLeadKeepsUnique | supabase/functions/instagram-webhook/index.ts:126-132 | the upsert keeps leads unique by Instagram id and grows the table by one exactly when the id was new |
| InstagramAutomation.Handle | supabase/functions/instagram-webhook/index.ts:10-189 | the new store and the response are those of the webhook effect |
| InstagramAutomation.HandleEvent | supabase/functions/instagram-webhook/index.ts:32-185 | the new store and the response of a POST are those of the event effect |
| InstagramAutomation.AnswerMessage | supabase/functions/instagram-webhook/index.ts:43-99 | the store and the throw flag of the direct-message part are those of its effect |
| InstagramAutomation.AnswerComment | supabase/functions/instagram-webhook/index.ts:102-178 | the store and the throw flag of the comment part are those of its effect |
| InstagramAutomation.RecordLead | supabase/functions/instagram-webhook/index.ts:124-134 | the lead capture writes the lead effect |
| InstagramAutomation.ReplyToComment | supabase/functions/instagram-webhook/index.ts:137-174 | the replies to a comment are those of the comment-replies effect |
| InstagramAutomation.MessagingGrows | supabase/functions/instagram-webhook/index.ts:43-99 | the direct-message part only appends to the outbox and never touches the leads |
| InstagramAutomation.CommentGrows | supabase/functions/instagram-webhook/index.ts:102-178 | the comment part only writes leads and appends to the outbox |
| InstagramAutomation.EventFrame | supabase/functions/instagram-webhook/index.ts:10-189 | any request only writes leads and appends to the outbox; a GET or another method writes nothing; another method gets 405 |
| InstagramAutomation.EventReplies | supabase/functions/instagram-webhook/index.ts:33-38 | a null body answers Error (500) and a POST without an entry answers NO_ENTRY, both writing nothing; otherwise the answer is OK or Error (500) |
| InstagramAutomation.EventGrows | supabase/functions/instagram-webhook/index.ts:32-185 | a POST only writes leads and appends to the outbox |
| InstagramAutomation.SelfEventsIgnored | supabase/functions/instagram-webhook/index.ts:51-52 | the business's own messages and comments change nothing |
| InstagramAutomation.MessageAnswered | supabase/functions/instagram-webhook/index.ts:43-99 | a direct message gets exactly one reply exactly when it is not the business's own, its trigger is not empty, the account has a token and a rule matches; that reply is the rule's |
| InstagramAutomation.CommentAnswered | supabase/functions/instagram-webhook/index.ts:113-176 | a comment on an account with a token captures the commenter as a lead whether or not a rule matches, and on a match appends the public and the private reply |
| InstagramAutomation.LeadsStayUnique | supabase/functions/instagram-webhook/index.ts:126-132 | leads stay unique by Instagram id across any request |
| InstagramAutomation.EventLeadsUnique | supabase/functions/instagram-webhook/index.ts:32-185 | leads stay unique by Instagram id across a POST |
| InstagramAutomation.CommentLeadsUnique | supabase/functions/instagram-webhook/index.ts:102-178 | leads stay unique by Instagram id across the comment part |
| CalendarSync.YearStep | supabase/functions/google-calendar-sync/index.ts:56-57 | the day count of the next year's first day is this year's plus the days of this year |
| CalendarSync.MonthsFillYear | supabase/functions/google-calendar-sync/index.ts:56-57 | the twelve months of a year, February 28 or 29 days, add up to the year's length |
| CalendarSync.NextDayNumber | supabase/functions/google-calendar-sync/index.ts:56-57 | the calendar day after a valid time is valid, one day number later, at the same hour and minute |
| CalendarSync.PrevDayNumber | supabase/functions/google-calendar-sync/index.ts:56-57 | the calendar day before a valid time is valid, one day number earlier, at the same hour and minute |
| CalendarSync.AddDays | supabase/functions/google-calendar-sync/index.ts:56-57 | moving k days keeps a valid time, adds exactly k to its day number and keeps hour and minute |
| CalendarSync.AddMinutesExact | supabase/functions/google-calendar-sync/index.ts:57 | adding n minutes, across day, month and year boundaries, gives a valid time exactly n minutes later |
| CalendarSync.MinuteNumberInjective | supabase/functions/google-calendar-sync/index.ts:57-72 | two valid times with the same minute count are the same wall-clock time, so the end is determined by start and duration |
| CalendarSync.DayNumberInjective | supabase/functions/google-calendar-sync/index.ts:57-72 | two valid dates with the same day count are the same date |
| CalendarSync.MonthBounds | supabase/functions/google-calendar-sync/index.ts:56-57 | a month ends within its year |
| CalendarSync.DaysBeforeMonthMonotone | supabase/functions/google-calendar-sync/index.ts:56-57 | later months start later, each at least one whole month after an earlier one |
| CalendarSync.DaysBeforeYearMonotone | supabase/functions/google-calendar-sync/index.ts:56-57 | a later year starts after the whole of an earlier year |
| CalendarSync.ParseStart | supabase/functions/google-calendar-sync/index.ts:53-56 | a start that parses is a valid wall-clock time (month 1-12, day within its month, hour 0-23, minute 0-59) |
| CalendarSync.FormatParsed | supabase/functions/google-calendar-sync/index.ts:53-72 | formatting a parsed start with a four-digit year gives back the start text, so the end is written in the start's format |
| CalendarSync.Pad2Digits | supabase/functions/google-calendar-sync/index.ts:63-69 | a two-digit field formats back to its two digits |
| CalendarSync.Year4Digits | supabase/functions/google-calendar-sync/index.ts:63-69 | a four-digit year without a leading zero formats back to its four digits |
| CalendarSync.SetEventId | supabase/functions/google-calendar-sync/index.ts:107-110 | the update keeps the row count, sets the event id on the rows with the appointment's id and leaves every other row as it was |
| CalendarSync.Sync | supabase/functions/google-calendar-sync/index.ts:12-122 | the handler's new database and reply are those of SyncEffect |
| CalendarSync.StoreEventId | supabase/functions/google-calendar-sync/index.ts:105-111 | the database after the write-back is WriteBack of the one before |
| CalendarSync.MissingDataFails | supabase/functions/google-calendar-sync/index.ts:17-25 | a missing appointment or refresh token is the 400 error with no writes and no request; every failure leaves the database unchanged |
| CalendarSync.DeleteIff | supabase/functions/google-calendar-sync/index.ts:40-45 | the reply is the deletion exactly when DELETE is asked and the appointment has an event; then one DELETE goes to that event and nothing else changes; a DELETE without an event creates one by POST |
| CalendarSync.SyncSends | supabase/functions/google-calendar-sync/index.ts:90-113 | a sync sends exactly one request carrying the event, PUT to the existing event or POST to the collection, writes back the new id and replies with Google's id |
| CalendarSync.EventTimes | supabase/functions/google-calendar-sync/index.ts:49-72 | the start is the stored date and first five time characters at -03:00; the end is the valid time exactly the duration later (60 when missing or 0), in the same format |
| CalendarSync.SummaryDefaults | supabase/functions/google-calendar-sync/index.ts:77 | without names the summary is "Agendamento - Cliente"; with a service name it starts with that name |
| CalendarSync.WriteBackOnlyNew | supabase/functions/google-calendar-sync/index.ts:105-111 | the id is written only for an appointment without an event and only when Google answered with one, onto that appointment's rows, changing nothing else |
| MessageBubble.TagPrecedence | src/components/MessageBubble.tsx:16-48 | the audio tag wins over image and image over document; there is a tag exactly when one of the three tests holds, and none on missing content |
| MessageBubble.StripShortens | src/components/MessageBubble.tsx:21-26 | removing the prefixes never lengthens the text and leaves text without any prefix unchanged |
| MessageBubble.CleanContentShortens | src/components/MessageBubble.tsx:21-26 | cleaned content is present exactly when content is, is no longer, and equals it when no prefix occurs |
| MessageBubble.StoredImageTagged | src/components/MessageBubble.tsx:17 | an image description stored by the WhatsApp webhook shows the image tag |
| MessageBubble.StoredImageCleaned | src/components/MessageBubble.tsx:21-26 | a stored image description is shown without its prefix; of a doubled prefix only one is removed |
| MessageBubble.StripImage | src/components/MessageBubble.tsx:21-26 | removing the prefixes from the image prefix followed by text free of the other prefixes leaves that text |
| MessageBubble.SenderLabels | src/components/MessageBubble.tsx:58 | the agent is labelled "IA", the operator "Você", customer and system "Cliente" |
| Management.FirstNonCompany | src/pages/Management.tsx:70 | a role found is an available role other than 'company'; none found means every role is 'company' |
| Management.RolesByUser | src/pages/Management.tsx:14-39 | an admin hands out all three roles and starts on the companies tab, a company the two staff roles, anyone else none; only an admin can create a company |
| Management.NewMemberRole | src/pages/Management.tsx:69-74 | a new member is a company exactly on the companies tab; on the team tab it is 'profissional' for admins and companies and 'operador' when no staff role is available; it belongs to the company that creates it |
| Management.NewTemplateOwner | src/pages/Management.tsx:62-67 | a new template is active, owned by the signed-in user and global exactly when an admin creates it |
| Management.FilteredUsersSpec | src/pages/Management.tsx:125-134 | the list keeps, in order, exactly the rows of the tab's kind matching the search on name or email and the role filter |
| Management.EmptySearchMatches | src/pages/Management.tsx:129-130 | an empty search matches every name and email, null ones included |
| Management.EmptySearchKeepsAll | src/pages/Management.tsx:125-134 | with an empty search and role 'all' every row of the tab's kind is listed |
| Management.SearchIgnoresCase | src/pages/Management.tsx:129-130 | searches that lowercase alike keep the same rows |
| Management.FilteredTemplatesSpec | src/pages/Management.tsx:136-138 | the template list keeps, in order, exactly the templates whose name contains the search ignoring case; an empty search keeps all |

## Left out

- HTTP calls whose answers matter are parameters, not models. This covers the model API, Whisper and the vision model (`transcribeAudio`, `analyzeImage`), the Evolution API, the Meta Graph API, the invoicing and status webhooks, and Google. In the agent, a failure of such a call is modelled: a model call that rejects or answers non-JSON (`Unanswered`), a rejected reply send (`sendRejected`), a webhook call that rejects or answers non-JSON (`WebhookFailed`), and a failed bookings read (`bookingsFault`). The media helpers catch their own failures and fall back to a text. The outbox records the calendar-sync calls, the Evolution sends, the ai-chat invocations, the Graph API messages and comment replies, and the Google Calendar requests. It does not record the POSTs to the invoicing and status webhooks, the chat-completion, Whisper and vision requests, the Google OAuth token refresh (the refresh-token grant of section 6 of RFC 6749), or any `Authorization` header.
- Media downloads (`getMediaBase64`) appear only as their result, an optional base64 text. The download request is not recorded.
- `OPTIONS` preflight answers and CORS headers are not modelled. Neither are `console.log` and the JSX rendering of both screens, including the bubble's layout for the operator's messages and its timestamp format.
- The clock is a parameter: `getNowBR`, `new Date()`, `Date.now()`, `toLocaleString` and `toISOString`. "Now" is given as weekday, hour and minute in São Paulo, "today" as its ISO date. The turn's id is an integer, and the stored `last_message_at` is that id as milliseconds rather than its ISO text.
- The readable date-time line of the prompt (`toLocaleString('pt-BR', …)`) is an opaque parameter `dateTime`. The fixed formatting and tool-use instructions are the constant `SystemPrompt.FixedInstructions`, which `ResumeWithFixedInstructions` passes on. The other members take them as the parameter `instructions`, so their facts hold for any wording.
- The 10-second wait and real concurrency are not modelled. A turn is the two methods `Stamp` and `Resume`, and interleavings are explicit sequences of calls on one store. The read-modify-write of the buffer is not atomic, as in the source.
- The temperature fallback `|| 0.7` and all floating point are not modelled. JSON numbers are integers here, so prices, amounts and durations are integers.
- `JSON.parse` of tool arguments keeps only its outcome: a parsed value, or the exception written as `arguments == None`. `JSON.stringify` of tool results and reply bodies is an opaque text, except the message formats the lemmas state.
- ConversationEngine.ToolLoop: the source loop has no iteration cap and can run forever. The model's answers are a finite script (`Oracle`), and a run that needs more answers than the script holds ends as `OutOfScript`. Nothing is claimed about such a run. This is a deviation: with a script long enough for the run, the model matches the source.
- ConversationEngine.LoopEffect: a handler that never returns ends the loop as `Hung`. The turn then stops there (`Hangs`), where the source would hang.
- AppointmentTools.SortByDate: the listing is ordered by appointment date. Rows on the same date keep the table's order, and that order decides which of them survive `.limit(10)`. The database promises neither.
- ConversationEngine.NewestFirst: the history is ordered newest first by timestamp. Equal timestamps among messages keep the store's order, which the database does not promise.
- AppointmentTools.SlotsOutcome: a service with a missing or zero duration and a non-empty window never ends the slot loop. The model reports this as `Diverges` instead of looping.
- AppointmentTools.GetAvailableSlots: whether the runtime reads `date` as a calendar date is the parameter `dateReadable`. `new Date(...)` parsing is not modelled.
- CalendarSync.ParseStart: only an exact `YYYY-MM-DD` date and `HH:MM` time are read as a valid start. Other strings count as an Invalid Date, on which formatting the end throws. V8 is more lenient than this.
- CalendarSync.EventTimes: the end is formatted at the fixed offset -03:00. Daylight saving time and `Intl.DateTimeFormat` are not modelled. The event's fixed description, the `timeZone` fields and `status: 'confirmed'` are not part of `CalendarEvent`.
- CalendarSync.Sync: Google's answer is only the `id` it returns, `createdId`. A fetch that rejects and a non-JSON answer are not modelled.
- InstagramAutomation.Handle: a Graph API fetch that rejects, or an answer that is not JSON, is not modelled. Sends are recorded without their answers.
- InstagramAutomation.IdOf: a sender or commenter id that is not a string counts as missing.
- ToolDispatch.RunCreate: a tool argument that is missing or null is read as the text "undefined" or "null", and the created row holds that text. The source's insert drops an undefined field and writes null as NULL, so the column is NULL or the insert fails on a not-null column. The table schema is not part of the sources, and appointment columns are modelled as text that is never null. So such a row, which the model may list or sync, is not modelled.
- WhatsAppGateway.TextOf: a non-string value used as text (a file name, a push name, a stored content) becomes its `String()` text. What the store really makes of a non-string content in the insert is not modelled.
- `.single()` and `.maybeSingle()`: lookups by unique key take the first matching row. Settings are read by `Tables.SettingsOf`. `PaymentTools.MaybeSingle` models `maybeSingle` where more than one row may match (invoices of an appointment).
- A write error the source does not read is ignored, as in the source. Where a handler does read a query's error, the model takes it as a parameter: `fault` in the tools, and `contactFault`, `conversationFault` and `messageFault` of `WhatsAppGateway.Delivery`.
- A plain `.` on null or undefined throws in the model wherever the source applies it to a value that can be null: the tool arguments, the conversation row in the tools, the two webhooks' bodies, and the Instagram change and comment. Everywhere else a property read is `?.`. A request body that is not JSON, on which `req.json()` throws, is not modelled.
- Text.ToLower: only ASCII and Latin-1 letters are lower-cased; the Unicode case mapping of `toLowerCase` beyond them is not modelled.
- Text.JsNumber: only surrounding whitespace and a run of decimal digits are read; a sign, a fraction, an exponent, a hexadecimal or binary literal and Infinity, which `Number` accepts, read as NaN here.
- Tables.Professional: a professional's start_time and end_time are held as minutes after midnight. Their parse by `split(':').map(Number)`, which throws on a null column and gives NaN on a malformed one, is not modelled.
- String lengths count Unicode scalar values. JavaScript counts UTF-16 code units, so a text containing characters outside the Basic Multilingual Plane is cut at a different place by `substring(0, 100)`.
- Management: the page's loading, saving and deleting handlers (`loadData`, `handleSave`, `handleToggleStatus`) call the store's API and are not modelled. The template draft's text fields, all empty, and the PACRIF tab are not part of `Management.Draft`.
- The screens InstagramManagement.tsx, SettingsPage.tsx, AgentsPage.tsx and the functions instagram-post, instagram-feed, instagram-auth, google-auth and create-user-admin are not part of this model. They are plumbing around the store and the providers' APIs.
