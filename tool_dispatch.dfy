/** executeTool (ai-chat/tools_execute.ts): the dispatch from a tool name to
    its handler, with the contact taken from the conversation, the company
    from the instance, and every exception turned into an error text. */
module ToolDispatch {
  import opened Optional
  import opened JsValues
  import opened Tables
  import opened ToolResults
  import opened BusinessHours
  import opened ToolRegistry
  import opened AppointmentTools
  import opened PaymentTools

  /** What the handlers receive from outside the store: the date and clock,
      the query failures, the ids the store assigns, and the answers of the
      invoicing and status webhooks. */
  datatype Environment = Environment(
    today: string,
    now: Clock,
    dateReadable: bool,
    bookingsFault: bool,
    listFailed: bool,
    listFault: Option<string>,
    cancelFault: Option<string>,
    newAppointmentId: Id,
    createFault: Option<string>,
    invoiceUrlConfigured: bool,
    invoiceResponse: WebhookAnswer,
    nowMillis: int,
    newInvoiceId: Id,
    insertFault: bool,
    statusUrlConfigured: bool,
    statusResponse: WebhookAnswer)

  /** `args.key` as the query builder writes it into a filter. */
  function Arg(args: JsValue, key: string): string {
    ToStr(Get(args, key))
  }

  const ContactIdKey: string := "contact_id"

  /** `conversation.contact_id` on the row the turn read, which is null when
      the row was missing. */
  const NoConversation: string := ReadError(JNull, ContactIdKey)

  /** The handler each tool runs, with the arguments executeTool gives it.
      `conversation` is the row the turn read, None when it read none; the
      arguments are what the model's JSON parses to, which may be null.
      Reading a property of either when it is null throws before the
      handler runs its query, except in the two payment tools, which first
      check that their webhook URL is configured. */
  function HandlerEffect(t: Tables, tool: ToolName, args: JsValue, inst: Instance, conversation: Option<Conversation>,
                         env: Environment): Effect
  {
    match tool
    case ListServicesTool => Effect(t, Returned(ListServices(t, inst.companyId, env.listFailed)))
    case ListProfessionalsTool => Effect(t, Returned(ListProfessionals(t, inst.companyId, env.listFailed)))
    case ListMyAppointmentsTool =>
      if conversation.None? then Effect(t, Raised(NoConversation))
      else Effect(t, ListMyAppointments(t, conversation.value.contactId, env.today, env.listFault))
    case CancelAppointmentTool =>
      if Nullish(args) then Effect(t, Raised(ReadError(args, AppointmentIdKey)))
      else CancelEffect(t, Arg(args, AppointmentIdKey), env.cancelFault)
    case GetAvailableSlotsTool =>
      if Nullish(args) then Effect(t, Raised(DestructureError(args, ProfessionalIdKey, "args")))
      else
        Effect(t, SlotsOutcome(t, Arg(args, ProfessionalIdKey), Arg(args, ServiceIdKey), Arg(args, DateKey),
                               env.today, env.now, env.dateReadable, env.bookingsFault))
    case CreateAppointmentTool =>
      if conversation.None? then Effect(t, Raised(NoConversation))
      else if Nullish(args) then Effect(t, Raised(ReadError(args, ServiceIdKey)))
      else
        CreateEffect(t, conversation.value.contactId, inst.companyId, Arg(args, ServiceIdKey), Arg(args, ProfessionalIdKey),
                     Arg(args, DateKey), Arg(args, TimeKey), env.newAppointmentId, env.createFault)
    case GeneratePaymentTool =>
      if env.invoiceUrlConfigured && Nullish(args) then Effect(t, Raised(ReadError(args, AppointmentIdKey)))
      else
        GenerateEffect(t, Arg(args, AppointmentIdKey), inst.companyId, env.invoiceUrlConfigured, env.invoiceResponse,
                       env.nowMillis, env.newInvoiceId, env.insertFault)
    case CheckPaymentStatusTool =>
      if env.statusUrlConfigured && Nullish(args) then Effect(t, Raised(ReadError(args, AppointmentIdKey)))
      else CheckEffect(t, Arg(args, AppointmentIdKey), env.statusUrlConfigured, env.statusResponse)
  }

  const UnknownToolHeading: string := "Erro: Ferramenta "
  const UnknownToolTail: string := " não implementada."
  const FailureHeading: string := "Erro ao executar "

  function UnknownToolMessage(name: string): string {
    UnknownToolHeading + name + UnknownToolTail
  }

  function FailureMessage(name: string, error: string): string {
    FailureHeading + name + ": " + error
  }

  /** The `catch` of executeTool: an exception becomes its error text. */
  function Caught(name: string, out: HandlerOutcome): (r: HandlerOutcome)
    ensures !r.Raised?
    ensures out.Raised? ==> r == Says(FailureMessage(name, out.error))
    ensures !out.Raised? ==> r == out
  {
    if out.Raised? then Says(FailureMessage(name, out.error)) else out
  }

  /** executeTool */
  function DispatchEffect(t: Tables, name: string, args: JsValue, inst: Instance, conversation: Option<Conversation>,
                          env: Environment): Effect
  {
    match ParseName(name)
    case None => Effect(t, Says(UnknownToolMessage(name)))
    case Some(tool) =>
      var e := HandlerEffect(t, tool, args, inst, conversation, env);
      Effect(e.tables, Caught(name, e.outcome))
  }

  method ExecuteTool(db: Database, name: string, args: JsValue, inst: Instance, conversation: Option<Conversation>,
                     env: Environment) returns (out: HandlerOutcome)
    modifies db
    ensures var e := DispatchEffect(old(db.Snapshot()), name, args, inst, conversation, env);
      db.Snapshot() == e.tables && out == e.outcome
  {
    var tool := ParseName(name);
    if tool.None? {
      return Says(UnknownToolMessage(name));
    }
    var r := RunHandler(db, tool.value, args, inst, conversation, env);
    out := Caught(name, r);
  }

  /** The `switch` of executeTool once the name is known. */
  method RunHandler(db: Database, tool: ToolName, args: JsValue, inst: Instance, conversation: Option<Conversation>,
                    env: Environment) returns (r: HandlerOutcome)
    modifies db
    ensures var e := HandlerEffect(old(db.Snapshot()), tool, args, inst, conversation, env);
      db.Snapshot() == e.tables && r == e.outcome
  {
    match tool {
      case ListServicesTool =>
        r := Returned(ListServices(db.Snapshot(), inst.companyId, env.listFailed));
      case ListProfessionalsTool =>
        r := Returned(ListProfessionals(db.Snapshot(), inst.companyId, env.listFailed));
      case ListMyAppointmentsTool =>
        if conversation.None? {
          return Raised(NoConversation);
        }
        r := ListMyAppointments(db.Snapshot(), conversation.value.contactId, env.today, env.listFault);
      case CancelAppointmentTool =>
        r := RunCancel(db, args, inst, conversation, env);
      case GetAvailableSlotsTool =>
        r := RunSlots(db, args, inst, conversation, env);
      case CreateAppointmentTool =>
        r := RunCreate(db, args, inst, conversation, env);
      case GeneratePaymentTool =>
        r := RunGenerate(db, args, inst, conversation, env);
      case CheckPaymentStatusTool =>
        r := RunCheck(db, args, inst, conversation, env);
    }
  }

  /** `case "cancel_appointment"`: `args.appointment_id`, then the handler. */
  method RunCancel(db: Database, args: JsValue, inst: Instance, conversation: Option<Conversation>, env: Environment)
    returns (r: HandlerOutcome)
    modifies db
    ensures var e := HandlerEffect(old(db.Snapshot()), CancelAppointmentTool, args, inst, conversation, env);
      db.Snapshot() == e.tables && r == e.outcome
  {
    if Nullish(args) {
      return Raised(ReadError(args, AppointmentIdKey));
    }
    r := CancelAppointment(db, Arg(args, AppointmentIdKey), env.cancelFault);
  }

  /** `case "get_available_slots"`: the handler, whose first line
      destructures the arguments. */
  method RunSlots(db: Database, args: JsValue, inst: Instance, conversation: Option<Conversation>, env: Environment)
    returns (r: HandlerOutcome)
    modifies db
    ensures var e := HandlerEffect(old(db.Snapshot()), GetAvailableSlotsTool, args, inst, conversation, env);
      db.Snapshot() == e.tables && r == e.outcome
  {
    if Nullish(args) {
      return Raised(DestructureError(args, ProfessionalIdKey, "args"));
    }
    r := GetAvailableSlots(db, Arg(args, ProfessionalIdKey), Arg(args, ServiceIdKey), Arg(args, DateKey),
                           env.today, env.now, env.dateReadable, env.bookingsFault);
  }

  /** `case "create_appointment"`: `conversation.contact_id`, then the
      handler, which reads the arguments into the row it inserts. */
  method RunCreate(db: Database, args: JsValue, inst: Instance, conversation: Option<Conversation>, env: Environment)
    returns (r: HandlerOutcome)
    modifies db
    ensures var e := HandlerEffect(old(db.Snapshot()), CreateAppointmentTool, args, inst, conversation, env);
      db.Snapshot() == e.tables && r == e.outcome
  {
    if conversation.None? {
      return Raised(NoConversation);
    }
    if Nullish(args) {
      return Raised(ReadError(args, ServiceIdKey));
    }
    r := CreateAppointment(db, conversation.value.contactId, inst.companyId, Arg(args, ServiceIdKey),
                           Arg(args, ProfessionalIdKey), Arg(args, DateKey), Arg(args, TimeKey),
                           env.newAppointmentId, env.createFault);
  }

  /** `case "generate_payment"`: the handler, which checks its webhook URL
      before it reads `args.appointment_id`. */
  method RunGenerate(db: Database, args: JsValue, inst: Instance, conversation: Option<Conversation>, env: Environment)
    returns (r: HandlerOutcome)
    modifies db
    ensures var e := HandlerEffect(old(db.Snapshot()), GeneratePaymentTool, args, inst, conversation, env);
      db.Snapshot() == e.tables && r == e.outcome
  {
    if env.invoiceUrlConfigured && Nullish(args) {
      return Raised(ReadError(args, AppointmentIdKey));
    }
    r := GeneratePayment(db, Arg(args, AppointmentIdKey), inst.companyId, env.invoiceUrlConfigured,
                         env.invoiceResponse, env.nowMillis, env.newInvoiceId, env.insertFault);
  }

  /** `case "check_payment_status"`: the handler, which checks its webhook
      URL before it reads `args.appointment_id`. */
  method RunCheck(db: Database, args: JsValue, inst: Instance, conversation: Option<Conversation>, env: Environment)
    returns (r: HandlerOutcome)
    modifies db
    ensures var e := HandlerEffect(old(db.Snapshot()), CheckPaymentStatusTool, args, inst, conversation, env);
      db.Snapshot() == e.tables && r == e.outcome
  {
    if env.statusUrlConfigured && Nullish(args) {
      return Raised(ReadError(args, AppointmentIdKey));
    }
    r := CheckPaymentStatus(db, Arg(args, AppointmentIdKey), env.statusUrlConfigured, env.statusResponse);
  }

  /** Each of the eight names runs exactly its own tool's handler, whose
      exception, if any, becomes "Erro ao executar <name>: <message>". */
  lemma RoutesToHandler(t: Tables, tool: ToolName, args: JsValue, inst: Instance, conversation: Option<Conversation>,
                        env: Environment)
    ensures var e := HandlerEffect(t, tool, args, inst, conversation, env);
      DispatchEffect(t, NameOf(tool), args, inst, conversation, env) == Effect(e.tables, Caught(NameOf(tool), e.outcome))
  {
    ParseNameOf(tool);
  }

  /** A payment webhook that rejects, or whose answer is not JSON, is
      answered with "Erro ao executar <name>: <message>" and writes
      nothing, once the handler has got as far as the call. */
  lemma FailedInvoiceWebhookAnswered(t: Tables, args: JsValue, inst: Instance, conversation: Option<Conversation>,
                                     env: Environment)
    requires env.invoiceUrlConfigured && !Nullish(args) && env.invoiceResponse.WebhookFailed?
    requires JoinsFound(t, Arg(args, AppointmentIdKey))
    ensures DispatchEffect(t, GeneratePaymentName, args, inst, conversation, env)
         == Effect(t, Says(FailureMessage(GeneratePaymentName, env.invoiceResponse.message)))
  {
    ParseNameOf(GeneratePaymentTool);
    FailedWebhookThrows(t, Arg(args, AppointmentIdKey), inst.companyId, env.invoiceResponse.message, env.nowMillis,
                        env.newInvoiceId, env.insertFault);
  }

  /** The same for the status webhook, once the appointment is found. */
  lemma FailedStatusWebhookAnswered(t: Tables, args: JsValue, inst: Instance, conversation: Option<Conversation>,
                                    env: Environment)
    requires env.statusUrlConfigured && !Nullish(args) && env.statusResponse.WebhookFailed?
    requires FindAppointment(t.appointments, Arg(args, AppointmentIdKey)).Some?
    ensures DispatchEffect(t, CheckPaymentStatusName, args, inst, conversation, env)
         == Effect(t, Says(FailureMessage(CheckPaymentStatusName, env.statusResponse.message)))
  {
    ParseNameOf(CheckPaymentStatusTool);
    FailedWebhookThrows(t, Arg(args, AppointmentIdKey), inst.companyId, env.statusResponse.message, env.nowMillis,
                        env.newInvoiceId, env.insertFault);
  }

  /** A name outside the eight writes nothing and answers "Erro: Ferramenta
      <name> não implementada."; and every name outside the eight is such a
      name. */
  lemma UnknownToolWritesNothing(t: Tables, name: string, args: JsValue, inst: Instance, conversation: Option<Conversation>,
                                 env: Environment)
    requires forall tool: ToolName :: NameOf(tool) != name
    ensures DispatchEffect(t, name, args, inst, conversation, env) == Effect(t, Says(UnknownToolMessage(name)))
  {
  }

  /** The dispatch never throws; a handler's exception is answered with its
      message, and a handler that returns is passed through unchanged. */
  lemma DispatchNeverRaises(t: Tables, name: string, args: JsValue, inst: Instance, conversation: Option<Conversation>,
                            env: Environment)
    ensures var e := DispatchEffect(t, name, args, inst, conversation, env);
      && !e.outcome.Raised?
      && (forall tool: ToolName :: ParseName(name) == Some(tool) ==>
            var h := HandlerEffect(t, tool, args, inst, conversation, env);
            && e.tables == h.tables
            && (h.outcome.Raised? ==> e.outcome == Says(FailureMessage(name, h.outcome.error)))
            && (!h.outcome.Raised? ==> e.outcome == h.outcome))
  {
  }

  /** A handler reads no argument beyond those its tool declares: two
      argument values that agree on the declared properties, and that are
      the same value when either is null, give the same writes and the same
      result. */
  lemma ReadsDeclaredArguments(t: Tables, tool: ToolName, args: JsValue, args': JsValue, inst: Instance,
                               conversation: Option<Conversation>, env: Environment)
    requires Nullish(args) || Nullish(args') ==> args == args'
    requires forall k :: k in Definition(tool).properties ==> Get(args, k) == Get(args', k)
    ensures HandlerEffect(t, tool, args, inst, conversation, env) == HandlerEffect(t, tool, args', inst, conversation, env)
  {
    var props := Definition(tool).properties;
    match tool
    case CancelAppointmentTool =>
      assert props[0] == AppointmentIdKey;
      CancelArgRead(t, args, args', inst, conversation, env);
    case GeneratePaymentTool =>
      assert props[0] == AppointmentIdKey;
      GenerateArgRead(t, args, args', inst, conversation, env);
    case CheckPaymentStatusTool =>
      assert props[0] == AppointmentIdKey;
      CheckArgRead(t, args, args', inst, conversation, env);
    case GetAvailableSlotsTool =>
      assert props[0] == ProfessionalIdKey && props[1] == ServiceIdKey && props[2] == DateKey;
      SlotArgsRead(t, args, args', inst, conversation, env);
    case CreateAppointmentTool =>
      assert props[0] == ServiceIdKey && props[1] == ProfessionalIdKey && props[2] == DateKey && props[3] == TimeKey;
      CreateArgsRead(t, args, args', inst, conversation, env);
    case _ =>
      ListArgsIgnored(t, tool, args, args', inst, conversation, env);
  }

  /** The three list tools take no argument, so their effect does not
      depend on `args`. */
  lemma ListArgsIgnored(t: Tables, tool: ToolName, args: JsValue, args': JsValue, inst: Instance,
                        conversation: Option<Conversation>, env: Environment)
    requires tool == ListServicesTool || tool == ListProfessionalsTool || tool == ListMyAppointmentsTool
    ensures HandlerEffect(t, tool, args, inst, conversation, env) == HandlerEffect(t, tool, args', inst, conversation, env)
  {
  }

  lemma CancelArgRead(t: Tables, args: JsValue, args': JsValue, inst: Instance, conversation: Option<Conversation>, env: Environment)
    requires Nullish(args) || Nullish(args') ==> args == args'
    requires Get(args, AppointmentIdKey) == Get(args', AppointmentIdKey)
    ensures HandlerEffect(t, CancelAppointmentTool, args, inst, conversation, env)
         == HandlerEffect(t, CancelAppointmentTool, args', inst, conversation, env)
  {
    assert Arg(args, AppointmentIdKey) == Arg(args', AppointmentIdKey);
  }

  lemma GenerateArgRead(t: Tables, args: JsValue, args': JsValue, inst: Instance, conversation: Option<Conversation>, env: Environment)
    requires Nullish(args) || Nullish(args') ==> args == args'
    requires Get(args, AppointmentIdKey) == Get(args', AppointmentIdKey)
    ensures HandlerEffect(t, GeneratePaymentTool, args, inst, conversation, env)
         == HandlerEffect(t, GeneratePaymentTool, args', inst, conversation, env)
  {
    assert Arg(args, AppointmentIdKey) == Arg(args', AppointmentIdKey);
  }

  lemma CheckArgRead(t: Tables, args: JsValue, args': JsValue, inst: Instance, conversation: Option<Conversation>, env: Environment)
    requires Nullish(args) || Nullish(args') ==> args == args'
    requires Get(args, AppointmentIdKey) == Get(args', AppointmentIdKey)
    ensures HandlerEffect(t, CheckPaymentStatusTool, args, inst, conversation, env)
         == HandlerEffect(t, CheckPaymentStatusTool, args', inst, conversation, env)
  {
    assert Arg(args, AppointmentIdKey) == Arg(args', AppointmentIdKey);
  }

  lemma SlotArgsRead(t: Tables, args: JsValue, args': JsValue, inst: Instance, conversation: Option<Conversation>, env: Environment)
    requires Nullish(args) || Nullish(args') ==> args == args'
    requires Get(args, ProfessionalIdKey) == Get(args', ProfessionalIdKey)
    requires Get(args, ServiceIdKey) == Get(args', ServiceIdKey)
    requires Get(args, DateKey) == Get(args', DateKey)
    ensures HandlerEffect(t, GetAvailableSlotsTool, args, inst, conversation, env)
         == HandlerEffect(t, GetAvailableSlotsTool, args', inst, conversation, env)
  {
    assert Arg(args, ProfessionalIdKey) == Arg(args', ProfessionalIdKey);
    assert Arg(args, ServiceIdKey) == Arg(args', ServiceIdKey);
    assert Arg(args, DateKey) == Arg(args', DateKey);
  }

  lemma CreateArgsRead(t: Tables, args: JsValue, args': JsValue, inst: Instance, conversation: Option<Conversation>, env: Environment)
    requires Nullish(args) || Nullish(args') ==> args == args'
    requires Get(args, ServiceIdKey) == Get(args', ServiceIdKey)
    requires Get(args, ProfessionalIdKey) == Get(args', ProfessionalIdKey)
    requires Get(args, DateKey) == Get(args', DateKey)
    requires Get(args, TimeKey) == Get(args', TimeKey)
    ensures HandlerEffect(t, CreateAppointmentTool, args, inst, conversation, env)
         == HandlerEffect(t, CreateAppointmentTool, args', inst, conversation, env)
  {
    assert Arg(args, ServiceIdKey) == Arg(args', ServiceIdKey);
    assert Arg(args, ProfessionalIdKey) == Arg(args', ProfessionalIdKey);
    assert Arg(args, DateKey) == Arg(args', DateKey);
    assert Arg(args, TimeKey) == Arg(args', TimeKey);
  }

  /** No tool declares contact_id or company_id, so the model cannot steer
      them: a created appointment belongs to the conversation's contact and
      the instance's company, whatever the arguments say. */
  lemma ContextIdsNotFromArguments(tool: ToolName)
    ensures "contact_id" !in Definition(tool).properties && "company_id" !in Definition(tool).properties
  {
    var props := Definition(tool).properties;
    assert "contact_id"[1] == 'o' && "company_id"[1] == 'o';
    forall k | k in props
      ensures k != "contact_id" && k != "company_id"
    {
      assert k == AppointmentIdKey || k == ProfessionalIdKey || k == ServiceIdKey || k == DateKey || k == TimeKey;
      assert k[1] != 'o' || |k| != 10;
    }
  }

  /** A created appointment is the conversation's contact's, for the
      instance's company, whatever the arguments hold. */
  lemma CreateUsesContext(t: Tables, args: JsValue, inst: Instance, conversation: Option<Conversation>, env: Environment)
    requires env.createFault.None? && conversation.Some? && !Nullish(args)
    ensures var e := HandlerEffect(t, CreateAppointmentTool, args, inst, conversation, env);
      && |e.tables.appointments| == |t.appointments| + 1
      && e.tables.appointments[|t.appointments|].contactId == conversation.value.contactId
      && e.tables.appointments[|t.appointments|].companyId == inst.companyId
  {
    var e := CreateEffect(t, conversation.value.contactId, inst.companyId, Arg(args, ServiceIdKey), Arg(args, ProfessionalIdKey),
                          Arg(args, DateKey), Arg(args, TimeKey), env.newAppointmentId, None);
    assert HandlerEffect(t, CreateAppointmentTool, args, inst, conversation, env) == e;
  }

  /** `conversation.contact_id` on a missing conversation row throws
      before any write, in list_my_appointments and in create_appointment,
      which reads it before its arguments. */
  lemma MissingConversationThrows(t: Tables, tool: ToolName, args: JsValue, inst: Instance, env: Environment)
    requires tool == ListMyAppointmentsTool || tool == CreateAppointmentTool
    ensures HandlerEffect(t, tool, args, inst, None, env) == Effect(t, Raised(ReadError(JNull, "contact_id")))
  {
  }

  /** Null arguments throw before any write in cancel_appointment, in
      create_appointment once it has its contact, in get_available_slots,
      whose first line destructures them, and in the payment tools once
      their webhook URL is configured. The company's list tools read
      neither the arguments nor the conversation. */
  lemma NullArgumentsThrow(t: Tables, tool: ToolName, args: JsValue, inst: Instance, conversation: Option<Conversation>,
                           env: Environment)
    ensures var e := HandlerEffect(t, tool, args, inst, conversation, env);
      && (Nullish(args) && (tool == CancelAppointmentTool ||
                            (tool == GeneratePaymentTool && env.invoiceUrlConfigured) ||
                            (tool == CheckPaymentStatusTool && env.statusUrlConfigured)) ==>
            e == Effect(t, Raised(ReadError(args, AppointmentIdKey))))
      && (Nullish(args) && tool == CreateAppointmentTool && conversation.Some? ==>
            e == Effect(t, Raised(ReadError(args, ServiceIdKey))))
      && (Nullish(args) && tool == GetAvailableSlotsTool ==>
            e == Effect(t, Raised(DestructureError(args, ProfessionalIdKey, "args"))))
      && (tool == ListServicesTool || tool == ListProfessionalsTool ==>
            e == HandlerEffect(t, tool, JObj(map[]), inst, None, env))
  {
  }
}
