/** The rows of the relational store the edge functions read and write, the
    outbound calls they make, and the store itself as a mutable object. */
module Tables {
  import opened Optional
  import opened JsValues

  type Id = string

  datatype AppointmentStatus = Pending | Confirmed | Cancelled

  datatype Appointment = Appointment(
    id: Id,
    companyId: Id,
    contactId: Id,
    serviceId: Id,
    professionalId: Id,
    date: string,          // appointment_date, ISO "YYYY-MM-DD"
    time: string,          // appointment_time, "HH:MM" or "HH:MM:SS"
    status: AppointmentStatus,
    googleEventId: Option<string>)

  datatype Service = Service(
    id: Id,
    companyId: Id,
    name: string,
    price: int,
    durationMinutes: Option<int>)

  /** A professional's working window, as minutes after midnight (the
      start_time and end_time columns). */
  datatype Professional = Professional(
    id: Id,
    companyId: Id,
    name: string,
    role: string,
    startMinute: nat,
    endMinute: nat)

  datatype Contact = Contact(
    id: Id,
    companyId: Id,
    phone: string,
    name: string,
    cpf: string)

  /** A conversation row. `lastMessageAt` is the debounce ballot, in
      milliseconds; a row that never held one reads as 0, which is what
      `new Date(null).getTime()` gives. */
  datatype Conversation = Conversation(
    id: Id,
    contactId: Id,
    instanceId: Id,
    tempBuffer: string,
    lastMessageAt: int,
    isHumanActive: bool,
    unreadCount: int,
    lastMessage: string,
    lastTimestamp: string)

  datatype Sender = User | Ai | Operator | System

  datatype Message = Message(
    conversationId: Id,
    sender: Sender,
    content: string,
    timestamp: string)

  datatype Instance = Instance(
    id: Id,
    name: string,
    token: string,
    companyId: Id,
    agentId: Option<Id>,
    connectionStatus: string)

  datatype Agent = Agent(
    id: Id,
    prompt: string,
    knowledgeBase: string,
    enableAudio: bool,
    enableImage: bool)

  /** A company's settings row. Text columns hold "" where the column is
      null: every reader treats the two alike. `workingDays` is None when
      the column is null, and Some([]) for an empty list, which JavaScript
      treats as present. */
  datatype SettingsRow = SettingsRow(
    companyId: Id,
    workingDays: Option<seq<string>>,
    hoursStart: string,
    hoursEnd: string,
    informacoes: string,
    address: string,
    website: string,
    offlineMessage: string,
    metaVerifyToken: string,
    instagramBusinessId: Option<string>,
    instagramAccessToken: string)

  datatype InvoiceStatus = Aberta | Paga

  datatype Invoice = Invoice(
    id: Id,
    appointmentId: Id,
    contactId: Id,
    companyId: Id,
    valor: JsValue,
    status: InvoiceStatus)

  datatype ChargeStatus = Pendente | Concluida

  datatype PixCharge = PixCharge(
    invoiceId: Id,
    txid: string,
    copyPaste: string,
    valorOriginal: JsValue,
    expiration: JsValue,
    status: ChargeStatus)

  /** users_profile: a company's account, holding its Google refresh token
      ("" when none). */
  datatype Profile = Profile(id: Id, googleRefreshToken: string)

  datatype QuickReply = QuickReply(title: string, payload: string)

  datatype KeywordRule = KeywordRule(
    companyId: Id,
    keyword: string,
    active: bool,
    replyText: string,
    publicReplyText: string,
    quickReplies: seq<QuickReply>)

  datatype Lead = Lead(
    companyId: Id,
    instagramId: string,
    username: string,
    lastComment: string,
    lastCommentAt: string)

  /** The recipient of an Instagram message: a user, or the author of a
      comment (a private reply). */
  datatype Recipient = ToUser(userId: Option<string>) | ToComment(commentId: Option<string>)

  datatype QuickReplyButton = QuickReplyButton(contentType: string, title: string, payload: string)

  /** The JSON body posted to the Graph API's messages endpoint. */
  datatype DirectMessage = DirectMessage(
    recipient: Recipient,
    text: string,
    quickReplies: Option<seq<QuickReplyButton>>)

  datatype HttpMethod = Delete | Put | Post

  datatype CalendarEvent = CalendarEvent(summary: string, startDateTime: string, endDateTime: string)

  /** The outbound HTTP calls the edge functions make, in the order made. */
  datatype Request =
    | CalendarSyncCall(appointmentId: Id, action: Option<string>)
    | SendText(instanceName: string, token: string, number: string, text: string)
    | InvokeAiChat(conversationId: Id, instanceId: Id, phone: string, textAdded: string)
    | GraphMessage(businessId: string, accessToken: string, body: DirectMessage)
    | GraphCommentReply(commentId: Option<string>, message: string, accessToken: string)
    | CalendarRequest(verb: HttpMethod, url: string, event: Option<CalendarEvent>)

  /** The whole store at one moment. */
  datatype Tables = Tables(
    appointments: seq<Appointment>,
    services: seq<Service>,
    professionals: seq<Professional>,
    contacts: seq<Contact>,
    conversations: seq<Conversation>,
    messages: seq<Message>,
    instances: seq<Instance>,
    agents: seq<Agent>,
    settings: seq<SettingsRow>,
    invoices: seq<Invoice>,
    pixCharges: seq<PixCharge>,
    profiles: seq<Profile>,
    keywords: seq<KeywordRule>,
    leads: seq<Lead>,
    outbox: seq<Request>)

  /** The store as the supabase client sees it: one field per table, each
      rewritten by the queries of the edge functions. */
  class Database {
    var appointments: seq<Appointment>
    var services: seq<Service>
    var professionals: seq<Professional>
    var contacts: seq<Contact>
    var conversations: seq<Conversation>
    var messages: seq<Message>
    var instances: seq<Instance>
    var agents: seq<Agent>
    var settings: seq<SettingsRow>
    var invoices: seq<Invoice>
    var pixCharges: seq<PixCharge>
    var profiles: seq<Profile>
    var keywords: seq<KeywordRule>
    var leads: seq<Lead>
    var outbox: seq<Request>

    constructor (t: Tables)
      ensures Snapshot() == t
    {
      appointments, services, professionals := t.appointments, t.services, t.professionals;
      contacts, conversations, messages := t.contacts, t.conversations, t.messages;
      instances, agents, settings := t.instances, t.agents, t.settings;
      invoices, pixCharges, profiles := t.invoices, t.pixCharges, t.profiles;
      keywords, leads, outbox := t.keywords, t.leads, t.outbox;
    }

    /** The contents of every table. */
    function Snapshot(): Tables
      reads this
    {
      Tables(appointments, services, professionals, contacts, conversations, messages,
        instances, agents, settings, invoices, pixCharges, profiles, keywords, leads, outbox)
    }
  }

  /** `.eq("id", id).single()` on a table whose id is its primary key. */
  function FindAppointment(rows: seq<Appointment>, id: Id): (r: Option<Appointment>)
    ensures r.Some? ==> r.value in rows && r.value.id == id
    ensures r.None? ==> forall a :: a in rows ==> a.id != id
  {
    if rows == [] then None
    else if rows[0].id == id then Some(rows[0])
    else FindAppointment(rows[1..], id)
  }

  function FindService(rows: seq<Service>, id: Id): (r: Option<Service>)
    ensures r.Some? ==> r.value in rows && r.value.id == id
    ensures r.None? ==> forall s :: s in rows ==> s.id != id
  {
    if rows == [] then None
    else if rows[0].id == id then Some(rows[0])
    else FindService(rows[1..], id)
  }

  function FindProfessional(rows: seq<Professional>, id: Id): (r: Option<Professional>)
    ensures r.Some? ==> r.value in rows && r.value.id == id
    ensures r.None? ==> forall p :: p in rows ==> p.id != id
  {
    if rows == [] then None
    else if rows[0].id == id then Some(rows[0])
    else FindProfessional(rows[1..], id)
  }

  function FindContact(rows: seq<Contact>, id: Id): (r: Option<Contact>)
    ensures r.Some? ==> r.value in rows && r.value.id == id
    ensures r.None? ==> forall c :: c in rows ==> c.id != id
  {
    if rows == [] then None
    else if rows[0].id == id then Some(rows[0])
    else FindContact(rows[1..], id)
  }

  function FindConversation(rows: seq<Conversation>, id: Id): (r: Option<Conversation>)
    ensures r.Some? ==> r.value in rows && r.value.id == id
    ensures r.None? ==> forall c :: c in rows ==> c.id != id
  {
    if rows == [] then None
    else if rows[0].id == id then Some(rows[0])
    else FindConversation(rows[1..], id)
  }

  function FindInstance(rows: seq<Instance>, id: Id): (r: Option<Instance>)
    ensures r.Some? ==> r.value in rows && r.value.id == id
    ensures r.None? ==> forall i :: i in rows ==> i.id != id
  {
    if rows == [] then None
    else if rows[0].id == id then Some(rows[0])
    else FindInstance(rows[1..], id)
  }

  function FindAgent(rows: seq<Agent>, id: Id): (r: Option<Agent>)
    ensures r.Some? ==> r.value in rows && r.value.id == id
    ensures r.None? ==> forall a :: a in rows ==> a.id != id
  {
    if rows == [] then None
    else if rows[0].id == id then Some(rows[0])
    else FindAgent(rows[1..], id)
  }

  function FindProfile(rows: seq<Profile>, id: Id): (r: Option<Profile>)
    ensures r.Some? ==> r.value in rows && r.value.id == id
    ensures r.None? ==> forall p :: p in rows ==> p.id != id
  {
    if rows == [] then None
    else if rows[0].id == id then Some(rows[0])
    else FindProfile(rows[1..], id)
  }

  /** `.eq("company_id", c).maybeSingle()` on settings: the first row of the
      company (company_id is unique in settings). */
  function SettingsOf(rows: seq<SettingsRow>, companyId: Id): (r: Option<SettingsRow>)
    ensures r.Some? ==> r.value in rows && r.value.companyId == companyId
    ensures r.None? ==> forall s :: s in rows ==> s.companyId != companyId
  {
    if rows == [] then None
    else if rows[0].companyId == companyId then Some(rows[0])
    else SettingsOf(rows[1..], companyId)
  }

  /** The columns an `.update({...})` on conversations sets; None leaves a
      column as it is. */
  datatype ConversationPatch = ConversationPatch(
    instanceId: Option<Id>,
    tempBuffer: Option<string>,
    lastMessageAt: Option<int>,
    unreadCount: Option<int>,
    lastMessage: Option<string>,
    lastTimestamp: Option<string>)

  function Patched(c: Conversation, patch: ConversationPatch): (r: Conversation)
    ensures r.id == c.id && r.contactId == c.contactId && r.isHumanActive == c.isHumanActive
  {
    c.(instanceId := patch.instanceId.GetOr(c.instanceId),
       tempBuffer := patch.tempBuffer.GetOr(c.tempBuffer),
       lastMessageAt := patch.lastMessageAt.GetOr(c.lastMessageAt),
       unreadCount := patch.unreadCount.GetOr(c.unreadCount),
       lastMessage := patch.lastMessage.GetOr(c.lastMessage),
       lastTimestamp := patch.lastTimestamp.GetOr(c.lastTimestamp))
  }

  /** `.update(patch).eq("id", id)` on conversations. */
  function UpdateConversation(rows: seq<Conversation>, id: Id, patch: ConversationPatch): (r: seq<Conversation>)
    ensures |r| == |rows|
    ensures forall i :: 0 <= i < |rows| ==> r[i] == if rows[i].id == id then Patched(rows[i], patch) else rows[i]
  {
    if rows == [] then []
    else [if rows[0].id == id then Patched(rows[0], patch) else rows[0]] + UpdateConversation(rows[1..], id, patch)
  }

  /** Reading a conversation after an update gives the patched row; other
      conversations read as before. */
  lemma {:induction false} FindUpdated(rows: seq<Conversation>, id: Id, patch: ConversationPatch, other: Id)
    ensures FindConversation(UpdateConversation(rows, id, patch), id)
      == if FindConversation(rows, id).Some? then Some(Patched(FindConversation(rows, id).value, patch)) else None
    ensures other != id ==> FindConversation(UpdateConversation(rows, id, patch), other) == FindConversation(rows, other)
  {
    if rows != [] {
      FindUpdated(rows[1..], id, patch, other);
    }
  }
}
