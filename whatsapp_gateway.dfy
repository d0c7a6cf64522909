/** The whatsapp-webhook edge function (whatsapp-webhook/index.ts): the
    Evolution API posts every event of a WhatsApp instance here. Status
    events update the instance's connection status; a new message is
    classified, stored on its contact's conversation, and, when it comes
    from the customer and no human operator has taken over, handed to the
    AI agent. */
module WhatsAppGateway {
  import opened Optional
  import opened Text
  import opened JsValues
  import opened Tables

  /** The responses of the handler. */
  datatype Reply =
    | StatusUpdated      // "Status atualizado"
    | Ignored            // "Ignorado"
    | GroupIgnored       // "Grupo ignorado"
    | InstanceNotFound   // 404 "Instância não encontrada"
    | NoContent          // "Sem conteúdo processável"
    | Accepted           // { success: true }
    | ServerError        // 500, an exception

  const ConnectionUpdate: string := "connection.update"
  const InstanceUpdate: string := "instance.update"
  const MessagesUpsert: string := "messages.upsert"
  const GroupSuffix: string := "@g.us"
  const MediaPlaceholder: string := "(Mídia)"

  // ---- status events -------------------------------------------------------

  /** `["connection.update", "instance.update"].includes(payload.event)` */
  predicate IsStatusEvent(event: JsValue) {
    event == JStr(ConnectionUpdate) || event == JStr(InstanceUpdate)
  }

  /** `data?.state || data?.status || (instance.update ? data?.instance?.status : null)` */
  function StateOf(event: JsValue, data: JsValue): JsValue {
    Or(Get(data, "state"), Or(Get(data, "status"), if event == JStr(InstanceUpdate) then Get(Get(data, "instance"), "status") else JNull))
  }

  /** The state is `state` when that is set, else `status`, else, for an
      instance.update only, the nested `instance.status`; with none of them
      set there is no state. */
  lemma StatePrecedence(event: JsValue, data: JsValue)
    ensures Truthy(Get(data, "state")) ==> StateOf(event, data) == Get(data, "state")
    ensures !Truthy(Get(data, "state")) && Truthy(Get(data, "status")) ==> StateOf(event, data) == Get(data, "status")
    ensures !Truthy(Get(data, "state")) && !Truthy(Get(data, "status")) ==>
      (Truthy(StateOf(event, data)) <==> event == JStr(InstanceUpdate) && Truthy(Get(Get(data, "instance"), "status")))
    ensures !Truthy(Get(data, "state")) && !Truthy(Get(data, "status")) && Truthy(StateOf(event, data)) ==>
      StateOf(event, data) == Get(Get(data, "instance"), "status")
  {
  }

  /** `.update({ connection_status }).eq("name", instanceName)`: every
      instance of that name. */
  function SetConnectionStatus(rows: seq<Instance>, name: string, status: string): seq<Instance> {
    seq(|rows|, i requires 0 <= i < |rows| => if rows[i].name == name then rows[i].(connectionStatus := status) else rows[i])
  }

  /** The status event: with a string state, every instance of the name
      takes its lowercase as its status; with no state nothing is written;
      a state that is not a string makes `toLowerCase` throw. */
  function StatusEffect(t: Tables, instanceName: JsValue, state: JsValue): (r: Outcome)
    ensures r.reply == StatusUpdated || r.reply == ServerError
    ensures r.reply == ServerError <==> Truthy(state) && !state.JStr?
    ensures !Truthy(state) ==> r.tables == t
    ensures Truthy(state) && state.JStr? ==>
      && r.tables.(instances := t.instances) == t
      && |r.tables.instances| == |t.instances|
      && forall i :: 0 <= i < |t.instances| ==>
           r.tables.instances[i] == if t.instances[i].name == ToStr(instanceName)
                                    then t.instances[i].(connectionStatus := ToLower(state.s))
                                    else t.instances[i]
  {
    if !Truthy(state) then Outcome(t, StatusUpdated)
    else if !state.JStr? then Outcome(t, ServerError)
    else Outcome(t.(instances := SetConnectionStatus(t.instances, ToStr(instanceName), ToLower(state.s))), StatusUpdated)
  }

  // ---- the sender ----------------------------------------------------------

  /** `remoteJid.split("@")[0]`: the phone number of a JID. */
  function PhoneOf(jid: string): (phone: string)
    ensures StartsWith(jid, phone) && '@' !in phone
    ensures |phone| < |jid| ==> jid[|phone|] == '@'
  {
    BeforeFirst(jid, '@')
  }

  /** A value read where the source expects text, as JavaScript would
      print it. */
  function TextOf(v: JsValue): string {
    if v.JStr? then v.s else ToStr(v)
  }

  // ---- the content ---------------------------------------------------------

  /** What the media helpers return for one message: the media's base64
      (getMediaBase64, None on any failure), the transcription's `text`
      (None when the call throws) and the image description (None when
      the call throws). */
  datatype Media = Media(base64: Option<string>, transcript: Option<string>, description: Option<string>)

  /** `if (base64)` */
  predicate Fetched(base64: Option<string>) {
    base64.Some? && base64.value != ""
  }

  /** transcribeAudio: the transcription, "(Áudio vazio)" when there is
      none and "(Erro na transcrição)" when the call throws. */
  function Transcription(transcript: Option<string>): (r: string)
    ensures r != ""
  {
    if transcript.None? then "(Erro na transcrição)"
    else if transcript.value == "" then "(Áudio vazio)"
    else transcript.value
  }

  /** analyzeImage: the description, "(Sem descrição)" when there is none
      and "(Erro na análise da imagem)" when the call throws. */
  function Description(description: Option<string>): (r: string)
    ensures r != ""
  {
    if description.None? then "(Erro na análise da imagem)"
    else if description.value == "" then "(Sem descrição)"
    else description.value
  }

  const ImagePrefix: string := "[Imagem]: "
  const PdfHead: string := "[Arquivo PDF: "
  const PdfNote0: string := "]: O usuário enviou um comprovante ou documento em PDF. "
  const PdfNote1: string := "IA, se o usuário disser que é um comprovante, "
  const PdfNote2: string := "use a ferramenta de checagem de pagamento para confirmar."
  const DefaultFileName: string := "documento.pdf"
  const PdfMime: string := "application/pdf"

  /** The marker stored for a PDF document. */
  function PdfMarker(fileName: string): string {
    PdfHead + fileName + PdfNote0 + PdfNote1 + PdfNote2
  }

  /** `inst.agents?.enable_audio` and `inst.agents?.enable_image` */
  predicate AudioEnabled(agent: Option<Agent>) {
    agent.Some? && agent.value.enableAudio
  }

  predicate ImageEnabled(agent: Option<Agent>) {
    agent.Some? && agent.value.enableImage
  }

  predicate HasText(message: JsValue) {
    Truthy(Get(message, "conversation"))
  }

  predicate HasExtendedText(message: JsValue) {
    Truthy(Get(Get(message, "extendedTextMessage"), "text"))
  }

  predicate IsAudio(message: JsValue) {
    Truthy(Get(message, "audioMessage"))
  }

  predicate IsImage(message: JsValue) {
    Truthy(Get(message, "imageMessage"))
  }

  predicate IsPdf(message: JsValue) {
    Truthy(Get(message, "documentMessage")) && Get(Get(message, "documentMessage"), "mimetype") == JStr(PdfMime)
  }

  /** `documentMessage.fileName || "documento.pdf"` */
  function FileNameOf(message: JsValue): string {
    TextOf(Or(Get(Get(message, "documentMessage"), "fileName"), JStr(DefaultFileName)))
  }

  /** `userMessage`: what a message is stored and answered as. The chain
      of `else if` takes the first kind that applies: a plain text, an
      extended text, an audio (only with the agent's audio enabled), an
      image (only with image enabled), a PDF document; media whose download
      fails leave the empty string, and so does any other kind of message.
      A text is taken as the payload holds it, which need not be a string;
      every other kind gives a string. */
  function ContentOf(message: JsValue, agent: Option<Agent>, media: Media): (r: JsValue)
    ensures Truthy(r) || r == JStr("")
    ensures !HasText(message) && !HasExtendedText(message) ==> r.JStr?
  {
    if HasText(message) then Get(message, "conversation")
    else if HasExtendedText(message) then Get(Get(message, "extendedTextMessage"), "text")
    else if IsAudio(message) && AudioEnabled(agent) then
      JStr(if Fetched(media.base64) then Transcription(media.transcript) else "")
    else if IsImage(message) && ImageEnabled(agent) then
      JStr(if Fetched(media.base64) then ImagePrefix + Description(media.description) else "")
    else if IsPdf(message) then JStr(PdfMarker(FileNameOf(message)))
    else JStr("")
  }

  /** A text message is stored as its text whatever else it carries and
      whatever the media helpers would return. */
  lemma TextFirst(message: JsValue, agent: Option<Agent>, media: Media, other: Media)
    requires HasText(message) || HasExtendedText(message)
    ensures ContentOf(message, agent, media) == ContentOf(message, agent, other)
    ensures HasText(message) ==> ContentOf(message, agent, media) == Get(message, "conversation")
    ensures !HasText(message) ==> ContentOf(message, agent, media) == Get(Get(message, "extendedTextMessage"), "text")
  {
  }

  /** With audio disabled, no transcription ever reaches the conversation;
      with image disabled, no image description does. */
  lemma MediaGatedByAgent(message: JsValue, agent: Option<Agent>, media: Media, transcript: Option<string>,
                          description: Option<string>)
    ensures !AudioEnabled(agent) ==>
      ContentOf(message, agent, media) == ContentOf(message, agent, media.(transcript := transcript))
    ensures !ImageEnabled(agent) ==>
      ContentOf(message, agent, media) == ContentOf(message, agent, media.(description := description))
  {
  }

  /** An audio with audio enabled becomes its transcription, or nothing
      when the download fails, even if the message is also an image or a
      document. */
  lemma AudioContent(message: JsValue, agent: Option<Agent>, media: Media)
    requires !HasText(message) && !HasExtendedText(message) && IsAudio(message) && AudioEnabled(agent)
    ensures ContentOf(message, agent, media) == JStr(if Fetched(media.base64) then Transcription(media.transcript) else "")
  {
  }

  /** An image with image enabled (and no audio taken first) becomes
      "[Imagem]: " and its description, or nothing when the download
      fails. */
  lemma ImageContent(message: JsValue, agent: Option<Agent>, media: Media)
    requires !HasText(message) && !HasExtendedText(message) && !(IsAudio(message) && AudioEnabled(agent))
    requires IsImage(message) && ImageEnabled(agent)
    ensures var c := ContentOf(message, agent, media).s;
      (Fetched(media.base64) ==> StartsWith(c, ImagePrefix) && c[|ImagePrefix|..] == Description(media.description))
      && (!Fetched(media.base64) ==> c == "")
  {
    var c := ContentOf(message, agent, media).s;
    if Fetched(media.base64) {
      assert c == ImagePrefix + Description(media.description);
      assert c[..|ImagePrefix|] == ImagePrefix;
    }
  }

  /** A PDF that no earlier kind claims becomes the marker naming its file,
      "documento.pdf" when it has no name. */
  lemma PdfContent(message: JsValue, agent: Option<Agent>, media: Media)
    requires !HasText(message) && !HasExtendedText(message)
    requires !(IsAudio(message) && AudioEnabled(agent)) && !(IsImage(message) && ImageEnabled(agent))
    requires IsPdf(message)
    ensures var c := ContentOf(message, agent, media).s;
      && StartsWith(c, PdfHead + FileNameOf(message))
      && (!Truthy(Get(Get(message, "documentMessage"), "fileName")) ==> StartsWith(c, PdfHead + DefaultFileName))
      && c != ""
  {
    var name := FileNameOf(message);
    var c := ContentOf(message, agent, media).s;
    assert c == (PdfHead + name) + (PdfNote0 + PdfNote1 + PdfNote2);
    StartsWithConcat(PdfHead + name, PdfNote0 + PdfNote1 + PdfNote2);
  }

  // ---- contact and conversation upserts -------------------------------------

  /** The row an upsert wrote and the table after it. */
  datatype Upserted<T> = Upserted(rows: seq<T>, row: T)

  /** The first contact with this phone in this company. */
  function ContactIndex(rows: seq<Contact>, phone: string, companyId: Id): (r: Option<nat>)
    ensures r.Some? ==> r.value < |rows| && rows[r.value].phone == phone && rows[r.value].companyId == companyId
    ensures r.None? ==> forall i :: 0 <= i < |rows| ==> !(rows[i].phone == phone && rows[i].companyId == companyId)
  {
    if rows == [] then None
    else if rows[0].phone == phone && rows[0].companyId == companyId then Some(0)
    else
      var r := ContactIndex(rows[1..], phone, companyId);
      if r.Some? then Some(r.value + 1) else None
  }

  /** At most one contact per phone and company: the unique key the upsert
      relies on. */
  predicate ContactKeyUnique(rows: seq<Contact>, phone: string, companyId: Id) {
    forall i, j :: 0 <= i < j < |rows| && rows[i].phone == phone && rows[i].companyId == companyId ==>
      !(rows[j].phone == phone && rows[j].companyId == companyId)
  }

  /** `.upsert({ phone, name, company_id }, { onConflict: 'phone, company_id' })`:
      the contact of that phone in that company takes the new name; a new
      one is inserted when there is none. */
  function UpsertContact(rows: seq<Contact>, phone: string, name: string, companyId: Id, newId: Id): (r: Upserted<Contact>)
    ensures r.row.phone == phone && r.row.name == name && r.row.companyId == companyId
    ensures r.row in r.rows
  {
    var k := ContactIndex(rows, phone, companyId);
    if k.Some? then
      var c := rows[k.value].(name := name);
      assert rows[k.value := c][k.value] == c;
      Upserted(rows[k.value := c], c)
    else
      var c := Contact(newId, companyId, phone, name, "");
      Upserted(rows + [c], c)
  }

  /** The upsert keeps the key unique: afterwards exactly one contact has
      the phone and company, the one returned; an existing contact keeps
      its id and the table its size, and a new contact is appended. */
  lemma UpsertContactKeepsKeyUnique(rows: seq<Contact>, phone: string, name: string, companyId: Id, newId: Id)
    requires ContactKeyUnique(rows, phone, companyId)
    ensures var r := UpsertContact(rows, phone, name, companyId, newId);
      && ContactKeyUnique(r.rows, phone, companyId)
      && (forall i :: 0 <= i < |r.rows| && r.rows[i].phone == phone && r.rows[i].companyId == companyId ==> r.rows[i] == r.row)
      && (ContactIndex(rows, phone, companyId).Some? ==>
            |r.rows| == |rows| && r.row.id == rows[ContactIndex(rows, phone, companyId).value].id)
      && (ContactIndex(rows, phone, companyId).None? ==> r.rows == rows + [r.row] && r.row.id == newId)
  {
  }

  /** A repeated delivery upserts the same contact again and leaves the
      table as the first one did. */
  lemma UpsertContactIdempotent(rows: seq<Contact>, phone: string, name: string, companyId: Id, newId: Id, otherId: Id)
    requires ContactKeyUnique(rows, phone, companyId)
    ensures var r := UpsertContact(rows, phone, name, companyId, newId);
      UpsertContact(r.rows, phone, name, companyId, otherId) == r
  {
    var r := UpsertContact(rows, phone, name, companyId, newId);
    UpsertContactKeepsKeyUnique(rows, phone, name, companyId, newId);
    var k := ContactIndex(r.rows, phone, companyId);
    assert k.Some?;
    assert r.rows[k.value] == r.row;
    assert r.rows[k.value := r.row.(name := name)] == r.rows;
  }

  /** The first conversation of a contact. */
  function ConversationIndex(rows: seq<Conversation>, contactId: Id): (r: Option<nat>)
    ensures r.Some? ==> r.value < |rows| && rows[r.value].contactId == contactId
    ensures r.None? ==> forall i :: 0 <= i < |rows| ==> rows[i].contactId != contactId
  {
    if rows == [] then None
    else if rows[0].contactId == contactId then Some(0)
    else
      var r := ConversationIndex(rows[1..], contactId);
      if r.Some? then Some(r.value + 1) else None
  }

  predicate ConversationKeyUnique(rows: seq<Conversation>, contactId: Id) {
    forall i, j :: 0 <= i < j < |rows| && rows[i].contactId == contactId ==> rows[j].contactId != contactId
  }

  /** A conversation as inserted: only contact_id and instance_id given,
      every other column at its default. */
  function NewConversation(id: Id, contactId: Id, instanceId: Id): Conversation {
    Conversation(id, contactId, instanceId, "", 0, false, 0, "", "")
  }

  /** `.upsert({ contact_id, instance_id }, { onConflict: 'contact_id' })`:
      the contact's conversation moves to the instance; a new one is
      inserted when the contact has none. */
  function UpsertConversation(rows: seq<Conversation>, contactId: Id, instanceId: Id, newId: Id): (r: Upserted<Conversation>)
    ensures r.row.contactId == contactId && r.row.instanceId == instanceId
    ensures r.row in r.rows
  {
    var k := ConversationIndex(rows, contactId);
    if k.Some? then
      var c := rows[k.value].(instanceId := instanceId);
      assert rows[k.value := c][k.value] == c;
      Upserted(rows[k.value := c], c)
    else
      var c := NewConversation(newId, contactId, instanceId);
      Upserted(rows + [c], c)
  }

  /** The conversation upsert keeps one conversation per contact, keeps an
      existing conversation's id, buffer, counter and human flag, and
      starts a new one idle and unread-free. */
  lemma UpsertConversationKeepsKeyUnique(rows: seq<Conversation>, contactId: Id, instanceId: Id, newId: Id)
    requires ConversationKeyUnique(rows, contactId)
    ensures var r := UpsertConversation(rows, contactId, instanceId, newId);
      && ConversationKeyUnique(r.rows, contactId)
      && (forall i :: 0 <= i < |r.rows| && r.rows[i].contactId == contactId ==> r.rows[i] == r.row)
      && (ConversationIndex(rows, contactId).Some? ==>
            |r.rows| == |rows| && r.row == rows[ConversationIndex(rows, contactId).value].(instanceId := instanceId))
      && (ConversationIndex(rows, contactId).None? ==>
            r.rows == rows + [r.row] && r.row.id == newId && !r.row.isHumanActive && r.row.unreadCount == 0)
  {
  }

  lemma UpsertConversationIdempotent(rows: seq<Conversation>, contactId: Id, instanceId: Id, newId: Id, otherId: Id)
    requires ConversationKeyUnique(rows, contactId)
    ensures var r := UpsertConversation(rows, contactId, instanceId, newId);
      UpsertConversation(r.rows, contactId, instanceId, otherId) == r
  {
    var r := UpsertConversation(rows, contactId, instanceId, newId);
    UpsertConversationKeepsKeyUnique(rows, contactId, instanceId, newId);
    var k := ConversationIndex(r.rows, contactId);
    assert k.Some?;
    assert r.rows[k.value] == r.row;
    assert r.rows[k.value := r.row.(instanceId := instanceId)] == r.rows;
  }

  // ---- the message ---------------------------------------------------------

  /** `.eq("name", instanceName).single()`: the one instance of that name;
      none, or more than one, is an error. */
  function InstanceNamed(rows: seq<Instance>, name: string): (r: Option<Instance>)
    ensures r.Some? ==> r.value in rows && r.value.name == name
  {
    var named := NamedInstances(rows, name);
    if |named| == 1 then Some(named[0]) else None
  }

  function NamedInstances(rows: seq<Instance>, name: string): (r: seq<Instance>)
    ensures forall x :: x in r <==> x in rows && x.name == name
  {
    if rows == [] then []
    else (if rows[0].name == name then [rows[0]] else []) + NamedInstances(rows[1..], name)
  }

  /** The conversation columns written when a message arrives. */
  function ArrivalPatch(content: string, fromMe: bool, conv: Conversation, now: string): ConversationPatch {
    ConversationPatch(None, None, None, Some(if fromMe then 0 else conv.unreadCount + 1),
      Some(if content != "" then Take(content, 100) else MediaPlaceholder), Some(now))
  }

  /** What a delivery meets outside the payload: the ids the store gives
      new rows, the media helpers' results, the moment of the delivery, and
      whether the contact upsert, the conversation upsert or the message
      insert fails (each failure is thrown and answered with a 500). */
  datatype Delivery = Delivery(newContactId: Id, newConversationId: Id, media: Media, now: string,
                               contactFault: bool, conversationFault: bool, messageFault: bool)

  datatype Outcome = Outcome(tables: Tables, reply: Reply)

  /** The sender of a message event, once its JID is known to be text:
      whether the instance itself sent it, the phone and the display
      name. */
  datatype Sender = Sender(fromMe: bool, jid: string, phone: string, pushName: string)

  /** `data.key`, `data.pushName`: the sender, or None when the JID is set
      to something that is not a string (its `split` throws). */
  function SenderOf(data: JsValue): (r: Option<Sender>)
    ensures r.Some? ==> r.value.phone == PhoneOf(r.value.jid)
  {
    var key := Get(data, "key");
    var jid := Or(Get(key, "remoteJid"), JStr(""));
    if !jid.JStr? then None
    else
      var phone := PhoneOf(jid.s);
      Some(Sender(Get(key, "fromMe") == JBool(true), jid.s, phone, TextOf(Or(Get(data, "pushName"), JStr(phone)))))
  }

  /** `inst.agents`: the agent the instance is linked to, if any. */
  function AgentOfInstance(t: Tables, inst: Instance): Option<Agent> {
    if inst.agentId.Some? then FindAgent(t.agents, inst.agentId.value) else None
  }

  /** The contact upsert of a message. */
  function ContactUpsert(t: Tables, inst: Instance, s: Sender, d: Delivery): Upserted<Contact> {
    UpsertContact(t.contacts, s.phone, s.pushName, inst.companyId, d.newContactId)
  }

  /** The conversation upsert of a message, after the contact upsert. */
  function ConversationUpsert(t: Tables, inst: Instance, s: Sender, d: Delivery): Upserted<Conversation> {
    UpsertConversation(t.conversations, ContactUpsert(t, inst, s, d).row.id, inst.id, d.newConversationId)
  }

  /** The stored message: OPERATOR when the instance sent it, USER
      otherwise, "(Mídia)" standing for an empty text
      (`userMessage || "(Mídia)"`). */
  function StoredMessage(conv: Conversation, content: JsValue, fromMe: bool, now: string): Message {
    Message(conv.id, if fromMe then Operator else User, TextOf(Or(content, JStr(MediaPlaceholder))), now)
  }

  /** A message with its content known, once the upserts are done: the
      stored message, the conversation's summary and the trigger. A failed
      insert throws; a content that is set but not a string is stored and
      then makes `substring` throw, before the summary and the trigger. */
  function RecordEffect(t: Tables, inst: Instance, s: Sender, conv: Conversation, content: JsValue, now: string,
                        messageFault: bool): Outcome
  {
    if !Truthy(content) && !s.fromMe then Outcome(t, NoContent)
    else if messageFault then Outcome(t, ServerError)
    else
      var t0 := t.(messages := t.messages + [StoredMessage(conv, content, s.fromMe, now)]);
      if Truthy(content) && !content.JStr? then Outcome(t0, ServerError)
      else
        var text := if Truthy(content) then content.s else "";
        var t1 := t0.(conversations := UpdateConversation(t.conversations, conv.id, ArrivalPatch(text, s.fromMe, conv, now)));
        if !s.fromMe && !conv.isHumanActive then
          Outcome(t1.(outbox := t1.outbox + [InvokeAiChat(conv.id, inst.id, s.phone, text)]), Accepted)
        else Outcome(t1, Accepted)
  }

  /** The store after the contact and conversation upserts. */
  function UpsertedTables(t: Tables, inst: Instance, s: Sender, d: Delivery): Tables {
    t.(contacts := ContactUpsert(t, inst, s, d).rows, conversations := ConversationUpsert(t, inst, s, d).rows)
  }

  /** A message from an instance that exists: a failed upsert throws with
      the writes made before it. */
  function ArrivalEffect(t: Tables, inst: Instance, s: Sender, message: JsValue, d: Delivery): Outcome {
    if d.contactFault then Outcome(t, ServerError)
    else if d.conversationFault then Outcome(t.(contacts := ContactUpsert(t, inst, s, d).rows), ServerError)
    else
      RecordEffect(UpsertedTables(t, inst, s, d), inst, s, ConversationUpsert(t, inst, s, d).row,
                   ContentOf(message, AgentOfInstance(t, inst), d.media), d.now, d.messageFault)
  }

  /** The whole handler on a parsed body; a body that parses to null makes
      `payload.instance` throw. */
  function WebhookEffect(t: Tables, payload: JsValue, d: Delivery): Outcome {
    if Nullish(payload) then Outcome(t, ServerError)
    else
      var event := Get(payload, "event");
      var data := Get(payload, "data");
      if IsStatusEvent(event) then StatusEffect(t, Get(payload, "instance"), StateOf(event, data))
      else if event != JStr(MessagesUpsert) || !Truthy(data) then Outcome(t, Ignored)
      else
        var s := SenderOf(data);
        if s.None? then Outcome(t, ServerError)
        else if Contains(s.value.jid, GroupSuffix) then Outcome(t, GroupIgnored)
        else
          var inst := InstanceNamed(t.instances, ToStr(Get(payload, "instance")));
          if inst.None? then Outcome(t, InstanceNotFound)
          else ArrivalEffect(t, inst.value, s.value, Get(data, "message"), d)
  }

  // ---- the handler ---------------------------------------------------------

  /** The handler: classify the event, then for a message find the
      instance and record the message. */
  method HandleWebhook(db: Database, payload: JsValue, d: Delivery) returns (reply: Reply)
    modifies db
    ensures Outcome(db.Snapshot(), reply) == WebhookEffect(old(db.Snapshot()), payload, d)
  {
    if Nullish(payload) {
      return ServerError;
    }
    var instanceName := Get(payload, "instance");
    var event := Get(payload, "event");
    var data := Get(payload, "data");
    if IsStatusEvent(event) {
      var state := StateOf(event, data);
      if Truthy(state) {
        if !state.JStr? {
          return ServerError;
        }
        db.instances := SetConnectionStatus(db.instances, ToStr(instanceName), ToLower(state.s));
      }
      return StatusUpdated;
    }
    if event != JStr(MessagesUpsert) || !Truthy(data) {
      return Ignored;
    }
    var sender := SenderOf(data);
    if sender.None? {
      return ServerError;
    }
    if Contains(sender.value.jid, GroupSuffix) {
      return GroupIgnored;
    }
    var inst := InstanceNamed(db.instances, ToStr(instanceName));
    if inst.None? {
      return InstanceNotFound;
    }
    reply := Arrive(db, inst.value, sender.value, Get(data, "message"), d);
  }

  /** The `let userMessage` chain: the first kind of content that applies. */
  method ClassifyContent(message: JsValue, agent: Option<Agent>, media: Media) returns (userMessage: JsValue)
    ensures userMessage == ContentOf(message, agent, media)
  {
    userMessage := JStr("");
    if HasText(message) {
      userMessage := Get(message, "conversation");
    } else if HasExtendedText(message) {
      userMessage := Get(Get(message, "extendedTextMessage"), "text");
    } else if IsAudio(message) && AudioEnabled(agent) {
      if Fetched(media.base64) {
        userMessage := JStr(Transcription(media.transcript));
      }
    } else if IsImage(message) && ImageEnabled(agent) {
      if Fetched(media.base64) {
        userMessage := JStr(ImagePrefix + Description(media.description));
      }
    } else if IsPdf(message) {
      var fileName := FileNameOf(message);
      userMessage := JStr(PdfMarker(fileName));
    }
  }

  /** A message from a known instance. */
  method Arrive(db: Database, inst: Instance, s: Sender, message: JsValue, d: Delivery) returns (reply: Reply)
    modifies db
    ensures Outcome(db.Snapshot(), reply) == ArrivalEffect(old(db.Snapshot()), inst, s, message, d)
  {
    var agent := AgentOfInstance(db.Snapshot(), inst);
    if d.contactFault {
      return ServerError;
    }
    var contact := UpsertContact(db.contacts, s.phone, s.pushName, inst.companyId, d.newContactId);
    db.contacts := contact.rows;
    if d.conversationFault {
      return ServerError;
    }
    var conv := UpsertConversation(db.conversations, contact.row.id, inst.id, d.newConversationId);
    db.conversations := conv.rows;
    var userMessage := ClassifyContent(message, agent, d.media);
    reply := Record(db, inst, s, conv.row, userMessage, d.now, d.messageFault);
  }

  /** Store the message, update the conversation, trigger the agent. */
  method Record(db: Database, inst: Instance, s: Sender, conv: Conversation, userMessage: JsValue, now: string,
                messageFault: bool)
    returns (reply: Reply)
    modifies db
    ensures Outcome(db.Snapshot(), reply) == RecordEffect(old(db.Snapshot()), inst, s, conv, userMessage, now, messageFault)
  {
    if !Truthy(userMessage) && !s.fromMe {
      return NoContent;
    }
    if messageFault {
      return ServerError;
    }
    db.messages := db.messages + [StoredMessage(conv, userMessage, s.fromMe, now)];
    if Truthy(userMessage) && !userMessage.JStr? {
      return ServerError;
    }
    var text := if Truthy(userMessage) then userMessage.s else "";
    db.conversations := UpdateConversation(db.conversations, conv.id, ArrivalPatch(text, s.fromMe, conv, now));
    if !s.fromMe && !conv.isHumanActive {
      db.outbox := db.outbox + [InvokeAiChat(conv.id, inst.id, s.phone, text)];
    }
    reply := Accepted;
  }

  // ---- what a delivery does ------------------------------------------------

  /** Anything but a status event or a message event with data is ignored
      and writes nothing; so are group messages and messages of an unknown
      instance, each with its own reply. A delivery that throws never
      triggers the agent. */
  lemma QuietReplies(t: Tables, payload: JsValue, d: Delivery)
    ensures var o := WebhookEffect(t, payload, d);
      && (o.reply == Ignored || o.reply == GroupIgnored || o.reply == InstanceNotFound ==> o.tables == t)
      && (o.reply == StatusUpdated ==> o.tables.(instances := t.instances) == t)
      && (o.reply == ServerError ==> o.tables.outbox == t.outbox && o.tables.instances == t.instances)
  {
    if !Nullish(payload) {
      var data := Get(payload, "data");
      var s := SenderOf(data);
      var inst := InstanceNamed(t.instances, ToStr(Get(payload, "instance")));
      if s.Some? && inst.Some? {
        ArrivalReplies(t, inst.value, s.value, Get(data, "message"), d);
      }
    }
  }

  /** A message from a known instance is answered NoContent, Accepted or,
      when it throws, with a 500 that leaves the outbox and the instances
      as they were. */
  lemma ArrivalReplies(t: Tables, inst: Instance, s: Sender, message: JsValue, d: Delivery)
    ensures var o := ArrivalEffect(t, inst, s, message, d);
      && (o.reply == NoContent || o.reply == Accepted || o.reply == ServerError)
      && (o.reply == ServerError ==> o.tables.outbox == t.outbox && o.tables.instances == t.instances)
  {
  }

  /** Exactly the bodies that are set and are neither status events nor
      message events with data are ignored; a body that is null fails. */
  lemma IgnoredEvents(t: Tables, payload: JsValue, d: Delivery)
    ensures WebhookEffect(t, payload, d).reply == Ignored <==>
      && !Nullish(payload)
      && !IsStatusEvent(Get(payload, "event"))
      && (Get(payload, "event") != JStr(MessagesUpsert) || !Truthy(Get(payload, "data")))
    ensures Nullish(payload) ==> WebhookEffect(t, payload, d) == Outcome(t, ServerError)
  {
  }

  /** The failures of a message from a known instance, each answered with a
      500 and keeping the writes made before it: a failed contact upsert
      writes nothing, a failed conversation upsert keeps the contact, a
      failed insert keeps both upserts, and a text that is not a string is
      stored before `substring` throws. None of them updates the summary or
      triggers the agent. */
  lemma FailedArrival(t: Tables, inst: Instance, s: Sender, message: JsValue, d: Delivery)
    ensures var o := ArrivalEffect(t, inst, s, message, d);
      var up := UpsertedTables(t, inst, s, d);
      var content := ContentOf(message, AgentOfInstance(t, inst), d.media);
      && (d.contactFault ==> o == Outcome(t, ServerError))
      && (!d.contactFault && d.conversationFault ==> o == Outcome(t.(contacts := ContactUpsert(t, inst, s, d).rows), ServerError))
      && (!d.contactFault && !d.conversationFault && (Truthy(content) || s.fromMe) && d.messageFault ==>
            o == Outcome(up, ServerError))
      && (!d.contactFault && !d.conversationFault && !d.messageFault && Truthy(content) && !content.JStr? ==>
            o == Outcome(up.(messages := up.messages + [StoredMessage(ConversationUpsert(t, inst, s, d).row, content, s.fromMe, d.now)]),
                         ServerError))
  {
  }

  /** A message the customer sent with no usable content stores nothing
      but the contact and conversation upserts, and triggers nothing; a
      message the instance itself sent is always stored unless a query
      fails or its text is not a string. */
  lemma EmptyContent(t: Tables, inst: Instance, s: Sender, message: JsValue, d: Delivery)
    ensures var o := ArrivalEffect(t, inst, s, message, d);
      var content := ContentOf(message, AgentOfInstance(t, inst), d.media);
      var queried := !d.contactFault && !d.conversationFault;
      && (o.reply == NoContent <==> queried && !Truthy(content) && !s.fromMe)
      && (o.reply == NoContent ==> o.tables == UpsertedTables(t, inst, s, d))
      && (queried && !d.messageFault && content.JStr? && s.fromMe ==>
            o.reply == Accepted && |o.tables.messages| == |t.messages| + 1)
  {
  }

  /** A stored message: one new row, OPERATOR exactly when the instance sent
      it, "(Mídia)" for an empty text; the conversation's summary shows the
      first hundred characters or "(Mídia)", and its unread counter resets
      for the operator's messages and grows by one for the customer's. */
  lemma StoredArrival(t: Tables, inst: Instance, s: Sender, message: JsValue, d: Delivery)
    ensures var o := ArrivalEffect(t, inst, s, message, d);
      var conv := ConversationUpsert(t, inst, s, d).row;
      var content := ContentOf(message, AgentOfInstance(t, inst), d.media);
      o.reply == Accepted ==>
        && content.JStr?
        && o.tables.messages == t.messages + [StoredMessage(conv, content, s.fromMe, d.now)]
        && StoredMessage(conv, content, s.fromMe, d.now).content == (if content.s == "" then MediaPlaceholder else content.s)
        && (StoredMessage(conv, content, s.fromMe, d.now).sender == Operator <==> s.fromMe)
        && var shown := Patched(conv, ArrivalPatch(content.s, s.fromMe, conv, d.now));
           && shown in o.tables.conversations
           && shown.unreadCount == (if s.fromMe then 0 else conv.unreadCount + 1)
           && shown.lastMessage == (if content.s == "" then MediaPlaceholder else Take(content.s, 100))
           && shown.lastTimestamp == d.now
  {
    var o := ArrivalEffect(t, inst, s, message, d);
    var up := ConversationUpsert(t, inst, s, d);
    var content := ContentOf(message, AgentOfInstance(t, inst), d.media);
    if o.reply == Accepted {
      var patch := ArrivalPatch(content.s, s.fromMe, up.row, d.now);
      var rows := UpdateConversation(up.rows, up.row.id, patch);
      var i :| 0 <= i < |up.rows| && up.rows[i] == up.row;
      assert rows[i] == Patched(up.row, patch);
    }
  }

  /** The AI agent is asked to answer exactly when the customer sent the
      message and no human operator has taken the conversation; it is
      given the conversation, the instance, the phone and the non-empty
      text. */
  lemma TriggersAgent(t: Tables, inst: Instance, s: Sender, message: JsValue, d: Delivery)
    ensures var o := ArrivalEffect(t, inst, s, message, d);
      var conv := ConversationUpsert(t, inst, s, d).row;
      var content := ContentOf(message, AgentOfInstance(t, inst), d.media);
      o.reply == Accepted ==>
        && (!s.fromMe && !conv.isHumanActive ==>
              o.tables.outbox == t.outbox + [InvokeAiChat(conv.id, inst.id, s.phone, content.s)] && content.s != "")
        && (s.fromMe || conv.isHumanActive ==> o.tables.outbox == t.outbox)
  {
  }
}
