/** The PIX payment tools of the AI agent (ai-chat/tools_payments.ts). The
    invoicing and status webhooks are oracles: their parsed JSON answers, or
    the exception of a fetch that rejects or of a body `res.json()` cannot
    parse, are given, and `urlConfigured` says whether the webhook URL is set in the
    environment. Date.now() is given as `now`, and the store's id for a new
    invoice as `newInvoiceId`. */
module PaymentTools {
  import opened Optional
  import opened Text
  import opened Seqs
  import opened JsValues
  import opened Tables
  import opened ToolResults

  /** The members of the webhooks' answers that the handlers read. */
  const ResponseKey: string := "response"
  const TxidKey: string := "txid"
  const CopyPasteKey: string := "pixCopiaECola"
  const ValueKey: string := "valor_original"
  const ExpirationKey: string := "data_expiracao"
  const StatusKey: string := "status"

  /** What `await (await fetch(url, …)).json()` gives a handler: the parsed
      body, or the message of the exception it throws. */
  datatype WebhookAnswer = WebhookBody(body: JsValue) | WebhookFailed(message: string)

  // ---- the invoicing webhook's answer ------------------------------------

  /** An array answer is read through its first element; a truthy
      `response` member is then unwrapped. */
  function NormalizeShape(res: JsValue): JsValue {
    var first := if res.JArr? then At(res, 0) else res;
    if Truthy(first) && Truthy(Get(first, ResponseKey)) then Get(first, ResponseKey) else first
  }

  /** An array is read through its first element, and an empty array reads
      as undefined. */
  lemma NormalizeArray(x: JsValue, rest: seq<JsValue>)
    requires !x.JArr?
    ensures NormalizeShape(JArr([x] + rest)) == NormalizeShape(x)
    ensures NormalizeShape(JArr([])) == JUndefined
  {
  }

  /** A truthy `response` member is unwrapped once, and an object without one
      is taken as it is. */
  lemma NormalizeObject(fields: map<string, JsValue>)
    ensures ResponseKey in fields && Truthy(fields[ResponseKey]) ==>
      NormalizeShape(JObj(fields)) == fields[ResponseKey]
    ensures (ResponseKey !in fields || !Truthy(fields[ResponseKey])) ==>
      NormalizeShape(JObj(fields)) == JObj(fields)
  {
  }

  /** Generation goes on only with a txid or a copy-paste code. */
  predicate CanGenerate(pix: JsValue) {
    Truthy(pix) && (Truthy(Get(pix, TxidKey)) || Truthy(Get(pix, CopyPasteKey)))
  }

  // ---- the copy-paste code -----------------------------------------------

  const HttpsScheme: string := "https://"

  /** `/^https?:\/\//i` is applied only to codes that start with "https://",
      and there it removes exactly those eight characters. */
  function StripScheme(code: string): (r: string)
    ensures StartsWith(code, HttpsScheme) ==> HttpsScheme + r == code
    ensures !StartsWith(code, HttpsScheme) ==> r == code
  {
    if StartsWith(code, HttpsScheme) then
      assert code == code[..8] + code[8..];
      code[8..]
    else code
  }

  /** An "http://" code is stored unchanged. */
  lemma HttpCodeUnchanged(rest: string)
    ensures StripScheme("http://" + rest) == "http://" + rest
  {
    var s := "http://" + rest;
    if |s| >= 8 {
      assert s[4] == ':' != 's' == HttpsScheme[4];
      assert s[..8] != HttpsScheme;
    }
  }

  /** An https code loses exactly its first "https://": a second scheme
      right after it stays, since the pattern is anchored and replaced
      once. */
  lemma StripSchemeOnce(rest: string)
    ensures StripScheme(HttpsScheme + rest) == rest
  {
    StartsWithConcat(HttpsScheme, rest);
    assert (HttpsScheme + rest)[8..] == rest;
  }

  // ---- invoices and charges ----------------------------------------------

  /** `.eq('appointment_id', id)` on the invoices, in table order. */
  function AppointmentInvoices(rows: seq<Invoice>, appointmentId: Id): (r: seq<Invoice>)
    ensures |r| <= |rows|
    ensures forall i :: i in r <==> i in rows && i.appointmentId == appointmentId
  {
    if rows == [] then []
    else
      assert rows == [rows[0]] + rows[1..];
      (if rows[0].appointmentId == appointmentId then [rows[0]] else []) + AppointmentInvoices(rows[1..], appointmentId)
  }

  /** The `pix_charges` nested under an invoice by the select: the charges
      whose invoice_id is the invoice's, in table order. */
  function InvoiceCharges(rows: seq<PixCharge>, invoiceId: Id): (r: seq<PixCharge>)
    ensures |r| <= |rows|
    ensures forall c :: c in r <==> c in rows && c.invoiceId == invoiceId
  {
    if rows == [] then []
    else
      assert rows == [rows[0]] + rows[1..];
      (if rows[0].invoiceId == invoiceId then [rows[0]] else []) + InvoiceCharges(rows[1..], invoiceId)
  }

  /** `.maybeSingle()`: the row when exactly one matches; none when no row or
      several rows match (the query then reports an error and no data). */
  function MaybeSingle<T>(rows: seq<T>): (r: Option<T>)
    ensures r.Some? <==> |rows| == 1
    ensures r.Some? ==> r.value == rows[0]
  {
    if |rows| == 1 then Some(rows[0]) else None
  }

  predicate HasTxid(rows: seq<PixCharge>, txid: string) {
    exists c :: c in rows && c.txid == txid
  }

  /** The row a conflicting upsert leaves: every column the charge sends,
      and the stored expiry when `data_expiracao` is undefined, since
      JSON.stringify drops an undefined key and the upsert then leaves that
      column as it was. */
  function MergeCharge(stored: PixCharge, c: PixCharge): (r: PixCharge)
    ensures r.(expiration := c.expiration) == c
    ensures r.expiration == if c.expiration.JUndefined? then stored.expiration else c.expiration
  {
    if c.expiration.JUndefined? then c.(expiration := stored.expiration) else c
  }

  /** `.upsert(c, { onConflict: 'txid' })`: the rows with the charge's txid
      take every column it sends, keeping their expiry when it sends none;
      without such a row the charge is appended. */
  function UpsertCharge(rows: seq<PixCharge>, c: PixCharge): (r: seq<PixCharge>)
    ensures HasTxid(r, c.txid)
    ensures forall x :: x in r && x.txid == c.txid ==> x.(expiration := c.expiration) == c
    ensures !c.expiration.JUndefined? ==> forall x :: x in r && x.txid == c.txid ==> x == c
    ensures forall i :: 0 <= i < |rows| && rows[i].txid == c.txid ==>
      i < |r| && r[i].expiration == if c.expiration.JUndefined? then rows[i].expiration else c.expiration
    ensures forall x :: x in rows && x.txid != c.txid ==> x in r
    ensures forall x :: x in r && x.txid != c.txid ==> x in rows
    ensures !HasTxid(rows, c.txid) ==> r == rows + [c]
    ensures |r| == if HasTxid(rows, c.txid) then |rows| else |rows| + 1
  {
    if HasTxid(rows, c.txid) then
      var r := seq(|rows|, i requires 0 <= i < |rows| => if rows[i].txid == c.txid then MergeCharge(rows[i], c) else rows[i]);
      var x :| x in rows && x.txid == c.txid;
      var k :| 0 <= k < |rows| && rows[k] == x;
      assert r[k] in r && r[k].txid == c.txid;
      assert forall x :: x in rows && x.txid != c.txid ==> x in r by {
        forall x | x in rows && x.txid != c.txid
          ensures x in r
        {
          var j :| 0 <= j < |rows| && rows[j] == x;
          assert r[j] == x;
        }
      }
      r
    else
      assert c in rows + [c];
      rows + [c]
  }

  // ---- generate_payment --------------------------------------------------

  const NoInvoiceUrl: string := "Erro: URL de faturamento não configurada."
  const AppointmentMissing: string := "Agendamento não encontrado."
  const PixFailed: string := "Erro ao gerar PIX."
  const NullPriceError: string := "Cannot read properties of null (reading 'price')"
  const NullContactError: string := "Cannot read properties of null (reading 'name')"
  const NotAStringError: string := "cleanPixCode.startsWith is not a function"

  const PixHeading: string := "PIX Gerado com sucesso!\nID_DO_AGENDAMENTO: "
  const TxidLabel: string := "\nTXID: "
  const CopyPasteLabel: string := "\nCopia e Cola: "
  const ValueLabel: string := "\nValor: R$ "
  const PixClosing: string := "\n\nEnvie o código Copia e Cola ao usuário agora."
  const TempPrefix: string := "temp_"
  const NoTxid: string := "N/A"

  /** The success text; `txid` is `pix.txid || 'N/A'` and `value`
      `pix.valor_original || price`. */
  function PixMessage(appointmentId: Id, txid: JsValue, code: string, value: JsValue): string {
    Concat([PixHeading, appointmentId, TxidLabel, ToStr(txid),
            CopyPasteLabel, code, ValueLabel, ToStr(value),
            PixClosing])
  }

  /** The invoice that the insert writes when none is reused. */
  function NewInvoice(newInvoiceId: Id, apt: Appointment, companyId: Id, pix: JsValue, price: int): Invoice {
    Invoice(newInvoiceId, apt.id, apt.contactId, companyId, Or(Get(pix, ValueKey), JNum(price)), Aberta)
  }

  /** `pix.txid || \`temp_${Date.now()}\`` */
  function ChargeTxid(pix: JsValue, now: int): string {
    ToStr(Or(Get(pix, TxidKey), JStr(TempPrefix + IntToString(now))))
  }

  /** The charge that the upsert writes. */
  function NewCharge(invoiceId: Id, pix: JsValue, code: string, price: int, now: int): PixCharge {
    PixCharge(invoiceId, ChargeTxid(pix, now), code, Or(Get(pix, ValueKey), JNum(price)),
              Get(pix, ExpirationKey), Pendente)
  }

  /** `pix.pixCopiaECola || ''` */
  function CopyPaste(pix: JsValue): JsValue {
    Or(Get(pix, CopyPasteKey), JStr(""))
  }

  /** The part of handleGeneratePayment after the charge data was accepted:
      reuse or insert the invoice (`insertFault` says the insert failed),
      clean the code and upsert the charge. A code that is truthy but not
      a string makes `startsWith` throw, after the invoice was written. */
  function RecordCharge(t: Tables, apt: Appointment, companyId: Id, price: int, pix: JsValue,
                        now: int, newInvoiceId: Id, insertFault: bool): Effect
  {
    var existing := MaybeSingle(AppointmentInvoices(t.invoices, apt.id));
    if existing.None? && insertFault then Effect(t, Says(PixFailed))
    else
      var t1 := if existing.Some? then t
                else t.(invoices := t.invoices + [NewInvoice(newInvoiceId, apt, companyId, pix, price)]);
      var invoiceId := if existing.Some? then existing.value.id else newInvoiceId;
      StoreChargeEffect(t1, invoiceId, apt.id, price, pix, now)
  }

  /** Cleaning the code and upserting the charge. */
  function StoreChargeEffect(t: Tables, invoiceId: Id, appointmentId: Id, price: int, pix: JsValue, now: int): Effect {
    var code := CopyPaste(pix);
    if !code.JStr? then Effect(t, Raised(NotAStringError))
    else
      var clean := StripScheme(code.s);
      Effect(t.(pixCharges := UpsertCharge(t.pixCharges, NewCharge(invoiceId, pix, clean, price, now))),
             Says(PixMessage(appointmentId, Or(Get(pix, TxidKey), JStr(NoTxid)), clean, Or(Get(pix, ValueKey), JNum(price)))))
  }

  /** handleGeneratePayment. The webhook is called once the appointment,
      its price and its contact are read; a failed call throws before any
      write. */
  function GenerateEffect(t: Tables, appointmentId: Id, companyId: Id, urlConfigured: bool, response: WebhookAnswer,
                          now: int, newInvoiceId: Id, insertFault: bool): Effect
  {
    if !urlConfigured then Effect(t, Says(NoInvoiceUrl))
    else match FindAppointment(t.appointments, appointmentId)
      case None => Effect(t, Says(AppointmentMissing))
      case Some(apt) =>
        match FindService(t.services, apt.serviceId)
        case None => Effect(t, Raised(NullPriceError))
        case Some(service) =>
          if FindContact(t.contacts, apt.contactId).None? then Effect(t, Raised(NullContactError))
          else match response
            case WebhookFailed(message) => Effect(t, Raised(message))
            case WebhookBody(body) =>
              if !CanGenerate(NormalizeShape(body)) then Effect(t, Says(PixFailed))
              else RecordCharge(t, apt, companyId, service.price, NormalizeShape(body), now, newInvoiceId, insertFault)
  }

  method WriteCharge(db: Database, apt: Appointment, companyId: Id, price: int, pix: JsValue,
                     now: int, newInvoiceId: Id, insertFault: bool) returns (out: HandlerOutcome)
    modifies db
    ensures var e := RecordCharge(old(db.Snapshot()), apt, companyId, price, pix, now, newInvoiceId, insertFault);
      db.Snapshot() == e.tables && out == e.outcome
  {
    var invoice := MaybeSingle(AppointmentInvoices(db.invoices, apt.id));
    if invoice.None? {
      if insertFault {
        return Says(PixFailed);
      }
      var newInv := NewInvoice(newInvoiceId, apt, companyId, pix, price);
      db.invoices := db.invoices + [newInv];
      invoice := Some(newInv);
    }
    out := StoreCharge(db, invoice.value.id, apt.id, price, pix, now);
  }

  method StoreCharge(db: Database, invoiceId: Id, appointmentId: Id, price: int, pix: JsValue, now: int)
    returns (out: HandlerOutcome)
    modifies db
    ensures var e := StoreChargeEffect(old(db.Snapshot()), invoiceId, appointmentId, price, pix, now);
      db.Snapshot() == e.tables && out == e.outcome
  {
    var code := CopyPaste(pix);
    if !code.JStr? {
      return Raised(NotAStringError);
    }
    var cleanPixCode := code.s;
    if StartsWith(cleanPixCode, HttpsScheme) {
      cleanPixCode := cleanPixCode[8..];
    }
    db.pixCharges := UpsertCharge(db.pixCharges, NewCharge(invoiceId, pix, cleanPixCode, price, now));
    out := Says(PixMessage(appointmentId, Or(Get(pix, TxidKey), JStr(NoTxid)), cleanPixCode,
                           Or(Get(pix, ValueKey), JNum(price))));
  }

  method GeneratePayment(db: Database, appointmentId: Id, companyId: Id, urlConfigured: bool, response: WebhookAnswer,
                         now: int, newInvoiceId: Id, insertFault: bool) returns (out: HandlerOutcome)
    modifies db
    ensures var e := GenerateEffect(old(db.Snapshot()), appointmentId, companyId, urlConfigured, response,
                                    now, newInvoiceId, insertFault);
      db.Snapshot() == e.tables && out == e.outcome
  {
    if !urlConfigured {
      return Says(NoInvoiceUrl);
    }
    var apt := FindAppointment(db.appointments, appointmentId);
    if apt.None? {
      return Says(AppointmentMissing);
    }
    var service := FindService(db.services, apt.value.serviceId);
    if service.None? {
      return Raised(NullPriceError);
    }
    if FindContact(db.contacts, apt.value.contactId).None? {
      return Raised(NullContactError);
    }
    if response.WebhookFailed? {
      return Raised(response.message);
    }
    var resJson := response.body;
    var pix := if resJson.JArr? then At(resJson, 0) else resJson;
    if Truthy(pix) && Truthy(Get(pix, ResponseKey)) {
      pix := Get(pix, ResponseKey);
    }
    if !(Truthy(pix) && (Truthy(Get(pix, TxidKey)) || Truthy(Get(pix, CopyPasteKey)))) {
      return Says(PixFailed);
    }
    out := WriteCharge(db, apt.value, companyId, service.value.price, pix, now, newInvoiceId, insertFault);
  }

  /** The appointment, its service and its contact are all found. */
  predicate JoinsFound(t: Tables, appointmentId: Id) {
    var apt := FindAppointment(t.appointments, appointmentId);
    && apt.Some?
    && FindService(t.services, apt.value.serviceId).Some?
    && FindContact(t.contacts, apt.value.contactId).Some?
  }

  /** Without a txid or a copy-paste code nothing is written, and once the
      appointment and its joins are found the answer is "Erro ao gerar PIX.". */
  lemma RefusedPixWritesNothing(t: Tables, appointmentId: Id, companyId: Id, body: JsValue,
                                now: int, newInvoiceId: Id, insertFault: bool)
    requires !CanGenerate(NormalizeShape(body))
    ensures var e := GenerateEffect(t, appointmentId, companyId, true, WebhookBody(body), now, newInvoiceId, insertFault);
      && e.tables == t
      && (JoinsFound(t, appointmentId) ==> e.outcome == Says(PixFailed))
  {
  }

  /** Recording adds at most one invoice, after the existing ones; an
      invoice already held alone by the appointment is reused; a new one is
      'Aberta', for the appointment's contact and the calling company, valued
      at valor_original or the service price. Only invoices and charges
      change. */
  lemma RecordAtMostOneInvoice(t: Tables, apt: Appointment, companyId: Id, price: int, pix: JsValue,
                               now: int, newInvoiceId: Id, insertFault: bool)
    ensures var e := RecordCharge(t, apt, companyId, price, pix, now, newInvoiceId, insertFault);
      && e.tables.(invoices := t.invoices, pixCharges := t.pixCharges) == t
      && (e.tables.invoices == t.invoices
          || (|AppointmentInvoices(t.invoices, apt.id)| != 1
              && e.tables.invoices == t.invoices + [Invoice(newInvoiceId, apt.id, apt.contactId, companyId,
                                                            Or(Get(pix, ValueKey), JNum(price)), Aberta)]))
    ensures |AppointmentInvoices(t.invoices, apt.id)| == 1 ==>
      RecordCharge(t, apt, companyId, price, pix, now, newInvoiceId, insertFault).tables.invoices == t.invoices
  {
  }

  /** The whole handler adds at most one invoice, for the appointment found,
      and touches no table but the invoices and the charges. */
  lemma AtMostOneInvoice(t: Tables, appointmentId: Id, companyId: Id, urlConfigured: bool, response: WebhookAnswer,
                         now: int, newInvoiceId: Id, insertFault: bool)
    ensures var e := GenerateEffect(t, appointmentId, companyId, urlConfigured, response, now, newInvoiceId, insertFault);
      && e.tables.(invoices := t.invoices, pixCharges := t.pixCharges) == t
      && (e.tables.invoices == t.invoices
          || (exists inv :: e.tables.invoices == t.invoices + [inv] && inv.appointmentId == appointmentId
                && inv.id == newInvoiceId && inv.status == Aberta))
  {
    var e := GenerateEffect(t, appointmentId, companyId, urlConfigured, response, now, newInvoiceId, insertFault);
    var apt := FindAppointment(t.appointments, appointmentId);
    if urlConfigured && apt.Some? {
      var service := FindService(t.services, apt.value.serviceId);
      if service.Some? && FindContact(t.contacts, apt.value.contactId).Some? && response.WebhookBody?
         && CanGenerate(NormalizeShape(response.body)) {
        var pix := NormalizeShape(response.body);
        RecordAtMostOneInvoice(t, apt.value, companyId, service.value.price, pix, now, newInvoiceId, insertFault);
        if e.tables.invoices != t.invoices {
          var inv := NewInvoice(newInvoiceId, apt.value, companyId, pix, service.value.price);
          assert e.tables.invoices == t.invoices + [inv];
        }
      }
    }
  }

  /** Every guard of handleGeneratePayment passes. */
  predicate GenerateProceeds(t: Tables, appointmentId: Id, response: JsValue, insertFault: bool) {
    var apt := FindAppointment(t.appointments, appointmentId);
    var pix := NormalizeShape(response);
    && JoinsFound(t, appointmentId)
    && CanGenerate(pix)
    && !(|AppointmentInvoices(t.invoices, apt.value.id)| != 1 && insertFault)
    && CopyPaste(pix).JStr?
  }

  /** Storing puts the charge under `pix.txid`, or `temp_<now>` without
      one, PENDENTE, with the stripped code; it overwrites any charge with
      that txid, leaves every charge with another txid in place and touches
      no other table; the answer names the appointment and the code. */
  lemma ChargeStored(t: Tables, invoiceId: Id, appointmentId: Id, price: int, pix: JsValue, now: int)
    requires CopyPaste(pix).JStr?
    ensures var e := StoreChargeEffect(t, invoiceId, appointmentId, price, pix, now);
      var txid := ChargeTxid(pix, now);
      var clean := StripScheme(CopyPaste(pix).s);
      && (exists c :: c in e.tables.pixCharges && c.txid == txid && c.status == Pendente && c.copyPaste == clean)
      && (forall c :: c in e.tables.pixCharges && c.txid == txid ==> c.status == Pendente)
      && (forall c :: c in t.pixCharges && c.txid != txid ==> c in e.tables.pixCharges)
      && e.tables.(pixCharges := t.pixCharges) == t
      && e.outcome.Returned? && Contains(e.outcome.result.text, appointmentId) && Contains(e.outcome.result.text, clean)
  {
    var clean := StripScheme(CopyPaste(pix).s);
    var parts := [PixHeading, appointmentId, TxidLabel, ToStr(Or(Get(pix, TxidKey), JStr(NoTxid))),
                  CopyPasteLabel, clean, ValueLabel, ToStr(Or(Get(pix, ValueKey), JNum(price))),
                  PixClosing];
    var charge := NewCharge(invoiceId, pix, clean, price, now);
    var e := StoreChargeEffect(t, invoiceId, appointmentId, price, pix, now);
    assert e.tables.pixCharges == UpsertCharge(t.pixCharges, charge);
    assert e.outcome == Says(Concat(parts));
    ConcatContainsPart(parts, 1);
    ConcatContainsPart(parts, 5);
  }

  /** A charge stored again under its txid takes the new expiry when the
      answer carries `data_expiracao`, and keeps the one it had when the
      answer has none. */
  lemma StoredExpiry(t: Tables, invoiceId: Id, appointmentId: Id, price: int, pix: JsValue, now: int, i: int)
    requires CopyPaste(pix).JStr?
    requires 0 <= i < |t.pixCharges| && t.pixCharges[i].txid == ChargeTxid(pix, now)
    ensures var e := StoreChargeEffect(t, invoiceId, appointmentId, price, pix, now);
      i < |e.tables.pixCharges| && e.tables.pixCharges[i].txid == t.pixCharges[i].txid
      && e.tables.pixCharges[i].expiration ==
           if Get(pix, ExpirationKey).JUndefined? then t.pixCharges[i].expiration else Get(pix, ExpirationKey)
  {
    var clean := StripScheme(CopyPaste(pix).s);
    var charge := NewCharge(invoiceId, pix, clean, price, now);
    var r := UpsertCharge(t.pixCharges, charge);
    assert r[i] in r;
  }

  /** When every guard passes, the charge is stored as ChargeStored says:
      under its txid, PENDENTE, with the stripped code, keeping the charges
      with other txids; the answer names the appointment and the code. */
  lemma ChargeUpserted(t: Tables, appointmentId: Id, companyId: Id, response: JsValue,
                       now: int, newInvoiceId: Id, insertFault: bool)
    requires GenerateProceeds(t, appointmentId, response, insertFault)
    ensures var e := GenerateEffect(t, appointmentId, companyId, true, WebhookBody(response), now, newInvoiceId, insertFault);
      var pix := NormalizeShape(response);
      var txid := ChargeTxid(pix, now);
      var clean := StripScheme(CopyPaste(pix).s);
      && (exists c :: c in e.tables.pixCharges && c.txid == txid && c.status == Pendente && c.copyPaste == clean)
      && (forall c :: c in e.tables.pixCharges && c.txid == txid ==> c.status == Pendente)
      && (forall c :: c in t.pixCharges && c.txid != txid ==> c in e.tables.pixCharges)
      && e.outcome.Returned? && Contains(e.outcome.result.text, appointmentId) && Contains(e.outcome.result.text, clean)
  {
    var apt := FindAppointment(t.appointments, appointmentId).value;
    var service := FindService(t.services, apt.serviceId).value;
    var pix := NormalizeShape(response);
    var existing := MaybeSingle(AppointmentInvoices(t.invoices, apt.id));
    var t1 := if existing.Some? then t
              else t.(invoices := t.invoices + [NewInvoice(newInvoiceId, apt, companyId, pix, service.price)]);
    var invoiceId := if existing.Some? then existing.value.id else newInvoiceId;
    assert GenerateEffect(t, appointmentId, companyId, true, WebhookBody(response), now, newInvoiceId, insertFault)
      == StoreChargeEffect(t1, invoiceId, apt.id, service.price, pix, now);
    ChargeStored(t1, invoiceId, apt.id, service.price, pix, now);
  }

  /** Without a txid the charge is keyed `temp_<now>`. */
  lemma TempTxid(pix: JsValue, now: int)
    requires !Truthy(Get(pix, TxidKey))
    ensures ChargeTxid(pix, now) == TempPrefix + IntToString(now)
  {
  }

  // ---- check_payment_status ----------------------------------------------

  const NoCheckUrl: string := "Erro: URL de verificação não configurada."
  const ConfirmedText: string := "CONCLUÍDA. O agendamento foi confirmado."
  const PendingText: string := "Pendente"
  const ConcludedWord: string := "CONCLUIDA"
  const PaidWord: string := "PAGO"
  const StatusHeading: string := "Status do pagamento para o agendamento "
  const MissingHeading: string := "Erro: Agendamento "
  const MissingTail: string := " não encontrado."

  /** `response.status || status || ""` of the status webhook's answer, read
      through the first element of an array. */
  function StatusRaw(res: JsValue): JsValue {
    var r := if res.JArr? then At(res, 0) else res;
    Or(Get(Get(r, ResponseKey), StatusKey), Or(Get(r, StatusKey), JStr("")))
  }

  /** The status is taken from `response.status` first, then from `status`;
      it is "" when neither is truthy, and never falsy otherwise. */
  lemma StatusPrecedence(res: JsValue)
    ensures var r := if res.JArr? then At(res, 0) else res;
      && (Truthy(Get(Get(r, ResponseKey), StatusKey)) ==> StatusRaw(res) == Get(Get(r, ResponseKey), StatusKey))
      && (!Truthy(Get(Get(r, ResponseKey), StatusKey)) && Truthy(Get(r, StatusKey)) ==> StatusRaw(res) == Get(r, StatusKey))
      && (!Truthy(Get(Get(r, ResponseKey), StatusKey)) && !Truthy(Get(r, StatusKey)) ==> StatusRaw(res) == JStr(""))
    ensures Truthy(StatusRaw(res)) || StatusRaw(res) == JStr("")
  {
  }

  /** `.replace(/[^a-zA-Z]/g, '')` */
  function LettersOnly(s: string): (r: string)
    ensures |r| <= |s|
    ensures AllLetters(r)
  {
    if s == [] then []
    else if IsAsciiLetter(s[0]) then [s[0]] + LettersOnly(s[1..]) else LettersOnly(s[1..])
  }

  /** Every ASCII letter of the status is kept, and nothing else. */
  lemma {:induction false} LettersOnlyMembers(s: string, c: char)
    ensures c in LettersOnly(s) <==> c in s && IsAsciiLetter(c)
  {
    if s != [] {
      LettersOnlyMembers(s[1..], c);
      assert s == [s[0]] + s[1..];
    }
  }

  /** The cleaned status: its ASCII letters, upper-cased. */
  function CleanStatus(s: string): (r: string)
    ensures forall i :: 0 <= i < |r| ==> 'A' <= r[i] <= 'Z'
    ensures |r| <= |s|
  {
    ToUpperAscii(LettersOnly(s))
  }

  predicate IsPaid(clean: string) {
    clean == ConcludedWord || clean == PaidWord
  }

  /** The filter works piece by piece. */
  lemma {:induction false} LettersConcat(a: string, b: string)
    ensures LettersOnly(a + b) == LettersOnly(a) + LettersOnly(b)
  {
    if a != [] {
      assert (a + b)[0] == a[0];
      assert (a + b)[1..] == a[1..] + b;
      LettersConcat(a[1..], b);
    } else {
      assert a + b == b;
    }
  }

  lemma {:induction false} LettersKept(s: string)
    requires AllLetters(s)
    ensures LettersOnly(s) == s
  {
    if s != [] {
      LettersKept(s[1..]);
    }
  }

  lemma {:induction false} NonLettersDropped(s: string)
    requires NoLetters(s)
    ensures LettersOnly(s) == []
  {
    if s != [] {
      NonLettersDropped(s[1..]);
    }
  }

  /** Non-letters around a word are dropped. */
  lemma LettersPadded(pre: string, w: string, post: string)
    requires NoLetters(pre) && NoLetters(post)
    ensures LettersOnly(pre + w + post) == LettersOnly(w)
  {
    LettersConcat(pre + w, post);
    LettersConcat(pre, w);
    NonLettersDropped(pre);
    NonLettersDropped(post);
  }

  /** Spaces and punctuation around a word are dropped, and case does not
      matter. */
  lemma CleanStatusOfWord(pre: string, word: string, post: string)
    requires NoLetters(pre) && NoLetters(post) && AllLetters(word)
    ensures CleanStatus(pre + word + post) == ToUpperAscii(word)
  {
    LettersPadded(pre, word, post);
    LettersKept(word);
  }

  predicate AllLetters(s: string) {
    forall i :: 0 <= i < |s| ==> IsAsciiLetter(s[i])
  }

  predicate NoLetters(s: string) {
    forall i :: 0 <= i < |s| ==> !IsAsciiLetter(s[i])
  }

  lemma StatusWords()
    ensures AllLetters("concluida") && ToUpperAscii("concluida") == ConcludedWord
    ensures AllLetters("Pago") && ToUpperAscii("Pago") == PaidWord
    ensures AllLetters("pendente") && |ToUpperAscii("pendente")| == 8
    ensures AllLetters("Conclu") && AllLetters("da") && NoLetters("í")
  {
  }

  /** "concluida" and "Pago", with no ASCII letter around them (only
      spaces, punctuation, digits or accented letters, which the cleaning
      drops), count as paid. */
  lemma PaidWords(pre: string, post: string)
    requires NoLetters(pre) && NoLetters(post)
    ensures IsPaid(CleanStatus(pre + "concluida" + post))
    ensures IsPaid(CleanStatus(pre + "Pago" + post))
  {
    StatusWords();
    CleanStatusOfWord(pre, "concluida", post);
    CleanStatusOfWord(pre, "Pago", post);
  }

  /** A letter that is not ASCII is dropped from inside a word. */
  lemma CleanStatusDropsInside(pre: string, x: string, c: string, y: string, post: string)
    requires NoLetters(pre) && NoLetters(c) && NoLetters(post) && AllLetters(x) && AllLetters(y)
    ensures CleanStatus(pre + (x + c + y) + post) == ToUpperAscii(x + y)
  {
    var w := x + c + y;
    LettersConcat(x, c);
    NonLettersDropped(c);
    LettersKept(x);
    assert LettersOnly(x + c) == x;
    LettersConcat(x + c, y);
    LettersKept(y);
    assert LettersOnly(w) == x + y;
    LettersPadded(pre, w, post);
    assert LettersOnly(pre + w + post) == x + y;
  }

  /** An accented "Concluída" loses its í, leaving eight letters, and is
      not taken as paid; neither is "pendente". */
  lemma UnpaidWords(pre: string, post: string)
    requires NoLetters(pre) && NoLetters(post)
    ensures !IsPaid(CleanStatus(pre + ("Conclu" + "í" + "da") + post))
    ensures !IsPaid(CleanStatus(pre + "pendente" + post))
  {
    StatusWords();
    CleanStatusOfWord(pre, "pendente", post);
    CleanStatusDropsInside(pre, "Conclu", "í", "da", post);
  }

  /** The txid the check posts: the first charge of the appointment's first
      invoice, and null when there is none or it is empty. */
  function CheckedTxid(invoiceRows: seq<Invoice>, chargeRows: seq<PixCharge>, appointmentId: Id): Option<string> {
    var invoices := AppointmentInvoices(invoiceRows, appointmentId);
    if invoices == [] then None
    else
      var charges := InvoiceCharges(chargeRows, invoices[0].id);
      if charges == [] || charges[0].txid == "" then None else Some(charges[0].txid)
  }

  function InvoiceIds(rows: seq<Invoice>): (r: seq<Id>)
    ensures |r| == |rows|
    ensures forall i :: 0 <= i < |rows| ==> r[i] == rows[i].id
  {
    seq(|rows|, i requires 0 <= i < |rows| => rows[i].id)
  }

  /** `.update({ status: 'CONFIRMED' }).eq('id', id)` */
  function ConfirmRows(rows: seq<Appointment>, id: Id): (r: seq<Appointment>)
    ensures |r| == |rows|
    ensures forall i :: 0 <= i < |rows| ==> r[i] == if rows[i].id == id then rows[i].(status := Confirmed) else rows[i]
  {
    seq(|rows|, i requires 0 <= i < |rows| => if rows[i].id == id then rows[i].(status := Confirmed) else rows[i])
  }

  /** `.update({ status_fatura: 'Paga' }).eq('appointment_id', id)` */
  function PayInvoices(rows: seq<Invoice>, appointmentId: Id): (r: seq<Invoice>)
    ensures |r| == |rows|
    ensures forall i :: 0 <= i < |rows| ==>
      r[i] == if rows[i].appointmentId == appointmentId then rows[i].(status := Paga) else rows[i]
  {
    seq(|rows|, i requires 0 <= i < |rows| =>
      if rows[i].appointmentId == appointmentId then rows[i].(status := Paga) else rows[i])
  }

  /** `.update({ status_sicredi: 'CONCLUIDA' }).in('invoice_id', invIds)` */
  function ConcludeByInvoice(rows: seq<PixCharge>, invIds: seq<Id>): (r: seq<PixCharge>)
    ensures |r| == |rows|
    ensures forall i :: 0 <= i < |rows| ==>
      r[i] == if rows[i].invoiceId in invIds then rows[i].(status := Concluida) else rows[i]
  {
    seq(|rows|, i requires 0 <= i < |rows| =>
      if rows[i].invoiceId in invIds then rows[i].(status := Concluida) else rows[i])
  }

  /** `.update({ status_sicredi: 'CONCLUIDA' }).eq('txid', txid)` */
  function ConcludeByTxid(rows: seq<PixCharge>, txid: string): (r: seq<PixCharge>)
    ensures |r| == |rows|
    ensures forall i :: 0 <= i < |rows| ==>
      r[i] == if rows[i].txid == txid then rows[i].(status := Concluida) else rows[i]
  {
    seq(|rows|, i requires 0 <= i < |rows| =>
      if rows[i].txid == txid then rows[i].(status := Concluida) else rows[i])
  }

  /** The writes of a paid check, in the order made. */
  function ConfirmPayment(t: Tables, appointmentId: Id, txid: Option<string>): Tables {
    var invIds := InvoiceIds(AppointmentInvoices(t.invoices, appointmentId));
    t.(appointments := ConfirmRows(t.appointments, appointmentId),
       invoices := PayInvoices(t.invoices, appointmentId),
       pixCharges := ConcludedCharges(t.pixCharges, invIds, txid),
       outbox := t.outbox + [CalendarSyncCall(appointmentId, None)])
  }

  /** The two charge updates of a paid check: by invoice when the
      appointment has invoices, then by txid when one was checked. */
  function ConcludedCharges(rows: seq<PixCharge>, invIds: seq<Id>, txid: Option<string>): seq<PixCharge> {
    var byInvoice := if |invIds| > 0 then ConcludeByInvoice(rows, invIds) else rows;
    if txid.Some? then ConcludeByTxid(byInvoice, txid.value) else byInvoice
  }

  function StatusMessage(appointmentId: Id, status: string): string {
    StatusHeading + appointmentId + ": " + status
  }

  /** handleCheckPaymentStatus; `response` is the status webhook's answer,
      asked for once the appointment is found. A failed call throws before
      any write. */
  function CheckEffect(t: Tables, appointmentId: Id, urlConfigured: bool, response: WebhookAnswer): Effect {
    if !urlConfigured then Effect(t, Says(NoCheckUrl))
    else match FindAppointment(t.appointments, appointmentId)
      case None => Effect(t, Says(MissingHeading + appointmentId + MissingTail))
      case Some(apt) =>
        match response
        case WebhookFailed(message) => Effect(t, Raised(message))
        case WebhookBody(body) =>
          var raw := StatusRaw(body);
          if IsPaid(CleanStatus(ToStr(raw))) then
            Effect(ConfirmPayment(t, apt.id, CheckedTxid(t.invoices, t.pixCharges, apt.id)), Says(StatusMessage(apt.id, ConfirmedText)))
          else Effect(t, Says(StatusMessage(apt.id, ToStr(Or(raw, JStr(PendingText))))))
  }

  method ApplyPayment(db: Database, id: Id, txid: Option<string>)
    modifies db
    ensures db.Snapshot() == ConfirmPayment(old(db.Snapshot()), id, txid)
  {
    var invIds := InvoiceIds(AppointmentInvoices(db.invoices, id));
    var charges := db.pixCharges;
    if |invIds| > 0 {
      charges := ConcludeByInvoice(charges, invIds);
    }
    if txid.Some? {
      charges := ConcludeByTxid(charges, txid.value);
    }
    db.appointments := ConfirmRows(db.appointments, id);
    db.invoices := PayInvoices(db.invoices, id);
    db.pixCharges := charges;
    db.outbox := db.outbox + [CalendarSyncCall(id, None)];
  }

  method CheckPaymentStatus(db: Database, appointmentId: Id, urlConfigured: bool, response: WebhookAnswer)
    returns (out: HandlerOutcome)
    modifies db
    ensures var e := CheckEffect(old(db.Snapshot()), appointmentId, urlConfigured, response);
      db.Snapshot() == e.tables && out == e.outcome
  {
    if !urlConfigured {
      return Says(NoCheckUrl);
    }
    var aptData := FindAppointment(db.appointments, appointmentId);
    if aptData.None? {
      return Says(MissingHeading + appointmentId + MissingTail);
    }
    var id := aptData.value.id;
    var txid := CheckedTxid(db.invoices, db.pixCharges, id);
    if response.WebhookFailed? {
      return Raised(response.message);
    }
    var statusRaw := StatusRaw(response.body);
    var statusClean := CleanStatus(ToStr(statusRaw));
    if IsPaid(statusClean) {
      ApplyPayment(db, id, txid);
      return Says(StatusMessage(id, ConfirmedText));
    }
    out := Says(StatusMessage(id, ToStr(Or(statusRaw, JStr(PendingText)))));
  }

  /** A paid check confirms the appointment whatever its status was, marks
      each of its invoices 'Paga', concludes every charge of those invoices
      and the charge with the checked txid, requests one calendar sync, and
      changes nothing else. */
  lemma PaidCheckEffect(t: Tables, appointmentId: Id, txid: Option<string>)
    ensures var t' := ConfirmPayment(t, appointmentId, txid);
      var invIds := InvoiceIds(AppointmentInvoices(t.invoices, appointmentId));
      && |t'.appointments| == |t.appointments|
      && (forall i :: 0 <= i < |t.appointments| ==>
            t'.appointments[i] == if t.appointments[i].id == appointmentId then t.appointments[i].(status := Confirmed) else t.appointments[i])
      && |t'.invoices| == |t.invoices|
      && (forall i :: 0 <= i < |t.invoices| ==>
            t'.invoices[i] == if t.invoices[i].appointmentId == appointmentId then t.invoices[i].(status := Paga) else t.invoices[i])
      && |t'.pixCharges| == |t.pixCharges|
      && (forall i :: 0 <= i < |t.pixCharges| ==>
            t'.pixCharges[i] ==
              if t.pixCharges[i].invoiceId in invIds || (txid.Some? && t.pixCharges[i].txid == txid.value)
              then t.pixCharges[i].(status := Concluida) else t.pixCharges[i])
      && t'.outbox == t.outbox + [CalendarSyncCall(appointmentId, None)]
      && t'.(appointments := t.appointments, invoices := t.invoices, pixCharges := t.pixCharges, outbox := t.outbox) == t
  {
  }

  /** A check that does not find the payment made, finds no appointment or
      has no URL writes nothing; its answer is the raw status or
      'Pendente'. */
  lemma UnpaidCheckWritesNothing(t: Tables, appointmentId: Id, urlConfigured: bool, response: JsValue)
    requires !urlConfigured || FindAppointment(t.appointments, appointmentId).None?
      || !IsPaid(CleanStatus(ToStr(StatusRaw(response))))
    ensures CheckEffect(t, appointmentId, urlConfigured, WebhookBody(response)).tables == t
    ensures urlConfigured && FindAppointment(t.appointments, appointmentId).Some? ==>
      CheckEffect(t, appointmentId, urlConfigured, WebhookBody(response)).outcome ==
        Says(StatusMessage(appointmentId, ToStr(Or(StatusRaw(response), JStr(PendingText)))))
  {
  }

  /** A webhook call that rejects, or whose answer is not JSON, throws its
      exception: neither handler writes anything, and once the handler has
      got as far as the call the exception is its outcome. */
  lemma FailedWebhookThrows(t: Tables, appointmentId: Id, companyId: Id, message: string, now: int,
                            newInvoiceId: Id, insertFault: bool)
    ensures var e := GenerateEffect(t, appointmentId, companyId, true, WebhookFailed(message), now, newInvoiceId, insertFault);
      && e.tables == t
      && (JoinsFound(t, appointmentId) ==> e.outcome == Raised(message))
    ensures var e := CheckEffect(t, appointmentId, true, WebhookFailed(message));
      && e.tables == t
      && (FindAppointment(t.appointments, appointmentId).Some? ==> e.outcome == Raised(message))
  {
  }

  /** Rows that keep their ids and links filter to rows that keep theirs. */
  lemma {:induction false} InvoiceFilterShape(rows: seq<Invoice>, rows': seq<Invoice>, appointmentId: Id)
    requires |rows'| == |rows|
    requires forall i :: 0 <= i < |rows| ==> rows'[i].id == rows[i].id && rows'[i].appointmentId == rows[i].appointmentId
    ensures var a, b := AppointmentInvoices(rows, appointmentId), AppointmentInvoices(rows', appointmentId);
      |a| == |b| && forall k :: 0 <= k < |a| ==> a[k].id == b[k].id
  {
    if rows != [] {
      InvoiceFilterShape(rows[1..], rows'[1..], appointmentId);
    }
  }

  lemma {:induction false} ChargeFilterShape(rows: seq<PixCharge>, rows': seq<PixCharge>, invoiceId: Id)
    requires |rows'| == |rows|
    requires forall i :: 0 <= i < |rows| ==> rows'[i].invoiceId == rows[i].invoiceId && rows'[i].txid == rows[i].txid
    ensures var a, b := InvoiceCharges(rows, invoiceId), InvoiceCharges(rows', invoiceId);
      |a| == |b| && forall k :: 0 <= k < |a| ==> a[k].txid == b[k].txid
  {
    if rows != [] {
      ChargeFilterShape(rows[1..], rows'[1..], invoiceId);
    }
  }

  /** Rows that keep their ids, links and txids give the same checked
      txid. */
  lemma CheckedTxidStable(invoices: seq<Invoice>, invoices': seq<Invoice>,
                          charges: seq<PixCharge>, charges': seq<PixCharge>, appointmentId: Id)
    requires |invoices'| == |invoices|
    requires forall i :: 0 <= i < |invoices| ==>
      invoices'[i].id == invoices[i].id && invoices'[i].appointmentId == invoices[i].appointmentId
    requires |charges'| == |charges|
    requires forall i :: 0 <= i < |charges| ==>
      charges'[i].invoiceId == charges[i].invoiceId && charges'[i].txid == charges[i].txid
    ensures CheckedTxid(invoices', charges', appointmentId) == CheckedTxid(invoices, charges, appointmentId)
  {
    InvoiceFilterShape(invoices, invoices', appointmentId);
    var before := AppointmentInvoices(invoices, appointmentId);
    if before != [] {
      ChargeFilterShape(charges, charges', before[0].id);
    }
  }

  /** Confirming twice with the same txid writes what confirming once
      wrote, plus a second sync request. */
  lemma ConfirmTwice(t: Tables, appointmentId: Id, txid: Option<string>)
    ensures var once := ConfirmPayment(t, appointmentId, txid);
      var twice := ConfirmPayment(once, appointmentId, txid);
      twice == once.(outbox := once.outbox + [CalendarSyncCall(appointmentId, None)])
  {
    var once := ConfirmPayment(t, appointmentId, txid);
    var twice := ConfirmPayment(once, appointmentId, txid);
    PaidCheckEffect(t, appointmentId, txid);
    PaidCheckEffect(once, appointmentId, txid);
    InvoiceFilterShape(t.invoices, once.invoices, appointmentId);
    var ids := InvoiceIds(AppointmentInvoices(t.invoices, appointmentId));
    var ids' := InvoiceIds(AppointmentInvoices(once.invoices, appointmentId));
    assert ids' == ids;
    assert twice.appointments == once.appointments;
    assert twice.invoices == once.invoices;
    assert twice.pixCharges == once.pixCharges;
  }

  /** A paid check on a found appointment writes ConfirmPayment with the
      checked txid. */
  lemma PaidCheckWrites(t: Tables, appointmentId: Id, response: JsValue)
    requires IsPaid(CleanStatus(ToStr(StatusRaw(response))))
    requires FindAppointment(t.appointments, appointmentId).Some?
    ensures CheckEffect(t, appointmentId, true, WebhookBody(response)).tables ==
      ConfirmPayment(t, appointmentId, CheckedTxid(t.invoices, t.pixCharges, appointmentId))
  {
  }

  /** Confirming keeps the txid that the check reads. */
  lemma ConfirmKeepsCheckedTxid(t: Tables, appointmentId: Id, txid: Option<string>)
    ensures var once := ConfirmPayment(t, appointmentId, txid);
      CheckedTxid(once.invoices, once.pixCharges, appointmentId) == CheckedTxid(t.invoices, t.pixCharges, appointmentId)
  {
    var once := ConfirmPayment(t, appointmentId, txid);
    PaidCheckEffect(t, appointmentId, txid);
    CheckedTxidStable(t.invoices, once.invoices, t.pixCharges, once.pixCharges, appointmentId);
  }

  lemma CheckIdempotent(t: Tables, appointmentId: Id, response: JsValue)
    requires IsPaid(CleanStatus(ToStr(StatusRaw(response))))
    ensures var once := CheckEffect(t, appointmentId, true, WebhookBody(response)).tables;
      var twice := CheckEffect(once, appointmentId, true, WebhookBody(response)).tables;
      twice.(outbox := once.outbox) == once
      && (FindAppointment(t.appointments, appointmentId).Some? ==>
            twice.outbox == once.outbox + [CalendarSyncCall(appointmentId, None)])
  {
    var apt := FindAppointment(t.appointments, appointmentId);
    if apt.Some? {
      var txid := CheckedTxid(t.invoices, t.pixCharges, appointmentId);
      var once := ConfirmPayment(t, appointmentId, txid);
      PaidCheckWrites(t, appointmentId, response);
      FoundAfterConfirm(t.appointments, appointmentId);
      PaidCheckWrites(once, appointmentId, response);
      ConfirmKeepsCheckedTxid(t, appointmentId, txid);
      ConfirmTwice(t, appointmentId, txid);
    }
  }

  /** A confirmed appointment is still found under its id. */
  lemma {:induction false} FoundAfterConfirm(rows: seq<Appointment>, id: Id)
    requires FindAppointment(rows, id).Some?
    ensures FindAppointment(ConfirmRows(rows, id), id).Some?
  {
    if rows[0].id != id {
      assert ConfirmRows(rows, id)[1..] == ConfirmRows(rows[1..], id);
      FoundAfterConfirm(rows[1..], id);
    }
  }
}
