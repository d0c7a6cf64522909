/** The instagram-webhook edge function (instagram-webhook/index.ts): Meta
    verifies the webhook with a GET, then posts direct messages and
    comments. A message or comment whose text equals one of the company's
    active keywords, after lowercasing and trimming, is answered from that
    rule; a comment also records its author as a lead. */
module InstagramAutomation {
  import opened Optional
  import opened Text
  import opened JsValues
  import opened Tables

  /** An HTTP response: its status and its body (None for `null`). */
  datatype Response = Response(status: int, body: Option<string>)

  /** The request: the verification GET with its query parameters, a POST
      with its JSON body, or any other method. */
  datatype Request =
    | Verify(mode: Option<string>, token: Option<string>, challenge: Option<string>, companyId: Option<string>)
    | Event(body: JsValue)
    | OtherMethod

  /** The environment: META_WEBHOOK_VERIFY_TOKEN and the clock. */
  datatype Env = Env(defaultVerifyToken: string, now: string)

  const Subscribe: string := "subscribe"
  const DefaultPublicReply: string := "Acabei de te enviar uma mensagem privada! 🚀"

  // ---- verification --------------------------------------------------------

  /** The token a verification is checked against: the company's stored
      token when a company is named and its token is set, the default
      otherwise. */
  function EffectiveToken(t: Tables, companyId: Option<string>, defaultToken: string): string {
    if companyId.Some? && companyId.value != "" then
      var row := SettingsOf(t.settings, companyId.value);
      if row.Some? && row.value.metaVerifyToken != "" then row.value.metaVerifyToken else defaultToken
    else defaultToken
  }

  /** The GET: the challenge with 200, or 403. */
  function VerifyResponse(t: Tables, mode: Option<string>, token: Option<string>, challenge: Option<string>,
                          companyId: Option<string>, defaultToken: string): Response {
    if mode == Some(Subscribe) && token == Some(EffectiveToken(t, companyId, defaultToken)) then Response(200, challenge)
    else Response(403, Some("Forbidden"))
  }

  /** The challenge is echoed exactly when the mode is "subscribe" and the
      token is the effective one, which is the default token when no
      company is named or the company has none of its own. */
  lemma VerifyIff(t: Tables, mode: Option<string>, token: Option<string>, challenge: Option<string>,
                  companyId: Option<string>, defaultToken: string)
    ensures var r := VerifyResponse(t, mode, token, challenge, companyId, defaultToken);
      && (r.status == 200 <==> mode == Some(Subscribe) && token == Some(EffectiveToken(t, companyId, defaultToken)))
      && (r.status == 200 ==> r.body == challenge)
      && (r.status != 200 ==> r.status == 403)
    ensures companyId.None? || companyId == Some("") ==> EffectiveToken(t, companyId, defaultToken) == defaultToken
    ensures companyId.Some? && companyId.value != "" && SettingsOf(t.settings, companyId.value).Some?
            && SettingsOf(t.settings, companyId.value).value.metaVerifyToken != "" ==>
      EffectiveToken(t, companyId, defaultToken) == SettingsOf(t.settings, companyId.value).value.metaVerifyToken
  {
  }

  // ---- keyword rules -------------------------------------------------------

  /** `s.toLowerCase().trim()` */
  function Normalize(s: string): string {
    Trim(ToLower(s))
  }

  /** `.eq("company_id", company).eq("active", true)`, in table order. */
  function ActiveRules(rows: seq<KeywordRule>, companyId: Id): (r: seq<KeywordRule>)
    ensures forall x :: x in r <==> x in rows && x.companyId == companyId && x.active
  {
    if rows == [] then []
    else (if rows[0].companyId == companyId && rows[0].active then [rows[0]] else []) + ActiveRules(rows[1..], companyId)
  }

  /** Each rule's keyword, put through a normalisation. */
  function Keys(rules: seq<KeywordRule>, norm: string -> string): (r: seq<string>)
    ensures |r| == |rules| && forall i :: 0 <= i < |rules| ==> r[i] == norm(rules[i].keyword)
  {
    seq(|rules|, i requires 0 <= i < |rules| => norm(rules[i].keyword))
  }

  /** `rules.find(r => r.keyword.toLowerCase().trim() === normalized)`, on
      the normalised keywords: the first position holding the text. */
  function FindKey(keys: seq<string>, normalized: string): (r: Option<nat>)
    ensures r.Some? ==> r.value < |keys| && keys[r.value] == normalized
    ensures r.Some? ==> forall i :: 0 <= i < r.value ==> keys[i] != normalized
    ensures r.None? ==> forall i :: 0 <= i < |keys| ==> keys[i] != normalized
  {
    if keys == [] then None
    else if keys[0] == normalized then Some(0)
    else
      var r := FindKey(keys[1..], normalized);
      if r.Some? then Some(r.value + 1) else None
  }

  /** The first active rule of the company whose normalised keyword is the
      normalised text. The normalisation is a parameter so that the proofs
      below need not look inside it. */
  function MatchWith(rows: seq<KeywordRule>, companyId: Id, text: string, norm: string -> string): Option<KeywordRule> {
    var rules := ActiveRules(rows, companyId);
    var k := FindKey(Keys(rules, norm), norm(text));
    if k.Some? then Some(rules[k.value]) else None
  }
  /** The rule a text triggers for a company, under the handler's
      normalisation. */
  function MatchRule(rows: seq<KeywordRule>, companyId: Id, text: string): Option<KeywordRule> {
    MatchWith(rows, companyId, text, Normalize)
  }

  /** A match is an active rule of the company whose normalised keyword is
      the normalised text, and there is no match only when no such rule
      exists. */
  lemma MatchWithExact(rows: seq<KeywordRule>, companyId: Id, text: string, norm: string -> string)
    ensures var m := MatchWith(rows, companyId, text, norm);
      && (m.Some? ==> m.value in rows && m.value.active && m.value.companyId == companyId
                      && norm(m.value.keyword) == norm(text))
      && (m.None? ==> forall r :: r in rows && r.active && r.companyId == companyId ==> norm(r.keyword) != norm(text))
  {
    var rules := ActiveRules(rows, companyId);
    var k := FindKey(Keys(rules, norm), norm(text));
    if k.None? {
      forall r | r in rows && r.active && r.companyId == companyId
        ensures norm(r.keyword) != norm(text)
      {
        assert r in rules;
        var i :| 0 <= i < |rules| && rules[i] == r;
      }
    }
  }
  /** Matching is equality after lowercasing and trimming, not
      containment. */
  lemma MatchRuleExact(rows: seq<KeywordRule>, companyId: Id, text: string)
    ensures var m := MatchRule(rows, companyId, text);
      && (m.Some? ==> m.value in rows && m.value.active && m.value.companyId == companyId
                      && Normalize(m.value.keyword) == Normalize(text))
      && (m.None? ==> forall r :: r in rows && r.active && r.companyId == companyId ==> Normalize(r.keyword) != Normalize(text))
  {
    MatchWithExact(rows, companyId, text, Normalize);
  }

  /** The first rule wins: rules after a matching one are never
      consulted. */
  lemma FirstMatchWins(rows: seq<KeywordRule>, later: seq<KeywordRule>, companyId: Id, text: string)
    requires MatchRule(rows, companyId, text).Some?
    ensures MatchRule(rows + later, companyId, text) == MatchRule(rows, companyId, text)
  {
    FirstMatchWinsWith(rows, later, companyId, text, Normalize);
  }

  lemma FirstMatchWinsWith(rows: seq<KeywordRule>, later: seq<KeywordRule>, companyId: Id, text: string, norm: string -> string)
    requires MatchWith(rows, companyId, text, norm).Some?
    ensures MatchWith(rows + later, companyId, text, norm) == MatchWith(rows, companyId, text, norm)
  {
    ActiveRulesAppend(rows, later, companyId);
    var x, y := ActiveRules(rows, companyId), ActiveRules(later, companyId);
    KeysAppend(x, y, norm);
    FindKeyPrefix(Keys(x, norm), Keys(y, norm), norm(text));
    var k := FindKey(Keys(x, norm), norm(text)).value;
    assert (x + y)[k] == x[k];
  }

  lemma KeysAppend(x: seq<KeywordRule>, y: seq<KeywordRule>, norm: string -> string)
    ensures Keys(x + y, norm) == Keys(x, norm) + Keys(y, norm)
  {
    var l, r := Keys(x + y, norm), Keys(x, norm) + Keys(y, norm);
    assert |l| == |r|;
    forall i | 0 <= i < |l|
      ensures l[i] == r[i]
    {
      if i < |x| {
        assert (x + y)[i] == x[i];
      } else {
        assert (x + y)[i] == y[i - |x|];
      }
    }
  }

  lemma {:induction false} ActiveRulesAppend(a: seq<KeywordRule>, b: seq<KeywordRule>, companyId: Id)
    ensures ActiveRules(a + b, companyId) == ActiveRules(a, companyId) + ActiveRules(b, companyId)
  {
    if a != [] {
      assert (a + b)[1..] == a[1..] + b;
      ActiveRulesAppend(a[1..], b, companyId);
    } else {
      assert a + b == b;
    }
  }

  lemma {:induction false} FindKeyPrefix(a: seq<string>, b: seq<string>, normalized: string)
    requires FindKey(a, normalized).Some?
    ensures FindKey(a + b, normalized) == FindKey(a, normalized)
  {
    if a[0] != normalized {
      assert (a + b)[1..] == a[1..] + b;
      FindKeyPrefix(a[1..], b, normalized);
    }
  }

  /** A keyword contained in a longer text does not match it: a rule for
      "oi" does not answer "oi tudo bem". */
  lemma KeywordIsNotSubstring(rule: KeywordRule, text: string)
    requires rule.active && Normalize(rule.keyword) == "oi"
    requires Normalize(text) == "oi tudo bem"
    ensures MatchRule([rule], rule.companyId, text) == None
  {
    assert |Normalize(text)| == 11;
    assert ActiveRules([rule], rule.companyId) == [rule];
  }

  // ---- replies -------------------------------------------------------------

  /** `{ content_type: "text", title, payload }` for each quick reply. */
  function Buttons(qrs: seq<QuickReply>): (r: seq<QuickReplyButton>)
    ensures |r| == |qrs|
    ensures forall i :: 0 <= i < |qrs| ==> r[i] == QuickReplyButton("text", qrs[i].title, qrs[i].payload)
  {
    if qrs == [] then [] else [QuickReplyButton("text", qrs[0].title, qrs[0].payload)] + Buttons(qrs[1..])
  }

  /** An id read from the event, when it is text. */
  function IdOf(v: JsValue): Option<string> {
    if v.JStr? then Some(v.s) else None
  }

  /** The reply to a direct message: the rule's text, with its buttons only
      when it has any. */
  function DirectReply(rule: KeywordRule, senderId: JsValue): DirectMessage {
    DirectMessage(ToUser(IdOf(senderId)), rule.replyText,
      if |rule.quickReplies| > 0 then Some(Buttons(rule.quickReplies)) else None)
  }

  /** The private reply to a comment: the rule's text, addressed to the
      comment, never with buttons. */
  function PrivateReply(rule: KeywordRule, commentId: JsValue): DirectMessage {
    DirectMessage(ToComment(IdOf(commentId)), rule.replyText, None)
  }

  /** The public reply under a comment. */
  function PublicReply(rule: KeywordRule): (r: string)
    ensures r != ""
  {
    if rule.publicReplyText != "" then rule.publicReplyText else DefaultPublicReply
  }

  /** Buttons go with a direct reply exactly when the rule has some, one per
      quick reply and in order; the private reply to a comment is text
      only; the public reply falls back to the default text. */
  lemma ReplyShapes(rule: KeywordRule, senderId: JsValue, commentId: JsValue)
    ensures var m := DirectReply(rule, senderId);
      && m.text == rule.replyText
      && (m.quickReplies.Some? <==> |rule.quickReplies| > 0)
      && (m.quickReplies.Some? ==>
            && |m.quickReplies.value| == |rule.quickReplies|
            && forall i :: 0 <= i < |rule.quickReplies| ==>
                 m.quickReplies.value[i] == QuickReplyButton("text", rule.quickReplies[i].title, rule.quickReplies[i].payload))
    ensures PrivateReply(rule, commentId).quickReplies.None? && PrivateReply(rule, commentId).text == rule.replyText
    ensures PublicReply(rule) == if rule.publicReplyText == "" then DefaultPublicReply else rule.publicReplyText
  {
  }

  // ---- the account ---------------------------------------------------------

  /** `.eq("instagram_business_id", businessId).single()` on settings. */
  function AccountOf(rows: seq<SettingsRow>, businessId: string): Option<SettingsRow> {
    var named := AccountRows(rows, businessId);
    if |named| == 1 then Some(named[0]) else None
  }

  function AccountRows(rows: seq<SettingsRow>, businessId: string): (r: seq<SettingsRow>)
    ensures forall x :: x in r <==> x in rows && x.instagramBusinessId == Some(businessId)
  {
    if rows == [] then []
    else (if rows[0].instagramBusinessId == Some(businessId) then [rows[0]] else []) + AccountRows(rows[1..], businessId)
  }

  /** JavaScript's `===` on values read from JSON: equal primitives;
      two arrays or objects are never the same object. */
  predicate StrictEquals(a: JsValue, b: JsValue) {
    a == b && !a.JArr? && !a.JObj?
  }

  // ---- leads ---------------------------------------------------------------

  /** `.upsert({ ... }, { onConflict: 'instagram_id' })` on leads: the lead
      of that Instagram id is overwritten, or a new one is appended. */
  function UpsertLead(rows: seq<Lead>, lead: Lead): (r: seq<Lead>)
    ensures lead in r
    ensures forall x :: x in r && x.instagramId != lead.instagramId ==> x in rows
    ensures forall x :: x in rows && x.instagramId != lead.instagramId ==> x in r
    ensures forall x :: x in r && x.instagramId == lead.instagramId ==> x == lead
  {
    if rows == [] then [lead]
    else if rows[0].instagramId == lead.instagramId then [lead] + RemoveLead(rows[1..], lead.instagramId)
    else [rows[0]] + UpsertLead(rows[1..], lead)
  }

  /** The rows with no duplicate of a key that the `[lead]` write replaced. */
  function RemoveLead(rows: seq<Lead>, instagramId: string): (r: seq<Lead>)
    ensures forall x :: x in r <==> x in rows && x.instagramId != instagramId
  {
    if rows == [] then []
    else (if rows[0].instagramId == instagramId then [] else [rows[0]]) + RemoveLead(rows[1..], instagramId)
  }

  /** Leads are unique by Instagram id, and an upsert keeps them so. */
  predicate LeadsUnique(rows: seq<Lead>) {
    forall i, j :: 0 <= i < j < |rows| ==> rows[i].instagramId != rows[j].instagramId
  }

  lemma {:induction false} UpsertLeadKeepsUnique(rows: seq<Lead>, lead: Lead)
    requires LeadsUnique(rows)
    ensures LeadsUnique(UpsertLead(rows, lead))
    ensures var r := UpsertLead(rows, lead);
      |r| == |rows| + (if exists i :: 0 <= i < |rows| && rows[i].instagramId == lead.instagramId then 0 else 1)
  {
    if rows != [] {
      TailUnique(rows);
      if rows[0].instagramId == lead.instagramId {
        RemoveAbsent(rows[1..], lead.instagramId);
        assert RemoveLead(rows[1..], lead.instagramId) == rows[1..];
      } else {
        UpsertLeadKeepsUnique(rows[1..], lead);
        var rest := UpsertLead(rows[1..], lead);
        forall k | 0 <= k < |rest|
          ensures rest[k].instagramId != rows[0].instagramId
        {
          assert rest[k] in rest;
          if rest[k].instagramId != lead.instagramId {
            HeadIdNotInTail(rows, rest[k]);
          }
        }
        ConsUnique(rows[0], rest);
        KnownInTail(rows, lead.instagramId);
      }
    }
  }

  lemma TailUnique(rows: seq<Lead>)
    requires LeadsUnique(rows) && rows != []
    ensures LeadsUnique(rows[1..])
  {
    forall i, j | 0 <= i < j < |rows[1..]|
      ensures rows[1..][i].instagramId != rows[1..][j].instagramId
    {
      assert rows[1..][i] == rows[i + 1] && rows[1..][j] == rows[j + 1];
    }
  }

  /** No lead after the first has the first one's Instagram id. */
  lemma HeadIdNotInTail(rows: seq<Lead>, x: Lead)
    requires LeadsUnique(rows) && rows != [] && x in rows[1..]
    ensures x.instagramId != rows[0].instagramId
  {
    var k :| 0 <= k < |rows[1..]| && rows[1..][k] == x;
    assert rows[k + 1] == x;
  }

  lemma ConsUnique(x: Lead, rest: seq<Lead>)
    requires LeadsUnique(rest)
    requires forall k :: 0 <= k < |rest| ==> rest[k].instagramId != x.instagramId
    ensures LeadsUnique([x] + rest)
  {
    var r := [x] + rest;
    forall i, j | 0 <= i < j < |r|
      ensures r[i].instagramId != r[j].instagramId
    {
      if i > 0 {
        assert r[i] == rest[i - 1] && r[j] == rest[j - 1];
      }
    }
  }

  /** When the first lead has another id, the id is known in the table
      exactly when it is known in the rest. */
  lemma KnownInTail(rows: seq<Lead>, id: string)
    requires rows != [] && rows[0].instagramId != id
    ensures (exists i :: 0 <= i < |rows| && rows[i].instagramId == id)
      <==> (exists i :: 0 <= i < |rows[1..]| && rows[1..][i].instagramId == id)
  {
    if exists i :: 0 <= i < |rows| && rows[i].instagramId == id {
      var i :| 0 <= i < |rows| && rows[i].instagramId == id;
      assert rows[1..][i - 1] == rows[i];
    }
    if exists i :: 0 <= i < |rows[1..]| && rows[1..][i].instagramId == id {
      var i :| 0 <= i < |rows[1..]| && rows[1..][i].instagramId == id;
      assert rows[i + 1] == rows[1..][i];
    }
  }

  /** Removing a key no row has changes nothing. */
  lemma {:induction false} RemoveAbsent(rows: seq<Lead>, instagramId: string)
    requires forall i :: 0 <= i < |rows| ==> rows[i].instagramId != instagramId
    ensures RemoveLead(rows, instagramId) == rows
  {
    if rows != [] {
      RemoveAbsent(rows[1..], instagramId);
    }
  }

  // ---- the event -----------------------------------------------------------

  /** The store after a step of the POST, and whether it threw. */
  datatype Step = Step(tables: Tables, threw: bool)

  /** `entry.messaging[0]` */
  function MessagingOf(entry: JsValue): JsValue {
    At(Get(entry, "messaging"), 0)
  }

  /** `messaging?.sender?.id` */
  function SenderIdOf(entry: JsValue): JsValue {
    Get(Get(MessagingOf(entry), "sender"), "id")
  }

  /** `(quickReply?.payload || messageText || "").trim()`; None when the
      chosen value is not text and `trim` throws. */
  function TriggerOf(entry: JsValue): Option<string> {
    var message := Get(MessagingOf(entry), "message");
    var raw := Or(Get(Get(message, "quick_reply"), "payload"), Or(Get(message, "text"), JStr("")));
    if raw.JStr? then Some(Trim(raw.s)) else None
  }

  /** The account an event is for, when its settings carry an access
      token. */
  function TokenAccount(t: Tables, businessId: JsValue): Option<SettingsRow> {
    var account := AccountOf(t.settings, ToStr(businessId));
    if account.Some? && account.value.instagramAccessToken != "" then account else None
  }

  /** The direct-message part of an entry. The trigger is the quick reply's
      payload, else the text, trimmed; the business's own messages and
      empty triggers get no reply. */
  function MessagingEffect(t: Tables, entry: JsValue, businessId: JsValue): Step {
    var trigger := TriggerOf(entry);
    if trigger.None? then Step(t, true)
    else if StrictEquals(SenderIdOf(entry), businessId) || trigger.value == "" || !Truthy(businessId) then Step(t, false)
    else
      var account := TokenAccount(t, businessId);
      if account.None? then Step(t, false)
      else
        var rule := MatchRule(t.keywords, account.value.companyId, trigger.value);
        if rule.None? then Step(t, false)
        else
          var send := GraphMessage(ToStr(businessId), account.value.instagramAccessToken, DirectReply(rule.value, SenderIdOf(entry)));
          Step(t.(outbox := t.outbox + [send]), false)
  }

  /** The lead a comment records: its author, with the comment and its
      time. */
  function CommentLead(companyId: Id, commenterId: JsValue, username: JsValue, text: string, now: string): Lead {
    Lead(companyId, ToStr(commenterId), ToStr(username), text, now)
  }

  /** `entry.changes[0]` */
  function ChangeOf(entry: JsValue): JsValue {
    At(Get(entry, "changes"), 0)
  }

  /** `change.value` */
  function CommentOf(entry: JsValue): JsValue {
    Get(ChangeOf(entry), "value")
  }

  /** `comment.from.id` and `comment.from.username` */
  function CommenterIdOf(entry: JsValue): JsValue {
    Get(Get(CommentOf(entry), "from"), "id")
  }

  function UsernameOf(entry: JsValue): JsValue {
    Get(Get(CommentOf(entry), "from"), "username")
  }

  /** `(comment.text || "").trim()`; None when a step throws: there is no
      change or no comment to read, or the text is not text. Some("") for
      a change of another field, which is skipped. */
  function CommentTextOf(entry: JsValue): Option<string> {
    var change := ChangeOf(entry);
    if change.JUndefined? || change.JNull? then None
    else if Get(change, "field") != JStr("comments") then Some("")
    else
      var comment := CommentOf(entry);
      if comment.JUndefined? || comment.JNull? then None
      else
        var raw := Or(Get(comment, "text"), JStr(""));
        if raw.JStr? then Some(Trim(raw.s)) else None
  }

  /** The comment part of an entry: the author becomes a lead when both
      their id and username are known, whether or not a rule matches; a
      matching rule answers publicly under the comment and privately to
      its author. */
  function CommentEffect(t: Tables, entry: JsValue, businessId: JsValue, now: string): Step {
    var text := CommentTextOf(entry);
    if text.None? then Step(t, true)
    else if StrictEquals(CommenterIdOf(entry), businessId) || text.value == "" || !Truthy(businessId) then Step(t, false)
    else
      var account := TokenAccount(t, businessId);
      if account.None? then Step(t, false)
      else
        var t1 := CaptureLead(t, account.value.companyId, entry, text.value, now);
        CommentReplies(t1, account.value, entry, businessId, text.value)
  }

  /** The lead upsert of a comment whose author is known by id and
      username. */
  function CaptureLead(t: Tables, companyId: Id, entry: JsValue, text: string, now: string): Tables {
    if Truthy(CommenterIdOf(entry)) && Truthy(UsernameOf(entry))
    then t.(leads := UpsertLead(t.leads, CommentLead(companyId, CommenterIdOf(entry), UsernameOf(entry), text, now)))
    else t
  }

  /** The public and the private reply to a comment that matches a rule. */
  function CommentReplies(t: Tables, account: SettingsRow, entry: JsValue, businessId: JsValue, text: string): Step {
    var rule := MatchRule(t.keywords, account.companyId, text);
    if rule.None? then Step(t, false)
    else
      var commentId := Get(CommentOf(entry), "id");
      var replies := [GraphCommentReply(IdOf(commentId), PublicReply(rule.value), account.instagramAccessToken),
                      GraphMessage(ToStr(businessId), account.instagramAccessToken, PrivateReply(rule.value, commentId))];
      Step(t.(outbox := t.outbox + replies), false)
  }

  /** The POST: the first entry's messages, then its comments. A body that
      parses to null makes `body.entry` throw. */
  function EventEffect(t: Tables, body: JsValue, now: string): (Tables, Response) {
    var entry := At(Get(body, "entry"), 0);
    if Nullish(body) then (t, Response(500, Some("Error")))
    else if !Truthy(entry) then (t, Response(200, Some("NO_ENTRY")))
    else
      var businessId := Get(entry, "id");
      var dm := if Truthy(Get(entry, "messaging")) then MessagingEffect(t, entry, businessId) else Step(t, false);
      if dm.threw then (dm.tables, Response(500, Some("Error")))
      else
        var comments := if Truthy(Get(entry, "changes")) then CommentEffect(dm.tables, entry, businessId, now) else Step(dm.tables, false);
        if comments.threw then (comments.tables, Response(500, Some("Error")))
        else (comments.tables, Response(200, Some("OK")))
  }

  /** The handler. */
  function WebhookEffect(t: Tables, req: Request, env: Env): (Tables, Response) {
    match req
    case Verify(mode, token, challenge, companyId) =>
      (t, VerifyResponse(t, mode, token, challenge, companyId, env.defaultVerifyToken))
    case Event(body) => EventEffect(t, body, env.now)
    case OtherMethod => (t, Response(405, Some("Method Not Allowed")))
  }

  // ---- the handler, step by step ---------------------------------------------

  /** The handler of the edge function. */
  method Handle(db: Database, req: Request, env: Env) returns (resp: Response)
    modifies db
    ensures (db.Snapshot(), resp) == WebhookEffect(old(db.Snapshot()), req, env)
  {
    match req
    case Verify(mode, token, challenge, companyId) =>
      resp := VerifyResponse(db.Snapshot(), mode, token, challenge, companyId, env.defaultVerifyToken);
    case Event(body) =>
      resp := HandleEvent(db, body, env.now);
    case OtherMethod =>
      resp := Response(405, Some("Method Not Allowed"));
  }

  /** The POST. */
  method HandleEvent(db: Database, body: JsValue, now: string) returns (resp: Response)
    modifies db
    ensures (db.Snapshot(), resp) == EventEffect(old(db.Snapshot()), body, now)
  {
    if Nullish(body) {
      return Response(500, Some("Error"));
    }
    var entry := At(Get(body, "entry"), 0);
    if !Truthy(entry) {
      return Response(200, Some("NO_ENTRY"));
    }
    var businessId := Get(entry, "id");
    if Truthy(Get(entry, "messaging")) {
      var threw := AnswerMessage(db, entry, businessId);
      if threw {
        return Response(500, Some("Error"));
      }
    }
    if Truthy(Get(entry, "changes")) {
      var threw := AnswerComment(db, entry, businessId, now);
      if threw {
        return Response(500, Some("Error"));
      }
    }
    resp := Response(200, Some("OK"));
  }

  /** The direct-message branch. */
  method AnswerMessage(db: Database, entry: JsValue, businessId: JsValue) returns (threw: bool)
    modifies db
    ensures Step(db.Snapshot(), threw) == MessagingEffect(old(db.Snapshot()), entry, businessId)
  {
    var trigger := TriggerOf(entry);
    if trigger.None? {
      return true;
    }
    threw := false;
    if StrictEquals(SenderIdOf(entry), businessId) || trigger.value == "" || !Truthy(businessId) {
      return;
    }
    var account := TokenAccount(db.Snapshot(), businessId);
    if account.None? {
      return;
    }
    var rule := MatchRule(db.keywords, account.value.companyId, trigger.value);
    if rule.Some? {
      var body := DirectReply(rule.value, SenderIdOf(entry));
      db.outbox := db.outbox + [GraphMessage(ToStr(businessId), account.value.instagramAccessToken, body)];
    }
  }

  /** The comment branch: the lead first, then the replies. */
  method AnswerComment(db: Database, entry: JsValue, businessId: JsValue, now: string) returns (threw: bool)
    modifies db
    ensures Step(db.Snapshot(), threw) == CommentEffect(old(db.Snapshot()), entry, businessId, now)
  {
    var text := CommentTextOf(entry);
    if text.None? {
      return true;
    }
    threw := false;
    if StrictEquals(CommenterIdOf(entry), businessId) || text.value == "" || !Truthy(businessId) {
      return;
    }
    var account := TokenAccount(db.Snapshot(), businessId);
    if account.None? {
      return;
    }
    RecordLead(db, account.value.companyId, entry, text.value, now);
    ReplyToComment(db, account.value, entry, businessId, text.value);
  }

  /** The lead capture of a comment. */
  method RecordLead(db: Database, companyId: Id, entry: JsValue, text: string, now: string)
    modifies db
    ensures db.Snapshot() == CaptureLead(old(db.Snapshot()), companyId, entry, text, now)
  {
    if Truthy(CommenterIdOf(entry)) && Truthy(UsernameOf(entry)) {
      var lead := CommentLead(companyId, CommenterIdOf(entry), UsernameOf(entry), text, now);
      db.leads := UpsertLead(db.leads, lead);
    }
  }

  /** The replies to a comment. */
  method ReplyToComment(db: Database, account: SettingsRow, entry: JsValue, businessId: JsValue, text: string)
    modifies db
    ensures Step(db.Snapshot(), false) == CommentReplies(old(db.Snapshot()), account, entry, businessId, text)
  {
    var rule := MatchRule(db.keywords, account.companyId, text);
    if rule.Some? {
      var commentId := Get(CommentOf(entry), "id");
      var token := account.instagramAccessToken;
      db.outbox := db.outbox + [GraphCommentReply(IdOf(commentId), PublicReply(rule.value), token),
                                GraphMessage(ToStr(businessId), token, PrivateReply(rule.value, commentId))];
    }
  }

  // ---- what an event does -----------------------------------------------------

  /** A step that touches only the leads and the outbox, and only adds to
      the outbox. */
  predicate Grows(t: Tables, t2: Tables) {
    t2.(leads := t.leads, outbox := t.outbox) == t && t.outbox <= t2.outbox
  }

  lemma MessagingGrows(t: Tables, entry: JsValue, businessId: JsValue)
    ensures Grows(t, MessagingEffect(t, entry, businessId).tables)
    ensures MessagingEffect(t, entry, businessId).tables.leads == t.leads
  {
  }

  lemma CommentGrows(t: Tables, entry: JsValue, businessId: JsValue, now: string)
    ensures Grows(t, CommentEffect(t, entry, businessId, now).tables)
  {
    var text := CommentTextOf(entry);
    var account := TokenAccount(t, businessId);
    if text.Some? && account.Some? {
      var t1 := CaptureLead(t, account.value.companyId, entry, text.value, now);
      assert Grows(t, t1);
      assert Grows(t1, CommentReplies(t1, account.value, entry, businessId, text.value).tables);
    }
  }

  /** Only the leads and the outbox change, and the outbox only grows; the
      GET and other methods write nothing. */
  lemma EventFrame(t: Tables, req: Request, env: Env)
    ensures Grows(t, WebhookEffect(t, req, env).0)
    ensures !req.Event? ==> WebhookEffect(t, req, env).0 == t
    ensures req.OtherMethod? ==> WebhookEffect(t, req, env).1.status == 405
  {
    if req.Event? {
      EventGrows(t, req.body, env.now);
    }
  }

  /** A null body answers Error and a POST without an entry answers
      NO_ENTRY, both writing nothing; any other answers OK, or Error when a
      step threw. */
  lemma EventReplies(t: Tables, body: JsValue, now: string)
    ensures Nullish(body) ==> EventEffect(t, body, now) == (t, Response(500, Some("Error")))
    ensures !Nullish(body) && !Truthy(At(Get(body, "entry"), 0)) ==> EventEffect(t, body, now) == (t, Response(200, Some("NO_ENTRY")))
    ensures Truthy(At(Get(body, "entry"), 0)) ==>
      EventEffect(t, body, now).1 == Response(200, Some("OK")) || EventEffect(t, body, now).1 == Response(500, Some("Error"))
  {
  }

  lemma EventGrows(t: Tables, body: JsValue, now: string)
    ensures Grows(t, EventEffect(t, body, now).0)
  {
    var entry := At(Get(body, "entry"), 0);
    if Truthy(entry) {
      var businessId := Get(entry, "id");
      var dm := if Truthy(Get(entry, "messaging")) then MessagingEffect(t, entry, businessId) else Step(t, false);
      MessagingGrows(t, entry, businessId);
      assert Grows(t, dm.tables);
      if !dm.threw {
        var comments := if Truthy(Get(entry, "changes")) then CommentEffect(dm.tables, entry, businessId, now) else Step(dm.tables, false);
        CommentGrows(dm.tables, entry, businessId, now);
        assert Grows(dm.tables, comments.tables);
        GrowsTransitive(t, dm.tables, comments.tables);
        assert EventEffect(t, body, now).0 == comments.tables;
      }
    }
  }

  lemma GrowsTransitive(a: Tables, b: Tables, c: Tables)
    requires Grows(a, b) && Grows(b, c)
    ensures Grows(a, c)
  {
  }

  /** The business's own messages and comments are never answered and the
      business never becomes its own lead. */
  lemma SelfEventsIgnored(t: Tables, entry: JsValue, businessId: JsValue, now: string)
    ensures StrictEquals(SenderIdOf(entry), businessId) ==> MessagingEffect(t, entry, businessId).tables == t
    ensures StrictEquals(CommenterIdOf(entry), businessId) ==> CommentEffect(t, entry, businessId, now).tables == t
  {
  }

  /** A direct message is answered, with exactly one message, exactly when
      it is not the business's own, its trigger is not empty, the account
      has a token and a rule matches; the answer is that rule's reply. */
  lemma MessageAnswered(t: Tables, entry: JsValue, businessId: JsValue)
    ensures var st := MessagingEffect(t, entry, businessId);
      var answers := TriggerOf(entry).Some? && !StrictEquals(SenderIdOf(entry), businessId) && TriggerOf(entry).value != ""
        && Truthy(businessId) && TokenAccount(t, businessId).Some?
        && MatchRule(t.keywords, TokenAccount(t, businessId).value.companyId, TriggerOf(entry).value).Some?;
      && (st.threw <==> TriggerOf(entry).None?)
      && (!answers ==> st.tables == t)
      && (answers ==> st.tables == t.(outbox := t.outbox + [GraphMessage(ToStr(businessId),
            TokenAccount(t, businessId).value.instagramAccessToken,
            DirectReply(MatchRule(t.keywords, TokenAccount(t, businessId).value.companyId, TriggerOf(entry).value).value, SenderIdOf(entry)))]))
  {
  }

  /** A comment of a known author on an account with a token makes the
      author a lead whether or not a rule matches; a match adds the public
      reply and then the text-only private reply. */
  lemma CommentAnswered(t: Tables, entry: JsValue, businessId: JsValue, now: string)
    requires CommentTextOf(entry).Some? && CommentTextOf(entry).value != ""
    requires !StrictEquals(CommenterIdOf(entry), businessId) && Truthy(businessId)
    requires TokenAccount(t, businessId).Some?
    ensures var a := TokenAccount(t, businessId).value;
      var text := CommentTextOf(entry).value;
      var st := CommentEffect(t, entry, businessId, now);
      var rule := MatchRule(t.keywords, a.companyId, text);
      var captured := CaptureLead(t, a.companyId, entry, text, now);
      && !st.threw
      && st.tables.leads == captured.leads
      && (Truthy(CommenterIdOf(entry)) && Truthy(UsernameOf(entry)) ==>
            CommentLead(a.companyId, CommenterIdOf(entry), UsernameOf(entry), text, now) in st.tables.leads)
      && (rule.None? ==> st.tables.outbox == t.outbox)
      && (rule.Some? ==> st.tables.outbox == t.outbox + [
            GraphCommentReply(IdOf(Get(CommentOf(entry), "id")), PublicReply(rule.value), a.instagramAccessToken),
            GraphMessage(ToStr(businessId), a.instagramAccessToken, PrivateReply(rule.value, Get(CommentOf(entry), "id")))])
  {
  }

  /** Leads stay unique by Instagram id across any request. */
  lemma LeadsStayUnique(t: Tables, req: Request, env: Env)
    requires LeadsUnique(t.leads)
    ensures LeadsUnique(WebhookEffect(t, req, env).0.leads)
  {
    if req.Event? {
      EventLeadsUnique(t, req.body, env.now);
    }
  }

  lemma EventLeadsUnique(t: Tables, body: JsValue, now: string)
    requires LeadsUnique(t.leads)
    ensures LeadsUnique(EventEffect(t, body, now).0.leads)
  {
    var entry := At(Get(body, "entry"), 0);
    if Truthy(entry) {
      var businessId := Get(entry, "id");
      var dm := if Truthy(Get(entry, "messaging")) then MessagingEffect(t, entry, businessId) else Step(t, false);
      MessagingGrows(t, entry, businessId);
      assert dm.tables.leads == t.leads;
      CommentLeadsUnique(dm.tables, entry, businessId, now);
      var comments := if Truthy(Get(entry, "changes")) then CommentEffect(dm.tables, entry, businessId, now) else Step(dm.tables, false);
      assert EventEffect(t, body, now).0 == dm.tables || EventEffect(t, body, now).0 == comments.tables;
    }
  }

  lemma CommentLeadsUnique(t: Tables, entry: JsValue, businessId: JsValue, now: string)
    requires LeadsUnique(t.leads)
    ensures LeadsUnique(CommentEffect(t, entry, businessId, now).tables.leads)
  {
    var text := CommentTextOf(entry);
    var account := TokenAccount(t, businessId);
    if text.Some? && account.Some? && Truthy(CommenterIdOf(entry)) && Truthy(UsernameOf(entry)) {
      UpsertLeadKeepsUnique(t.leads, CommentLead(account.value.companyId, CommenterIdOf(entry), UsernameOf(entry), text.value, now));
    }
  }
}
