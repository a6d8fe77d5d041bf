/** `/api/evolution`: the bridge to the WhatsApp gateway (Evolution API) —
    per-user instance creation, sending a text, the inbound `messages.upsert`
    webhook and the conversation listing (server/src/routes/evolution.js).
    The gateway is a function from the request the handler sends to the
    outcome it reports; the handlers return the request they sent, so what is
    and is not sent can be stated. */
module Evolution {
  import opened Wrappers
  import opened Js
  import opened Schema
  import Seqs
  import Sorting
  import Strings

  /** `EVOLUTION_API_URL` and `EVOLUTION_API_TOKEN`. */
  datatype Env = Env(apiUrl: Option<string>, apiToken: Option<string>)

  /** The `checkConfig` guard in front of every gateway route. */
  predicate Configured(env: Env) {
    Truthy(env.apiUrl) && Truthy(env.apiToken)
  }

  /** The gateway's `response.message`: a text, or a list of texts. */
  datatype ErrorMessage = TextMessage(text: string) | ListMessage(texts: seq<string>)

  /** What the gateway reports: success, or an error response with an
      optional HTTP status and an optional `response.message`. */
  datatype GatewayResult = Accepted | Failed(status: Option<int>, message: Option<ErrorMessage>)

  /** `message.includes(s)`: a substring test on a text, an element test on a list. */
  predicate Includes(m: ErrorMessage, s: string) {
    match m
    case TextMessage(t) => Strings.Contains(t, s)
    case ListMessage(ts) => s in ts
  }

  /** `error.response?.status || 500`. */
  function FailureStatus(status: Option<int>): (r: int)
    ensures status.Some? && status.value != 0 ==> r == status.value
    ensures status.None? || status.value == 0 ==> r == 500
  {
    if status.Some? && status.value != 0 then status.value else 500
  }

  // ---------------------------------------------------------------------
  // getEvolutionApiUrl

  function DropSuffix(s: string, suffix: string): (r: string)
    ensures Strings.EndsWith(s, suffix) ==> r + suffix == s
    ensures !Strings.EndsWith(s, suffix) ==> r == s
  {
    if Strings.EndsWith(s, suffix) then s[..|s| - |suffix|] else s
  }

  /** The base URL with at most one trailing `/` and then at most one
      trailing `/manager` removed, followed by the endpoint. */
  function ApiUrl(env: Env, endpoint: string): string {
    DropSuffix(DropSuffix(env.apiUrl.GetOr(""), "/"), "/manager") + endpoint
  }

  /** Every gateway URL ends with its endpoint. */
  lemma ApiUrlEndsWithEndpoint(env: Env, endpoint: string)
    ensures Strings.EndsWith(ApiUrl(env, endpoint), endpoint)
  {
    var u := ApiUrl(env, endpoint);
    assert u[|u| - |endpoint|..] == endpoint;
  }

  /** A base with neither a trailing slash nor a trailing `/manager` is used as is. */
  lemma ApiUrlPlainBase(base: string, endpoint: string)
    requires !Strings.EndsWith(base, "/") && !Strings.EndsWith(base, "/manager")
    ensures ApiUrl(Env(Some(base), None), endpoint) == base + endpoint
  {
  }

  /** The slash is dropped before `/manager` is looked for, so a base copied
      from the gateway's manager page, with or without its trailing slash,
      gives the same URL. */
  lemma ApiUrlManagerBase(x: string, endpoint: string)
    ensures ApiUrl(Env(Some(x + "/manager/"), None), endpoint) == x + endpoint
    ensures ApiUrl(Env(Some(x + "/manager"), None), endpoint) == x + endpoint
  {
    var b1 := x + "/manager/";
    assert Strings.EndsWith(b1, "/");
    assert b1[..|b1| - 1] == x + "/manager";
    var b0 := x + "/manager";
    assert Strings.EndsWith(b0, "/manager");
    assert b0[..|b0| - 8] == x;
    assert !Strings.EndsWith(b0, "/") by {
      assert b0[|b0| - 1] == 'r';
    }
  }

  /** Only one slash goes: a doubled slash leaves one behind. */
  lemma ApiUrlOneSlashOnly(x: string, endpoint: string)
    ensures ApiUrl(Env(Some(x + "//"), None), endpoint) == x + "/" + endpoint
  {
    var b := x + "//";
    assert Strings.EndsWith(b, "/");
    assert b[..|b| - 1] == x + "/";
    var c := x + "/";
    assert !Strings.EndsWith(c, "/manager") by {
      assert c[|c| - 1] == '/';
    }
  }

  // ---------------------------------------------------------------------
  // POST /instance

  /** The instance name generated for a user without one. */
  function InstanceNameFor(userId: string): (r: string)
    ensures Strings.IsPrefix("user_", r) && Strings.EndsWith(r, "_wa")
    ensures |r| == |userId| + 8
  {
    "user_" + userId + "_wa"
  }

  /** Distinct users get distinct generated names. */
  lemma InstanceNameInjective(a: string, b: string)
    requires InstanceNameFor(a) == InstanceNameFor(b)
    ensures a == b
  {
    assert a == InstanceNameFor(a)[5..|InstanceNameFor(a)| - 3];
    assert b == InstanceNameFor(b)[5..|InstanceNameFor(b)| - 3];
  }

  /** The body sent to `/instance/create`. */
  datatype CreateCall = CreateCall(url: string, instanceName: string, description: string)

  datatype InstanceReply =
    | NotConfigured
    | MissingUserId
    | UserNotFound
    /** The gateway accepted, or said the instance already exists (`alreadyExists`). */
    | InstanceReady(instanceName: string, call: CreateCall, alreadyExists: bool)
    | InstanceFailed(call: CreateCall, status: int)
  {
    function Status(): int {
      match this
      case NotConfigured => 500
      case MissingUserId => 400
      case UserNotFound => 404
      case InstanceReady(_, _, _) => 200
      case InstanceFailed(_, status) => status
    }
  }

  /** The error the gateway answers for an instance name in use (or any 403). */
  predicate AlreadyExists(r: GatewayResult) {
    r.Failed? && ((r.message.Some? && Includes(r.message.value, "already exists")) || r.status == Some(403))
  }

  /** `includes` on a list compares whole elements: a list whose only message
      mentions "already exists" is not recognised unless the status is 403,
      while the same text on its own is. */
  lemma ListedMessageNotRecognised(text: string, status: Option<int>)
    requires status != Some(403)
    ensures Strings.Contains(text, "already exists") ==> AlreadyExists(Failed(status, Some(TextMessage(text))))
    ensures text != "already exists" ==> !AlreadyExists(Failed(status, Some(ListMessage([text]))))
  {
  }

  function UserById(db: Db, id: string): (r: Option<User>)
    ensures r.None? <==> !HasUser(db.users, id)
    ensures r.Some? ==> r.value in db.users && r.value.id == id
  {
    Seqs.Find(db.users, (u: User) => u.id == id)
  }

  /** `POST /instance`: the user's stored instance name, or a generated one
      that is saved on the user before the gateway is asked to create it. */
  function CreateInstance(db: Db, env: Env, userId: Option<string>, description: Option<string>,
                          gateway: CreateCall -> GatewayResult): (s: Step<InstanceReply>)
    ensures !Configured(env) ==> s.reply == NotConfigured && s.db == db
    ensures Configured(env) && !Truthy(userId) ==> s.reply == MissingUserId && s.db == db
    ensures Configured(env) && Truthy(userId) && !HasUser(db.users, userId.value) ==>
              s.reply == UserNotFound && s.db == db
    ensures s.reply.InstanceReady? || s.reply.InstanceFailed? ==>
              && Configured(env) && Truthy(userId)
              && var u := UserById(db, userId.value);
              && u.Some?
              && var name := if Truthy(u.value.whatsappInstanceId) then u.value.whatsappInstanceId.value
                             else InstanceNameFor(userId.value);
              && s.reply.call.instanceName == name
              && s.reply.call.url == ApiUrl(env, "/instance/create")
              && (s.reply.InstanceReady? <==> gateway(s.reply.call).Accepted? || AlreadyExists(gateway(s.reply.call)))
              && (s.reply.InstanceReady? ==> s.reply.instanceName == name)
              && (Truthy(u.value.whatsappInstanceId) ==> s.db == db)
              && (!Truthy(u.value.whatsappInstanceId) ==>
                    s.db == db.(users := Seqs.Update(db.users, (v: User) => v.id == userId.value,
                                                     (v: User) => v.(whatsappInstanceId := Some(name)))))
    ensures s.reply.InstanceFailed? ==> s.reply.status == FailureStatus(gateway(s.reply.call).status)
  {
    if !Configured(env) then Step(db, NotConfigured)
    else if !Truthy(userId) then Step(db, MissingUserId)
    else
      match UserById(db, userId.value)
      case None => Step(db, UserNotFound)
      case Some(u) =>
        var stored := Truthy(u.whatsappInstanceId);
        var name := if stored then u.whatsappInstanceId.value else InstanceNameFor(userId.value);
        var db' := if stored then db
                   else db.(users := Seqs.Update(db.users, (v: User) => v.id == userId.value,
                                                 (v: User) => v.(whatsappInstanceId := Some(name))));
        var call := CreateCall(ApiUrl(env, "/instance/create"), name,
                               Or(description, Some("Flow Estate Agent " + userId.value)).value);
        match gateway(call)
        case Accepted => Step(db', InstanceReady(name, call, false))
        case Failed(status, message) =>
          if AlreadyExists(gateway(call)) then Step(db', InstanceReady(name, call, true))
          else Step(db', InstanceFailed(call, FailureStatus(status)))
  }

  /** Once an instance has been asked for, the user's row carries its name. */
  lemma CreateInstanceRecordsName(db: Db, env: Env, userId: string, d: Option<string>, g: CreateCall -> GatewayResult)
    requires var r := CreateInstance(db, env, Some(userId), d, g).reply;
             r.InstanceReady? || r.InstanceFailed?
    ensures var s := CreateInstance(db, env, Some(userId), d, g);
            var u := UserById(s.db, userId);
            u.Some? && u.value.whatsappInstanceId == Some(s.reply.call.instanceName)
  {
    var s := CreateInstance(db, env, Some(userId), d, g);
    var u := UserById(db, userId).value;
    if !Truthy(u.whatsappInstanceId) {
      StoredNameFound(db, userId, InstanceNameFor(userId));
    }
  }

  /** After the name is written to every row with the id, looking the user up finds it. */
  lemma StoredNameFound(db: Db, userId: string, name: string)
    requires HasUser(db.users, userId)
    ensures var us := Seqs.Update(db.users, (v: User) => v.id == userId, (v: User) => v.(whatsappInstanceId := Some(name)));
            var u := UserById(db.(users := us), userId);
            u.Some? && u.value.whatsappInstanceId == Some(name)
  {
    var users := db.users;
    var us := Seqs.Update(users, (v: User) => v.id == userId, (v: User) => v.(whatsappInstanceId := Some(name)));
    var i :| 0 <= i < |users| && users[i].id == userId;
    assert us[i].id == userId;
    var u2 := UserById(db.(users := us), userId).value;
    var j :| 0 <= j < |us| && us[j] == u2;
    assert users[j].id == userId;
  }

  /** A user who already has an instance name gets it back, and nothing is written. */
  lemma CreateInstanceReusesStoredName(db: Db, env: Env, userId: string, d: Option<string>, g: CreateCall -> GatewayResult)
    requires Configured(env) && userId != ""
    requires UserById(db, userId).Some? && Truthy(UserById(db, userId).value.whatsappInstanceId)
    ensures var s := CreateInstance(db, env, Some(userId), d, g);
            && s.db == db
            && (s.reply.InstanceReady? || s.reply.InstanceFailed?)
            && s.reply.call.instanceName == UserById(db, userId).value.whatsappInstanceId.value
  {
  }

  /** Asking again for the same user reuses the instance name saved the first
      time and writes nothing more. */
  lemma CreateInstanceStable(db: Db, env: Env, userId: string, d1: Option<string>, d2: Option<string>,
                             g1: CreateCall -> GatewayResult, g2: CreateCall -> GatewayResult)
    requires var r := CreateInstance(db, env, Some(userId), d1, g1).reply;
             r.InstanceReady? || r.InstanceFailed?
    ensures var first := CreateInstance(db, env, Some(userId), d1, g1);
            var second := CreateInstance(first.db, env, Some(userId), d2, g2);
            second.db == first.db
            && (second.reply.InstanceReady? || second.reply.InstanceFailed?)
            && second.reply.call.instanceName == first.reply.call.instanceName
  {
    CreateInstanceRecordsName(db, env, userId, d1, g1);
    var first := CreateInstance(db, env, Some(userId), d1, g1);
    var name := first.reply.call.instanceName;
    var u := UserById(db, userId).value;
    if Truthy(u.whatsappInstanceId) {
      assert name == u.whatsappInstanceId.value;
    } else {
      assert name == InstanceNameFor(userId);
      assert name[0] == 'u';
    }
    CreateInstanceReusesStoredName(first.db, env, userId, d2, g2);
  }

  // ---------------------------------------------------------------------
  // POST /text/send

  /** The request sent to `/message/sendText/<instance>`. */
  datatype SendCall = SendCall(url: string, number: string, text: string)

  datatype SendReply =
    | SendNotConfigured
    | MissingFields
    | Sent(call: SendCall)
    | SendFailed(call: SendCall, status: int)
  {
    function Status(): int {
      match this
      case SendNotConfigured => 500
      case MissingFields => 400
      case Sent(_) => 200
      case SendFailed(_, status) => status
    }
  }

  /** `SELECT id FROM leads WHERE phone LIKE '%<number>%'`, first row. */
  function LeadByPhone(leads: seq<Lead>, number: string): (r: Option<Id>)
    ensures r.None? <==> forall i :: 0 <= i < |leads| ==>
                           !(leads[i].phone.Some? && Strings.Contains(leads[i].phone.value, number))
    ensures r.Some? ==> exists l :: l in leads && l.id == r.value && l.phone.Some?
                                    && Strings.Contains(l.phone.value, number)
  {
    match Seqs.Find(leads, (l: Lead) => l.phone.Some? && Strings.Contains(l.phone.value, number))
    case None => None
    case Some(l) => Some(l.id)
  }

  /** `POST /text/send`: all three fields are required; the message is sent
      first and recorded only when the gateway accepted it, under the number's
      digits and the first lead whose phone contains them. */
  function SendText(db: Db, env: Env, instanceName: Option<string>, number: Option<string>, text: Option<string>,
                    gateway: SendCall -> GatewayResult, now: Time): (s: Step<SendReply>)
    ensures !Configured(env) ==> s.reply == SendNotConfigured && s.db == db
    ensures Configured(env) && (!Truthy(instanceName) || !Truthy(number) || !Truthy(text)) ==>
              s.reply == MissingFields && s.db == db
    ensures s.reply.Sent? || s.reply.SendFailed? ==>
              && Configured(env) && Truthy(instanceName) && Truthy(number) && Truthy(text)
              && s.reply.call == SendCall(ApiUrl(env, "/message/sendText/" + instanceName.value),
                                          number.value, text.value)
    ensures s.reply.SendFailed? ==>
              s.db == db && gateway(s.reply.call).Failed? && s.reply.status == FailureStatus(gateway(s.reply.call).status)
    ensures s.reply.Sent? ==>
              && gateway(s.reply.call).Accepted?
              && var clean := Strings.Digits(number.value);
              && s.db == db.(messages := db.messages + [
                   Message(instanceName.value, LeadByPhone(db.leads, clean), clean, Some(true), text,
                           None, now, Some("sent"))])
    ensures s.reply.Sent? <==> Configured(env) && Truthy(instanceName) && Truthy(number) && Truthy(text)
                               && gateway(SendCall(ApiUrl(env, "/message/sendText/" + instanceName.value),
                                                   number.value, text.value)).Accepted?
  {
    if !Configured(env) then Step(db, SendNotConfigured)
    else if !Truthy(instanceName) || !Truthy(number) || !Truthy(text) then Step(db, MissingFields)
    else
      var call := SendCall(ApiUrl(env, "/message/sendText/" + instanceName.value), number.value, text.value);
      match gateway(call)
      case Failed(status, _) => Step(db, SendFailed(call, FailureStatus(status)))
      case Accepted =>
        var clean := Strings.Digits(number.value);
        var row := Message(instanceName.value, LeadByPhone(db.leads, clean), clean, Some(true), text,
                           None, now, Some("sent"));
        Step(db.(messages := db.messages + [row]), Sent(call))
  }

  // ---------------------------------------------------------------------
  // POST /webhook

  datatype ImageMessage = ImageMessage(caption: Option<string>)
  datatype ExtendedTextMessage = ExtendedTextMessage(text: Option<string>)

  /** The parts of a WhatsApp message the handler looks at. */
  datatype WaMessage = WaMessage(
    conversation: Option<string>,
    extendedTextMessage: Option<ExtendedTextMessage>,
    imageMessage: Option<ImageMessage>)

  datatype MessageKey = MessageKey(remoteJid: Option<string>, fromMe: Option<bool>)

  datatype UpsertData = UpsertData(message: Option<WaMessage>, key: Option<MessageKey>)

  datatype WebhookPayload = WebhookPayload(kind: Option<string>, data: Option<UpsertData>, instance: Option<string>)

  datatype WebhookReply = WebhookOk | WebhookError
  {
    function Status(): nat {
      match this
      case WebhookOk => 200
      case WebhookError => 500
    }
  }

  /** Content and media type of an inbound message, by priority: plain
      conversation text, then extended text, then an image (its caption or
      '[Image]'), else empty text. */
  function Extract(m: WaMessage): (r: (string, string))
    ensures Truthy(m.conversation) ==> r == (m.conversation.value, "text")
    ensures !Truthy(m.conversation) && m.extendedTextMessage.Some? && Truthy(m.extendedTextMessage.value.text) ==>
              r == (m.extendedTextMessage.value.text.value, "text")
    ensures r.1 == "image" <==>
              !Truthy(m.conversation) && !(m.extendedTextMessage.Some? && Truthy(m.extendedTextMessage.value.text))
              && m.imageMessage.Some?
    ensures r.1 == "image" ==> r.0 == Or(m.imageMessage.value.caption, Some("[Image]")).value
    ensures r.1 != "image" ==> r.1 == "text"
    ensures r.0 == "" ==> r.1 == "text" && !Truthy(m.conversation)
                          && !(m.extendedTextMessage.Some? && Truthy(m.extendedTextMessage.value.text))
                          && m.imageMessage.None?
  {
    if Truthy(m.conversation) then (m.conversation.value, "text")
    else if m.extendedTextMessage.Some? && Truthy(m.extendedTextMessage.value.text) then
      (m.extendedTextMessage.value.text.value, "text")
    else if m.imageMessage.Some? then (Or(m.imageMessage.value.caption, Some("[Image]")).value, "image")
    else ("", "text")
  }

  const JidSuffix := "@s.whatsapp.net"

  /** The sender's number: the JID with its first `@s.whatsapp.net` removed. */
  function NumberOf(remoteJid: string): string {
    Strings.RemoveFirst(remoteJid, JidSuffix)
  }

  /** A phone number's JID gives the number back. */
  lemma NumberOfJid(number: string)
    requires Strings.AllDigits(number)
    ensures NumberOf(number + JidSuffix) == number
  {
    Strings.RemoveFirstAppended(number, JidSuffix);
  }

  /** The lead lookup compares the digits with the phone exactly as stored:
      a phone saved with a '+', spaces or dashes is not found from its JID. */
  lemma FormattedPhoneNotFound(id: Id, now: Time)
    ensures var l := Lead(id, None, None, Some("+1 809-555-1234"), None, None, None, None, None, None, None, None, now, None);
            LeadByPhone([l], NumberOf("18095551234" + JidSuffix)).None?
  {
    var t := "18095551234";
    assert Strings.AllDigits(t) by {
      forall i | 0 <= i < |t| ensures Strings.IsDigit(t[i]) {
      }
    }
    NumberOfJid(t);
    FormattedPhoneLacksDigits();
  }

  lemma FormattedPhoneLacksDigits()
    ensures !Strings.Contains("+1 809-555-1234", "18095551234")
  {
    var t := "18095551234";
    var s := "+1 809-555-1234";
    forall i | 0 <= i <= |s| - |t| ensures !Strings.OccursAt(s, t, i) {
      var w := s[i..i + |t|];
      if i == 0 {
        assert w[0] == '+' != t[0];
      } else if i == 1 {
        assert w[1] == ' ' != t[1];
      } else if i == 2 {
        assert w[0] == ' ' != t[0];
      } else if i == 3 {
        assert w[0] == '8' != t[0];
      } else {
        assert w[0] == '0' != t[0];
      }
    }
  }

  /** `POST /webhook`: a `messages.upsert` event stores one message; any
      other event is acknowledged and ignored. A missing `data`, `key`,
      `message` or `remoteJid` throws (500); a missing instance violates the
      NOT NULL constraint of `instance_id` (500). */
  function Webhook(db: Db, payload: WebhookPayload, now: Time): (s: Step<WebhookReply>)
    ensures payload.kind != Some("messages.upsert") ==> s == Step(db, WebhookOk)
    ensures s.reply.WebhookError? ==> s.db == db
    ensures s.reply.WebhookOk? && payload.kind == Some("messages.upsert") ==>
              && payload.data.Some? && payload.data.value.message.Some? && payload.data.value.key.Some?
              && payload.data.value.key.value.remoteJid.Some? && payload.instance.Some?
              && var key := payload.data.value.key.value;
              && var (content, mediaType) := Extract(payload.data.value.message.value);
              && var number := NumberOf(key.remoteJid.value);
              && s.db == db.(messages := db.messages + [
                   Message(payload.instance.value, LeadByPhone(db.leads, number), number, key.fromMe,
                           Some(content), Some(mediaType), now, Some("sent"))])
    ensures payload.kind == Some("messages.upsert") ==>
              (s.reply.WebhookOk? <==>
                 payload.data.Some? && payload.data.value.message.Some? && payload.data.value.key.Some?
                 && payload.data.value.key.value.remoteJid.Some? && payload.instance.Some?)
  {
    if payload.kind != Some("messages.upsert") then Step(db, WebhookOk)
    else
      match payload.data
      case None => Step(db, WebhookError)
      case Some(data) =>
        if data.message.None? || data.key.None? || data.key.value.remoteJid.None? then Step(db, WebhookError)
        else
          var (content, mediaType) := Extract(data.message.value);
          var number := NumberOf(data.key.value.remoteJid.value);
          var leadId := LeadByPhone(db.leads, number);
          match payload.instance
          case None => Step(db, WebhookError)
          case Some(instance) =>
            var row := Message(instance, leadId, number, data.key.value.fromMe, Some(content), Some(mediaType),
                               now, Some("sent"));
            Step(db.(messages := db.messages + [row]), WebhookOk)
  }

  // ---------------------------------------------------------------------
  // GET /messages/:instanceName/:phone

  datatype MessagesReply = MessagesNotConfigured | Messages(rows: seq<Message>)
  {
    function Status(): nat {
      match this
      case MessagesNotConfigured => 500
      case Messages(_) => 200
    }
  }

  predicate InConversation(m: Message, instanceName: string, phone: string) {
    m.instanceId == instanceName && m.remoteJid == Strings.Digits(phone)
  }

  predicate OldestFirst(a: Message, b: Message) {
    a.timestamp <= b.timestamp
  }

  /** The conversation with one number on one instance, oldest first. */
  function ListMessages(db: Db, env: Env, instanceName: string, phone: string): (r: MessagesReply)
    ensures !Configured(env) <==> r.MessagesNotConfigured?
    ensures r.Messages? ==>
              && Sorting.SortedBy(r.rows, OldestFirst)
              && forall m :: m in r.rows <==> m in db.messages && InConversation(m, instanceName, phone)
    ensures r.Messages? ==>
              multiset(r.rows) == multiset(Seqs.Filter(db.messages, (m: Message) => InConversation(m, instanceName, phone)))
  {
    if !Configured(env) then MessagesNotConfigured
    else
      var p := (m: Message) => InConversation(m, instanceName, phone);
      var selected := Seqs.Filter(db.messages, p);
      Sorting.IntAscIsPreorder((m: Message) => m.timestamp, OldestFirst);
      var rows := Sorting.Sort(selected, OldestFirst);
      forall m ensures m in rows <==> m in db.messages && p(m) {
        assert m in rows <==> m in multiset(selected);
        Seqs.FilterMembership(db.messages, p, m);
      }
      Messages(rows)
  }

  /** A message sent through `/text/send` shows up in that number's
      conversation, however the number was punctuated when asked for. */
  lemma SentMessageIsListed(db: Db, env: Env, instanceName: string, number: string, text: string,
                            gateway: SendCall -> GatewayResult, now: Time, asked: string)
    requires SendText(db, env, Some(instanceName), Some(number), Some(text), gateway, now).reply.Sent?
    requires Strings.Digits(asked) == Strings.Digits(number)
    ensures var s := SendText(db, env, Some(instanceName), Some(number), Some(text), gateway, now);
            var r := ListMessages(s.db, env, instanceName, asked);
            r.Messages? && s.db.messages[|s.db.messages| - 1] in r.rows
  {
  }

  /** An inbound message from a plain number's JID is listed in that number's conversation. */
  lemma ReceivedMessageIsListed(db: Db, env: Env, instance: string, number: string, message: WaMessage,
                                fromMe: Option<bool>, now: Time)
    requires Configured(env)
    requires Strings.AllDigits(number)
    ensures var payload := WebhookPayload(Some("messages.upsert"),
                                          Some(UpsertData(Some(message), Some(MessageKey(Some(number + JidSuffix), fromMe)))),
                                          Some(instance));
            var s := Webhook(db, payload, now);
            var r := ListMessages(s.db, env, instance, number);
            r.Messages? && s.db.messages[|s.db.messages| - 1] in r.rows
  {
    NumberOfJid(number);
    Strings.DigitsOfAllDigits(number);
  }
}
