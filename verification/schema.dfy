/** The PostgreSQL tables the handlers read and write, as immutable rows.
    A table is a sequence in storage order: a query without `ORDER BY` is
    modelled as returning its matches in that order. Columns a handler never
    supplies on INSERT are NULL (`None`). */
module Schema {
  import opened Wrappers
  import opened Js
  import Seqs

  /** Primary keys are the database's UUID text. */
  type Id = string

  /** The value `NOW()` evaluates to during one request. */
  type Time = int

  datatype User = User(
    id: Id,
    email: Option<string>,
    passwordHash: Option<string>,
    fullName: Option<string>,
    role: Option<string>,
    phone: Option<string>,
    profilePicture: Option<string>,
    whatsappInstanceId: Option<string>,
    updatedAt: Option<Time>)

  /** A lead form's answers keyed by field name, in first-assignment order.
      A JavaScript object orders non-index string keys that way, but lists
      array-index names first and ignores `__proto__`; neither is modelled. */
  type Fields = seq<(string, string)>

  datatype Lead = Lead(
    id: Id,
    name: Option<string>,
    email: Option<string>,
    phone: Option<string>,
    source: Option<string>,
    status: Option<string>,
    assignedTo: Option<Id>,
    pipelineStage: Option<string>,
    rawData: Option<Fields>,
    facebookLeadId: Option<string>,
    facebookPageId: Option<string>,
    facebookFormId: Option<string>,
    createdAt: Time,
    updatedAt: Option<Time>)

  datatype Deal = Deal(
    id: Id,
    leadId: Option<Id>,
    stage: Option<Scalar>,
    value: Option<Scalar>,
    probability: Option<Scalar>,
    expectedCloseDate: Option<Scalar>,
    assignedTo: Option<Id>,
    createdAt: Time,
    updatedAt: Option<Time>)

  /** An integration's provider settings (tokens, page and form ids). */
  type Config = map<string, string>

  datatype Integration = Integration(
    kind: Option<string>,
    config: Option<Config>,
    status: Option<string>,
    updatedAt: Option<Time>)

  /** A chat message; `instance_id` and `remote_jid` are NOT NULL, `status`
      defaults to 'sent' and `timestamp` to the insertion time. */
  datatype Message = Message(
    instanceId: string,
    leadId: Option<Id>,
    remoteJid: string,
    fromMe: Option<bool>,
    content: Option<string>,
    mediaType: Option<string>,
    timestamp: Time,
    status: Option<string>)

  /** Row 1 of `round_robin_settings`. */
  datatype RoundRobinSettings = RoundRobinSettings(
    isActive: Option<bool>,
    includedUserIds: Option<seq<Id>>,
    lastAssignedUserId: Option<Id>,
    updatedAt: Option<Time>)

  datatype FacebookConnection = FacebookConnection(
    pageId: Option<string>,
    formId: Option<string>,
    accessToken: Option<string>)

  datatype Db = Db(
    users: seq<User>,
    leads: seq<Lead>,
    deals: seq<Deal>,
    integrations: seq<Integration>,
    messages: seq<Message>,
    roundRobin: Option<RoundRobinSettings>,
    facebookConnections: seq<FacebookConnection>)

  /** The state after a handler ran, together with what it answered. */
  datatype Step<+R> = Step(db: Db, reply: R)

  /** SQL `a = b`: never true when either side is NULL. */
  predicate SqlEq<T(==)>(a: Option<T>, b: Option<T>) {
    a.Some? && a == b
  }

  /** No two rows share a key. */
  predicate UniqueBy<T>(s: seq<T>, key: T -> Id) {
    forall i, j :: 0 <= i < j < |s| ==> key(s[i]) != key(s[j])
  }

  predicate HasUser(users: seq<User>, id: Id) {
    Seqs.Exists(users, (u: User) => u.id == id)
  }

  predicate HasLead(leads: seq<Lead>, id: Id) {
    Seqs.Exists(leads, (l: Lead) => l.id == id)
  }

  predicate HasDeal(deals: seq<Deal>, id: Id) {
    Seqs.Exists(deals, (d: Deal) => d.id == id)
  }

  /** A hexadecimal digit in either case. */
  predicate IsHexDigit(c: char) {
    '0' <= c <= '9' || 'a' <= c <= 'f' || 'A' <= c <= 'F'
  }

  /** `groups` blocks of four hexadecimal digits, where a single '-' may
      follow any block but the last (and is skipped when it does). */
  predicate HexGroups(s: string, groups: nat)
    decreases groups
  {
    if groups == 0 then s == ""
    else
      && |s| >= 4
      && (forall i :: 0 <= i < 4 ==> IsHexDigit(s[i]))
      && HexGroups(if groups > 1 && |s| > 4 && s[4] == '-' then s[5..] else s[4..], groups - 1)
  }

  /** Four hexadecimal digits at `k`, followed (after an optional hyphen)
      by `groups - 1` blocks, make `groups` blocks from `k` on. */
  lemma HexGroupAt(s: string, k: nat, groups: nat, hyphen: bool)
    requires k + 4 <= |s| && IsHexDigit(s[k]) && IsHexDigit(s[k + 1]) && IsHexDigit(s[k + 2]) && IsHexDigit(s[k + 3])
    requires groups > 1
    requires hyphen ==> k + 4 < |s| && s[k + 4] == '-' && HexGroups(s[k + 5..], groups - 1)
    requires !hyphen ==> HexGroups(s[k + 4..], groups - 1)
    ensures HexGroups(s[k..], groups)
  {
    var t := s[k..];
    assert forall i :: 0 <= i < 4 ==> t[i] == s[k + i];
    if hyphen {
      assert t[4] == '-' && t[5..] == s[k + 5..];
    } else {
      assert t[4..] == s[k + 4..];
    }
  }

  /** Text PostgreSQL's `uuid` input accepts: 32 hexadecimal digits in eight
      blocks of four, a hyphen allowed after any block but the last, the whole
      optionally in braces. Any other text bound to a `uuid` parameter makes
      the query fail. */
  predicate UuidText(s: string) {
    || HexGroups(s, 8)
    || (|s| >= 2 && s[0] == '{' && s[|s| - 1] == '}' && HexGroups(s[1..|s| - 1], 8))
  }

  /** The canonical layout of a UUID: 8-4-4-4-12 hexadecimal digits. */
  predicate CanonicalUuid(s: string) {
    && |s| == 36 && s[8] == '-' && s[13] == '-' && s[18] == '-' && s[23] == '-'
    && forall i :: 0 <= i < 36 && i != 8 && i != 13 && i != 18 && i != 23 ==> IsHexDigit(s[i])
  }

  /** The canonical form `gen_random_uuid()` prints is accepted. */
  lemma CanonicalUuidAccepted(s: string)
    requires CanonicalUuid(s)
    ensures UuidText(s)
  {
    CanonicalUuidMiddle(s);
    HexGroupAt(s, 0, 8, false);
    assert s[0..] == s;
  }

  /** The blocks after the first. */
  lemma CanonicalUuidMiddle(s: string)
    requires CanonicalUuid(s)
    ensures HexGroups(s[4..], 7)
  {
    CanonicalUuidTail(s);
    HexGroupAt(s, 14, 5, true);
    HexGroupAt(s, 9, 6, true);
    HexGroupAt(s, 4, 7, true);
  }

  /** The last four blocks of the canonical form. */
  lemma CanonicalUuidTail(s: string)
    requires CanonicalUuid(s)
    ensures HexGroups(s[19..], 4)
  {
    assert HexGroups(s[32..], 1) by { assert s[32..][4..] == ""; }
    HexGroupAt(s, 28, 2, false);
    HexGroupAt(s, 24, 3, false);
    HexGroupAt(s, 19, 4, true);
  }

  /** The `messages.lead_id` foreign key: every message that names a lead
      names one that exists. */
  predicate MessagesReferToLeads(db: Db) {
    forall i :: 0 <= i < |db.messages| && db.messages[i].leadId.Some? ==> HasLead(db.leads, db.messages[i].leadId.value)
  }

  /** The primary-key constraints of the tables that have one. */
  predicate KeysUnique(db: Db) {
    && UniqueBy(db.users, (u: User) => u.id)
    && UniqueBy(db.leads, (l: Lead) => l.id)
    && UniqueBy(db.deals, (d: Deal) => d.id)
  }

  /** Appending a row whose key is new keeps the keys unique. */
  lemma AppendKeepsUnique<T(!new)>(s: seq<T>, key: T -> Id, x: T)
    requires UniqueBy(s, key)
    requires forall i :: 0 <= i < |s| ==> key(s[i]) != key(x)
    ensures UniqueBy(s + [x], key)
  {
  }

  /** Rewriting rows without touching their keys keeps the keys unique. */
  lemma UpdateKeepsUnique<T(!new)>(s: seq<T>, key: T -> Id, p: T -> bool, f: T -> T)
    requires UniqueBy(s, key)
    requires forall x :: key(f(x)) == key(x)
    ensures UniqueBy(Seqs.Update(s, p, f), key)
  {
  }

  /** Deleting rows keeps the keys unique. */
  lemma FilterKeepsUnique<T(!new)>(s: seq<T>, key: T -> Id, p: T -> bool)
    requires UniqueBy(s, key)
    ensures UniqueBy(Seqs.Filter(s, p), key)
    decreases |s|
  {
    if |s| > 0 {
      FilterKeepsUnique(s[1..], key, p);
      var rest := Seqs.Filter(s[1..], p);
      if p(s[0]) {
        forall j | 0 <= j < |rest| ensures key(rest[j]) != key(s[0]) {
          assert rest[j] in multiset(rest);
          assert rest[j] in s[1..];
        }
      }
    }
  }

  /** With unique keys, deleting the row with key `k` removes exactly one row. */
  lemma {:induction false} DeleteOneOfUnique<T(!new)>(s: seq<T>, key: T -> Id, k: Id, keep: T -> bool)
    requires UniqueBy(s, key)
    requires forall x :: keep(x) <==> key(x) != k
    requires exists i :: 0 <= i < |s| && key(s[i]) == k
    ensures |Seqs.Filter(s, keep)| == |s| - 1
    decreases |s|
  {
    assert s == [s[0]] + s[1..];
    if key(s[0]) == k {
      Seqs.FilterAll(s[1..], keep);
    } else {
      var i :| 0 <= i < |s| && key(s[i]) == k;
      assert s[1..][i - 1] == s[i];
      DeleteOneOfUnique(s[1..], key, k, keep);
    }
  }
}
