# Flow Estate CRM — a Dafny model of the request handlers and page logic

Flow Estate is a small real-estate CRM: an Express server over PostgreSQL
and a React single-page client. This project models:

- the server's REST handlers for leads, deals, users, integrations and
  round-robin settings;
- sign-up and login;
- the WhatsApp gateway routes (Evolution API): instance creation, sending,
  the inbound message webhook and the conversation listing;
- the three revisions of the Facebook lead-ads webhook;
- the client's pure page logic: the deals board, the inbox and leads
  searches, and the chat panel's send path.

Each handler is a pure function `(Db, request) -> Step(db', reply)`. The
database `Db` holds one sequence of rows per table, in storage order.
Everything the server reaches outside the database is a parameter of the
handler:

- `NOW()` and the generated primary key;
- password hashing and comparison, and token signing;
- Google ID-token verification;
- the Graph API and the WhatsApp gateway.

A handler that calls out returns the request it made (`CreateCall`,
`SendCall`, the list of Graph fetches), so properties such as "no request
is made on a 400" can be stated. JavaScript's truthiness and `||`
defaults, and evaluation that throws a `TypeError`, are written out
explicitly in module `Js`.

Modules: `Wrappers`, `Js`, `Seqs`, `Strings`, `Sorting`, `Schema` (shared
vocabulary); `Leads`, `Deals`, `Users`, `Integrations`, `RoundRobin`, `Auth`,
`Evolution` (server routes); `Meta`, `FacebookWebhook`, `Webhooks`,
`WebhooksFacebook` (the three webhook revisions); `DealsPage`, `InboxPage`,
`LeadsPage`, `WhatsAppChat` (client).

### Behaviour of the code worth knowing

- No webhook revision merges a redelivered lead into an existing one.
  - `webhooks.js` and `facebook_webhook.js` insert a row under a freshly
    generated key for every lead they read, so a redelivered event makes a
    second row. `facebook_webhook.js` stores the leadgen id in
    `facebook_lead_id` but never looks it up.
  - `webhooks_facebook.js` writes nothing at all; it only fetches.
- `POST /api/leads` assigns the new lead to the requesting user. The
  round-robin routes only read and overwrite the settings row; no route
  assigns leads by round robin.
- Webhook lead names:
  - `facebook_webhook.js` takes `full_name || name || 'Unknown'`;
  - `webhooks.js` takes the first value of the last name-like field, and
    'Facebook Lead' when there is none.
- The inbound WhatsApp number is matched against the stored phone text
  with `LIKE '%number%'`, not by digits. A phone stored as
  `+1 809-555-1234` is therefore not found from
  `18095551234@s.whatsapp.net` (`Evolution.FormattedPhoneNotFound`).
- Lead ids are PostgreSQL `uuid` values. Text that is not a UUID makes
  the lookup, update or delete query fail, and the route answers 500, not
  404 (`Leads.MalformedIdFails`).
- Two migration scripts define `messages` differently. The model follows
  `server/src/scripts/init_db_messages.js`:
  - `instance_id` and `remote_jid` are NOT NULL;
  - `status` defaults to 'sent';
  - `media_type` has no default;
  - `timestamp` defaults to now.

  `integrations` follows `server/src/scripts/run_missing_migrations.js`:
  `type` is NOT NULL, and `updated_at` defaults to now.

  Under `init_db_messages.js`, `messages.lead_id` is `ON DELETE SET NULL`,
  so deleting a lead detaches its messages (`Leads.Delete`). Under
  `run_missing_migrations.js` the same key has no delete action, and
  deleting a lead that has messages would fail instead.

## Model

| member | source | states |
|---|---|---|
| Schema.FilterKeepsUnique | server/src/routes/leads.js:76-78 | deleting rows keeps primary keys unique |
| Schema.DeleteOneOfUnique | server/src/routes/leads.js:76-78 | deleting by a present unique key removes exactly one row |
| Seqs.Filter | client/src/pages/Deals.jsx:88-90 | `filter` keeps exactly the elements satisfying the predicate, as an order-preserving subsequence with their multiplicities |
| Seqs.FilterEval | client/src/pages/Leads.jsx:30-33 | a filter whose predicate may throw throws iff it throws on some element, and otherwise is the plain filter |
| Seqs.Find | server/src/routes/auth.js:13-14 | the first row of a query: none iff no row matches, else a matching row with no matching row before it |
| Seqs.CountUpdate | server/src/routes/integrations.js:28-31 | rewriting rows in a way a predicate cannot see leaves the number of rows satisfying it unchanged |
| Sorting.Sort | server/src/routes/leads.js:10 | `ORDER BY` yields a permutation of the rows, sorted by the order |
| Sorting.TextAscNullsLastIsPreorder | server/src/routes/users.js:9 | ascending text order with NULLs last is total and transitive |
| Sorting.IntDescIsPreorder | server/src/routes/leads.js:10 | `created_at DESC` is total and transitive |
| Strings.Digits | server/src/routes/evolution.js:258 | `replace(/\D/g, '')` keeps exactly the digits, in order |
| Strings.DigitsIdempotent | server/src/routes/evolution.js:340 | cleaning an already cleaned number changes nothing |
| Strings.RemoveFirstAppended | server/src/routes/evolution.js:306 | `replace` with a string removes its first occurrence: a suffix appended to text that lacks the suffix's first character is removed, giving the text back |
| Strings.LowerIdempotent | client/src/pages/Deals.jsx:89 | lowercasing twice is lowercasing once |
| Strings.TrimEmptyIffAllSpace | client/src/components/WhatsAppChat.jsx:41 | `trim()` is empty exactly when the text is all white space |
| Strings.Join | server/src/routes/facebook_webhook.js:75 | `values.join(', ')` of no values is '' and of one value is that value |
| Strings.JoinAppend | server/src/routes/facebook_webhook.js:75 | joining one more value appends the separator and that value |
| Js.Or | server/src/routes/leads.js:42 | `a \|\| b` is `a` when `a` is truthy, otherwise `b` |
| Leads.List | server/src/routes/leads.js:7-16 | every lead is listed, newest first |
| Leads.Get | server/src/routes/leads.js:19-33 | 500 iff the id is not UUID text; 404 iff it is and no lead has it; otherwise that lead |
| Leads.Create | server/src/routes/leads.js:36-49 | inserts exactly one row with the request's columns, the requester as owner and status defaulting to 'New'; a key collision answers 500 with no change |
| Leads.Update | server/src/routes/leads.js:52-71 | 500 iff the id is not UUID text and 404 iff it is but missing, both with no change; the matching row gets the five columns and `updated_at`, every other row and column unchanged |
| Leads.Delete | server/src/routes/leads.js:74-88 | 500 for non-UUID text and 404 for a missing id, with no change; otherwise removes exactly the rows with the id, keeping the order of the rest, and sets the lead link of its messages to NULL |
| Leads.DetachMessages | server/src/scripts/init_db_messages.js:20 | `ON DELETE SET NULL`: no message names the lead afterwards, only `lead_id` changes, and messages of other leads are untouched |
| Leads.DeleteKeepsMessageLinks | server/src/scripts/init_db_messages.js:20 | a delete keeps every message link pointing at an existing lead |
| Leads.MalformedIdFails | server/src/routes/leads.js:19-33 | the id 'abc' answers 500 on get, update and delete, and changes nothing |
| Schema.CanonicalUuidAccepted | server/src/routes/leads.js:22 | every key in canonical 8-4-4-4-12 form is accepted UUID text |
| Leads.CreateThenGet | server/src/routes/leads.js:19-49 | a created lead with a UUID key is then found by its id |
| Leads.DeleteThenGet | server/src/routes/leads.js:74-88 | after a delete the id is not found |
| Leads.DeleteRemovesOne | server/src/routes/leads.js:74-88 | with unique keys, deleting a present lead shortens the table by one |
| Leads.HandlersKeepKeysUnique | server/src/routes/leads.js:36-88 | create, update and delete keep lead ids unique |
| Deals.LeadOf | server/src/routes/deals.js:10-13 | the `LEFT JOIN` finds a lead whose id equals the deal's `lead_id`, or none when no lead has it |
| Deals.List | server/src/routes/deals.js:7-20 | every deal is listed once, newest first, each with its lead's name |
| Deals.Get | server/src/routes/deals.js:23-42 | 404 iff no deal has the id; otherwise that deal with its joined lead's name, email and phone, all NULL when the join finds no lead |
| Deals.Create | server/src/routes/deals.js:45-58 | inserts one row, stage defaulting to 'Prospecting' when falsy; a collision answers 500 with no change |
| Deals.BuildUpdate | server/src/routes/deals.js:65-77 | the dynamic query sets one column per truthy field, in source order, numbering placeholders from 1 with the id as the last parameter |
| Deals.BuiltUpdateMeansMerge | server/src/routes/deals.js:65-80 | running the built query on the target row is the column-wise truthy merge of the request plus `updated_at` |
| Deals.ApplyNumbered | server/src/routes/deals.js:71-77 | applying assignments numbered from any offset is applying the truthy fields in order |
| Deals.Update | server/src/routes/deals.js:61-91 | 404 iff the id is missing; the matching row becomes the merge, every other row is unchanged |
| Deals.Delete | server/src/routes/deals.js:94-108 | 404 iff missing; removes exactly the rows with the id |
| Deals.DeleteRemovesOne | server/src/routes/deals.js:94-108 | with unique keys, deleting a present deal shortens the table by one |
| Deals.CreateThenGet | server/src/routes/deals.js:23-58 | with unique keys, a created deal is then found by its id, with its lead's name, email and phone |
| Deals.HandlersKeepKeysUnique | server/src/routes/deals.js:45-108 | create, update and delete keep deal ids unique |
| Deals.EmptyUpdateOnlyTouchesTimestamp | server/src/routes/deals.js:68-76 | a request whose stage, value, probability and expected close date are all falsy builds an UPDATE with no SET field beyond the timestamp, and changes only `updated_at` |
| Users.List | server/src/routes/users.js:7-15 | the summaries of all users, each once (same multiset), ordered by full name with NULLs last |
| Users.GetProfile | server/src/routes/users.js:18-32 | 404 iff the requester has no row; otherwise their profile |
| Users.UpdateProfile | server/src/routes/users.js:35-59 | 400 iff `full_name` is falsy; 404 iff it is truthy and the user is missing; only `full_name`, `phone` and `updated_at` of that user change; the reply is the six returned columns of the updated row |
| Users.UpdateThenGetProfile | server/src/routes/users.js:35-59 | after a successful update the profile shows the new name and phone |
| Users.UpdateProfileKeepsKeys | server/src/routes/users.js:45-48 | a profile update keeps keys unique |
| Integrations.List | server/src/routes/integrations.js:7-15 | every integration, ordered by type with NULLs last |
| Integrations.Save | server/src/routes/integrations.js:18-45 | an existing type has all its rows overwritten; a new type gets one row; a NULL type answers 500 with no change |
| Integrations.SaveCountPerType | server/src/routes/integrations.js:22-38 | saving creates a row for a type only when none exists; every other count is unchanged |
| Integrations.SaveIdempotent | server/src/routes/integrations.js:18-45 | saving the same request twice leaves the table as saving it once |
| RoundRobin.Get | server/src/routes/round-robin.js:7-20 | returns the settings row, first creating it inactive when missing |
| RoundRobin.Put | server/src/routes/round-robin.js:23-35 | overwrites `is_active`, `included_user_ids` and `updated_at`, keeping the cursor; with no row nothing changes and the body is empty |
| RoundRobin.GetIdempotent | server/src/routes/round-robin.js:7-20 | reading the settings a second time changes nothing more |
| RoundRobin.PutAfterGetTakesEffect | server/src/routes/round-robin.js:7-35 | once the row exists, a save is what the next read returns |
| Auth.ByEmail | server/src/routes/auth.js:13 | the lookup by email never matches a NULL email |
| Auth.Register | server/src/routes/auth.js:8-36 | 400 iff the email is taken; the table changes iff the email is free, hashing succeeds and the key is free, by one appended 'agent' row; 201 iff that happened and signing succeeds, with the signed token |
| Auth.FailedSigningStillRegisters | server/src/routes/auth.js:22-34 | when signing throws after the insert the reply is 500 but the user exists, and a retry answers 400 |
| Auth.Login | server/src/routes/auth.js:39-63 | an unknown email and a wrong password both answer 400; 500 iff the comparison throws or the password matches and signing throws; never writes |
| Auth.Google | server/src/routes/auth.js:69-108 | an unverifiable token answers 401; a known email logs in with no write; otherwise one 'agent' row is created; every failure, signing included, answers 401, and a row created before signing fails is kept |
| Auth.SignUpKeepsUsersUnique | server/src/routes/auth.js:13-26 | both sign-up paths keep ids and non-NULL emails unique |
| Auth.LoginFailuresIndistinguishable | server/src/routes/auth.js:45-53 | a missing user and a wrong password get the same reply |
| Auth.GoogleCreatesAtMostOnce | server/src/routes/auth.js:84-97 | a second Google sign-in with the same account creates nothing and answers the same |
| Auth.RegisterThenLogin | server/src/routes/auth.js:8-63 | whoever registers can log in with the same password as the user just created |
| Evolution.FailureStatus | server/src/routes/evolution.js:99 | `error.response?.status \|\| 500` |
| Evolution.DropSuffix | server/src/routes/evolution.js:17-23 | a suffix is removed only when present |
| Evolution.ApiUrlEndsWithEndpoint | server/src/routes/evolution.js:14-25 | every gateway URL ends with its endpoint |
| Evolution.ApiUrlManagerBase | server/src/routes/evolution.js:17-23 | a base ending in `/manager` or `/manager/` loses that suffix |
| Evolution.ApiUrlPlainBase | server/src/routes/evolution.js:14-25 | a clean base is used as is |
| Evolution.ApiUrlOneSlashOnly | server/src/routes/evolution.js:17-19 | of a doubled trailing slash only one is removed, for every base |
| Evolution.InstanceNameFor | server/src/routes/evolution.js:63-64 | the generated name is `user_<id>_wa` |
| Evolution.InstanceNameInjective | server/src/routes/evolution.js:63-64 | different users never get the same generated name |
| Evolution.CreateInstance | server/src/routes/evolution.js:33-104 | 500 without configuration (the `checkConfig` guard), 400 without a user id, 404 for an unknown user; otherwise the stored or generated name is saved before the gateway call, and a `response.message` that includes 'already exists' (as a substring of a text, or as an element of a list) or a 403 counts as success |
| Evolution.ListedMessageNotRecognised | server/src/routes/evolution.js:91 | `message.includes('already exists')` is a substring test on a text but an element test on a list: a text containing the words is recognised, a one-element list holding a longer text is not (unless the status is 403) |
| Evolution.CreateInstanceRecordsName | server/src/routes/evolution.js:59-68 | after asking, the user's row holds the instance name used |
| Evolution.CreateInstanceStable | server/src/routes/evolution.js:59-68 | asking again reuses the saved name and writes nothing |
| Evolution.LeadByPhone | server/src/routes/evolution.js:259-260 | some lead whose phone contains the number (the query has no `ORDER BY`), or none iff no phone contains it |
| Evolution.FormattedPhoneNotFound | server/src/routes/evolution.js:306-313 | a formatted stored phone is not matched by its bare number |
| Evolution.SendText | server/src/routes/evolution.js:230-275 | 400 iff a field is falsy, with no call; a failed send writes nothing; a successful one stores one outgoing message under the number's digits |
| Evolution.Extract | server/src/routes/evolution.js:292-303 | content priority: conversation, then extended text, then image caption or '[Image]' |
| Evolution.NumberOfJid | server/src/routes/evolution.js:306 | stripping the JID suffix gives the number back |
| Evolution.Webhook | server/src/routes/evolution.js:278-334 | a `messages.upsert` event stores exactly one message; other events are acknowledged with no write; a missing part answers 500 with no write |
| Evolution.ListMessages | server/src/routes/evolution.js:337-352 | exactly the instance's messages with the phone's digits, oldest first |
| Evolution.SentMessageIsListed | server/src/routes/evolution.js:256-265 | a sent message then appears in its conversation |
| Evolution.ReceivedMessageIsListed | server/src/routes/evolution.js:305-324 | a received message then appears in its conversation |
| Meta.ConfiguredToken | server/src/routes/webhooks.js:14 | the environment's token when set, else the default |
| Meta.Verify | server/src/routes/webhooks.js:16-25 | 400 iff mode or token is missing; the challenge is echoed iff mode is 'subscribe' and the token is the expected one |
| Meta.VerifyNeedsToken | server/src/routes/webhooks.js:17-21 | any other token is refused with 403 |
| Meta.LastMatching | server/src/routes/facebook_webhook.js:74-76 | the last element satisfying a predicate, none iff there is none |
| FacebookWebhook.Subscribe | server/src/routes/facebook_webhook.js:6-24 | 400 iff mode or token is missing, 403 iff both are present but not accepted; the challenge is echoed iff mode is 'subscribe' and the token is `FACEBOOK_WEBHOOK_VERIFY_TOKEN` or, when that is unset, 'flow_estate_webhook_token_2024' |
| FacebookWebhook.OtherRevisionsTokenRefused | server/src/routes/facebook_webhook.js:7 | with its variable unset, this revision refuses 'flow_estate_secret', the default of the other two |
| FacebookWebhook.SetField | server/src/routes/facebook_webhook.js:75 | assigning a key sets it and leaves other keys alone; an existing key keeps its place and a new key goes last (array-index names and `__proto__` excepted, see Left out) |
| FacebookWebhook.ParseFields | server/src/routes/facebook_webhook.js:72-77 | parsing throws iff some field has no values |
| FacebookWebhook.ParseFieldsLastWins | server/src/routes/facebook_webhook.js:74-76 | a key ends with the joined values of its last field |
| FacebookWebhook.Normalise | server/src/routes/facebook_webhook.js:80-82 | name is `full_name` when truthy, else `name` when truthy, else 'Unknown'; email is `email` when truthy, else NULL; phone is `phone` when truthy, else `phone_number` when truthy, else NULL |
| FacebookWebhook.ConnectionFor | server/src/routes/facebook_webhook.js:48-58 | some connection for the page whose form matches or is NULL (the query has no `ORDER BY`), or none iff no connection matches |
| FacebookWebhook.LeadRow | server/src/routes/facebook_webhook.js:85-105 | the inserted lead is from Facebook, status 'new', stage 'nuevo', under the generated key, with the leadgen id in `facebook_lead_id` |
| FacebookWebhook.ProcessChange | server/src/routes/facebook_webhook.js:39-107 | non-leadgen changes and unconnected pages are skipped; it throws iff a leadgen change has no value, or is connected and its fetch fails, a field has no values, or the key is taken; otherwise one row is inserted |
| FacebookWebhook.ProcessItems | server/src/routes/facebook_webhook.js:36-110 | only leads change, old rows are kept, every new row is a Facebook lead, and a failure stops processing |
| FacebookWebhook.Receive | server/src/routes/facebook_webhook.js:27-120 | 404 for non-page objects; on a throw 500, with only leads changed and the old rows kept; 200 only when no entry lacks `changes` and no change always throws |
| FacebookWebhook.ProcessedMeansNothingBroke | server/src/routes/facebook_webhook.js:36-110 | a loop that ran to the end met no entry without `changes` and no change that always throws |
| FacebookWebhook.NothingBrokeMeansProcessed | server/src/routes/facebook_webhook.js:36-110 | with fresh keys, a loop over such items runs to the end |
| FacebookWebhook.ReceiveAcknowledged | server/src/routes/facebook_webhook.js:27-120 | a page delivery with nothing that always throws and fresh keys answers 200 |
| FacebookWebhook.ProcessItemsInsertsExpected | server/src/routes/facebook_webhook.js:36-110 | without a failure, the new rows are one per connected leadgen change, in order |
| FacebookWebhook.ProcessItemsStopsAtFirstThrow | server/src/routes/facebook_webhook.js:36-110 | a loop that throws stops at an item that throws on the table as it stood, after items none of which always throws, and keeps one row per connected leadgen change ahead of it, in order |
| FacebookWebhook.ReceiveFailureKeepsEarlierRows | server/src/routes/facebook_webhook.js:27-120 | a page delivery answered 500 keeps the rows inserted before the item that threw, one per connected leadgen change ahead of it (no transaction rolls them back); that item always throws, or its key, the next one after those rows, is taken |
| FacebookWebhook.ReceiveInsertsOnePerLeadgen | server/src/routes/facebook_webhook.js:27-112 | an acknowledged delivery inserted exactly one lead per connected leadgen change |
| Webhooks.Subscribe | server/src/routes/webhooks.js:7-26 | 400 iff mode or token is missing; the challenge is echoed iff mode is 'subscribe' and the token is `FACEBOOK_VERIFY_TOKEN` or, when that is unset, 'flow_estate_secret' |
| Webhooks.StartLeads | server/src/routes/webhooks.js:38-53 | the loop throws iff some entry's first change is leadgen without a value; the leads started are the leadgen ids of the entries whose first change is leadgen, in order, taken over the entries before the first that throws (all of them when none does); entries with missing or empty changes are skipped |
| Webhooks.OnlyFirstChangeMatters | server/src/routes/webhooks.js:40-41 | changes after the first in an entry are never looked at |
| Webhooks.MetaIntegration | server/src/routes/webhooks.js:68-73 | some 'meta' integration (the query has no `ORDER BY`), or none iff no integration has that type |
| Webhooks.PageToken | server/src/routes/webhooks.js:75-81 | a token exists iff the 'meta' row has a config with a non-empty `page_access_token` |
| Webhooks.MapField | server/src/routes/webhooks.js:98-105 | a recognised field without values throws; others are ignored |
| Webhooks.MapFieldsLastMatchWins | server/src/routes/webhooks.js:93-105 | name, email and phone each end with the first value of their last field, or their initial value |
| Webhooks.MapFieldsThrows | server/src/routes/webhooks.js:97-105 | the mapping throws iff some recognised field has no values |
| Webhooks.HandleLead | server/src/routes/webhooks.js:64-126 | a row iff there is a page token, the fetch and the mapping succeed and the key is free; that row is the 'facebook'/'New' lead of the mapped answers |
| Webhooks.LeadFrom | server/src/routes/webhooks.js:90-114 | the inserted row: the generated key, source 'facebook', status 'New', the mapped name, email and phone |
| Webhooks.FacebookRows | server/src/routes/webhooks.js:64-126 | one row per started lead, the n-th from its answers under the n-th key |
| Webhooks.HandleAllInsertsEach | server/src/routes/webhooks.js:38-126 | when every started lead can be fetched and read and the keys are fresh, exactly those rows are appended, in order |
| Webhooks.ReceiveInsertsEach | server/src/routes/webhooks.js:29-126 | such a page delivery answers 200 and appends exactly one row per started lead |
| Webhooks.HandleAll | server/src/routes/webhooks.js:64-126 | only leads change, at most one row per started lead, each a Facebook lead |
| Webhooks.Receive | server/src/routes/webhooks.js:29-62 | 404 for non-page objects; otherwise 200 whatever follows, with only Facebook leads added |
| WebhooksFacebook.Subscribe | server/src/routes/webhooks_facebook.js:20-35 | answers every handshake exactly as the `GET /facebook` revision does (same variable, same default 'flow_estate_secret') |
| WebhooksFacebook.WalkChanges | server/src/routes/webhooks_facebook.js:46-59 | without a page token nothing is fetched; it throws iff a leadgen change has no value; otherwise the fetched ids are those of the leadgen changes, in order |
| WebhooksFacebook.WalkEntries | server/src/routes/webhooks_facebook.js:45-46 | throws iff some entry has no changes or a broken change |
| WebhooksFacebook.WalkEntriesAppend | server/src/routes/webhooks_facebook.js:45-84 | walking two runs of entries is walking the first and then, unless it threw, the second |
| WebhooksFacebook.ThenAssoc | server/src/routes/webhooks_facebook.js:45-84 | sequencing walks is associative |
| WebhooksFacebook.WalkEntriesFetchesInOrder | server/src/routes/webhooks_facebook.js:45-70 | a walk that does not throw fetches the ids of all leadgen changes of all entries, in order |
| WebhooksFacebook.EveryChangeIsFetched | server/src/routes/webhooks_facebook.js:46-70 | every leadgen change of an entry is fetched, in order, not only the first |
| WebhooksFacebook.Receive | server/src/routes/webhooks_facebook.js:38-86 | non-page objects are ignored; without a token nothing is fetched; a missing entry list throws |
| DealsPage.Search | client/src/pages/Deals.jsx:88-90 | the matches by lowercased lead name, with a missing name as '', as an order-preserving subsequence |
| DealsPage.EmptySearchKeepsAll | client/src/pages/Deals.jsx:88-90 | an empty search keeps every deal |
| DealsPage.Bucket | client/src/pages/Deals.jsx:93-98 | each column holds only deals of its stages, in list order |
| DealsPage.InColumnIffColumnOf | client/src/pages/Deals.jsx:93-98 | a deal is in a column iff its stage names that column |
| DealsPage.ColumnsDisjoint | client/src/pages/Deals.jsx:93-98 | no deal is in two columns |
| DealsPage.ColumnsPartitionShown | client/src/pages/Deals.jsx:93-98 | the columns together hold every deal with a known stage exactly once |
| DealsPage.Render | client/src/pages/Deals.jsx:128-177 | the empty state is shown iff the unfiltered list is empty; otherwise the four columns of the search |
| DealsPage.SearchNeverEmptiesPage | client/src/pages/Deals.jsx:128-137 | the search never switches to the empty state |
| InboxPage.WithPhone | client/src/pages/Inbox.jsx:36 | exactly the leads with a truthy phone, in order |
| InboxPage.MatchAsWritten | client/src/pages/Inbox.jsx:22-25 | throws iff the lead has no name; otherwise name or raw phone match |
| InboxPage.SearchAsWritten | client/src/pages/Inbox.jsx:22-26 | throws iff some lead has no name |
| InboxPage.NamelessLeadBreaksSearch | client/src/pages/Inbox.jsx:22-25 | one nameless lead with a phone breaks the search for every term |
| InboxPage.Search | client/src/pages/Inbox.jsx:22-26 | the corrected search: matches by name (missing as '') or phone, as an order-preserving subsequence |
| InboxPage.SearchAgreesWhenDefined | client/src/pages/Inbox.jsx:22-26 | where the as-written search answers, the corrected one agrees |
| InboxPage.EmptySearchKeepsAll | client/src/pages/Inbox.jsx:22-36 | an empty search keeps every phone-bearing lead |
| InboxPage.ShownLeadsAreFetched | client/src/pages/Inbox.jsx:22-36 | the contacts shown are fetched leads with phones, in order |
| LeadsPage.MatchAsWritten | client/src/pages/Leads.jsx:30-33 | throws iff the name is missing, or the name does not match and the email is missing |
| LeadsPage.SearchAsWritten | client/src/pages/Leads.jsx:30-33 | throws iff the predicate throws on some lead |
| LeadsPage.LeadWithoutEmailBreaksSearch | client/src/pages/Leads.jsx:30-33 | a lead without an email renders with an empty search and breaks with 'x' |
| LeadsPage.Search | client/src/pages/Leads.jsx:30-33 | the corrected search: name or email (missing as '') contains the term, as an order-preserving subsequence |
| LeadsPage.EmptySearchKeepsAll | client/src/pages/Leads.jsx:30-33 | an empty search keeps every lead |
| LeadsPage.SearchAgreesWhenDefined | client/src/pages/Leads.jsx:30-33 | where the as-written search answers, the corrected one agrees |
| LeadsPage.StatusLabel | client/src/pages/Leads.jsx:117 | a missing status shows as 'New' |
| LeadsPage.SourceLabel | client/src/pages/Leads.jsx:121 | a missing source shows as 'Manual' |
| WhatsAppChat.FormatPhone | client/src/components/WhatsAppChat.jsx:14-17 | '' for a falsy phone; otherwise exactly its digits, in order |
| WhatsAppChat.FormatPhoneIdempotent | client/src/components/WhatsAppChat.jsx:14-17 | formatting twice is formatting once |
| WhatsAppChat.SendMessage | client/src/components/WhatsAppChat.jsx:39-71 | a blank message changes nothing; an empty formatted phone sets the error with no request; the request carries the formatted phone; the input is cleared only after a successful send |
| WhatsAppChat.BlankMessageIgnored | client/src/components/WhatsAppChat.jsx:41 | an all-white-space message is never sent |
| WhatsAppChat.PostedNumberIsDigits | client/src/components/WhatsAppChat.jsx:47-58 | the posted number is non-empty digits and the text is as typed |

## Left out

- HTTP, routing, the JWT middleware and token expiry are not modelled. A handler receives the authenticated user's id as a parameter.
- Concurrency is not modelled. `webhooks.js` starts its lead handlers without awaiting them; the model runs them one after another, in the order they were started.
- Logging, `console` output, timers and polling are left out, and so is React rendering beyond what each page shows.
- Generated values (UUIDs, `NOW()`, the random Google password) are parameters.
- bcrypt, JWT signing, Google token verification, and the Graph and gateway HTTP calls are parameters. Each returns a value or throws, and the handlers model both outcomes.
- Leads.Get, Leads.Update, Leads.Delete: the accepted id text follows PostgreSQL's `uuid` input only for the plain and braced forms of 32 hex digits; comparison of stored keys is text equality, so two spellings of the same UUID (case, hyphens) are treated as different keys.
- Deals.Get, Deals.Update, Deals.Delete: an id that is not UUID text is treated as a missing deal (404). The `deals` table definition is not part of this model, so whether its key is a `uuid` that would make the query fail with 500 is not stated.
- Evolution.CreateInstance: a `userId` that is not UUID text is treated as an unknown user (404); the `users` table definition is not part of this model.
- SQL `LIKE '%t%'` is modelled as plain substring search. The two differ only when the term holds `%` or `_`, which digit strings never do.
- `toLowerCase` is modelled as ASCII case mapping. Text collation is modelled as code-point order.
- Request fields the handlers call string methods on are text. Numbers, objects and arrays arriving there are not modelled.
- Evolution.SendText: `number` is text. A JSON number passes the `!number` check (server/src/routes/evolution.js:233) and is sent to the gateway. `number.replace` (server/src/routes/evolution.js:257) then throws, so the reply is 500 and nothing is stored; the model cannot express that case.
- Evolution.Webhook: `key.remoteJid` is text. A non-text JID would make `remoteJid.replace` (server/src/routes/evolution.js:306) throw; that case is not modelled.
- FacebookWebhook.SetField: the answers are kept in first-assignment order. A JavaScript object instead lists array-index names (such as "1" or "42") first, in ascending numeric order, so the key order of the stored `raw_data` differs for such names. Assigning to `__proto__` creates no key in JavaScript, while the model stores one.
- Integration config values are text. A non-text `page_access_token` is not modelled.
- The Evolution routes for the QR code, status, logout and webhook configuration (`server/src/routes/evolution.js:107-228`) are left out. They only forward to the gateway and change no state.
- `auth_facebook.js`, `n8n.js`, the migration scripts and the client's connect and form components are not part of this model.
- Ignored payload fields: `pushName` of a WhatsApp event and `created_time` of a leadgen change are read but never used, so the model drops them.
- WebhooksFacebook.Receive: does not return the status code. It is 200 for every delivery, sent before the body is read.
- Round-robin assignment of new leads is not modelled, because no route in the code performs it.
- Webhooks.HandleAll: its own contract only bounds what is added. The exact rows, one per started lead in order when every fetch and mapping succeeds and the keys are fresh, are stated by Webhooks.HandleAllInsertsEach.
- Webhooks.Receive: likewise bounded; Webhooks.ReceiveInsertsEach states the exact insertion.
- FacebookWebhook.Receive: its contract states that a 200 means nothing in the delivery always throws; the converse holds only with fresh generated keys and is stated by FacebookWebhook.ReceiveAcknowledged. Which rows a 500 keeps needs the first throwing item as a witness and is stated by FacebookWebhook.ReceiveFailureKeepsEarlierRows.

## Findings

| source | as written | input that shows it | evidently intended | confidence | as-written member | corrected member |
|---|---|---|---|---|---|---|
| client/src/pages/Leads.jsx:30-33 | `lead.name.toLowerCase()` and `lead.email.toLowerCase()` are called on nullable columns | a lead named 'Ana' with no email (as `webhooks.js` and `facebook_webhook.js` store when the form has no email field; the lead form sends ''), searched with 'x': rendering throws a `TypeError` | a missing name or email is searched as '' | not executed | LeadsPage.LeadWithoutEmailBreaksSearch | LeadsPage.Search |
| client/src/pages/Inbox.jsx:22-25 | `lead.name.toLowerCase()` is called on a nullable column | a lead with a phone and no name, any search term: the filter effect throws | a missing name is searched as '', as the deals page does | not executed | InboxPage.NamelessLeadBreaksSearch | InboxPage.Search |
