/** What the three Facebook lead-ads webhook revisions have in common: the
    shape of a delivery, the subscription handshake, and the lead form
    answers the Graph API returns for a leadgen id. */
module Meta {
  import opened Wrappers
  import opened Js

  /** `change.value` of a leadgen change. */
  datatype ChangeValue = ChangeValue(leadgenId: Option<string>, pageId: Option<string>, formId: Option<string>)

  datatype Change = Change(field: Option<string>, value: Option<ChangeValue>)

  datatype Entry = Entry(id: Option<string>, changes: Option<seq<Change>>)

  /** A webhook delivery: `{ object, entry: [...] }`. */
  datatype Delivery = Delivery(objectType: Option<string>, entry: Option<seq<Entry>>)

  predicate IsLeadgen(c: Change) {
    c.field == Some("leadgen")
  }

  /** One answer of a lead form: `{ name, values: [...] }`. */
  datatype Field = Field(name: string, values: Option<seq<string>>)

  /** What fetching a lead from the Graph API gave: its `field_data`, if the
      response had one, or a failed request. */
  datatype GraphResult = GraphLead(fieldData: Option<seq<Field>>) | GraphFailed

  // ---------------------------------------------------------------------
  // Subscription handshake

  /** The `hub.mode`, `hub.verify_token` and `hub.challenge` query parameters. */
  datatype Handshake = Handshake(mode: Option<string>, token: Option<string>, challenge: Option<string>)

  datatype HandshakeReply = Verified(challenge: Option<string>) | Forbidden | BadRequest
  {
    function Status(): nat {
      match this
      case Verified(_) => 200
      case Forbidden => 403
      case BadRequest => 400
    }
  }

  /** The verify token in effect: the environment's when set, else the built-in default. */
  function ConfiguredToken(env: Option<string>, default: string): (r: string)
    ensures Truthy(env) ==> r == env.value
    ensures !Truthy(env) ==> r == default
  {
    Or(env, Some(default)).value
  }

  /** The handshake decision: both parameters are required; the subscription
      is confirmed, echoing the challenge, only for mode 'subscribe' with the
      expected token. */
  function Verify(h: Handshake, expected: string): (r: HandshakeReply)
    ensures r.BadRequest? <==> !Truthy(h.mode) || !Truthy(h.token)
    ensures r.Verified? <==> h.mode == Some("subscribe") && h.token == Some(expected) && expected != ""
    ensures r.Verified? ==> r.challenge == h.challenge
  {
    if Truthy(h.mode) && Truthy(h.token) then
      if h.mode == Some("subscribe") && h.token == Some(expected) then Verified(h.challenge) else Forbidden
    else BadRequest
  }

  /** Only the configured token opens the subscription: any other token is refused. */
  lemma VerifyNeedsToken(h: Handshake, expected: string)
    requires Truthy(h.mode) && Truthy(h.token) && h.token != Some(expected)
    ensures Verify(h, expected) == Forbidden
  {
  }

  // ---------------------------------------------------------------------
  // Field lookup

  /** The last element satisfying `p`, written as a left-to-right recursion. */
  function LastMatching<T(==)>(s: seq<T>, p: T -> bool): (r: Option<T>)
    ensures r.None? <==> forall i :: 0 <= i < |s| ==> !p(s[i])
    ensures r.Some? ==> exists i :: 0 <= i < |s| && s[i] == r.value && p(s[i])
                                     && forall j :: i < j < |s| ==> !p(s[j])
    decreases |s|
  {
    if |s| == 0 then None
    else
      match LastMatching(s[1..], p)
      case Some(x) =>
        var i :| 0 <= i < |s[1..]| && s[1..][i] == x && p(x) && forall j :: i < j < |s[1..]| ==> !p(s[1..][j]);
        assert s[i + 1] == x;
        assert forall j :: i + 1 < j < |s| ==> s[j] == s[1..][j - 1];
        Some(x)
      case None =>
        assert forall j :: 1 <= j < |s| ==> s[j] == s[1..][j - 1];
        if p(s[0]) then Some(s[0]) else None
  }
}
