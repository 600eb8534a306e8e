/**
  The payment-provider webhook (`POST /api/stripe`) as a pure function from an
  abstract request to a response and at most one organization write, plus the
  identity provider's organization store that the write updates.

  Signature checking (`constructEvent`) and the line-item listing are oracles
  passed in as functions; the HMAC itself is not modelled.
 */
module Webhook {
  import opened Wrappers
  import opened Entitlements

  /** The internal plan names the price table maps to: 'pro' | 'enterprise'. */
  datatype PlanTag = ProTag | EnterpriseTag

  const EnterprisePriceId: string := "price_1SB0sLEq3PQJrkWnYi6NMnCe"
  const ProPriceId: string := "price_1SB0s8Eq3PQJrkWnTrxhGeBM"

  /** `PLAN_BY_PRICE`: catalog price id to internal plan. */
  const PlanByPrice: map<string, PlanTag> := map[EnterprisePriceId := EnterpriseTag, ProPriceId := ProTag]

  const CheckoutCompleted: string := "checkout.session.completed"
  const SubscriptionDeleted: string := "customer.subscription.deleted"

  /** The decoded event: its type and the session object the handler reads. */
  datatype Event = Event(eventType: string, sessionId: string, clientReferenceId: string)

  datatype Price = Price(id: string)
  /** A listed line item; its `price` may be null. */
  datatype LineItem = LineItem(price: Option<Price>)

  /** What reaches the endpoint: the `stripe-signature` header (absent or not) and the raw body. */
  datatype Request = Request(signature: Option<string>, rawBody: string)

  /** `if (!sig)`: an absent header and an empty one are both missing. */
  predicate HasSignature(req: Request) {
    req.signature.Some? && req.signature.value != ""
  }

  /** Verification of the raw body against a signature: the event, or an error message. */
  datatype Verified = Valid(event: Event) | Invalid(message: string)

  datatype Body = Received | Text(message: string)
  datatype Response = Response(status: nat, body: Body)

  /**
    The organization fields one `updateOrganization` call sends. A
    `privateMetadata` of `undefined` is dropped from the request body, so
    None here means the field is not sent at all.
   */
  datatype OrgUpdate = OrgUpdate(maxAllowedMemberships: nat, privateMetadataPlan: Option<PlanTag>)
  datatype OrgWrite = OrgWrite(orgId: string, update: OrgUpdate)

  datatype Outcome = Outcome(response: Response, write: Option<OrgWrite>)

  const Ack: Response := Response(200, Received)

  /** The update record sent for a resolved plan. */
  function UpdateFor(plan: PlanTag): (u: OrgUpdate)
    ensures u.privateMetadataPlan == Some(plan)
    ensures plan == ProTag ==> u.maxAllowedMemberships == 10
    ensures plan == EnterpriseTag ==> u.maxAllowedMemberships == 0
  {
    match plan
    case ProTag => OrgUpdate(10, Some(ProTag))
    case EnterpriseTag => OrgUpdate(0, Some(EnterpriseTag))
  }

  /** The update record sent when the subscription is deleted: two members, metadata `undefined` (not sent). */
  const CancellationUpdate: OrgUpdate := OrgUpdate(2, None)

  /** `(first?.price)?.id`: the price id of the first line item, if any. */
  function FirstPriceId(items: seq<LineItem>): (r: Option<string>)
    ensures items == [] ==> r == None
    ensures items != [] && items[0].price.None? ==> r == None
    ensures items != [] && items[0].price.Some? ==> r == Some(items[0].price.value.id)
  {
    if items == [] then None
    else match items[0].price
      case None => None
      case Some(p) => Some(p.id)
  }

  /**
    `priceId ? PLAN_BY_PRICE[priceId] ?? null : null`. An empty id is falsy. A
    key such as "constructor" yields an inherited non-plan value in JavaScript;
    since neither plan comparison then matches, it behaves as an unknown price.
   */
  function ResolvePlan(priceId: Option<string>): (r: Option<PlanTag>)
    ensures r.Some? <==> priceId.Some? && priceId.value in PlanByPrice
    ensures r.Some? ==> r.value == PlanByPrice[priceId.value]
  {
    match priceId
    case None => None
    case Some(id) => if id != "" && id in PlanByPrice then Some(PlanByPrice[id]) else None
  }

  /**
    The handler. `verify` stands for `constructEvent` over the exact raw body;
    `lineItems` for `listLineItems`, consulted only for a completed checkout.
   */
  function Handle(req: Request, verify: (string, string) -> Verified, lineItems: string -> seq<LineItem>): (o: Outcome)
    ensures o.response.status == 400 || o.response == Ack
    ensures o.response.status == 400 <==>
      !HasSignature(req) || verify(req.rawBody, req.signature.value).Invalid?
    ensures o.write.Some? ==> o.response == Ack
    ensures o.write.Some? ==> o.write.value.orgId == verify(req.rawBody, req.signature.value).event.clientReferenceId
  {
    if !HasSignature(req) then Outcome(Response(400, Text("Missing stripe-signature")), None)
    else
      var sig := req.signature.value;
      match verify(req.rawBody, sig)
      case Invalid(msg) => Outcome(Response(400, Text("Webhook Error: " + msg)), None)
      case Valid(event) =>
        var orgId := event.clientReferenceId;
        if event.eventType == CheckoutCompleted then
          match ResolvePlan(FirstPriceId(lineItems(event.sessionId)))
          case None => Outcome(Ack, None)
          case Some(plan) => Outcome(Ack, Some(OrgWrite(orgId, UpdateFor(plan))))
        else if event.eventType == SubscriptionDeleted then
          Outcome(Ack, Some(OrgWrite(orgId, CancellationUpdate)))
        else
          Outcome(Ack, None)
  }

  // ---------------------------------------------------------------------------
  // Organization store.

  datatype OrgRecord = OrgRecord(maxMemberships: nat, metadataPlan: Option<PlanTag>)

  /** Organizations by id, as the identity provider holds them. */
  type Orgs = map<string, OrgRecord>

  /**
    One write to an existing organization: the ceiling is replaced, the plan
    tag is replaced when metadata is sent and kept when it is not. Unknown ids
    are untouched.
   */
  function Apply(orgs: Orgs, w: OrgWrite): (r: Orgs)
    ensures r.Keys == orgs.Keys
    ensures w.orgId in orgs ==> r[w.orgId].maxMemberships == w.update.maxAllowedMemberships
    ensures w.orgId in orgs ==>
      r[w.orgId].metadataPlan ==
        (if w.update.privateMetadataPlan.Some? then w.update.privateMetadataPlan else orgs[w.orgId].metadataPlan)
    ensures forall id :: id in orgs && id != w.orgId ==> r[id] == orgs[id]
  {
    if w.orgId in orgs then
      var tag := if w.update.privateMetadataPlan.Some? then w.update.privateMetadataPlan
                 else orgs[w.orgId].metadataPlan;
      orgs[w.orgId := OrgRecord(w.update.maxAllowedMemberships, tag)]
    else
      orgs
  }

  /** Deliver one request: the response, and the store after the write it triggers (if any). */
  function Deliver(orgs: Orgs, req: Request, verify: (string, string) -> Verified,
                   lineItems: string -> seq<LineItem>): (r: (Response, Orgs))
    ensures r.1.Keys == orgs.Keys
    ensures r.0.status == 400 ==> r.1 == orgs
  {
    var o := Handle(req, verify, lineItems);
    match o.write
    case None => (o.response, orgs)
    case Some(w) => (o.response, Apply(orgs, w))
  }

  // ---------------------------------------------------------------------------
  // Properties of the handler.

  /** A request whose signature header is absent or empty is refused before anything is verified. */
  lemma MissingSignatureRejected(req: Request, verify: (string, string) -> Verified,
                                 lineItems: string -> seq<LineItem>)
    requires !HasSignature(req)
    ensures Handle(req, verify, lineItems) == Outcome(Response(400, Text("Missing stripe-signature")), None)
  {
  }

  /** A signature the oracle rejects yields 400 with the oracle's message and no write. */
  lemma InvalidSignatureRejected(req: Request, verify: (string, string) -> Verified,
                                 lineItems: string -> seq<LineItem>)
    requires HasSignature(req) && verify(req.rawBody, req.signature.value).Invalid?
    ensures Handle(req, verify, lineItems).write == None
    ensures Handle(req, verify, lineItems).response ==
      Response(400, Text("Webhook Error: " + verify(req.rawBody, req.signature.value).message))
  {
  }

  /** The verified event a request carries, when it has one. */
  predicate VerifiesAs(req: Request, verify: (string, string) -> Verified, e: Event) {
    HasSignature(req) && verify(req.rawBody, req.signature.value) == Valid(e)
  }

  /** A completed checkout is acknowledged, and writes exactly when the first price is in the table. */
  lemma CheckoutOutcome(req: Request, verify: (string, string) -> Verified,
                        lineItems: string -> seq<LineItem>, e: Event)
    requires VerifiesAs(req, verify, e) && e.eventType == CheckoutCompleted
    ensures Handle(req, verify, lineItems).response == Ack
    ensures var pid := FirstPriceId(lineItems(e.sessionId));
      Handle(req, verify, lineItems).write ==
        if pid.Some? && pid.value in PlanByPrice
        then Some(OrgWrite(e.clientReferenceId, UpdateFor(PlanByPrice[pid.value])))
        else None
  {
  }

  /** The Pro price raises the ceiling to 10 and tags 'pro'; the Enterprise price writes 0 and 'enterprise'. */
  lemma CheckoutPerPlan(req: Request, verify: (string, string) -> Verified,
                        lineItems: string -> seq<LineItem>, e: Event)
    requires VerifiesAs(req, verify, e) && e.eventType == CheckoutCompleted
    ensures FirstPriceId(lineItems(e.sessionId)) == Some(ProPriceId) ==>
      Handle(req, verify, lineItems).write == Some(OrgWrite(e.clientReferenceId, OrgUpdate(10, Some(ProTag))))
    ensures FirstPriceId(lineItems(e.sessionId)) == Some(EnterprisePriceId) ==>
      Handle(req, verify, lineItems).write == Some(OrgWrite(e.clientReferenceId, OrgUpdate(0, Some(EnterpriseTag))))
  {
  }

  /** Only the first line item matters: lists that agree on it give the same outcome. */
  lemma OnlyFirstLineItemCounts(req: Request, verify: (string, string) -> Verified,
                                items1: string -> seq<LineItem>, items2: string -> seq<LineItem>, e: Event)
    requires VerifiesAs(req, verify, e)
    requires items1(e.sessionId) != [] && items2(e.sessionId) != []
    requires items1(e.sessionId)[0] == items2(e.sessionId)[0]
    ensures Handle(req, verify, items1) == Handle(req, verify, items2)
  {
  }

  /** A deleted subscription writes two members and no plan tag, whatever the line items say. */
  lemma CancellationOutcome(req: Request, verify: (string, string) -> Verified,
                            lineItems: string -> seq<LineItem>, e: Event)
    requires VerifiesAs(req, verify, e) && e.eventType == SubscriptionDeleted
    ensures Handle(req, verify, lineItems) == Outcome(Ack, Some(OrgWrite(e.clientReferenceId, OrgUpdate(2, None))))
  {
  }

  /** Any other verified event type is acknowledged and ignored. */
  lemma OtherEventsIgnored(req: Request, verify: (string, string) -> Verified,
                           lineItems: string -> seq<LineItem>, e: Event)
    requires VerifiesAs(req, verify, e)
    requires e.eventType != CheckoutCompleted && e.eventType != SubscriptionDeleted
    ensures Handle(req, verify, lineItems) == Outcome(Ack, None)
  {
  }

  /** Writing the same record twice leaves the store as writing it once. */
  lemma ApplyIdempotent(orgs: Orgs, w: OrgWrite)
    ensures Apply(Apply(orgs, w), w) == Apply(orgs, w)
  {
  }

  /**
    Two writes to one organization: the last ceiling wins; the last plan tag
    sent wins, and a write that sends none keeps the earlier one.
   */
  lemma ApplyLastWriteWins(orgs: Orgs, w1: OrgWrite, w2: OrgWrite)
    requires w1.orgId == w2.orgId
    ensures w2.update.privateMetadataPlan.Some? ==> Apply(Apply(orgs, w1), w2) == Apply(orgs, w2)
    ensures w1.orgId in orgs ==>
      Apply(Apply(orgs, w1), w2)[w1.orgId].maxMemberships == w2.update.maxAllowedMemberships
    ensures w1.orgId in orgs && w2.update.privateMetadataPlan.None? ==>
      Apply(Apply(orgs, w1), w2)[w1.orgId].metadataPlan == Apply(orgs, w1)[w1.orgId].metadataPlan
  {
  }

  /**
    A cancellation after a Pro checkout lowers the ceiling to two but, sending
    no metadata, leaves the 'pro' tag in place.
   */
  lemma CancellationKeepsPlanTag(orgs: Orgs, orgId: string)
    requires orgId in orgs
    ensures var after := Apply(Apply(orgs, OrgWrite(orgId, UpdateFor(ProTag))), OrgWrite(orgId, CancellationUpdate));
      after[orgId] == OrgRecord(2, Some(ProTag))
  {
  }

  /** Redelivering the same event leaves the store as delivering it once. */
  lemma DeliverIdempotent(orgs: Orgs, req: Request, verify: (string, string) -> Verified,
                          lineItems: string -> seq<LineItem>)
    ensures Deliver(Deliver(orgs, req, verify, lineItems).1, req, verify, lineItems)
         == Deliver(orgs, req, verify, lineItems)
  {
    var o := Handle(req, verify, lineItems);
    if o.write.Some? {
      ApplyIdempotent(orgs, o.write.value);
    }
  }

  // ---------------------------------------------------------------------------
  // The webhook's constants against the plan catalog.

  /** How the identity provider reads a membership ceiling: 0 means no limit. */
  function CeilingAsLimit(n: nat): (l: Limit)
    ensures l == Unlimited <==> n == 0
  {
    if n == 0 then Unlimited else Finite(n)
  }

  function CatalogPlan(t: PlanTag): Plan {
    match t
    case ProTag => Pro
    case EnterpriseTag => Enterprise
  }

  /** A paid checkout writes the ceiling the catalog gives that plan. */
  lemma CheckoutCeilingMatchesCatalog(t: PlanTag)
    ensures CeilingAsLimit(UpdateFor(t).maxAllowedMemberships) == GetMemberLimit(CatalogPlan(t))
  {
  }

  /**
    A cancellation does not reset to the Free ceiling: it writes two members
    where the catalog gives the Free plan one.
   */
  lemma CancellationCeilingDiffersFromFree()
    ensures CeilingAsLimit(CancellationUpdate.maxAllowedMemberships) == Finite(2)
    ensures GetMemberLimit(Free) == Finite(1)
    ensures CeilingAsLimit(CancellationUpdate.maxAllowedMemberships) != GetMemberLimit(Free)
  {
  }
}
