/**
 * The payment routes: creating a subscription, opening the customer portal, the webhook that moves
 * subscriptions and users between states, and the enterprise contact form. The subscriptions are
 * a collection keyed by subscription id, the users the collection of the account backend keyed by
 * `_id`, and the payment transactions and contacts collections in insertion order.
 */
module DodoRoutes {
  import opened Wrappers
  import opened Text
  import opened Server
  import opened DodoPayments
  import opened Models

  datatype Subscription = Subscription(
    userId: string,
    plan: string,
    billingInterval: string,
    status: string,
    paymentProvider: string,
    customerId: Option<string>,
    createdAt: int,
    updatedAt: int,
    activatedAt: Option<int>,
    lastRenewedAt: Option<int>,
    cancelledAt: Option<int>)

  datatype PaymentTransaction = PaymentTransaction(
    paymentId: Option<string>,
    subscriptionId: Option<string>,
    amount: Option<int>,
    status: string,
    paymentProvider: string,
    createdAt: int)

  datatype EnterpriseContact = EnterpriseContact(
    name: string,
    companyName: string,
    website: string,
    phone: string,
    email: string,
    message: string,
    submittedAt: int,
    status: string)

  /** The `data` object of a webhook event; a field it does not carry is `None`. */
  datatype EventData = EventData(
    subscriptionId: Option<string>,
    customerId: Option<string>,
    productId: Option<string>,
    paymentId: Option<string>,
    amount: Option<int>)

  /** A verified webhook payload: its `type` and its `data`. */
  datatype Payload = Payload(eventType: Option<string>, data: EventData)

  datatype Event = Active | Renewed | OnHold | Cancelled | Failed | PaymentSucceeded | Unhandled

  /** The dispatch on the event type. */
  function EventOf(eventType: Option<string>): (e: Event)
    ensures eventType == Some("subscription.active") <==> e == Active
    ensures eventType == Some("payment.succeeded") <==> e == PaymentSucceeded
  {
    if eventType == Some("subscription.active") then Active
    else if eventType == Some("subscription.renewed") then Renewed
    else if eventType == Some("subscription.on_hold") then OnHold
    else if eventType == Some("subscription.cancelled") then Cancelled
    else if eventType == Some("subscription.failed") then Failed
    else if eventType == Some("payment.succeeded") then PaymentSucceeded
    else Unhandled
  }

  predicate IsSubscriptionEvent(e: Event) {
    e == Active || e == Renewed || e == OnHold || e == Cancelled || e == Failed
  }

  /** The `$set` each subscription event applies to its subscription. */
  function UpdatedSubscription(s: Subscription, e: Event, data: EventData, now: int): (r: Subscription)
    requires IsSubscriptionEvent(e)
    ensures r.status == StatusAfter(e)
    ensures r.userId == s.userId && r.plan == s.plan && r.paymentProvider == s.paymentProvider && r.updatedAt == now
    ensures r.customerId == (if e == Active then data.customerId else s.customerId)
  {
    match e
    case Active => s.(status := "active", customerId := data.customerId, activatedAt := Some(now), updatedAt := now)
    case Renewed => s.(status := "active", lastRenewedAt := Some(now), updatedAt := now)
    case OnHold => s.(status := "on_hold", updatedAt := now)
    case Cancelled => s.(status := "cancelled", cancelledAt := Some(now), updatedAt := now)
    case Failed => s.(status := "failed", updatedAt := now)
  }

  /** The status a subscription event leaves its subscription in. */
  function StatusAfter(e: Event): string
    requires IsSubscriptionEvent(e)
  {
    match e
    case Active => "active"
    case Renewed => "active"
    case OnHold => "on_hold"
    case Cancelled => "cancelled"
    case Failed => "failed"
  }

  /** The subscriptions after the event: only the subscription the event names changes, and only when stored. */
  function SubscriptionsAfter(subs: map<string, Subscription>, e: Event, data: EventData, now: int): (r: map<string, Subscription>)
    ensures r.Keys == subs.Keys
    ensures forall sid :: sid in subs && Some(sid) != data.subscriptionId ==> r[sid] == subs[sid]
    ensures !IsSubscriptionEvent(e) ==> r == subs
  {
    if IsSubscriptionEvent(e) && data.subscriptionId.Some? && data.subscriptionId.value in subs then
      var sid := data.subscriptionId.value;
      subs[sid := UpdatedSubscription(subs[sid], e, data, now)]
    else subs
  }

  /** The user fields an event sets, given the plan of its subscription. */
  function UpdatedUser(u: UserDoc, e: Event, plan: string, now: int): (r: UserDoc)
    requires e == Active || e == OnHold || e == Cancelled
    ensures r.pagesRemaining == u.pagesRemaining && r.email == u.email
    ensures e == Active ==> r == u.(subscriptionStatus := Some("active"), subscriptionTier := plan, updatedAt := now)
    ensures e != Active ==> r.subscriptionTier == u.subscriptionTier && r.updatedAt == u.updatedAt
  {
    match e
    case Active => u.(subscriptionStatus := Some("active"), subscriptionTier := plan, updatedAt := now)
    case OnHold => u.(subscriptionStatus := Some("on_hold"))
    case Cancelled => u.(subscriptionStatus := Some("cancelled"))
  }

  /** `users.update_one({"user_id": uid}, …)` as written: the filter is on a `user_id` field. */
  function UpdateWhereUserIdField(users: map<string, UserDoc>, uid: string, e: Event, plan: string, now: int): (r: map<string, UserDoc>)
    requires e == Active || e == OnHold || e == Cancelled
    ensures r.Keys == users.Keys
  {
    map id | id in users :: if users[id].userIdField == Some(uid) then UpdatedUser(users[id], e, plan, now) else users[id]
  }

  /** The same update selecting the user by its key `_id`, under which the account backend stores users. */
  function UpdateById(users: map<string, UserDoc>, uid: string, e: Event, plan: string, now: int): (r: map<string, UserDoc>)
    requires e == Active || e == OnHold || e == Cancelled
    ensures r.Keys == users.Keys
    ensures uid in users ==> r[uid] == UpdatedUser(users[uid], e, plan, now)
    ensures forall id :: id in users && id != uid ==> r[id] == users[id]
  {
    if uid in users then users[uid := UpdatedUser(users[uid], e, plan, now)] else users
  }

  /** As written, no user carrying no `user_id` field is ever updated, so the webhook never reaches a user created by sign-up. */
  lemma UserIdFilterMissesSignupUsers(users: map<string, UserDoc>, uid: string, e: Event, plan: string, now: int)
    requires e == Active || e == OnHold || e == Cancelled
    requires forall id :: id in users ==> users[id].userIdField.None?
    ensures UpdateWhereUserIdField(users, uid, e, plan, now) == users
  {
  }

  /**
   * A user created by sign-up and then activated: the filter as written leaves the user on the
   * free tier, while selecting by `_id` gives the user the plan.
   */
  lemma SignupUserActivation(form: UserSignup, passwordHash: string, uid: string, plan: string, created: int, now: int)
    requires plan != TierValue(DailyFree)
    ensures var users := map[uid := NewUser(form, passwordHash, created)];
      && UpdateWhereUserIdField(users, uid, Active, plan, now)[uid].subscriptionTier == TierValue(DailyFree)
      && UpdateById(users, uid, Active, plan, now)[uid].subscriptionTier == plan
  {
    var users := map[uid := NewUser(form, passwordHash, created)];
    UserIdFilterMissesSignupUsers(users, uid, Active, plan, now);
  }

  /** The users after the event: active, on-hold and cancelled events update the subscription's user. */
  function UsersAfter(subsAfter: map<string, Subscription>, users: map<string, UserDoc>, e: Event, data: EventData, now: int)
    : (r: map<string, UserDoc>)
    ensures r.Keys == users.Keys
  {
    if (e == Active || e == OnHold || e == Cancelled) && data.subscriptionId.Some? && data.subscriptionId.value in subsAfter then
      var s := subsAfter[data.subscriptionId.value];
      UpdateById(users, s.userId, e, s.plan, now)
    else users
  }

  /**
   * The users after the event as the handlers are written: the update selects the users whose
   * `user_id` field names the subscription's user.
   */
  function UsersAfterAsWritten(subsAfter: map<string, Subscription>, users: map<string, UserDoc>, e: Event, data: EventData,
                               now: int): (r: map<string, UserDoc>)
    ensures r.Keys == users.Keys
  {
    if (e == Active || e == OnHold || e == Cancelled) && data.subscriptionId.Some? && data.subscriptionId.value in subsAfter then
      var s := subsAfter[data.subscriptionId.value];
      UpdateWhereUserIdField(users, s.userId, e, s.plan, now)
    else users
  }

  /** Where every user carries its own key in a `user_id` field, the written filter and the selection by `_id` agree. */
  lemma AsWrittenAgreesWhenKeyed(subsAfter: map<string, Subscription>, users: map<string, UserDoc>, e: Event, data: EventData, now: int)
    requires forall id :: id in users ==> users[id].userIdField == Some(id)
    ensures UsersAfterAsWritten(subsAfter, users, e, data, now) == UsersAfter(subsAfter, users, e, data, now)
  {
    if (e == Active || e == OnHold || e == Cancelled) && data.subscriptionId.Some? && data.subscriptionId.value in subsAfter {
      var s := subsAfter[data.subscriptionId.value];
      var written, byId := UpdateWhereUserIdField(users, s.userId, e, s.plan, now), UpdateById(users, s.userId, e, s.plan, now);
      assert forall id :: id in users ==> written[id] == byId[id];
    }
  }

  function TransactionsAfter(transactions: seq<PaymentTransaction>, e: Event, data: EventData, now: int): seq<PaymentTransaction> {
    if e == PaymentSucceeded then
      transactions + [PaymentTransaction(data.paymentId, data.subscriptionId, data.amount, "succeeded", "dodo", now)]
    else transactions
  }

  /** Each subscription event sets the status it names, renewal setting it back to active. */
  lemma StatusMapping(subs: map<string, Subscription>, e: Event, data: EventData, now: int)
    requires IsSubscriptionEvent(e) && data.subscriptionId.Some? && data.subscriptionId.value in subs
    ensures var s := SubscriptionsAfter(subs, e, data, now)[data.subscriptionId.value];
      && (e == Active ==> s.status == "active" && s.customerId == data.customerId)
      && (e == Renewed ==> s.status == "active")
      && (e == OnHold ==> s.status == "on_hold")
      && (e == Cancelled ==> s.status == "cancelled")
      && (e == Failed ==> s.status == "failed")
  {
  }

  /**
   * An activation gives the subscription's user the subscription's plan as tier and the active
   * status; on hold and cancelled set only the status; renewal and failure leave every user as is.
   */
  lemma UserEffects(subs: map<string, Subscription>, users: map<string, UserDoc>, e: Event, data: EventData, now: int)
    requires IsSubscriptionEvent(e) && data.subscriptionId.Some? && data.subscriptionId.value in subs
    ensures var s := subs[data.subscriptionId.value];
      var r := UsersAfter(SubscriptionsAfter(subs, e, data, now), users, e, data, now);
      && (s.userId in users && e == Active ==>
            r[s.userId].subscriptionTier == s.plan && r[s.userId].subscriptionStatus == Some("active"))
      && (s.userId in users && (e == OnHold || e == Cancelled) ==>
            r[s.userId] == users[s.userId].(subscriptionStatus := Some(StatusAfter(e))))
      && (e == Renewed || e == Failed ==> r == users)
      && (forall id :: id in users && id != s.userId ==> r[id] == users[id])
  {
    var after := SubscriptionsAfter(subs, e, data, now);
    assert after[data.subscriptionId.value].userId == subs[data.subscriptionId.value].userId;
    assert after[data.subscriptionId.value].plan == subs[data.subscriptionId.value].plan;
  }

  /**
   * As written, an activation, hold or cancellation updates exactly the users whose `user_id` field
   * names the subscription's user; renewal and failure leave every user as is.
   */
  lemma UserEffectsAsWritten(subs: map<string, Subscription>, users: map<string, UserDoc>, e: Event, data: EventData, now: int)
    requires IsSubscriptionEvent(e) && data.subscriptionId.Some? && data.subscriptionId.value in subs
    ensures var s := subs[data.subscriptionId.value];
      var r := UsersAfterAsWritten(SubscriptionsAfter(subs, e, data, now), users, e, data, now);
      && (forall id :: id in users && users[id].userIdField == Some(s.userId) && (e == Active || e == OnHold || e == Cancelled)
            ==> r[id] == UpdatedUser(users[id], e, s.plan, now))
      && (forall id :: id in users && users[id].userIdField != Some(s.userId) ==> r[id] == users[id])
      && (e == Renewed || e == Failed ==> r == users)
  {
    var after := SubscriptionsAfter(subs, e, data, now);
    assert after[data.subscriptionId.value].userId == subs[data.subscriptionId.value].userId;
    assert after[data.subscriptionId.value].plan == subs[data.subscriptionId.value].plan;
  }

  /** A payment appends exactly one transaction and touches no subscription and no user. */
  lemma PaymentRecorded(subs: map<string, Subscription>, users: map<string, UserDoc>, transactions: seq<PaymentTransaction>,
                        data: EventData, now: int)
    ensures SubscriptionsAfter(subs, PaymentSucceeded, data, now) == subs
    ensures UsersAfter(subs, users, PaymentSucceeded, data, now) == users
    ensures UsersAfterAsWritten(subs, users, PaymentSucceeded, data, now) == users
    ensures var t := TransactionsAfter(transactions, PaymentSucceeded, data, now);
      |t| == |transactions| + 1 && t[..|transactions|] == transactions
      && t[|transactions|].paymentId == data.paymentId && t[|transactions|].status == "succeeded"
  {
  }

  /** An event of any other type changes nothing. */
  lemma UnhandledChangesNothing(subs: map<string, Subscription>, users: map<string, UserDoc>,
                                transactions: seq<PaymentTransaction>, data: EventData, now: int)
    ensures SubscriptionsAfter(subs, Unhandled, data, now) == subs
    ensures UsersAfter(subs, users, Unhandled, data, now) == users
    ensures UsersAfterAsWritten(subs, users, Unhandled, data, now) == users
    ensures TransactionsAfter(transactions, Unhandled, data, now) == transactions
  {
  }

  /** `dodo_webhook`'s answer: the secret is checked first, then the signature; any verified event succeeds. */
  function WebhookAnswer(secretConfigured: bool, verified: Option<Payload>): (r: Result<string, HttpError>)
    ensures !secretConfigured ==> r == Failure(HttpError(500, "Webhook secret not configured"))
    ensures secretConfigured && verified.None? ==> r == Failure(HttpError(400, "Invalid webhook signature"))
    ensures r.Success? <==> secretConfigured && verified.Some?
  {
    if !secretConfigured then Failure(HttpError(500, "Webhook secret not configured"))
    else if verified.None? then Failure(HttpError(400, "Invalid webhook signature"))
    else Success("success")
  }

  // ---------------------------------------------------------------------------------------------
  // The enterprise contact form

  const RequiredFields: seq<string> := ["name", "company_name", "email", "phone", "message"]

  /** `not data.get(field)`: a field that is absent or empty. */
  predicate Missing(form: map<string, string>, field: string) {
    field !in form || form[field] == ""
  }

  /** The first of the fields that is missing from the form. */
  function FirstMissing(form: map<string, string>, fields: seq<string>): (r: Option<string>)
    ensures r.None? <==> forall i :: 0 <= i < |fields| ==> !Missing(form, fields[i])
    ensures r.Some? ==> exists i :: (0 <= i < |fields| && fields[i] == r.value && Missing(form, r.value)
      && forall j :: 0 <= j < i ==> !Missing(form, fields[j]))
  {
    if fields == [] then None
    else if Missing(form, fields[0]) then Some(fields[0])
    else
      var rest := FirstMissing(form, fields[1..]);
      if rest.Some? then
        ghost var i :| 0 <= i < |fields[1..]| && fields[1..][i] == rest.value && Missing(form, rest.value)
          && forall j :: 0 <= j < i ==> !Missing(form, fields[1..][j]);
        assert fields[i + 1] == rest.value;
        assert forall j :: 0 <= j < i + 1 ==> !Missing(form, fields[j]) by {
          forall j | 0 <= j < i + 1
            ensures !Missing(form, fields[j])
          {
            if j > 0 {
              assert fields[j] == fields[1..][j - 1];
            }
          }
        }
        rest
      else
        assert forall i :: 0 <= i < |fields| ==> !Missing(form, fields[i]) by {
          forall i | 0 <= i < |fields|
            ensures !Missing(form, fields[i])
          {
            if i > 0 {
              assert fields[i] == fields[1..][i - 1];
            }
          }
        }
        rest
  }

  /** The contact stored for a complete form: the website defaults to empty and the status is pending. */
  function ContactOf(form: map<string, string>, now: int): (c: EnterpriseContact)
    requires FirstMissing(form, RequiredFields).None?
    ensures c.website == (if "website" in form then form["website"] else "") && c.status == "pending"
    ensures c.name != "" && c.companyName != "" && c.email != "" && c.phone != "" && c.message != ""
  {
    assert !Missing(form, RequiredFields[0]) && !Missing(form, RequiredFields[1]) && !Missing(form, RequiredFields[2]);
    assert !Missing(form, RequiredFields[3]) && !Missing(form, RequiredFields[4]);
    EnterpriseContact(form["name"], form["company_name"], if "website" in form then form["website"] else "",
      form["phone"], form["email"], form["message"], now, "pending")
  }

  /** A form without a name is refused for its name, whatever else is missing. */
  lemma NameCheckedFirst(form: map<string, string>)
    requires Missing(form, "name")
    ensures FirstMissing(form, RequiredFields) == Some("name")
  {
  }

  /** A form with everything but the phone is refused for the phone. */
  lemma PhoneReported(form: map<string, string>)
    requires !Missing(form, "name") && !Missing(form, "company_name") && !Missing(form, "email")
    requires Missing(form, "phone")
    ensures FirstMissing(form, RequiredFields) == Some("phone")
  {
    var f := RequiredFields;
    assert f[0] == "name" && f[1..][0] == "company_name" && f[1..][1..][0] == "email";
    assert f[1..][1..][1..] == ["phone", "message"];
    assert FirstMissing(form, f[1..][1..][1..]) == Some("phone");
  }

  // ---------------------------------------------------------------------------------------------
  // The collections and the routes

  class PaymentsDb {
    var subscriptions: map<string, Subscription>
    var users: map<string, UserDoc>
    var paymentTransactions: seq<PaymentTransaction>
    var enterpriseContacts: seq<EnterpriseContact>

    constructor (users: map<string, UserDoc>)
      ensures subscriptions == map[] && this.users == users && paymentTransactions == [] && enterpriseContacts == []
    {
      subscriptions := map[];
      this.users := users;
      paymentTransactions := [];
      enterpriseContacts := [];
    }

    /**
     * `create_dodo_subscription`: with a client and a known product, the provider's checkout
     * (`checkout`: the payment link and subscription id it returns, or its error) is recorded as a
     * pending subscription; every failure is a 500 and stores nothing.
     */
    method CreateSubscription(userId: string, plan: string, billingInterval: string, clientConfigured: bool,
                              checkout: Result<(string, string), string>, now: int) returns (r: Result<(string, string), HttpError>)
      modifies this
      ensures r.Success? <==> clientConfigured && GetProductId(plan, billingInterval).Success? && checkout.Success?
      ensures r.Success? ==> (r.value == checkout.value
        && subscriptions == old(subscriptions)[checkout.value.1 :=
             Subscription(userId, plan, billingInterval, "pending", "dodo", None, now, now, None, None, None)])
      ensures r.Failure? ==> r.error.status == 500 && subscriptions == old(subscriptions)
      ensures users == old(users) && paymentTransactions == old(paymentTransactions) && enterpriseContacts == old(enterpriseContacts)
    {
      if !clientConfigured {
        return Failure(HttpError(500, "Failed to create subscription: DODO_PAYMENTS_API_KEY environment variable is required"));
      }
      var productId := GetProductId(plan, billingInterval);
      if productId.Failure? {
        return Failure(HttpError(500, "Failed to create subscription: " + productId.error));
      }
      if checkout.Failure? {
        return Failure(HttpError(500, "Failed to create subscription: " + checkout.error));
      }
      var (paymentLink, subscriptionId) := checkout.value;
      subscriptions := subscriptions[subscriptionId :=
        Subscription(userId, plan, billingInterval, "pending", "dodo", None, now, now, None, None, None)];
      r := Success((paymentLink, subscriptionId));
    }

    /**
     * `create_dodo_portal_session` up to the provider call: a 500 when the client cannot be built
     * for want of an API key, which is checked before anything else; then the customer id of one of
     * the user's subscriptions with this provider, or a 404 when there is none or it has no
     * customer id.
     */
    method PortalCustomer(userId: string, clientConfigured: bool) returns (r: Result<string, HttpError>)
      ensures !clientConfigured ==>
        r == Failure(HttpError(500, "Failed to create portal session: DODO_PAYMENTS_API_KEY environment variable is required"))
      ensures clientConfigured ==>
        ((forall sid :: sid in subscriptions ==> subscriptions[sid].userId != userId || subscriptions[sid].paymentProvider != "dodo")
         <==> r == Failure(HttpError(404, "No active subscription found")))
      ensures r.Success? ==> clientConfigured && r.value != "" && exists sid :: (sid in subscriptions && subscriptions[sid].userId == userId
        && subscriptions[sid].paymentProvider == "dodo" && subscriptions[sid].customerId == Some(r.value))
      ensures r.Failure? && clientConfigured ==> r.error.status == 404
    {
      if !clientConfigured {
        return Failure(HttpError(500, "Failed to create portal session: DODO_PAYMENTS_API_KEY environment variable is required"));
      }
      if forall sid :: sid in subscriptions ==> subscriptions[sid].userId != userId || subscriptions[sid].paymentProvider != "dodo" {
        return Failure(HttpError(404, "No active subscription found"));
      }
      var sid :| sid in subscriptions && subscriptions[sid].userId == userId && subscriptions[sid].paymentProvider == "dodo";
      var customerId := subscriptions[sid].customerId;
      if customerId.None? || customerId.value == "" {
        return Failure(HttpError(404, "Customer ID not found in subscription"));
      }
      r := Success(customerId.value);
    }

    /**
     * `dodo_webhook`: the answer, and the collections moved by a verified event, with the users
     * selected by their `user_id` field as the handlers are written.
     */
    method Webhook(secretConfigured: bool, verified: Option<Payload>, now: int) returns (r: Result<string, HttpError>)
      modifies this
      ensures r == WebhookAnswer(secretConfigured, verified)
      ensures r.Failure? ==> subscriptions == old(subscriptions) && users == old(users) && paymentTransactions == old(paymentTransactions)
      ensures r.Success? ==> var e, data := EventOf(verified.value.eventType), verified.value.data;
        && subscriptions == SubscriptionsAfter(old(subscriptions), e, data, now)
        && users == UsersAfterAsWritten(subscriptions, old(users), e, data, now)
        && paymentTransactions == TransactionsAfter(old(paymentTransactions), e, data, now)
      ensures enterpriseContacts == old(enterpriseContacts)
    {
      r := WebhookAnswer(secretConfigured, verified);
      if r.Failure? {
        return;
      }
      var e, data := EventOf(verified.value.eventType), verified.value.data;
      if e == PaymentSucceeded {
        paymentTransactions := paymentTransactions + [PaymentTransaction(data.paymentId, data.subscriptionId, data.amount, "succeeded", "dodo", now)];
      } else if IsSubscriptionEvent(e) && data.subscriptionId.Some? && data.subscriptionId.value in subscriptions {
        var sid := data.subscriptionId.value;
        subscriptions := subscriptions[sid := UpdatedSubscription(subscriptions[sid], e, data, now)];
        if e == Active || e == OnHold || e == Cancelled {
          var s := subscriptions[sid];
          users := UpdateWhereUserIdField(users, s.userId, e, s.plan, now);
        }
      }
    }

    /**
     * `enterprise_contact`: the required fields are checked in order and the first missing one is
     * named in a 400; a complete form is stored as a pending contact.
     */
    method SubmitEnterpriseContact(form: map<string, string>, now: int) returns (r: Result<string, HttpError>)
      modifies this
      ensures FirstMissing(form, RequiredFields).Some? ==>
        r == Failure(HttpError(400, "Missing required field: " + FirstMissing(form, RequiredFields).value))
        && enterpriseContacts == old(enterpriseContacts)
      ensures FirstMissing(form, RequiredFields).None? ==>
        r == Success("Your request has been submitted. We'll contact you soon!")
        && enterpriseContacts == old(enterpriseContacts) + [ContactOf(form, now)]
      ensures subscriptions == old(subscriptions) && users == old(users) && paymentTransactions == old(paymentTransactions)
    {
      var i := 0;
      while i < |RequiredFields|
        invariant 0 <= i <= |RequiredFields|
        invariant FirstMissing(form, RequiredFields) == FirstMissing(form, RequiredFields[i..])
      {
        var field := RequiredFields[i];
        if field !in form || form[field] == "" {
          return Failure(HttpError(400, "Missing required field: " + field));
        }
        assert RequiredFields[i..][1..] == RequiredFields[i + 1..];
        i := i + 1;
      }
      enterpriseContacts := enterpriseContacts + [ContactOf(form, now)];
      r := Success("Your request has been submitted. We'll contact you soon!");
    }
  }
}
