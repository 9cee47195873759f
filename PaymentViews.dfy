/**
 * The payment endpoints (backend/payments/views.py): starting a payment
 * with a provider, the M-Pesa callback, and upgrading or cancelling a
 * subscription. Payments and subscriptions are the objects of
 * `PaymentModels`, held by a store and changed in place; the providers'
 * answers are oracles passed in.
 */
module PaymentViews {
  import opened Wrappers
  import opened Text
  import opened PaymentModels
  import UserModels

  /** A provider call: it answers with a payload, or raises. */
  datatype ProviderReply = Reply(payload: Metadata) | Raised(error: string)

  /** The fields of a payment initiation request; a missing text field is `""`. */
  datatype InitiateRequest = InitiateRequest(
    methodId: Option<nat>,          // `payment_method_id`; `None` when missing or falsy
    amount: AmountField,
    currency: Option<string>,       // `currency`, `KES` when missing
    referenceCode: string,
    statusOverride: Option<string>, // the sandbox `status` field
    metadata: Metadata,             // `metadata or {}`
    phoneNumber: string,
    cardToken: string)

  const DefaultCurrency: string := "KES"
  const CheckoutKey: string := "CheckoutRequestID"
  const CallbackKey: string := "mpesa_callback"

  /** The fields of a payment the provider step changes. */
  datatype PaymentRecord = PaymentRecord(
    status: PaymentStatus, processedAt: Option<int>, referenceCode: string, metadata: Metadata)

  /** `payload.get(key, default)`. */
  function Get(payload: Metadata, key: string, default: string): string
  {
    if key in payload then payload[key] else default
  }

  /**
   * The status a new payment is created with: PENDING, unless the sandbox
   * override names a status; stamped exactly when it is not PENDING.
   */
  function InitialRecord(req: InitiateRequest, now: int, freshReference: string): (r: PaymentRecord)
    ensures r.processedAt.Some? <==> r.status != Pending
    ensures r.status != Pending ==> req.statusOverride.Some? && PaymentStatusValue(r.status) == req.statusOverride.value
    ensures r.referenceCode == if req.referenceCode != [] then req.referenceCode else freshReference
    ensures r.metadata == req.metadata
  {
    var status := if req.statusOverride.Some? && ParsePaymentStatus(req.statusOverride.value).Some?
      then ParsePaymentStatus(req.statusOverride.value).value else Pending;
    PaymentRecord(status, if status != Pending then Some(now) else None,
      if req.referenceCode != [] then req.referenceCode else freshReference, req.metadata)
  }

  /** `mark_completed` / `mark_failed` on record values. */
  function Marked(r: PaymentRecord, status: PaymentStatus, now: int, extra: Metadata): PaymentRecord
  {
    r.(status := status, processedAt := Some(now), metadata := Merge(r.metadata, Some(extra)))
  }

  /**
   * What the provider branch does to the new payment, and the reply's
   * HTTP status: M-Pesa needs a phone number and may fail with 502, a card
   * needs a token and completes exactly when the provider says `completed`,
   * a bank transfer records the bank's reference. A card or bank provider
   * that raises leaves the payment as created and the request fails.
   */
  function ProviderStep(r: PaymentRecord, m: MethodName, req: InitiateRequest, reply: ProviderReply, now: int)
    : (PaymentRecord, int)
  {
    match m
    case Mpesa =>
      if req.phoneNumber == [] then (Marked(r, Failed, now, map["error" := "Missing phone number"]), 400)
      else (match reply
        case Raised(e) => (Marked(r, Failed, now, map["error" := e]), 502)
        case Reply(payload) =>
          (r.(referenceCode := Get(payload, CheckoutKey, r.referenceCode), metadata := Merge(r.metadata, Some(payload))), 201))
    case Card =>
      if req.cardToken == [] then (Marked(r, Failed, now, map["error" := "Missing card token"]), 400)
      else (match reply
        case Raised(_) => (r, 500)
        case Reply(payload) =>
          var updated := r.(metadata := Merge(r.metadata, Some(payload)), referenceCode := Get(payload, "transaction_id", r.referenceCode));
          if Get(payload, "status", "") == "completed" then (Marked(updated, Completed, now, payload), 201)
          else (Marked(updated, Failed, now, payload), 201))
    case BankTransfer =>
      match reply
      case Raised(_) => (r, 500)
      case Reply(payload) =>
        (r.(metadata := Merge(r.metadata, Some(payload)), referenceCode := Get(payload, "reference_code", r.referenceCode)), 201)
  }

  /** An M-Pesa payment without a phone number ends FAILED with 400. */
  lemma MpesaNeedsPhone(r: PaymentRecord, req: InitiateRequest, reply: ProviderReply, now: int)
    requires req.phoneNumber == []
    ensures ProviderStep(r, Mpesa, req, reply, now).0.status == Failed
    ensures ProviderStep(r, Mpesa, req, reply, now).1 == 400
  {
  }

  /** A card payment with a token ends COMPLETED exactly when the provider says `completed`, FAILED otherwise. */
  lemma CardCompletedIff(r: PaymentRecord, req: InitiateRequest, payload: Metadata, now: int)
    requires req.cardToken != []
    ensures var out := ProviderStep(r, Card, req, Reply(payload), now).0;
      && (out.status == Completed <==> "status" in payload && payload["status"] == "completed")
      && (out.status == Completed || out.status == Failed)
      && out.metadata == Merge(r.metadata, Some(payload))
  {
    MergeTwice(r.metadata, Some(payload));
  }

  /**
   * The sandbox override is honoured for any caller: a bank-transfer
   * request naming `completed` yields a COMPLETED payment without any
   * money having moved.
   */
  lemma OverrideCompletes(req: InitiateRequest, payload: Metadata, now: int, freshReference: string)
    requires req.statusOverride == Some("completed")
    ensures var out := ProviderStep(InitialRecord(req, now, freshReference), BankTransfer, req, Reply(payload), now);
      out.0.status == Completed && out.1 == 201
  {
  }

  /** What the callback view reads of `ResultCode`: a number, or anything else. */
  datatype ResultCode = Code(n: int) | NotANumber

  /**
   * The callback's effect on the matched payment: COMPLETED for result code
   * 0, FAILED with the description otherwise; either way the callback is
   * kept under `mpesa_callback`.
   */
  function CallbackRecord(r: PaymentRecord, code: ResultCode, desc: string, callback: string, now: int): (out: PaymentRecord)
    ensures out.status == Completed <==> code == Code(0)
    ensures out.status == Failed <==> code != Code(0)
    ensures CallbackKey in out.metadata && out.metadata[CallbackKey] == callback
    ensures code != Code(0) ==> "error" in out.metadata && out.metadata["error"] == desc
    ensures out.processedAt == Some(now) && out.referenceCode == r.referenceCode
  {
    var m := r.metadata[CallbackKey := callback];
    if code == Code(0) then Marked(r.(metadata := m), Completed, now, m)
    else Marked(r.(metadata := m), Failed, now, map["error" := desc, CallbackKey := callback])
  }

  function RecordOf(p: Payment): PaymentRecord
    reads p
  {
    PaymentRecord(p.status, p.processedAt, p.referenceCode, p.metadata)
  }

  /** The payments and subscriptions of all users. */
  class PaymentStore {
    var payments: seq<Payment>
    var subscriptions: seq<Subscription>
    var nextPaymentId: nat

    /** Distinct rows, unique payment ids below the next one, and at most one subscription per user. */
    predicate Valid()
      reads this, payments, subscriptions
    {
      && (forall i, j :: 0 <= i < j < |payments| ==> payments[i] != payments[j] && payments[i].id != payments[j].id)
      && (forall i :: 0 <= i < |payments| ==> payments[i].id < nextPaymentId)
      && (forall i, j :: 0 <= i < j < |subscriptions| ==> subscriptions[i] != subscriptions[j] && subscriptions[i].user != subscriptions[j].user)
    }

    constructor ()
      ensures Valid() && payments == [] && subscriptions == [] && nextPaymentId == 0
    {
      payments := [];
      subscriptions := [];
      nextPaymentId := 0;
    }

    /**
     * `PaymentInitiateView.post`: 400 without a method or amount, for an
     * inactive or unknown method, or an amount that is not a number;
     * otherwise one new payment is created as `InitialRecord` says and then
     * goes through `ProviderStep`, whose status is the reply's.
     */
    method Initiate(user: nat, req: InitiateRequest, activeMethods: map<nat, MethodName>, reply: ProviderReply,
                    now: int, transactionId: string, freshReference: string)
      returns (status: int, p: Payment?)
      requires Valid()
      modifies this`payments, this`nextPaymentId
      ensures Valid()
      ensures req.methodId.None? || req.amount.NoAmount? ==> status == 400 && p == null && payments == old(payments)
      ensures req.methodId.Some? && !req.amount.NoAmount? && (req.methodId.value !in activeMethods || req.amount.Unparseable?)
        ==> status == 400 && p == null && payments == old(payments)
      ensures req.methodId.Some? && req.methodId.value in activeMethods && req.amount.Amount? ==>
        var out := ProviderStep(InitialRecord(req, now, freshReference), activeMethods[req.methodId.value], req, reply, now);
        && p != null && fresh(p) && payments == old(payments) + [p]
        && p.user == user && p.amount == req.amount.value && p.provider == activeMethods[req.methodId.value]
        && p.currency == Upper(req.currency.GetOr(DefaultCurrency)) && p.phoneNumber == req.phoneNumber
        && p.transactionId == transactionId && p.id == old(nextPaymentId)
        && RecordOf(p) == out.0 && status == out.1
    {
      if req.methodId.None? || req.amount.NoAmount? {
        return 400, null;
      }
      if req.methodId.value !in activeMethods {
        return 400, null;
      }
      if req.amount.Unparseable? {
        return 400, null;
      }
      var m := activeMethods[req.methodId.value];
      p := Create(nextPaymentId, user, req, m, now, transactionId, freshReference);
      status := RunProvider(p, m, req, reply, now);
      Append(p);
    }

    /** `Payment.objects.create` with the request's fields and its initial status. */
    static method Create(id: nat, user: nat, req: InitiateRequest, m: MethodName, now: int,
                         transactionId: string, freshReference: string) returns (p: Payment)
      requires req.amount.Amount?
      ensures fresh(p) && RecordOf(p) == InitialRecord(req, now, freshReference)
      ensures p.id == id && p.user == user && p.amount == req.amount.value && p.provider == m
      ensures p.currency == Upper(req.currency.GetOr(DefaultCurrency)) && p.phoneNumber == req.phoneNumber
      ensures p.transactionId == transactionId
    {
      var initial := InitialRecord(req, now, freshReference);
      p := new Payment(id, user, req.amount.value, Upper(req.currency.GetOr(DefaultCurrency)), m,
        transactionId, initial.referenceCode, req.metadata, req.phoneNumber);
      p.status := initial.status;
      p.processedAt := initial.processedAt;
    }

    /** Records a new payment under the next id. */
    method Append(p: Payment)
      requires Valid() && p !in payments && p.id == nextPaymentId
      modifies this`payments, this`nextPaymentId
      ensures Valid() && payments == old(payments) + [p] && nextPaymentId == old(nextPaymentId) + 1
    {
      payments := payments + [p];
      nextPaymentId := nextPaymentId + 1;
    }

    /** The provider branch of the initiation, on the new payment. */
    static method RunProvider(p: Payment, m: MethodName, req: InitiateRequest, reply: ProviderReply, now: int)
      returns (status: int)
      modifies p`status, p`processedAt, p`metadata, p`referenceCode
      ensures (RecordOf(p), status) == ProviderStep(old(RecordOf(p)), m, req, reply, now)
    {
      match m {
        case Mpesa =>
          if req.phoneNumber == [] {
            p.MarkFailed(now, Some(map["error" := "Missing phone number"]));
            return 400;
          }
          match reply {
            case Raised(e) =>
              p.MarkFailed(now, Some(map["error" := e]));
              return 502;
            case Reply(payload) =>
              p.referenceCode := Get(payload, CheckoutKey, p.referenceCode);
              p.metadata := Merge(p.metadata, Some(payload));
              return 201;
          }
        case Card =>
          if req.cardToken == [] {
            p.MarkFailed(now, Some(map["error" := "Missing card token"]));
            return 400;
          }
          match reply {
            case Raised(_) =>
              return 500;
            case Reply(payload) =>
              p.metadata := Merge(p.metadata, Some(payload));
              p.referenceCode := Get(payload, "transaction_id", p.referenceCode);
              if Get(payload, "status", "") == "completed" {
                p.MarkCompleted(now, Some(payload));
              } else {
                p.MarkFailed(now, Some(payload));
              }
              return 201;
          }
        case BankTransfer =>
          match reply {
            case Raised(_) =>
              return 500;
            case Reply(payload) =>
              p.metadata := Merge(p.metadata, Some(payload));
              p.referenceCode := Get(payload, "reference_code", p.referenceCode);
              return 201;
          }
      }
    }

    /** The positions of the payments with this reference code, in order. */
    function WithReference(ref: string): (r: seq<nat>)
      reads this, payments
      ensures forall k :: 0 <= k < |r| ==> r[k] < |payments| && payments[r[k]].referenceCode == ref
      ensures forall i :: 0 <= i < |payments| && payments[i].referenceCode == ref ==> i in r
    {
      WithReferenceBelow(ref, |payments|)
    }

    function WithReferenceBelow(ref: string, n: nat): (r: seq<nat>)
      requires n <= |payments|
      reads this, payments
      ensures forall k :: 0 <= k < |r| ==> r[k] < n && payments[r[k]].referenceCode == ref
      ensures forall i :: 0 <= i < n && payments[i].referenceCode == ref ==> i in r
    {
      if n == 0 then []
      else WithReferenceBelow(ref, n - 1) + (if payments[n - 1].referenceCode == ref then [n - 1] else [])
    }

    /**
     * `MPesaCallbackView.post`: 400 without a checkout id, 404 when no
     * payment has it as reference, a server error when several do;
     * otherwise that payment alone is settled as `CallbackRecord` says.
     */
    method Callback(checkout: string, code: ResultCode, desc: string, callback: string, now: int)
      returns (status: int)
      requires Valid()
      modifies set i | 0 <= i < |payments| && payments[i].referenceCode == checkout :: payments[i]
      ensures Valid() && payments == old(payments)
      ensures checkout == [] ==> status == 400
      ensures checkout != [] && |old(WithReference(checkout))| == 0 ==> status == 404
      ensures checkout != [] && |old(WithReference(checkout))| > 1 ==> status == 500
      ensures checkout != [] && |old(WithReference(checkout))| == 1 ==>
        var p := payments[old(WithReference(checkout))[0]];
        status == 200 && RecordOf(p) == CallbackRecord(old(RecordOf(p)), code, desc, callback, now)
    {
      if checkout == [] {
        return 400;
      }
      var found := WithReference(checkout);
      if |found| == 0 {
        return 404;
      }
      if |found| > 1 {
        return 500;
      }
      var p := payments[found[0]];
      Settle(p, code, desc, callback, now);
      status := 200;
    }

    /** The callback's update of one payment. */
    static method Settle(p: Payment, code: ResultCode, desc: string, callback: string, now: int)
      modifies p`status, p`processedAt, p`metadata
      ensures RecordOf(p) == CallbackRecord(old(RecordOf(p)), code, desc, callback, now)
    {
      // `metadata['mpesa_callback'] = callback` writes into the payment's own dictionary.
      p.metadata := p.metadata[CallbackKey := callback];
      if code == Code(0) {
        p.MarkCompleted(now, Some(p.metadata));
      } else {
        p.MarkFailed(now, Some(map["error" := desc, CallbackKey := callback]));
      }
    }

    /** The position of the user's payment with this id, if any. */
    function PaymentOf(id: nat, user: nat): (r: Option<nat>)
      reads this, payments
      ensures r.Some? ==> r.value < |payments| && payments[r.value].id == id && payments[r.value].user == user
      ensures r.None? ==> forall i :: 0 <= i < |payments| ==> !(payments[i].id == id && payments[i].user == user)
    {
      PaymentOfBelow(id, user, |payments|)
    }

    function PaymentOfBelow(id: nat, user: nat, n: nat): (r: Option<nat>)
      requires n <= |payments|
      reads this, payments
      ensures r.Some? ==> r.value < n && payments[r.value].id == id && payments[r.value].user == user
      ensures r.None? ==> forall i :: 0 <= i < n ==> !(payments[i].id == id && payments[i].user == user)
    {
      if n == 0 then None
      else if payments[n - 1].id == id && payments[n - 1].user == user then Some(n - 1)
      else PaymentOfBelow(id, user, n - 1)
    }

    /** The position of the user's subscription, if any. */
    function SubscriptionOf(user: nat): (r: Option<nat>)
      reads this, subscriptions
      ensures r.Some? ==> r.value < |subscriptions| && subscriptions[r.value].user == user
      ensures r.None? ==> forall i :: 0 <= i < |subscriptions| ==> subscriptions[i].user != user
    {
      SubscriptionOfBelow(user, |subscriptions|)
    }

    function SubscriptionOfBelow(user: nat, n: nat): (r: Option<nat>)
      requires n <= |subscriptions|
      reads this, subscriptions
      ensures r.Some? ==> r.value < n && subscriptions[r.value].user == user
      ensures r.None? ==> forall i :: 0 <= i < n ==> subscriptions[i].user != user
    {
      if n == 0 then None
      else if subscriptions[n - 1].user == user then Some(n - 1)
      else SubscriptionOfBelow(user, n - 1)
    }

    /**
     * Why an upgrade is refused, as an HTTP status: 400 without a tier or
     * payment id, 404 when the user has no payment with that id, 400 when
     * it is not COMPLETED; none when the user's payment is COMPLETED.
     */
    function UpgradeRefusal(user: nat, tier: string, paymentId: Option<nat>): (r: Option<int>)
      reads this, payments
      ensures tier == [] || paymentId.None? ==> r == Some(400)
      ensures tier != [] && paymentId.Some? && PaymentOf(paymentId.value, user).None? ==> r == Some(404)
      ensures r.None? <==> (tier != [] && paymentId.Some? && PaymentOf(paymentId.value, user).Some?
        && payments[PaymentOf(paymentId.value, user).value].status == Completed)
      ensures r.Some? ==> r.value == 400 || r.value == 404
    {
      if tier == [] || paymentId.None? then Some(400)
      else if PaymentOf(paymentId.value, user).None? then Some(404)
      else if payments[PaymentOf(paymentId.value, user).value].status != Completed then Some(400)
      else None
    }

    /** The subscription at `k` is the user's, activated on `tier` with `pay` until `expires`. */
    predicate ActivatedAt(k: nat, user: nat, tier: string, now: int, expires: int, pay: Payment)
      reads this, subscriptions, pay
    {
      && SubscriptionOf(user) == Some(k)
      && var s := subscriptions[k];
      && s.tier == tier && s.status == Active && s.startedAt == now && s.expiresAt == expires
      && s.autoRenew && s.paymentMethod == Some(pay.provider) && s.lastPayment == pay
      && s.price == pay.amount && s.currency == pay.currency
    }

    /**
     * `SubscriptionUpgradeView.post`: refused as `UpgradeRefusal` says with
     * nothing changed; otherwise the user's subscription, created or
     * overwritten alike, is ACTIVE on the tier from now for `durationDays`
     * days, renews, and is priced and paid by that payment; the account
     * takes the tier.
     */
    method Upgrade(user: nat, account: UserModels.User, tier: string, paymentId: Option<nat>, durationDays: int, now: int)
      returns (status: int)
      requires Valid()
      modifies this`subscriptions, account`tier
      modifies set i | 0 <= i < |subscriptions| && subscriptions[i].user == user :: subscriptions[i]
      ensures Valid() && payments == old(payments)
      ensures old(UpgradeRefusal(user, tier, paymentId)).Some? ==>
        status == old(UpgradeRefusal(user, tier, paymentId)).value
        && subscriptions == old(subscriptions) && account.tier == old(account.tier)
      ensures old(UpgradeRefusal(user, tier, paymentId)).None? ==>
        && status == 200 && account.tier == tier
        && SubscriptionOf(user).Some?
        && ActivatedAt(SubscriptionOf(user).value, user, tier, now, now + durationDays * Day, payments[old(PaymentOf(paymentId.value, user)).value])
    {
      if UpgradeRefusal(user, tier, paymentId).Some? {
        return UpgradeRefusal(user, tier, paymentId).value;
      }
      var pay := payments[PaymentOf(paymentId.value, user).value];
      var k := Activate(user, account, tier, now + durationDays * Day, now, pay);
      status := 200;
    }

    /** `get_or_create` followed by the overwrite, and the account's tier. */
    method Activate(user: nat, account: UserModels.User, tier: string, expires: int, now: int, pay: Payment)
      returns (k: nat)
      requires Valid()
      modifies this`subscriptions, account`tier
      modifies set i | 0 <= i < |subscriptions| && subscriptions[i].user == user :: subscriptions[i]
      ensures Valid() && ActivatedAt(k, user, tier, now, expires, pay) && account.tier == tier
      ensures old(SubscriptionOf(user)).Some? ==> subscriptions == old(subscriptions)
      ensures old(SubscriptionOf(user)).None? ==> subscriptions == old(subscriptions) + [subscriptions[k]] && fresh(subscriptions[k])
    {
      var existing := SubscriptionOf(user);
      if existing.None? {
        var s := new Subscription(user, tier, now, expires, pay.amount, pay.currency, Some(pay.provider), pay);
        AddSubscription(s);
        k := |subscriptions| - 1;
      } else {
        k := existing.value;
        Overwrite(subscriptions[k], tier, now, expires, pay);
      }
      account.tier := tier;
    }

    /** `get_or_create` creating the user's first subscription. */
    method AddSubscription(s: Subscription)
      requires Valid() && s !in subscriptions && SubscriptionOf(s.user).None?
      modifies this`subscriptions
      ensures Valid() && subscriptions == old(subscriptions) + [s]
      ensures SubscriptionOf(s.user) == Some(|subscriptions| - 1)
    {
      subscriptions := subscriptions + [s];
      assert subscriptions[|subscriptions| - 1] == s;
    }

    /** The field-by-field overwrite of an existing subscription. */
    static method Overwrite(s: Subscription, tier: string, now: int, expires: int, pay: Payment)
      modifies s`tier, s`status, s`startedAt, s`expiresAt, s`paymentMethod, s`lastPayment, s`autoRenew, s`price, s`currency
      ensures s.tier == tier && s.status == Active && s.startedAt == now && s.expiresAt == expires
      ensures s.paymentMethod == Some(pay.provider) && s.lastPayment == pay && s.autoRenew
      ensures s.price == pay.amount && s.currency == pay.currency
    {
      s.tier := tier;
      s.status := Active;
      s.startedAt := now;
      s.expiresAt := expires;
      s.paymentMethod := Some(pay.provider);
      s.lastPayment := pay;
      s.autoRenew := true;
      s.price := pay.amount;
      s.currency := pay.currency;
    }

    /**
     * `SubscriptionCancelView.post`: 404 without a subscription; otherwise
     * it stops renewing and is CANCELLED, its paid period unchanged.
     */
    method CancelSubscription(user: nat) returns (status: int)
      requires Valid()
      modifies set i | 0 <= i < |subscriptions| && subscriptions[i].user == user :: subscriptions[i]
      ensures Valid()
      ensures old(SubscriptionOf(user)).None? ==> status == 404
      ensures old(SubscriptionOf(user)).Some? ==>
        var s := subscriptions[old(SubscriptionOf(user)).value];
        && status == 200 && !s.autoRenew && s.status == SubscriptionCancelled
        && s.user == old(s.user) && s.tier == old(s.tier) && s.startedAt == old(s.startedAt)
        && s.expiresAt == old(s.expiresAt) && s.price == old(s.price) && s.currency == old(s.currency)
        && s.paymentMethod == old(s.paymentMethod) && s.lastPayment == old(s.lastPayment)
      ensures forall j :: 0 <= j < |subscriptions| && old(SubscriptionOf(user)) != Some(j) ==> unchanged(subscriptions[j])
    {
      var found := SubscriptionOf(user);
      if found.None? {
        return 404;
      }
      subscriptions[found.value].Cancel();
      status := 200;
    }
  }
}
