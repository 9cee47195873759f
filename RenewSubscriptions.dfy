/**
 * The daily auto-renewal command
 * (backend/payments/management/commands/renew_subscriptions.py): every
 * subscription that renews automatically and expires within the given
 * number of days gets a new payment, and is extended by 30 days unless the
 * renewal fails. The M-Pesa service's configuration and its STK push are
 * oracles.
 */
module RenewSubscriptions {
  import opened Wrappers
  import opened PaymentModels

  /** What the STK push does: it answers with a payload, or raises. */
  datatype StkReply = StkSent(payload: Metadata) | StkRaised(error: string)

  /** The metadata every renewal payment is created with: `{'auto_renew': True}`. */
  const RenewalMetadata: Metadata := map["auto_renew" := "true"]

  /** The key of the STK push's answer that the callback is later matched on. */
  const CheckoutKey: string := "CheckoutRequestID"

  /** The fate of one renewal: the new payment's fields and whether the subscription is extended. */
  datatype Renewal = Renewal(status: PaymentStatus, metadata: Metadata, referenceCode: string, extended: bool)

  /** `mark_failed({'auto_renew': True, 'error': ...})` on a fresh renewal payment. */
  function FailedRenewal(error: string): Renewal
  {
    Renewal(Failed, Merge(RenewalMetadata, Some(map["auto_renew" := "true", "error" := error])), "", false)
  }

  /**
   * The renewal step as the command is written: the STK push is sent only
   * when the method is M-Pesa and the service is configured, its answer is
   * dropped, and every other case, an unconfigured M-Pesa included, marks
   * the payment COMPLETED.
   */
  function RenewalAsWritten(m: MethodName, configured: bool, phone: string, reply: StkReply): (r: Renewal)
    ensures m == Mpesa && configured ==> r.status != Completed
    ensures m == Mpesa && !configured ==> r.status == Completed && r.extended
    ensures m != Mpesa ==> r.status == Completed && r.extended
    ensures r.referenceCode == ""
  {
    if m == Mpesa && configured then
      if phone != [] then
        match reply
        case StkSent(_) => Renewal(Pending, RenewalMetadata, "", true)
        case StkRaised(e) => FailedRenewal(e)
      else Renewal(Pending, RenewalMetadata, "", true)
    else Renewal(Completed, Merge(RenewalMetadata, Some(RenewalMetadata)), "", true)
  }

  /**
   * The renewal step as the command means it: an M-Pesa renewal stays
   * PENDING whether or not the service is configured, and a sent push keeps
   * the checkout id as the payment's reference, as the payment view does,
   * so the callback can settle it.
   */
  function RenewalOf(m: MethodName, configured: bool, phone: string, reply: StkReply): (r: Renewal)
    ensures m == Mpesa ==> r.status != Completed
    ensures m != Mpesa ==> r.status == Completed && r.extended
    ensures r.extended <==> r.status != Failed
  {
    if m == Mpesa then
      if configured && phone != [] then
        match reply
        case StkSent(payload) =>
          Renewal(Pending, Merge(RenewalMetadata, Some(payload)),
            if CheckoutKey in payload then payload[CheckoutKey] else "", true)
        case StkRaised(e) => FailedRenewal(e)
      else Renewal(Pending, RenewalMetadata, "", true)
    else Renewal(Completed, Merge(RenewalMetadata, Some(RenewalMetadata)), "", true)
  }

  /**
   * As written, an M-Pesa renewal with the service unconfigured is marked
   * COMPLETED and the subscription extended, although no money was asked
   * for; the command's own warning says such renewals remain pending.
   */
  lemma UnconfiguredMpesaCompletes(phone: string, reply: StkReply)
    ensures RenewalAsWritten(Mpesa, false, phone, reply).status == Completed
    ensures RenewalAsWritten(Mpesa, false, phone, reply).extended
    ensures RenewalOf(Mpesa, false, phone, reply).status == Pending
  {
  }

  /**
   * As written, a sent STK push leaves the payment's reference empty, so no
   * callback (whose checkout id must be non-empty) can ever find it.
   */
  lemma SentPushLosesCheckout(phone: string, payload: Metadata, checkout: string)
    requires phone != [] && checkout != []
    ensures RenewalAsWritten(Mpesa, true, phone, StkSent(payload)).referenceCode != checkout
    ensures CheckoutKey in payload && payload[CheckoutKey] == checkout ==>
      RenewalOf(Mpesa, true, phone, StkSent(payload)).referenceCode == checkout
  {
  }

  /** Renewals that go ahead completed are exactly the non-M-Pesa ones; M-Pesa waits for its callback. */
  lemma CompletedOnlyWithoutMpesa(m: MethodName, configured: bool, phone: string, reply: StkReply)
    ensures RenewalOf(m, configured, phone, reply).status == Completed <==> m != Mpesa
  {
  }

  /** `getattr(subscription.last_payment, 'phone_number', '')`. */
  function PhoneOf(last: Payment?): string
    reads last
  {
    if last == null then "" else last.phoneNumber
  }

  /** `expires_at__lte=now + timedelta(days=days)` and `auto_renew=True`. */
  predicate Due(autoRenew: bool, expiresAt: int, now: int, days: int)
  {
    autoRenew && expiresAt <= now + days * Day
  }

  /** 30 days in seconds, the length a renewal adds. */
  const RenewalPeriod: int := 30 * Day

  /**
   * What happened to a subscription between the command's start and now,
   * and the payment made for it: a due subscription with a payment method
   * gets a fresh payment for its user, price, currency, method and last
   * phone number, settled as `RenewalOf` says, and is extended by 30 days,
   * made ACTIVE and linked to that payment unless its renewal failed; every
   * other subscription gets no payment and keeps its dates, status and
   * last payment. Nothing else about a subscription changes.
   */
  twostate predicate RenewedAsSpecified(s: Subscription, now: int, days: int, configured: bool, reply: StkReply,
                                        phone: string, id: nat, transactionId: string, new p: Payment?)
    reads s, p
  {
    && s.user == old(s.user) && s.tier == old(s.tier) && s.startedAt == old(s.startedAt)
    && s.price == old(s.price) && s.currency == old(s.currency)
    && s.autoRenew == old(s.autoRenew) && s.paymentMethod == old(s.paymentMethod)
    && if Due(old(s.autoRenew), old(s.expiresAt), now, days) && old(s.paymentMethod).Some? then
      var r := RenewalOf(old(s.paymentMethod).value, configured, phone, reply);
      && p != null && fresh(p)
      && p.id == id && p.user == s.user && p.amount == s.price && p.currency == s.currency
      && p.provider == s.paymentMethod.value && p.transactionId == transactionId && p.phoneNumber == phone
      && p.status == r.status && p.metadata == r.metadata && p.referenceCode == r.referenceCode
      && (p.processedAt.Some? <==> p.status != Pending)
      && (r.extended ==> s.expiresAt == old(s.expiresAt) + RenewalPeriod && s.status == Active && s.lastPayment == p)
      && (!r.extended ==> s.expiresAt == old(s.expiresAt) && s.status == old(s.status) && s.lastPayment == old(s.lastPayment))
    else
      p == null && s.expiresAt == old(s.expiresAt) && s.status == old(s.status) && s.lastPayment == old(s.lastPayment)
  }

  /**
   * The `try` block for a fresh renewal payment: push, complete or leave
   * it pending as `RenewalOf` says; whether the subscription is to be
   * extended.
   */
  method Settle(p: Payment, m: MethodName, configured: bool, phone: string, reply: StkReply, now: int)
    returns (extended: bool)
    requires p.status == Pending && p.processedAt == None && p.metadata == RenewalMetadata && p.referenceCode == ""
    modifies p`status, p`processedAt, p`metadata, p`referenceCode
    ensures var r := RenewalOf(m, configured, phone, reply);
      && p.status == r.status && p.metadata == r.metadata && p.referenceCode == r.referenceCode
      && extended == r.extended
      && (p.processedAt.Some? <==> p.status != Pending)
  {
    extended := true;
    if m == Mpesa && configured {
      if phone != [] {
        match reply
        case StkRaised(e) =>
          p.MarkFailed(now, Some(map["auto_renew" := "true", "error" := e]));
          extended := false;
        case StkSent(payload) =>
          p.referenceCode := if CheckoutKey in payload then payload[CheckoutKey] else p.referenceCode;
          p.metadata := Merge(p.metadata, Some(payload));
      }
    } else if m != Mpesa {
      p.MarkCompleted(now, Some(RenewalMetadata));
    }
  }

  /**
   * One iteration of the loop: skip a subscription without a payment
   * method; otherwise create its payment and settle it as `RenewalOf` says,
   * extending the subscription by 30 days and linking the payment unless
   * the renewal failed.
   */
  method RenewOne(s: Subscription, configured: bool, reply: StkReply, id: nat, transactionId: string, now: int)
    returns (p: Payment?)
    modifies s`expiresAt, s`status, s`lastPayment
    ensures old(s.paymentMethod).None? ==> p == null && unchanged(s)
    ensures old(s.paymentMethod).Some? ==>
      var r := RenewalOf(old(s.paymentMethod).value, configured, old(PhoneOf(s.lastPayment)), reply);
      && p != null && fresh(p)
      && p.id == id && p.user == s.user && p.amount == s.price && p.currency == s.currency
      && p.provider == s.paymentMethod.value && p.transactionId == transactionId
      && p.phoneNumber == old(PhoneOf(s.lastPayment))
      && p.status == r.status && p.metadata == r.metadata && p.referenceCode == r.referenceCode
      && (p.processedAt.Some? <==> p.status != Pending)
      && (r.extended ==> s.expiresAt == old(s.expiresAt) + RenewalPeriod && s.status == Active && s.lastPayment == p)
      && (!r.extended ==> s.expiresAt == old(s.expiresAt) && s.status == old(s.status) && s.lastPayment == old(s.lastPayment))
  {
    if s.paymentMethod.None? {
      return null;
    }
    var m := s.paymentMethod.value;
    var phone := PhoneOf(s.lastPayment);
    p := new Payment(id, s.user, s.price, s.currency, m, transactionId, "", RenewalMetadata, phone);
    var extended := Settle(p, m, configured, phone, reply, now);
    if extended {
      s.expiresAt := s.expiresAt + RenewalPeriod;
      s.status := Active;
      s.lastPayment := p;
    }
  }

  /**
   * `handle`: every due subscription, in order, goes through `RenewOne`;
   * the others are left alone. `created[i]` is the payment made for
   * `subs[i]`, or null when none was.
   */
  method RenewAll(subs: seq<Subscription>, now: int, days: int, configured: bool, replies: seq<StkReply>,
                  firstId: nat, transactionIds: seq<string>)
    returns (created: seq<Payment?>)
    requires forall i, j :: 0 <= i < j < |subs| ==> subs[i] != subs[j]
    requires |replies| == |subs| && |transactionIds| == |subs|
    modifies set i | 0 <= i < |subs| :: subs[i]
    ensures |created| == |subs|
    ensures forall i :: 0 <= i < |subs| ==>
      RenewedAsSpecified(subs[i], now, days, configured, replies[i], old(PhoneOf(subs[i].lastPayment)),
                         firstId + i, transactionIds[i], created[i])
  {
    created := [];
    var i := 0;
    while i < |subs|
      invariant 0 <= i <= |subs| && |created| == i
      invariant forall j :: i <= j < |subs| ==> unchanged(subs[j])
      invariant forall j :: 0 <= j < i ==>
        RenewedAsSpecified(subs[j], now, days, configured, replies[j], old(PhoneOf(subs[j].lastPayment)),
                           firstId + j, transactionIds[j], created[j])
    {
      var s := subs[i];
      var p: Payment? := null;
      if Due(s.autoRenew, s.expiresAt, now, days) {
        p := RenewOne(s, configured, replies[i], firstId + i, transactionIds[i], now);
      }
      created := created + [p];
      i := i + 1;
    }
  }
}
