/**
 * Payments and subscriptions (backend/payments/models.py): the two records
 * the payment views and the renewal command change in place. Timestamps are
 * seconds on one clock, passed in where the source reads `timezone.now()`;
 * amounts are decimal values written in hundredths.
 */
module PaymentModels {
  import opened Wrappers

  /** `PaymentMethod.Method`: the provider behind a payment. */
  datatype MethodName = Mpesa | BankTransfer | Card

  /** `Payment.Status`. */
  datatype PaymentStatus = Pending | Completed | Failed | Refunded | Cancelled

  /** `Subscription.Status`. */
  datatype SubscriptionStatus = Active | Inactive | SubscriptionCancelled | Expired

  /** The wire value of each payment status, as `Payment.Status.values` lists them. */
  function PaymentStatusValue(s: PaymentStatus): string
  {
    match s
    case Pending => "pending"
    case Completed => "completed"
    case Failed => "failed"
    case Refunded => "refunded"
    case Cancelled => "cancelled"
  }

  /** The status a wire value names, if it names one. */
  function ParsePaymentStatus(v: string): (r: Option<PaymentStatus>)
    ensures r.Some? ==> PaymentStatusValue(r.value) == v
    ensures r.None? ==> forall s: PaymentStatus :: PaymentStatusValue(s) != v
  {
    if v == "pending" then Some(Pending)
    else if v == "completed" then Some(Completed)
    else if v == "failed" then Some(Failed)
    else if v == "refunded" then Some(Refunded)
    else if v == "cancelled" then Some(Cancelled)
    else None
  }

  /** A JSON object; its values are kept opaque. */
  type Metadata = map<string, string>

  /** An amount as a request gives it, read with `Decimal(str(amount))` after an `if not amount` check. */
  datatype AmountField =
    | NoAmount              // missing or falsy
    | Unparseable           // not a decimal number
    | Amount(value: int)    // a decimal number, in hundredths

  /** One day in seconds: `timedelta(days=1)`. */
  const Day: int := 86400

  /**
   * `metadata.update(extra)` guarded by `if extra:`: the keys of `extra` win
   * over the current ones, and a missing or empty `extra` changes nothing.
   */
  function Merge(current: Metadata, extra: Option<Metadata>): (r: Metadata)
    ensures extra.Some? ==> r.Keys == current.Keys + extra.value.Keys
    ensures extra.Some? ==> forall k :: k in extra.value ==> r[k] == extra.value[k]
    ensures forall k :: k in current && (extra.None? || k !in extra.value) ==> k in r && r[k] == current[k]
    ensures extra.None? || extra.value == map[] ==> r == current
  {
    match extra
    case None => current
    case Some(m) => current + m
  }

  /** Merging the same metadata twice is the same as merging it once. */
  lemma MergeTwice(current: Metadata, extra: Option<Metadata>)
    ensures Merge(Merge(current, extra), extra) == Merge(current, extra)
  {
    var once := Merge(current, extra);
    var twice := Merge(once, extra);
    assert twice.Keys == once.Keys;
    forall k | k in twice
      ensures twice[k] == once[k]
    {
    }
  }

  /** `Payment`: any money movement on the platform. */
  class Payment {
    var id: nat
    var user: nat
    var amount: int
    var currency: string
    var status: PaymentStatus
    var provider: MethodName
    var transactionId: string
    var referenceCode: string
    var metadata: Metadata
    var phoneNumber: string
    var processedAt: Option<int>

    /**
     * `Payment.objects.create` with `status` left at its default, PENDING,
     * and `processed_at` empty.
     */
    constructor (id: nat, user: nat, amount: int, currency: string, provider: MethodName,
                 transactionId: string, referenceCode: string, metadata: Metadata, phoneNumber: string)
      ensures status == Pending && processedAt == None
      ensures this.id == id && this.user == user && this.amount == amount && this.currency == currency
      ensures this.provider == provider && this.transactionId == transactionId
      ensures this.referenceCode == referenceCode && this.metadata == metadata && this.phoneNumber == phoneNumber
    {
      this.id := id;
      this.user := user;
      this.amount := amount;
      this.currency := currency;
      this.status := Pending;
      this.provider := provider;
      this.transactionId := transactionId;
      this.referenceCode := referenceCode;
      this.metadata := metadata;
      this.phoneNumber := phoneNumber;
      this.processedAt := None;
    }

    /** `mark_completed`: COMPLETED whatever the status was, stamped, metadata merged. */
    method MarkCompleted(now: int, extra: Option<Metadata>)
      modifies this`status, this`processedAt, this`metadata
      ensures status == Completed && processedAt == Some(now)
      ensures metadata == Merge(old(metadata), extra)
    {
      status := Completed;
      processedAt := Some(now);
      metadata := Merge(metadata, extra);
    }

    /** `mark_failed`: FAILED whatever the status was, stamped, metadata merged. */
    method MarkFailed(now: int, extra: Option<Metadata>)
      modifies this`status, this`processedAt, this`metadata
      ensures status == Failed && processedAt == Some(now)
      ensures metadata == Merge(old(metadata), extra)
    {
      status := Failed;
      processedAt := Some(now);
      metadata := Merge(metadata, extra);
    }
  }

  /** `Subscription`: a user's tier, its renewal date and renewal preference. */
  class Subscription {
    var user: nat
    var tier: string
    var status: SubscriptionStatus
    var startedAt: int
    var expiresAt: int
    var autoRenew: bool
    var price: int
    var currency: string
    var paymentMethod: Option<MethodName>
    var lastPayment: Payment?

    /** `Subscription.objects.create`: ACTIVE and renewing unless told otherwise. */
    constructor (user: nat, tier: string, startedAt: int, expiresAt: int, price: int, currency: string,
                 paymentMethod: Option<MethodName>, lastPayment: Payment?)
      ensures status == Active && autoRenew
      ensures this.user == user && this.tier == tier && this.startedAt == startedAt && this.expiresAt == expiresAt
      ensures this.price == price && this.currency == currency
      ensures this.paymentMethod == paymentMethod && this.lastPayment == lastPayment
    {
      this.user := user;
      this.tier := tier;
      this.status := Active;
      this.startedAt := startedAt;
      this.expiresAt := expiresAt;
      this.autoRenew := true;
      this.price := price;
      this.currency := currency;
      this.paymentMethod := paymentMethod;
      this.lastPayment := lastPayment;
    }

    /** `cancel`: stops renewal and marks the subscription CANCELLED; the paid period stays. */
    method Cancel()
      modifies this`autoRenew, this`status
      ensures !autoRenew && status == SubscriptionCancelled
    {
      autoRenew := false;
      status := SubscriptionCancelled;
    }

    /** `mark_expired`: only the status changes. */
    method MarkExpired()
      modifies this`status
      ensures status == Expired
    {
      status := Expired;
    }
  }
}
