/**
 * Users, their free trial and their monthly usage limits
 * (backend/users/models.py). The trial methods change the user in place;
 * the usage checks and the reset date are pure.
 */
module UserModels {
  import opened Wrappers

  // ---------------------------------------------------------------------
  // Tiers and the free trial.
  // ---------------------------------------------------------------------

  const FreeTier: string := "free"
  const LearnerTier: string := "learner"
  const ProTier: string := "pro"
  const ProPlusTier: string := "pro_plus"
  const AdminTier: string := "admin"

  /** `timedelta(days=30)` in seconds. */
  const TrialLength: int := 30 * 86400

  /** The fields the trial methods read and write. */
  datatype TrialState = TrialState(
    tier: string,
    trialStartedAt: Option<int>,
    trialEndsAt: Option<int>,
    isTrialActive: bool,
    originalTier: string)

  /** A user who never touched the trial. */
  function NewUser(tier: string): TrialState
  {
    TrialState(tier, None, None, false, FreeTier)
  }

  /**
   * `start_free_trial` at time `now`: only a user who never started a trial
   * gets one; the new state, and whether a trial started.
   */
  function StartTrial(s: TrialState, now: int): (TrialState, bool)
  {
    if s.trialStartedAt.None? then
      (TrialState(ProTier, Some(now), Some(now + TrialLength), true, s.tier), true)
    else
      (s, false)
  }

  /**
   * `check_trial_status` at time `now`: an active trial past its end gives
   * the original tier back and ends; the new state, and whether a trial is
   * still running.
   */
  function CheckTrial(s: TrialState, now: int): (TrialState, bool)
  {
    if s.isTrialActive && s.trialEndsAt.Some? then
      if now > s.trialEndsAt.value then
        (s.(tier := s.originalTier, isTrialActive := false), false)
      else
        (s, true)
    else
      (s, false)
  }

  /** `get_effective_tier`: the tier after the trial check. */
  function EffectiveTier(s: TrialState, now: int): string
  {
    CheckTrial(s, now).0.tier
  }

  /**
   * A trial starts only once: it makes the user PRO for 30 days, remembering
   * the tier to return to; any later attempt, even after the trial ran out,
   * changes nothing.
   */
  lemma TrialOnlyOnce(s: TrialState, now: int, later: int, checkAt: int)
    requires s.trialStartedAt.None?
    ensures StartTrial(s, now).1
    ensures var t := StartTrial(s, now).0;
      t.tier == ProTier && t.originalTier == s.tier && t.isTrialActive && t.trialEndsAt == Some(now + TrialLength)
    ensures var t := StartTrial(s, now).0;
      StartTrial(t, later) == (t, false)
    ensures var u := CheckTrial(StartTrial(s, now).0, checkAt).0;
      StartTrial(u, later) == (u, false)
  {
  }

  /**
   * During the 30 days the effective tier is PRO and the trial is running;
   * after them the user is back on the tier held before the trial, and the
   * trial is over for good.
   */
  lemma TrialLifetime(s: TrialState, start: int, now: int)
    requires s.trialStartedAt.None?
    ensures var t := StartTrial(s, start).0;
      now <= start + TrialLength ==> CheckTrial(t, now) == (t, true) && EffectiveTier(t, now) == ProTier
    ensures var t := StartTrial(s, start).0;
      now > start + TrialLength ==>
        EffectiveTier(t, now) == s.tier && !CheckTrial(t, now).1 && !CheckTrial(t, now).0.isTrialActive
        && CheckTrial(CheckTrial(t, now).0, now + 1) == (CheckTrial(t, now).0, false)
  {
  }

  /** Without an active trial, the check changes nothing and reports none. */
  lemma NoTrialNoChange(s: TrialState, now: int)
    requires !s.isTrialActive
    ensures CheckTrial(s, now) == (s, false)
    ensures EffectiveTier(s, now) == s.tier
  {
  }

  /** The user record, changed in place by the trial methods. */
  class User {
    var tier: string
    var trialStartedAt: Option<int>
    var trialEndsAt: Option<int>
    var isTrialActive: bool
    var originalTier: string

    function State(): TrialState
      reads this
    {
      TrialState(tier, trialStartedAt, trialEndsAt, isTrialActive, originalTier)
    }

    constructor (tier: string)
      ensures State() == NewUser(tier)
    {
      this.tier := tier;
      trialStartedAt := None;
      trialEndsAt := None;
      isTrialActive := false;
      originalTier := FreeTier;
    }

    /** `start_free_trial`. */
    method StartFreeTrial(now: int) returns (started: bool)
      modifies this
      ensures (State(), started) == StartTrial(old(State()), now)
    {
      if trialStartedAt.None? {
        originalTier := tier;
        tier := ProTier;
        trialStartedAt := Some(now);
        trialEndsAt := Some(now + TrialLength);
        isTrialActive := true;
        return true;
      }
      return false;
    }

    /** `check_trial_status`. */
    method CheckTrialStatus(now: int) returns (active: bool)
      modifies this
      ensures (State(), active) == CheckTrial(old(State()), now)
    {
      if isTrialActive && trialEndsAt.Some? {
        if now > trialEndsAt.value {
          tier := originalTier;
          isTrialActive := false;
          return false;
        }
        return true;
      }
      return false;
    }

    /** `get_effective_tier`. */
    method GetEffectiveTier(now: int) returns (t: string)
      modifies this
      ensures State() == CheckTrial(old(State()), now).0
      ensures t == EffectiveTier(old(State()), now)
    {
      var _ := CheckTrialStatus(now);
      t := tier;
    }
  }

  // ---------------------------------------------------------------------
  // Monthly usage.
  // ---------------------------------------------------------------------

  /** A monthly allowance: a number, or `float('inf')`. */
  datatype Limit = Finite(n: nat) | Unlimited

  datatype TierLimits = TierLimits(assessments: Limit, courses: Limit, aiQueries: Limit)

  /** `get_tier_limits`: the table by tier, and the free limits for any other tier value. */
  function LimitsFor(tier: string): TierLimits
  {
    if tier == LearnerTier then TierLimits(Finite(10), Finite(5), Finite(50))
    else if tier == ProTier then TierLimits(Finite(50), Unlimited, Finite(200))
    else if tier == ProPlusTier || tier == AdminTier then TierLimits(Unlimited, Unlimited, Unlimited)
    else TierLimits(Finite(2), Finite(1), Finite(0))
  }

  /** `used < limit`. */
  predicate Below(used: nat, limit: Limit)
  {
    limit.Unlimited? || used < limit.n
  }

  /** A month's counters. */
  datatype Usage = Usage(assessmentsCreated: nat, coursesCreated: nat, aiQueriesUsed: nat)

  predicate CanCreateAssessment(u: Usage, tier: string) { Below(u.assessmentsCreated, LimitsFor(tier).assessments) }
  predicate CanCreateCourse(u: Usage, tier: string) { Below(u.coursesCreated, LimitsFor(tier).courses) }
  predicate CanUseAi(u: Usage, tier: string) { Below(u.aiQueriesUsed, LimitsFor(tier).aiQueries) }

  predicate IsKnownTier(tier: string)
  {
    tier in {FreeTier, LearnerTier, ProTier, ProPlusTier, AdminTier}
  }

  /** A tier value outside the table gets exactly the free allowances. */
  lemma UnknownTierIsFree(tier: string, u: Usage)
    requires !IsKnownTier(tier)
    ensures LimitsFor(tier) == LimitsFor(FreeTier)
    ensures CanCreateAssessment(u, tier) == CanCreateAssessment(u, FreeTier)
    ensures CanCreateCourse(u, tier) == CanCreateCourse(u, FreeTier)
    ensures CanUseAi(u, tier) == CanUseAi(u, FreeTier)
  {
  }

  /** A free user can never use AI; a pro-plus or admin user is never refused anything. */
  lemma TierExtremes(u: Usage)
    ensures !CanUseAi(u, FreeTier)
    ensures CanCreateAssessment(u, ProPlusTier) && CanCreateCourse(u, ProPlusTier) && CanUseAi(u, ProPlusTier)
    ensures CanCreateAssessment(u, AdminTier) && CanCreateCourse(u, AdminTier) && CanUseAi(u, AdminTier)
  {
  }

  /** `a` allows at least as much as `b`. */
  predicate AtLeast(a: Limit, b: Limit)
  {
    a.Unlimited? || (b.Finite? && a.n >= b.n)
  }

  /** Each paid tier allows at least what the tier below it allows, for every counter. */
  lemma TiersAreOrdered()
    ensures forall t :: t in [LearnerTier, ProTier, ProPlusTier] ==>
      var lower := if t == LearnerTier then FreeTier else if t == ProTier then LearnerTier else ProTier;
      AtLeast(LimitsFor(t).assessments, LimitsFor(lower).assessments)
      && AtLeast(LimitsFor(t).courses, LimitsFor(lower).courses)
      && AtLeast(LimitsFor(t).aiQueries, LimitsFor(lower).aiQueries)
  {
  }

  /** Allowed at a count means allowed at every smaller count. */
  lemma BelowDownward(used: nat, fewer: nat, limit: Limit)
    requires fewer <= used && Below(used, limit)
    ensures Below(fewer, limit)
  {
  }

  // ---------------------------------------------------------------------
  // The reset date.
  // ---------------------------------------------------------------------

  /** A `datetime` with the time of day kept in seconds. */
  datatype DateTime = DateTime(year: int, month: int, day: int, second: nat)

  predicate IsLeap(y: int)
  {
    (y % 4 == 0 && y % 100 != 0) || y % 400 == 0
  }

  function DaysInMonth(y: int, m: int): nat
  {
    if m == 2 then (if IsLeap(y) then 29 else 28)
    else if m == 4 || m == 6 || m == 9 || m == 11 then 30
    else 31
  }

  /** Python's `datetime` range: years 1 to 9999 and a day that exists in its month. */
  predicate ValidDate(d: DateTime)
  {
    1 <= d.year <= 9999 && 1 <= d.month <= 12 && 1 <= d.day <= DaysInMonth(d.year, d.month) && d.second < 86400
  }

  /** `datetime.replace(year=..., month=...)`: none where it raises `ValueError`. */
  function Replace(d: DateTime, year: int, month: int): (r: Option<DateTime>)
    ensures r.Some? ==> ValidDate(r.value) || !ValidDate(d)
  {
    var e := d.(year := year, month := month);
    if ValidDate(e) || !ValidDate(d) then Some(e) else None
  }

  /** `resets_at`: the same moment of the following month; December rolls over to January. */
  function ResetsAt(month: DateTime): Option<DateTime>
  {
    if month.month == 12 then Replace(month, month.year + 1, 1)
    else Replace(month, month.year, month.month + 1)
  }

  /** Strictly earlier, field by field. */
  predicate Earlier(a: DateTime, b: DateTime)
  {
    a.year < b.year || (a.year == b.year && (a.month < b.month || (a.month == b.month && (a.day < b.day || (a.day == b.day && a.second < b.second)))))
  }

  /** `now.replace(day=1, hour=0, minute=0, second=0, microsecond=0)`: the month a usage row is for. */
  function MonthOf(now: DateTime): DateTime
  {
    now.(day := 1, second := 0)
  }

  /**
   * For a usage month (the first of a month) before year 9999's December,
   * the reset is the first of the next month, January of the next year
   * after December, and it is later than the month itself.
   */
  lemma ResetsNextMonth(now: DateTime)
    requires ValidDate(now) && !(now.year == 9999 && now.month == 12)
    ensures var m := MonthOf(now);
      && ResetsAt(m).Some?
      && ValidDate(ResetsAt(m).value)
      && ResetsAt(m).value.day == 1 && ResetsAt(m).value.second == 0
      && (now.month == 12 ==> ResetsAt(m).value.year == now.year + 1 && ResetsAt(m).value.month == 1)
      && (now.month < 12 ==> ResetsAt(m).value.year == now.year && ResetsAt(m).value.month == now.month + 1)
      && Earlier(m, ResetsAt(m).value)
      && Earlier(now, ResetsAt(m).value)
  {
  }

  /** The 31st of a month followed by a shorter one has no reset date: `replace` raises. */
  lemma ResetsAtCanRaise()
    ensures ResetsAt(DateTime(2024, 1, 31, 0)) == None
  {
    assert !ValidDate(DateTime(2024, 2, 31, 0));
  }
}
