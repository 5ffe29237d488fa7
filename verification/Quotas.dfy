/** Tier limits and the submit decision. */
module Quotas {
  import opened Text
  import opened Executions

  const SUBMIT_WINDOW: int := 3600 * SECOND

  /** A negative limit means unlimited. */
  datatype Limits = Limits(submitsPerHour: int, maxActive: int)

  datatype Decision = Decision(allowed: bool, retryAfterSec: int, reason: string)

  const ALLOW := Decision(true, 0, "")
  const FREE := Limits(60, 2)

  function LimitsFor(tier: string): Limits {
    TierTable(Normalize(tier))
  }

  function TierTable(t: string): Limits {
    if t == "starter" then Limits(600, 5)
    else if t == "professional" then Limits(6000, 20)
    else if t == "enterprise" then Limits(-1, -1)
    else FREE
  }

  lemma TableNumbers(t: string)
    ensures t == "starter" ==> TierTable(t) == Limits(600, 5)
    ensures t == "professional" ==> TierTable(t) == Limits(6000, 20)
    ensures t == "enterprise" ==> TierTable(t) == Limits(-1, -1)
    ensures t != "starter" && t != "professional" && t != "enterprise" ==> TierTable(t) == Limits(60, 2)
  {
  }

  ghost predicate Starter(tier: string) {
    Named(tier, "starter")
  }

  ghost predicate Professional(tier: string) {
    Named(tier, "professional")
  }

  ghost predicate Enterprise(tier: string) {
    Named(tier, "enterprise")
  }

  lemma StarterName(tier: string)
    ensures Starter(tier) <==> Normalize(tier) == "starter"
  {
    NormalizeIs(tier, "starter");
  }

  lemma ProfessionalName(tier: string)
    ensures Professional(tier) <==> Normalize(tier) == "professional"
  {
    NormalizeIs(tier, "professional");
  }

  lemma EnterpriseName(tier: string)
    ensures Enterprise(tier) <==> Normalize(tier) == "enterprise"
  {
    NormalizeIs(tier, "enterprise");
  }

  /** The limits by the name of the tier, in any case and with any padding; an unknown tier is free. */
  lemma TierNumbers(tier: string)
    ensures Starter(tier) ==> LimitsFor(tier) == Limits(600, 5)
    ensures Professional(tier) ==> LimitsFor(tier) == Limits(6000, 20)
    ensures Enterprise(tier) ==> LimitsFor(tier) == Limits(-1, -1)
    ensures !Starter(tier) && !Professional(tier) && !Enterprise(tier) ==> LimitsFor(tier) == Limits(60, 2)
  {
    StarterName(tier);
    ProfessionalName(tier);
    EnterpriseName(tier);
    TableNumbers(Normalize(tier));
  }

  /** The hint of an hourly denial: a fair share of the hour in whole seconds, at least one. */
  predicate FairShare(limit: int, secs: int) {
    if limit == 0 then secs == 3600
    else secs >= 1 && (secs == 1 || secs * limit <= 3600) && (secs + 1) * limit > 3600
  }

  lemma ShareIsFair(limit: int)
    requires limit > 0
    ensures FairShare(limit, if 3600 / limit < 1 then 1 else 3600 / limit)
  {
    var q := 3600 / limit;
    assert 3600 == q * limit + 3600 % limit;
    assert q * limit <= 3600 && (q + 1) * limit == q * limit + limit;
    if q < 1 {
      assert q == 0;
    }
  }

  /** True when a count leaves room under a limit. */
  predicate Room(limit: int, count: int) {
    limit < 0 || count < limit
  }

  function Decide(l: Limits, hourly: int, active: int): (d: Decision)
    ensures d.allowed <==> Room(l.submitsPerHour, hourly) && Room(l.maxActive, active)
    ensures !d.allowed ==> 1 <= d.retryAfterSec <= 3600
    ensures !d.allowed ==>
              if Room(l.submitsPerHour, hourly) then d.retryAfterSec == 30
              else FairShare(l.submitsPerHour, d.retryAfterSec)
  {
    if l.submitsPerHour >= 0 && hourly >= l.submitsPerHour then
      var share := if l.submitsPerHour > 0 then ShareIsFair(l.submitsPerHour); 3600 / l.submitsPerHour else 3600;
      Decision(false, if share < 1 then 1 else share, "hourly submit limit exceeded")
    else if l.maxActive >= 0 && active >= l.maxActive then
      Decision(false, 30, "too many active executions")
    else ALLOW
  }

  lemma DenialReason(l: Limits, hourly: int, active: int)
    ensures var d := Decide(l, hourly, active);
            d.reason == if d.allowed then "" else if Room(l.submitsPerHour, hourly) then "too many active executions"
                        else "hourly submit limit exceeded"
  {
  }

  // `checkCounts` reads the two counts by two statements, each only when its limit is finite.

  function HourlyCount(t: Table, tenant: Tenant, l: Limits, clock: Time): nat {
    if l.submitsPerHour >= 0 then |IdsSince(t, tenant, clock - SUBMIT_WINDOW)| else 0
  }

  function ActiveCount(t: Table, tenant: Tenant, l: Limits): nat {
    if l.maxActive >= 0 then |ActiveIds(t, tenant)| else 0
  }
}
