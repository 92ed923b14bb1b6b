/**
 * The bonus claim engine (apps/api/services/bonusService.js).
 *
 * A claim attempt resolves the active policy by code, refuses it once the
 * user holds `max_claims` claims, refuses it while the cooldown of the most
 * recent claim runs (a calendar-day reset in UTC+9 for a 86400-second
 * cooldown, a rolling window otherwise), and otherwise credits the wallet
 * with the policy's amount and records a claim linked to that transaction.
 *
 * Time is an integer number of milliseconds since the Unix epoch; the clock
 * reading `Date.now()` is the parameter `now`. The wallet service is not
 * part of this model: its credit is a journal entry in `ledger`, and its
 * refusal (an exception) is the parameter `creditError`.
 */
module BonusService {
  import opened Wrappers

  type UserId = string

  const HourMs := 3_600_000
  const DayMs := 86_400_000
  /** Korea Standard Time is UTC+9, with no daylight saving. */
  const KstOffsetMs := 9 * HourMs
  /** The one cooldown value that means "once per KST calendar day". */
  const DailyCooldownSeconds := 86400

  const SignupCode := "signup"
  const DailyVisitCode := "daily_visit"

  /** A row of `bonus_policies` joined with its currency code. */
  datatype Policy = Policy(
    id: nat,
    code: string,
    amount: int,
    currencyCode: string,
    description: Option<string>,
    cooldownSeconds: Option<int>,
    maxClaims: Option<int>,
    isActive: bool)

  /** A row of `bonus_claims`. */
  datatype Claim = Claim(userId: UserId, policyId: nat, transactionId: nat, claimedAt: int)

  /** The idempotency key `bonus_<code>_<user>_<now>`, kept as its three parts. */
  datatype IdempotencyKey = BonusKey(policyCode: string, userId: UserId, at: int)

  /** A credit transaction as the wallet returns it. */
  datatype Tx = Tx(
    id: nat,
    userId: UserId,
    currencyCode: string,
    amount: int,
    reference: string,
    memo: Option<string>,
    idempotencyKey: IdempotencyKey,
    bonusPolicy: string)

  datatype Reason = PolicyNotFound | MaxClaimsReached | CooldownActive | Error

  /** The verdict of the eligibility checks. */
  datatype Decision = Eligible | Denied(reason: Reason, nextAvailableAt: Option<int>)

  /** What `claimBonus` resolves to. */
  datatype ClaimResult =
    | Granted(tx: Tx, amount: int, currency: string)
    | NotGranted(reason: Reason, nextAvailableAt: Option<int>)

  /** `claimBonus` either resolves or throws (here: when the wallet refuses the credit). */
  datatype Outcome = Returned(result: ClaimResult) | Threw(message: string)

  /** The claim history and the wallet journal. */
  datatype State = State(claims: seq<Claim>, ledger: seq<Tx>)

  // ---------------------------------------------------------------------
  // UTC+9 calendar arithmetic

  /**
   * The KST calendar date of instant `t`, as a day number: the date part of
   * `new Date(t + 9h).toISOString()` names exactly one such day.
   */
  function KstDate(t: int): (day: int)
    ensures day * DayMs <= t + KstOffsetMs < (day + 1) * DayMs
  {
    (t + KstOffsetMs) / DayMs
  }

  /** Instant `t` is 00:00 in KST. */
  predicate IsKstMidnight(t: int) {
    (t + KstOffsetMs) % DayMs == 0
  }

  /** The next KST midnight after `now`, as a UTC instant. */
  function NextKstMidnight(now: int): (t: int)
    ensures now < t <= now + DayMs
    ensures IsKstMidnight(t)
    ensures KstDate(t) == KstDate(now) + 1
  {
    (KstDate(now) + 1) * DayMs - KstOffsetMs
  }

  /** The KST date never decreases as time goes on. */
  lemma KstDateMonotone(a: int, b: int)
    requires a <= b
    ensures KstDate(a) <= KstDate(b)
  {
  }

  /** No KST midnight lies strictly between `now` and `NextKstMidnight(now)`. */
  lemma NextKstMidnightIsLeast(now: int, u: int)
    requires now < u && IsKstMidnight(u)
    ensures NextKstMidnight(now) <= u
  {
    KstDateMonotone(now, u);
    assert u + KstOffsetMs == KstDate(u) * DayMs;
  }

  /** Every instant before the next midnight still falls on today's KST date. */
  lemma SameKstDateUntilMidnight(now: int, u: int)
    requires now <= u < NextKstMidnight(now)
    ensures KstDate(u) == KstDate(now)
  {
    KstDateMonotone(now, u);
  }

  // ---------------------------------------------------------------------
  // Eligibility

  /**
   * The cooldown check against the most recent claim `last`:
   * `Some(nextAvailableAt)` while it still blocks a claim at `now`.
   */
  function CooldownBlock(cooldownSeconds: Option<int>, last: Option<int>, now: int): (next: Option<int>)
    ensures cooldownSeconds.None? || last.None? ==> next.None?
    ensures next.Some? ==> next.value > now
    ensures cooldownSeconds == Some(DailyCooldownSeconds) && last.Some? ==>
              (next.Some? <==> KstDate(now) == KstDate(last.value))
    ensures cooldownSeconds == Some(DailyCooldownSeconds) && next.Some? ==>
              next.value == NextKstMidnight(now)
    ensures cooldownSeconds.Some? && cooldownSeconds.value != DailyCooldownSeconds && last.Some? ==>
              (next.Some? <==> now - last.value < cooldownSeconds.value * 1000)
    ensures cooldownSeconds.Some? && cooldownSeconds.value != DailyCooldownSeconds && next.Some? ==>
              next.value == last.value + cooldownSeconds.value * 1000
  {
    if cooldownSeconds.None? || last.None? then None
    else if cooldownSeconds.value == DailyCooldownSeconds then
      if KstDate(now) == KstDate(last.value) then Some(NextKstMidnight(now)) else None
    else if now - last.value < cooldownSeconds.value * 1000 then
      Some(last.value + cooldownSeconds.value * 1000)
    else None
  }

  /**
   * The eligibility checks in the source's order: the policy must exist and
   * be active, the claim `count` must be below `max_claims`, and the
   * cooldown of the latest claim `last` must have passed.
   */
  function Eligibility(policy: Option<Policy>, count: nat, last: Option<int>, now: int): (d: Decision)
    ensures d.Denied? ==> d.reason != Error
    ensures (d.Denied? && d.reason == PolicyNotFound) <==> policy.None?
    ensures policy.None? ==> d.nextAvailableAt.None?
    ensures (d.Denied? && d.reason == MaxClaimsReached) <==>
              policy.Some? && policy.value.maxClaims.Some? && count >= policy.value.maxClaims.value
    ensures (d.Denied? && d.reason == CooldownActive) <==>
              policy.Some? && !(policy.value.maxClaims.Some? && count >= policy.value.maxClaims.value)
              && CooldownBlock(policy.value.cooldownSeconds, last, now).Some?
    ensures d.Denied? && d.reason == MaxClaimsReached ==> d.nextAvailableAt.None?
    ensures d.Denied? && d.reason == CooldownActive ==>
              d.nextAvailableAt == CooldownBlock(policy.value.cooldownSeconds, last, now)
              && d.nextAvailableAt.value > now
  {
    if policy.None? then Denied(PolicyNotFound, None)
    else
      var p := policy.value;
      if p.maxClaims.Some? && count >= p.maxClaims.value then Denied(MaxClaimsReached, None)
      else
        var next := CooldownBlock(p.cooldownSeconds, last, now);
        if next.Some? then Denied(CooldownActive, next) else Eligible
  }

  /** A policy without `max_claims` is never refused for its claim count. */
  lemma UnlimitedNeverMaxedOut(p: Policy, count: nat, last: Option<int>, now: int)
    requires p.maxClaims.None?
    ensures Eligibility(Some(p), count, last, now) != Denied(MaxClaimsReached, None)
  {
  }

  /**
   * A daily policy below its quota is refused exactly when the last claim
   * fell on the same KST date as `now`, however close in time the two are.
   */
  lemma DailyIsCalendarReset(p: Policy, count: nat, last: int, now: int)
    requires p.cooldownSeconds == Some(DailyCooldownSeconds)
    requires !(p.maxClaims.Some? && count >= p.maxClaims.value)
    ensures Eligibility(Some(p), count, Some(last), now).Eligible? <==> KstDate(now) != KstDate(last)
  {
  }

  /**
   * `nextAvailableAt` is exact: with no new claim, every attempt before it
   * is refused with the same answer, and an attempt at it passes the checks.
   */
  lemma NextAvailableIsExact(p: Policy, count: nat, last: Option<int>, now: int, u: int)
    requires Eligibility(Some(p), count, last, now).Denied?
    requires Eligibility(Some(p), count, last, now).reason == CooldownActive
    ensures var t := Eligibility(Some(p), count, last, now).nextAvailableAt.value;
      && Eligibility(Some(p), count, last, t) == Eligible
      && (now <= u < t ==> Eligibility(Some(p), count, last, u) == Denied(CooldownActive, Some(t)))
  {
    var t := Eligibility(Some(p), count, last, now).nextAvailableAt.value;
    if p.cooldownSeconds.value == DailyCooldownSeconds {
      assert KstDate(t) != KstDate(last.value);
      if now <= u < t {
        SameKstDateUntilMidnight(now, u);
        assert NextKstMidnight(u) == t;
      }
    }
  }

  // ---------------------------------------------------------------------
  // The claim history

  /** The claims of one user for one policy, oldest first. */
  function ClaimsFor(claims: seq<Claim>, userId: UserId, policyId: nat): (r: seq<Claim>)
    ensures |r| <= |claims|
    ensures forall c :: c in r <==> c in claims && c.userId == userId && c.policyId == policyId
  {
    if claims == [] then []
    else
      var rest := ClaimsFor(claims[1..], userId, policyId);
      if claims[0].userId == userId && claims[0].policyId == policyId then [claims[0]] + rest else rest
  }

  /** `ORDER BY claimed_at DESC LIMIT 1`: the time of the most recent claim. */
  function LatestClaimTime(cs: seq<Claim>): (t: Option<int>)
    ensures t.None? <==> cs == []
    ensures t.Some? ==> exists c :: c in cs && c.claimedAt == t.value
    ensures t.Some? ==> forall c :: c in cs ==> c.claimedAt <= t.value
  {
    if cs == [] then None
    else
      var rest := LatestClaimTime(cs[1..]);
      assert forall c :: c in cs[1..] ==> c in cs;
      if rest.None? || cs[0].claimedAt >= rest.value then Some(cs[0].claimedAt) else rest
  }

  /** Adding a claim for the pair extends its history by that claim; other pairs keep theirs. */
  lemma {:induction false} ClaimsForAppend(claims: seq<Claim>, c: Claim, userId: UserId, policyId: nat)
    ensures ClaimsFor(claims + [c], userId, policyId) ==
              ClaimsFor(claims, userId, policyId) + (if c.userId == userId && c.policyId == policyId then [c] else [])
  {
    if claims == [] {
      assert claims + [c] == [c];
      assert ClaimsFor([c][1..], userId, policyId) == [];
    } else {
      assert (claims + [c])[1..] == claims[1..] + [c];
      ClaimsForAppend(claims[1..], c, userId, policyId);
    }
  }

  /** The active policy with the given code, as the policy query selects it. */
  function ActivePolicy(policies: map<string, Policy>, code: string): (p: Option<Policy>)
    ensures p.Some? <==> code in policies && policies[code].isActive
    ensures p.Some? ==> p.value == policies[code]
  {
    if code in policies && policies[code].isActive then Some(policies[code]) else None
  }

  /** The eligibility of `userId` for the policy `code` against the stored history. */
  function Decide(policies: map<string, Policy>, claims: seq<Claim>, userId: UserId, code: string, now: int): (d: Decision)
    ensures code !in policies || !policies[code].isActive ==> d == Denied(PolicyNotFound, None)
    ensures code in policies && policies[code].isActive ==>
      var p := policies[code];
      var mine := ClaimsFor(claims, userId, p.id);
      && ((d.Denied? && d.reason == MaxClaimsReached) <==> p.maxClaims.Some? && |mine| >= p.maxClaims.value)
      && ((d.Denied? && d.reason == CooldownActive) <==>
            !(p.maxClaims.Some? && |mine| >= p.maxClaims.value)
            && CooldownBlock(p.cooldownSeconds, LatestClaimTime(mine), now).Some?)
      && (d.Denied? && d.reason == MaxClaimsReached ==> d.nextAvailableAt.None?)
      && (d.Denied? && d.reason == CooldownActive ==>
            d.nextAvailableAt == CooldownBlock(p.cooldownSeconds, LatestClaimTime(mine), now))
      && (d.Eligible? <==>
            !(p.maxClaims.Some? && |mine| >= p.maxClaims.value)
            && CooldownBlock(p.cooldownSeconds, LatestClaimTime(mine), now).None?)
  {
    var policy := ActivePolicy(policies, code);
    if policy.None? then Eligibility(None, 0, None, now)
    else
      var mine := ClaimsFor(claims, userId, policy.value.id);
      Eligibility(policy, |mine|, LatestClaimTime(mine), now)
  }

  // ---------------------------------------------------------------------
  // The grant

  /** The `bonus:<code>` reference of a bonus credit. */
  function BonusReference(code: string): string {
    "bonus:" + code
  }

  /** The credit the wallet journals for a grant of policy `p`. */
  function BonusCredit(p: Policy, code: string, userId: UserId, now: int, id: nat): Tx {
    Tx(id, userId, p.currencyCode, p.amount, BonusReference(code), p.description, BonusKey(code, userId, now), code)
  }

  /**
   * One claim attempt on the stored state: a refusal, a refused credit (the
   * exception the caller sees), or a grant that journals one credit and
   * records one claim linked to it.
   */
  function Step(policies: map<string, Policy>, st: State, userId: UserId, code: string, now: int,
                creditError: Option<string>): (r: (Outcome, State))
    ensures var d := Decide(policies, st.claims, userId, code, now);
      && (d.Denied? ==> r.0 == Returned(NotGranted(d.reason, d.nextAvailableAt)) && r.1 == st)
      && (d.Eligible? && creditError.Some? ==> r.0 == Threw(creditError.value) && r.1 == st)
      && ((r.0.Returned? && r.0.result.Granted?) <==> d.Eligible? && creditError.None?)
    ensures r.0.Returned? && r.0.result.Granted? ==>
      var p := policies[code];
      var tx := r.0.result.tx;
      && r.0.result.amount == p.amount && r.0.result.currency == p.currencyCode
      && tx.id == |st.ledger| && tx.userId == userId
      && tx.amount == p.amount && tx.currencyCode == p.currencyCode
      && tx.reference == BonusReference(code)
      && r.1.ledger == st.ledger + [tx]
      && r.1.claims == st.claims + [Claim(userId, p.id, tx.id, now)]
  {
    var d := Decide(policies, st.claims, userId, code, now);
    if d.Denied? then (Returned(NotGranted(d.reason, d.nextAvailableAt)), st)
    else if creditError.Some? then (Threw(creditError.value), st)
    else
      var p := policies[code];
      var tx := BonusCredit(p, code, userId, now, |st.ledger|);
      (Returned(Granted(tx, p.amount, p.currencyCode)),
       State(st.claims + [Claim(userId, p.id, tx.id, now)], st.ledger + [tx]))
  }

  /** The best-effort wrappers turn an exception into a plain refusal. */
  function BestEffort(o: Outcome): (r: ClaimResult)
    ensures o.Returned? ==> r == o.result
    ensures o.Threw? ==> r == NotGranted(Error, None)
  {
    match o
    case Returned(result) => result
    case Threw(_) => NotGranted(Error, None)
  }

  // ---------------------------------------------------------------------
  // Invariants of the stored state

  /**
   * Transaction ids are journal positions, and every claim points at its own
   * credit transaction, made to the same user.
   */
  ghost predicate ValidState(st: State) {
    && (forall i :: 0 <= i < |st.ledger| ==> st.ledger[i].id == i)
    && (forall i :: 0 <= i < |st.claims| ==>
          st.claims[i].transactionId < |st.ledger| &&
          st.ledger[st.claims[i].transactionId].userId == st.claims[i].userId)
    && (forall i, j :: 0 <= i < j < |st.claims| ==> st.claims[i].transactionId != st.claims[j].transactionId)
  }

  /** Every claim attempt keeps the stored state consistent. */
  lemma StepPreservesValid(policies: map<string, Policy>, st: State, userId: UserId, code: string, now: int,
                           creditError: Option<string>)
    requires ValidState(st)
    ensures ValidState(Step(policies, st, userId, code, now, creditError).1)
  {
  }

  /** The balance of one user in one currency: the sum of its credits. */
  function Balance(ledger: seq<Tx>, userId: UserId, currency: string): int {
    if ledger == [] then 0
    else
      var last := ledger[|ledger| - 1];
      Balance(ledger[..|ledger| - 1], userId, currency)
        + (if last.userId == userId && last.currencyCode == currency then last.amount else 0)
  }

  /**
   * A grant raises the claimant's balance in the policy's currency by exactly
   * the policy amount and leaves every other balance as it was; any other
   * outcome changes no balance.
   */
  lemma GrantCreditsExactlyAmount(policies: map<string, Policy>, st: State, userId: UserId, code: string, now: int,
                                  creditError: Option<string>, u: UserId, cur: string)
    ensures var r := Step(policies, st, userId, code, now, creditError);
      Balance(r.1.ledger, u, cur) ==
        Balance(st.ledger, u, cur)
        + (if r.0.Returned? && r.0.result.Granted? && u == userId && cur == policies[code].currencyCode
           then policies[code].amount else 0)
  {
    var r := Step(policies, st, userId, code, now, creditError);
    if r.0.Returned? && r.0.result.Granted? {
      var l := r.1.ledger;
      assert l[..|l| - 1] == st.ledger;
    }
  }

  /**
   * A grant adds one claim to the claimant's history for that policy; the
   * histories of every other (user, policy) pair are untouched.
   */
  lemma GrantExtendsOnlyOwnHistory(policies: map<string, Policy>, st: State, userId: UserId, code: string, now: int,
                                   creditError: Option<string>, u: UserId, pid: nat)
    requires var r := Step(policies, st, userId, code, now, creditError); r.0.Returned? && r.0.result.Granted?
    ensures var r := Step(policies, st, userId, code, now, creditError);
      var c := r.1.claims[|r.1.claims| - 1];
      && (u == userId && pid == policies[code].id ==>
            ClaimsFor(r.1.claims, u, pid) == ClaimsFor(st.claims, u, pid) + [c])
      && (!(u == userId && pid == policies[code].id) ==>
            ClaimsFor(r.1.claims, u, pid) == ClaimsFor(st.claims, u, pid))
  {
    var r := Step(policies, st, userId, code, now, creditError);
    var c := r.1.claims[|r.1.claims| - 1];
    ClaimsForAppend(st.claims, c, u, pid);
  }

  /** A claim attempt by one user never changes the verdict for another user. */
  lemma OtherUsersUnaffected(policies: map<string, Policy>, st: State, userId: UserId, code: string, now: int,
                             creditError: Option<string>, other: UserId, otherCode: string, later: int)
    requires other != userId
    ensures Decide(policies, Step(policies, st, userId, code, now, creditError).1.claims, other, otherCode, later)
            == Decide(policies, st.claims, other, otherCode, later)
  {
    var r := Step(policies, st, userId, code, now, creditError);
    if r.0.Returned? && r.0.result.Granted? {
      var c := r.1.claims[|r.1.claims| - 1];
      assert r.1.claims == st.claims + [c] && c.userId == userId;
      var p := ActivePolicy(policies, otherCode);
      if p.Some? {
        ClaimsForAppend(st.claims, c, other, p.value.id);
        assert ClaimsFor(r.1.claims, other, p.value.id) == ClaimsFor(st.claims, other, p.value.id);
      }
    } else {
      assert r.1 == st;
    }
  }

  // ---------------------------------------------------------------------
  // Scenarios

  /** The UTC instant of `h:m:s` KST on KST day number `day`. */
  function KstTime(day: int, h: int, m: int, s: int): int {
    day * DayMs - KstOffsetMs + h * HourMs + m * 60_000 + s * 1000
  }

  /**
   * Daily policy: claims at 23:59:59 and at 00:00:01 the next day are both
   * allowed; a claim at 14:00 after one at 10:00 the same day is refused
   * until the following KST midnight.
   */
  lemma DailyScenario(p: Policy, count: nat, day: int)
    requires p.cooldownSeconds == Some(DailyCooldownSeconds) && p.maxClaims.None?
    ensures Eligibility(Some(p), count, Some(KstTime(day, 23, 59, 59)), KstTime(day + 1, 0, 0, 1)) == Eligible
    ensures Eligibility(Some(p), count, Some(KstTime(day, 10, 0, 0)), KstTime(day, 14, 0, 0))
            == Denied(CooldownActive, Some(KstTime(day + 1, 0, 0, 0)))
  {
    assert KstDate(KstTime(day, 23, 59, 59)) == day;
    assert KstDate(KstTime(day + 1, 0, 0, 1)) == day + 1;
    assert KstDate(KstTime(day, 10, 0, 0)) == day;
    assert KstDate(KstTime(day, 14, 0, 0)) == day;
  }

  /**
   * Rolling one-hour policy: after a claim at `t0`, an attempt 3599 s later
   * is refused until `t0 + 3600 s`, and one 3601 s later is allowed.
   */
  lemma RollingScenario(p: Policy, count: nat, t0: int)
    requires p.cooldownSeconds == Some(3600) && p.maxClaims.None?
    ensures Eligibility(Some(p), count, Some(t0), t0 + 3_599_000) == Denied(CooldownActive, Some(t0 + 3_600_000))
    ensures Eligibility(Some(p), count, Some(t0), t0 + 3_601_000) == Eligible
  {
  }

  /**
   * A policy with `max_claims = 3` and no cooldown: four attempts in a row
   * by one user are granted three times, and the fourth is refused.
   */
  lemma MaxClaimsScenario(policies: map<string, Policy>, userId: UserId, code: string, t1: int, t2: int, t3: int, t4: int)
    requires code in policies && policies[code].isActive
    requires policies[code].maxClaims == Some(3) && policies[code].cooldownSeconds.None?
    ensures var s0 := State([], []);
      var r1 := Step(policies, s0, userId, code, t1, None);
      var r2 := Step(policies, r1.1, userId, code, t2, None);
      var r3 := Step(policies, r2.1, userId, code, t3, None);
      var r4 := Step(policies, r3.1, userId, code, t4, None);
      && r1.0.Returned? && r1.0.result.Granted?
      && r2.0.Returned? && r2.0.result.Granted?
      && r3.0.Returned? && r3.0.result.Granted?
      && r4.0 == Returned(NotGranted(MaxClaimsReached, None))
      && r4.1 == r3.1 && |r3.1.claims| == 3 && |r3.1.ledger| == 3
  {
    var pid := policies[code].id;
    var s0 := State([], []);
    var r1 := Step(policies, s0, userId, code, t1, None);
    assert |ClaimsFor(s0.claims, userId, pid)| == 0;
    ClaimsForAppend(s0.claims, r1.1.claims[0], userId, pid);
    assert |ClaimsFor(r1.1.claims, userId, pid)| == 1;
    var r2 := Step(policies, r1.1, userId, code, t2, None);
    ClaimsForAppend(r1.1.claims, r2.1.claims[1], userId, pid);
    assert |ClaimsFor(r2.1.claims, userId, pid)| == 2;
    var r3 := Step(policies, r2.1, userId, code, t3, None);
    ClaimsForAppend(r2.1.claims, r3.1.claims[2], userId, pid);
    assert |ClaimsFor(r3.1.claims, userId, pid)| == 3;
  }

  // ---------------------------------------------------------------------
  // The engine object

  /** The policy store, the claim history and the wallet journal, updated in place. */
  class BonusEngine {
    var policies: map<string, Policy>
    var claims: seq<Claim>
    var ledger: seq<Tx>

    ghost predicate Valid()
      reads this
    {
      ValidState(State(claims, ledger))
    }

    constructor (policies: map<string, Policy>)
      ensures Valid()
      ensures this.policies == policies && claims == [] && ledger == []
    {
      this.policies := policies;
      claims := [];
      ledger := [];
    }

    /** The wallet's credit: journals one transaction and returns it. */
    method Credit(userId: UserId, currencyCode: string, amount: int, reference: string,
                  memo: Option<string>, key: IdempotencyKey, bonusPolicy: string) returns (tx: Tx)
      modifies this
      ensures tx == Tx(|old(ledger)|, userId, currencyCode, amount, reference, memo, key, bonusPolicy)
      ensures ledger == old(ledger) + [tx]
      ensures claims == old(claims) && policies == old(policies)
    {
      tx := Tx(|ledger|, userId, currencyCode, amount, reference, memo, key, bonusPolicy);
      ledger := ledger + [tx];
    }

    /** `claimBonus(userId, policyCode)` at clock reading `now`. */
    method ClaimBonus(userId: UserId, policyCode: string, now: int, creditError: Option<string>)
      returns (r: Outcome)
      requires Valid()
      modifies this
      ensures Valid()
      ensures policies == old(policies)
      ensures (r, State(claims, ledger)) ==
                Step(old(policies), State(old(claims), old(ledger)), userId, policyCode, now, creditError)
    {
      ghost var st := State(claims, ledger);
      ghost var d := Decide(policies, claims, userId, policyCode, now);
      StepPreservesValid(policies, st, userId, policyCode, now, creditError);

      // the policy must exist and be active
      var policy := ActivePolicy(policies, policyCode);
      if policy.None? {
        assert d == Denied(PolicyNotFound, None);
        r := Returned(NotGranted(PolicyNotFound, None));
        return;
      }
      var p := policy.value;
      var mine := ClaimsFor(claims, userId, p.id);
      assert d == Eligibility(policy, |mine|, LatestClaimTime(mine), now);

      // the claim count must stay below max_claims
      if p.maxClaims.Some? {
        var count := |mine|;
        if count >= p.maxClaims.value {
          assert d == Denied(MaxClaimsReached, None);
          r := Returned(NotGranted(MaxClaimsReached, None));
          return;
        }
      }

      // the cooldown, measured from the most recent claim
      var next := CooldownBlock(p.cooldownSeconds, LatestClaimTime(mine), now);
      if next.Some? {
        r := Returned(NotGranted(CooldownActive, next));
        return;
      }
      assert d == Eligible;

      // eligible: credit the wallet, then record the claim
      if creditError.Some? {
        r := Threw(creditError.value);
        return;
      }
      var tx := Credit(userId, p.currencyCode, p.amount, BonusReference(policyCode), p.description,
                       BonusKey(policyCode, userId, now), policyCode);
      assert p == policies[policyCode];
      assert tx == BonusCredit(p, policyCode, userId, now, |st.ledger|);
      claims := claims + [Claim(userId, p.id, tx.id, now)];
      r := Returned(Granted(tx, p.amount, p.currencyCode));
      assert (r, State(claims, ledger)) == Step(policies, st, userId, policyCode, now, creditError);
    }

    /** `grantSignupBonus(userId)`: a best-effort claim of the `signup` policy. */
    method GrantSignupBonus(userId: UserId, now: int, creditError: Option<string>) returns (r: ClaimResult)
      requires Valid()
      modifies this
      ensures Valid()
      ensures policies == old(policies)
      ensures var s := Step(old(policies), State(old(claims), old(ledger)), userId, SignupCode, now, creditError);
        r == BestEffort(s.0) && State(claims, ledger) == s.1
    {
      var o := ClaimBonus(userId, SignupCode, now, creditError);
      r := BestEffort(o);
    }

    /** `checkDailyVisitBonus(userId)`: a best-effort claim of the `daily_visit` policy. */
    method CheckDailyVisitBonus(userId: UserId, now: int, creditError: Option<string>) returns (r: ClaimResult)
      requires Valid()
      modifies this
      ensures Valid()
      ensures policies == old(policies)
      ensures var s := Step(old(policies), State(old(claims), old(ledger)), userId, DailyVisitCode, now, creditError);
        r == BestEffort(s.0) && State(claims, ledger) == s.1
    {
      var o := ClaimBonus(userId, DailyVisitCode, now, creditError);
      r := BestEffort(o);
    }
  }
}
