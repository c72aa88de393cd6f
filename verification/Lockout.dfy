/**
 The per-account cap on wrong 2FA codes: a counter with an expiry, anchored to the first failure.
 Times are in milliseconds; code checks are an oracle (`good`).
 */
module Lockout {
  import opened Options

  const MAX_ATTEMPTS := 5
  const WINDOW := 15 * 60 * 1000

  /** A stored counter; `expiresAt` is None until `expire` has been called on it. */
  datatype Counter = Counter(count: nat, expiresAt: Option<int>)

  type Account = Option<Counter>

  predicate Expired(c: Counter, now: int) {
    c.expiresAt.Some? && now >= c.expiresAt.value
  }

  function Failures(a: Account, now: int): nat {
    if a.None? || Expired(a.value, now) then 0 else a.value.count
  }

  function AfterFailure(a: Account, now: int): Account {
    var count := Failures(a, now) + 1;
    Some(Counter(count, if count == 1 then Some(now + WINDOW) else a.value.expiresAt))
  }

  /** One verification: the check of the counter, the code, and the write of the result. */
  datatype Attempt = Attempt(checkedAt: int, recordedAt: int, good: bool)

  datatype Outcome = Refused | Rejected | Accepted

  function OutcomeOf(a: Account, x: Attempt): Outcome {
    if Failures(a, x.checkedAt) >= MAX_ATTEMPTS then Refused
    else if x.good then Accepted
    else Rejected
  }

  function AfterAttempt(a: Account, x: Attempt): Account {
    match OutcomeOf(a, x)
    case Refused => a
    case Accepted => None
    case Rejected => AfterFailure(a, x.recordedAt)
  }

  // ---------- The service ----------

  function FailureKey(user: string): string { "2fa:fail:" + user }

  function AccountOf(redis: map<string, Counter>, user: string): Account {
    if FailureKey(user) in redis then Some(redis[FailureKey(user)]) else None
  }

  class TwoFactorLockoutService {
    var redis: map<string, Counter>

    constructor ()
      ensures redis == map[]
    {
      redis := map[];
    }

    method CurrentFailures(user: string, now: int) returns (n: nat)
      ensures n == Failures(AccountOf(redis, user), now)
    {
      var key := FailureKey(user);
      n := if key in redis && !Expired(redis[key], now) then redis[key].count else 0;
    }

    method RecordFailure(user: string, now: int)
      modifies this
      ensures AccountOf(redis, user) == AfterFailure(AccountOf(old(redis), user), now)
      ensures forall other :: other != user ==> AccountOf(redis, other) == AccountOf(old(redis), other)
    {
      var key := FailureKey(user);
      // INCR: a missing or expired key starts from 0 without an expiry.
      var found := key in redis && !Expired(redis[key], now);
      var counter := if found then redis[key].(count := redis[key].count + 1) else Counter(1, None);
      if counter.count == 1 {
        counter := counter.(expiresAt := Some(now + WINDOW));
      }
      redis := redis[key := counter];
      KeysDiffer(user);
    }

    method Clear(user: string)
      modifies this
      ensures AccountOf(redis, user) == None
      ensures forall other :: other != user ==> AccountOf(redis, other) == AccountOf(old(redis), other)
    {
      redis := redis - {FailureKey(user)};
      KeysDiffer(user);
    }

    /** verifyTotpLogin and confirmTotpSetup up to the session they issue. */
    method Verify(user: string, attempt: Attempt) returns (outcome: Outcome)
      modifies this
      ensures outcome == OutcomeOf(AccountOf(old(redis), user), attempt)
      ensures var failures := Failures(AccountOf(old(redis), user), attempt.checkedAt);
              && (outcome.Refused? <==> failures >= 5)
              && (outcome.Accepted? <==> failures < 5 && attempt.good)
              && (outcome.Rejected? <==> failures < 5 && !attempt.good)
      ensures AccountOf(redis, user) == AfterAttempt(AccountOf(old(redis), user), attempt)
      ensures outcome.Refused? ==> AccountOf(redis, user) == AccountOf(old(redis), user)
      ensures outcome.Accepted? ==> AccountOf(redis, user) == None
      ensures forall other :: other != user ==> AccountOf(redis, other) == AccountOf(old(redis), other)
    {
      var failures := CurrentFailures(user, attempt.checkedAt);
      if failures >= MAX_ATTEMPTS {
        return Refused;
      }
      if !attempt.good {
        RecordFailure(user, attempt.recordedAt);
        return Rejected;
      }
      Clear(user);
      outcome := Accepted;
    }
  }

  lemma KeysDiffer(user: string)
    ensures forall other :: other != user ==> FailureKey(other) != FailureKey(user)
  {
    forall other | other != user ensures FailureKey(other) != FailureKey(user) {
      assert FailureKey(other)[9..] == other && FailureKey(user)[9..] == user;
    }
  }

  // ---------- Runs of one account ----------

  /** One verification at a time. */
  predicate InOrder(run: seq<Attempt>) {
    && (forall k :: 0 <= k < |run| ==> run[k].checkedAt <= run[k].recordedAt)
    && (forall j, k :: 0 <= j < k < |run| ==> run[j].recordedAt <= run[k].checkedAt)
  }

  function After(run: seq<Attempt>): Account {
    if run == [] then None else AfterAttempt(After(run[..|run| - 1]), run[|run| - 1])
  }

  function OutcomeAt(run: seq<Attempt>, k: nat): Outcome
    requires k < |run|
  {
    OutcomeOf(After(run[..k]), run[k])
  }

  function RejectedIn(run: seq<Attempt>, i: nat, j: nat): nat
    requires i <= j <= |run|
  {
    if i == j then 0
    else RejectedIn(run, i, j - 1) + if OutcomeAt(run, j - 1).Rejected? then 1 else 0
  }

  /** What a stored counter can look like at any time from `now` on. */
  predicate Sound(a: Account, now: int) {
    a.Some? ==>
      && 1 <= a.value.count <= MAX_ATTEMPTS
      && a.value.expiresAt.Some?
      && a.value.expiresAt.value <= now + WINDOW
  }

  lemma {:induction false} AfterIsSound(run: seq<Attempt>, now: int)
    requires InOrder(run) && (run != [] ==> run[|run| - 1].recordedAt <= now)
    ensures Sound(After(run), now)
  {
    if run != [] {
      var n := |run| - 1;
      AfterIsSound(run[..n], run[n].checkedAt);
    }
  }

  /** The most codes that can still be rejected from `now` to `end`, if none is accepted. */
  function Budget(a: Account, now: int, end: int): nat {
    if a.None? || a.value.expiresAt.None? || Expired(a.value, now) || a.value.count > MAX_ATTEMPTS then
      Windows(now, end) * MAX_ATTEMPTS
    else
      MAX_ATTEMPTS - a.value.count + Windows(a.value.expiresAt.value, end) * MAX_ATTEMPTS
  }

  /** How many windows can open between two times. */
  function Windows(from: int, end: int): nat
    decreases end - from
  {
    if end < from then 0 else Windows(from + WINDOW, end) + 1
  }

  lemma {:induction false} FewerWindows(from: int, later: int, end: int)
    requires from <= later
    ensures Windows(later, end) <= Windows(from, end)
    decreases end - from
  {
    if later <= end {
      FewerWindows(from + WINDOW, later + WINDOW, end);
    }
  }

  /** In a stretch of time, not counting one that opens right at its start. */
  lemma {:induction false} WindowsIn(from: int, length: nat)
    ensures Windows(from + 1, from + length) <= CeilDiv(length, WINDOW)
    decreases length
  {
    if length > WINDOW {
      WindowsIn(from + WINDOW, length - WINDOW);
    }
  }

  lemma RejectionSpendsBudget(a: Account, x: Attempt, now: int, end: int)
    requires x.checkedAt <= x.recordedAt && now <= x.recordedAt <= end && Sound(a, now)
    requires !OutcomeOf(a, x).Accepted?
    ensures Budget(AfterAttempt(a, x), x.recordedAt, end) + (if OutcomeOf(a, x).Rejected? then 1 else 0)
            <= Budget(a, now, end)
  {
    FewerWindows(now, x.recordedAt, end);
    if a.Some? && a.value.expiresAt.value <= x.recordedAt {
      FewerWindows(a.value.expiresAt.value, x.recordedAt, end);
    }
  }

  lemma {:induction false} BudgetBoundsRejections(run: seq<Attempt>, i: nat, j: nat, start: int, end: int)
    requires InOrder(run) && i <= j <= |run| && start <= end
    requires i > 0 ==> run[i - 1].recordedAt <= start
    requires forall k :: i <= k < j ==> start <= run[k].recordedAt <= end
    requires forall k :: i <= k < j ==> !OutcomeAt(run, k).Accepted?
    ensures RejectedIn(run, i, j) + Budget(After(run[..j]), if i == j then start else run[j - 1].recordedAt, end)
            <= Budget(After(run[..i]), start, end)
  {
    if i < j {
      var now := if i == j - 1 then start else run[j - 2].recordedAt;
      BudgetBoundsRejections(run, i, j - 1, start, end);
      AfterIsSound(run[..j - 1], now);
      assert run[..j][..j - 1] == run[..j - 1];
      assert !OutcomeAt(run, j - 1).Accepted?;
      RejectionSpendsBudget(After(run[..j - 1]), run[j - 1], now, end);
    }
  }

  function CeilDiv(a: nat, b: nat): nat
    requires b > 0
  {
    (a + b - 1) / b
  }

  /** Whatever came before, in any stretch of time `length` without an accepted code at most
      5 * (ceil(length / window) + 1) codes are rejected; all further attempts are refused unread. */
  lemma FewRejectionsPerInterval(run: seq<Attempt>, i: nat, j: nat, start: int, length: nat)
    requires InOrder(run) && i <= j <= |run|
    requires i > 0 ==> run[i - 1].recordedAt <= start
    requires forall k :: i <= k < j ==> start <= run[k].recordedAt <= start + length
    requires forall k :: i <= k < j ==> !OutcomeAt(run, k).Accepted?
    ensures RejectedIn(run, i, j) <= MAX_ATTEMPTS * (CeilDiv(length, WINDOW) + 1)
  {
    var now := if i == j then start else run[j - 1].recordedAt;
    BudgetBoundsRejections(run, i, j, start, start + length);
    assert RejectedIn(run, i, j) + Budget(After(run[..j]), now, start + length)
        <= Budget(After(run[..i]), start, start + length);
    BudgetFromStart(run, i, start, length);
  }

  lemma BudgetFromStart(run: seq<Attempt>, i: nat, start: int, length: nat)
    requires InOrder(run) && i <= |run| && (i > 0 ==> run[i - 1].recordedAt <= start)
    ensures Budget(After(run[..i]), start, start + length) <= MAX_ATTEMPTS * (CeilDiv(length, WINDOW) + 1)
  {
    AfterIsSound(run[..i], start);
    SoundBudget(After(run[..i]), start, length);
  }

  lemma SoundBudget(a: Account, start: int, length: nat)
    requires Sound(a, start)
    ensures Budget(a, start, start + length) <= MAX_ATTEMPTS * (CeilDiv(length, WINDOW) + 1)
  {
    WindowsIn(start, length);
    FewerWindows(start + 1, start + WINDOW, start + length);
    if a.Some? && !Expired(a.value, start) {
      FewerWindows(start + 1, a.value.expiresAt.value, start + length);
    }
  }

  /** A live counter belongs to one window: the failure that opened it, and nothing accepted since. */
  lemma {:induction false} CounterHasOpener(run: seq<Attempt>) returns (i: nat)
    requires InOrder(run) && After(run).Some?
    ensures i < |run| && OutcomeAt(run, i).Rejected?
    ensures Failures(After(run[..i]), run[i].recordedAt) == 0
    ensures After(run).value.expiresAt == Some(run[i].recordedAt + WINDOW)
    ensures After(run).value.count == RejectedIn(run, i, |run|)
    ensures forall k :: i <= k < |run| ==> !OutcomeAt(run, k).Accepted?
  {
    var n := |run| - 1;
    var before := After(run[..n]);
    if OutcomeAt(run, n).Rejected? && Failures(before, run[n].recordedAt) == 0 {
      i := n;
      assert RejectedIn(run, n, n) == 0;
    } else {
      i := CounterHasOpener(run[..n]);
      SamePrefix(run, n, i, n);
    }
  }

  lemma {:induction false} SamePrefix(run: seq<Attempt>, n: nat, i: nat, j: nat)
    requires i <= j <= n <= |run|
    ensures RejectedIn(run[..n], i, j) == RejectedIn(run, i, j)
    ensures forall k :: 0 <= k < n ==> run[..n][..k] == run[..k] && OutcomeAt(run[..n], k) == OutcomeAt(run, k)
  {
    forall k | 0 <= k < n ensures run[..n][..k] == run[..k] {}
    if i < j { SamePrefix(run, n, i, j - 1); }
  }

  /** An account is locked only while the window of five rejected codes is open: less than 15 minutes
      after the first of them, however many attempts were refused in between. */
  lemma LockoutEndsOnTime(run: seq<Attempt>, now: int) returns (i: nat)
    requires InOrder(run) && Failures(After(run), now) >= MAX_ATTEMPTS
    ensures i < |run| && OutcomeAt(run, i).Rejected? && now < run[i].recordedAt + WINDOW
    ensures RejectedIn(run, i, |run|) == MAX_ATTEMPTS
    ensures forall k :: i <= k < |run| ==> !OutcomeAt(run, k).Accepted?
  {
    i := CounterHasOpener(run);
    AfterIsSound(run, if run == [] then now else run[|run| - 1].recordedAt);
  }

  /** Code `i` opens a window, and nothing is accepted after it. */
  ghost predicate Opens(run: seq<Attempt>, i: nat) {
    && i < |run| && OutcomeAt(run, i).Rejected? && Failures(After(run[..i]), run[i].recordedAt) == 0
    && forall k :: i <= k < |run| ==> !OutcomeAt(run, k).Accepted?
  }

  /** Code `i` opened a window that is still open, and five codes were rejected in it, none accepted. */
  ghost predicate FillsWindow(run: seq<Attempt>, i: nat, now: int) {
    Opens(run, i) && now < run[i].recordedAt + WINDOW && RejectedIn(run, i, |run|) == MAX_ATTEMPTS
  }

  lemma OpensBefore(run: seq<Attempt>, i: nat)
    requires Opens(run, i) && i < |run| - 1
    ensures Opens(run[..|run| - 1], i)
  {
    SamePrefix(run, |run| - 1, i, i);
  }

  lemma WindowStep(a: Account, x: Attempt, count: nat, end: int)
    requires a == Some(Counter(count, Some(end))) && count >= 1
    requires x.checkedAt <= x.recordedAt < end && !OutcomeOf(a, x).Accepted?
    ensures AfterAttempt(a, x) == Some(Counter(count + if OutcomeOf(a, x).Rejected? then 1 else 0, Some(end)))
  {
  }

  lemma OpenerCounts(run: seq<Attempt>)
    requires run != [] && Opens(run, |run| - 1)
    ensures RejectedIn(run, |run| - 1, |run|) == 1
    ensures After(run) == Some(Counter(1, Some(run[|run| - 1].recordedAt + WINDOW)))
  {
    assert RejectedIn(run, |run| - 1, |run| - 1) == 0;
  }

  lemma WindowGrows(run: seq<Attempt>, i: nat)
    requires InOrder(run) && i < |run| - 1 && run[|run| - 1].recordedAt < run[i].recordedAt + WINDOW
    requires !OutcomeAt(run, |run| - 1).Accepted? && RejectedIn(run, i, |run| - 1) >= 1
    requires After(run[..|run| - 1])
             == Some(Counter(RejectedIn(run, i, |run| - 1), Some(run[i].recordedAt + WINDOW)))
    ensures RejectedIn(run, i, |run|) >= 1
    ensures After(run) == Some(Counter(RejectedIn(run, i, |run|), Some(run[i].recordedAt + WINDOW)))
  {
    var n := |run| - 1;
    WindowStep(After(run[..n]), run[n], RejectedIn(run, i, n), run[i].recordedAt + WINDOW);
  }

  /** While its window is open the counter has every rejection since the one that opened it. */
  lemma {:induction false} WindowCounts(run: seq<Attempt>, i: nat)
    requires InOrder(run) && Opens(run, i) && run[|run| - 1].recordedAt < run[i].recordedAt + WINDOW
    ensures RejectedIn(run, i, |run|) >= 1
    ensures After(run) == Some(Counter(RejectedIn(run, i, |run|), Some(run[i].recordedAt + WINDOW)))
  {
    var n := |run| - 1;
    if i == n {
      OpenerCounts(run);
    } else {
      OpensBefore(run, i);
      WindowCounts(run[..n], i);
      SamePrefix(run, n, i, n);
      WindowGrows(run, i);
    }
  }

  /** An account is locked exactly while an open window has five rejected codes. */
  lemma LockedIff(run: seq<Attempt>, now: int)
    requires InOrder(run) && (run != [] ==> run[|run| - 1].recordedAt <= now)
    ensures Failures(After(run), now) >= MAX_ATTEMPTS <==> LockedAt(run, now)
  {
    if Failures(After(run), now) >= MAX_ATTEMPTS {
      var i := CounterHasOpener(run);
      AfterIsSound(run, now);
      assert FillsWindow(run, i, now);
    }
    if i :| FillsWindow(run, i, now) {
      WindowCounts(run, i);
    }
  }

  ghost predicate LockedAt(run: seq<Attempt>, now: int) {
    exists i :: FillsWindow(run, i, now)
  }

  /** In every run: an attempt is refused exactly while an open window has five rejected codes; otherwise a right code is
      accepted and a wrong one rejected. */
  lemma CodesDecide(run: seq<Attempt>, k: nat)
    requires InOrder(run) && k < |run|
    ensures OutcomeAt(run, k).Refused? <==> LockedAt(run[..k], run[k].checkedAt)
    ensures OutcomeAt(run, k).Accepted? <==> run[k].good && !LockedAt(run[..k], run[k].checkedAt)
    ensures OutcomeAt(run, k).Rejected? <==> !run[k].good && !LockedAt(run[..k], run[k].checkedAt)
  {
    LockedIff(run[..k], run[k].checkedAt);
  }
}
