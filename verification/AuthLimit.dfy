/** The failed-password limiter: one "budget full again" moment per source
    address, checked and spent in one call.  Times and durations are counted in
    one unit (nanoseconds in the program); `Key` stands for the grouped address. */
module AuthLimit {
  import opened Accrual
  import opened Wrappers

  type Key = nat

  const SWEEP_AT: nat := 1024
  const MAX_TRACKED: nat := 65536

  datatype Limit = Limit(burst: nat, refill: nat) {
    /** At least one failure is always allowed. */
    function Burst(): nat {
      if burst == 0 then 1 else burst
    }

    /** The time a whole budget takes to refill. */
    function Capacity(): nat {
      Refills(Burst(), refill)
    }
  }

  datatype Verdict = Accept | Reject | Throttled

  /** One judged attempt: the new table, the verdict, and whether a failure was
      charged to the address (a failure from an address that found no room in
      the table is rejected but not charged). */
  datatype Judgement = Judgement(table: map<Key, nat>, verdict: Verdict, charged: bool)

  /** The spent part of a budget at `now`, as time still to wait. */
  function Debt(table: map<Key, nat>, key: Key, now: nat): nat {
    if key in table && table[key] > now then table[key] - now else 0
  }

  function Swept(table: map<Key, nat>, now: nat): map<Key, nat> {
    if |table| >= SWEEP_AT then map k | k in table && table[k] > now :: table[k] else table
  }

  function Judged(limit: Limit, table: map<Key, nat>, a: Attempt): Judgement {
    var debt := Debt(table, a.key, a.now);
    if debt + limit.refill > limit.Capacity() then Judgement(table, Throttled, false)
    else if a.correct then Judgement(table, Accept, false)
    else
      var room := if a.key in table then table else Swept(table, a.now);
      if a.key !in table && |room| >= MAX_TRACKED then Judgement(room, Reject, false)
      else Judgement(room[a.key := a.now + debt + limit.refill], Reject, true)
  }

  class AuthLimiter {
    const limit: Limit
    var fullAt: map<Key, nat>

    constructor (limit: Limit)
      ensures this.limit == limit && fullAt == map[]
    {
      this.limit := limit;
      fullAt := map[];
    }

    /** Judges one attempt.  A throttled attempt leaves the table alone and its
        verdict does not depend on the password. */
    method Judge(key: Key, now: nat, correct: bool) returns (verdict: Verdict, ghost charged: bool)
      modifies this
      ensures Judgement(fullAt, verdict, charged) == Judged(limit, old(fullAt), Attempt(key, now, correct))
      ensures verdict == Throttled ==>
                forall c :: Judged(limit, old(fullAt), Attempt(key, now, c)) == Judgement(old(fullAt), Throttled, false)
    {
      charged := false;
      var debt := 0;
      if key in fullAt && fullAt[key] > now {
        debt := fullAt[key] - now;
      }
      if debt + limit.refill > limit.Capacity() {
        return Throttled, false;
      }
      if correct {
        return Accept, false;
      }
      var newFullAt := now + debt + limit.refill;
      if key !in fullAt {
        var room := MakeRoom(now);
        if !room {
          return Reject, false;
        }
      }
      fullAt := fullAt[key := newFullAt];
      verdict, charged := Reject, true;
    }

    method MakeRoom(now: nat) returns (room: bool)
      modifies this
      ensures fullAt == Swept(old(fullAt), now)
      ensures room == (|fullAt| < MAX_TRACKED)
    {
      if |fullAt| >= SWEEP_AT {
        fullAt := map k | k in fullAt && fullAt[k] > now :: fullAt[k];
      }
      room := |fullAt| < MAX_TRACKED;
    }
  }

  // ---- Runs.

  datatype Attempt = Attempt(key: Key, now: nat, correct: bool)

  ghost predicate Timely(run: seq<Attempt>) {
    forall i, j :: 0 <= i < j < |run| ==> run[i].now <= run[j].now
  }

  function TableAfter(limit: Limit, table: map<Key, nat>, run: seq<Attempt>): map<Key, nat>
    decreases |run|
  {
    if run == [] then table
    else TableAfter(limit, Judged(limit, table, run[0]).table, run[1..])
  }

  function Verdicts(limit: Limit, table: map<Key, nat>, run: seq<Attempt>): seq<Verdict>
    decreases |run|
  {
    if run == [] then []
    else
      var j := Judged(limit, table, run[0]);
      [j.verdict] + Verdicts(limit, j.table, run[1..])
  }

  /** The times of the failures charged to `key` over a run. */
  function Failures(limit: Limit, table: map<Key, nat>, run: seq<Attempt>, key: Key): seq<nat>
    decreases |run|
  {
    if run == [] then []
    else
      var j := Judged(limit, table, run[0]);
      (if j.charged && run[0].key == key then [run[0].now] else []) + Failures(limit, j.table, run[1..], key)
  }

  /** The address is tracked already, or there is room for it once budgets that
      are full again are swept out. */
  predicate FindsRoom(table: map<Key, nat>, a: Attempt) {
    a.key in table || |Swept(table, a.now)| < MAX_TRACKED
  }

  /** The wrong guesses these addresses got to make all found room. */
  predicate NeverFull(limit: Limit, table: map<Key, nat>, run: seq<Attempt>, keys: Key -> bool)
    decreases |run|
  {
    run == [] ||
    var j := Judged(limit, table, run[0]);
    && (keys(run[0].key) && !run[0].correct && j.verdict != Throttled ==> FindsRoom(table, run[0]))
    && NeverFull(limit, j.table, run[1..], keys)
  }

  predicate Anyone(key: Key) {
    true
  }

  // ---- The rate bound.

  /** A sweep forgets only budgets that are already full. */
  lemma SweepKeepsDebt(table: map<Key, nat>, now: nat, key: Key, later: nat)
    requires now <= later
    ensures Debt(Swept(table, now), key, later) == Debt(table, key, later)
  {
  }

  /** One attempt at `a.now`, seen at a later time: a charged failure adds one
      refill to the debt of its key and leaves it within capacity; every other
      debt only drains. */
  lemma JudgeMovesDebt(limit: Limit, table: map<Key, nat>, a: Attempt, key: Key)
    ensures var j := Judged(limit, table, a);
            Debt(j.table, key, a.now) ==
            Debt(table, key, a.now) + (if j.charged && a.key == key then limit.refill else 0)
    ensures var j := Judged(limit, table, a);
            j.charged && a.key == key ==> Debt(j.table, key, a.now) <= limit.Capacity()
  {
    SweepKeepsDebt(table, a.now, key, a.now);
  }

  /** Without a charged failure a debt only drains. */
  lemma {:induction false} NoFailureDrains(limit: Limit, table: map<Key, nat>, run: seq<Attempt>, key: Key)
    requires Timely(run) && run != []
    requires Failures(limit, table, run, key) == []
    ensures Debt(TableAfter(limit, table, run), key, run[|run| - 1].now) <= Debt(table, key, run[0].now)
    decreases |run|
  {
    var j := Judged(limit, table, run[0]);
    JudgeMovesDebt(limit, table, run[0], key);
    if |run| == 1 {
      assert TableAfter(limit, table, run) == j.table;
    } else {
      assert run[1..][0].now >= run[0].now;
      NoFailureDrains(limit, j.table, run[1..], key);
    }
  }

  /** Charged failures raise a debt; nothing but time lowers it. */
  lemma {:induction false} DebtAccounts(limit: Limit, table: map<Key, nat>, run: seq<Attempt>, key: Key)
    requires Timely(run) && run != []
    ensures Debt(TableAfter(limit, table, run), key, run[|run| - 1].now) + (run[|run| - 1].now - run[0].now)
            >= Debt(table, key, run[0].now) + Refills(|Failures(limit, table, run, key)|, limit.refill)
    decreases |run|
  {
    var j := Judged(limit, table, run[0]);
    var rest := run[1..];
    var later := Failures(limit, j.table, rest, key);
    JudgeMovesDebt(limit, table, run[0], key);
    if j.charged && run[0].key == key {
      assert Failures(limit, table, run, key) == [run[0].now] + later;
    } else {
      assert Failures(limit, table, run, key) == later;
    }
    if |run| > 1 {
      DebtAccounts(limit, j.table, rest, key);
      assert rest[0].now >= run[0].now && rest[|rest| - 1] == run[|run| - 1];
    } else {
      assert later == [] && TableAfter(limit, table, run) == j.table;
    }
  }

  /** A debt raised by a charged failure fits the capacity from then on. */
  lemma {:induction false} ChargedDebtFits(limit: Limit, table: map<Key, nat>, run: seq<Attempt>, key: Key)
    requires Timely(run) && run != []
    requires Failures(limit, table, run, key) != []
    ensures Debt(TableAfter(limit, table, run), key, run[|run| - 1].now) <= limit.Capacity()
    decreases |run|
  {
    var j := Judged(limit, table, run[0]);
    JudgeMovesDebt(limit, table, run[0], key);
    var rest := run[1..];
    if |run| == 1 {
      assert TableAfter(limit, table, run) == j.table;
      assert Failures(limit, j.table, rest, key) == [];
    } else {
      assert rest[0].now >= run[0].now && rest[|rest| - 1] == run[|run| - 1];
      if Failures(limit, j.table, rest, key) == [] {
        NoFailureDrains(limit, j.table, rest, key);
      } else {
        ChargedDebtFits(limit, j.table, rest, key);
      }
    }
  }

  /** The bound from any starting table, before dividing by the refill time. */
  lemma ChargesBound(limit: Limit, table: map<Key, nat>, window: seq<Attempt>, key: Key)
    requires Timely(window) && window != []
    ensures Refills(|Failures(limit, table, window, key)|, limit.refill)
            <= limit.Capacity() + (window[|window| - 1].now - window[0].now)
  {
    if Failures(limit, table, window, key) != [] {
      DebtAccounts(limit, table, window, key);
      ChargedDebtFits(limit, table, window, key);
    }
  }

  /** The limiter's promise: over every window of every run, an address is
      charged at most `burst` failures plus one per whole refill period. */
  lemma RateBound(limit: Limit, before: seq<Attempt>, window: seq<Attempt>, key: Key)
    requires limit.refill > 0
    requires Timely(before + window) && window != []
    ensures var table := TableAfter(limit, map[], before);
            |Failures(limit, table, window, key)|
            <= Max(limit.burst, 1) + Periods(window[|window| - 1].now - window[0].now, limit.refill)
  {
    var table := TableAfter(limit, map[], before);
    assert Timely(window) by {
      var w := before + window;
      forall i, j | 0 <= i < j < |window| ensures window[i].now <= window[j].now {
        assert window[i] == w[|before| + i] && window[j] == w[|before| + j];
      }
    }
    ChargesBound(limit, table, window, key);
    var span := window[|window| - 1].now - window[0].now;
    PeriodsBound(|Failures(limit, table, window, key)|, limit.Burst(), span, limit.refill);
  }

  /** The rejected attempts of `key` over a run, charged or not. */
  function Rejections(limit: Limit, table: map<Key, nat>, run: seq<Attempt>, key: Key): nat
    decreases |run|
  {
    if run == [] then 0
    else
      var j := Judged(limit, table, run[0]);
      (if j.verdict == Reject && run[0].key == key then 1 else 0) + Rejections(limit, j.table, run[1..], key)
  }

  /** `n` wrong guesses of one address at one time. */
  function Guesses(key: Key, now: nat, n: nat): seq<Attempt> {
    seq(n, _ => Attempt(key, now, false))
  }

  /** The table after `k` of them. */
  function Spent(limit: Limit, key: Key, now: nat, k: nat): map<Key, nat> {
    if k == 0 then map[] else map[key := now + Refills(k, limit.refill)]
  }

  lemma {:induction false} RefillsGrow(m: nat, n: nat, refill: nat)
    requires m <= n
    ensures Refills(m, refill) <= Refills(n, refill)
    decreases n - m
  {
    if m < n {
      RefillsGrow(m, n - 1, refill);
    }
  }

  lemma GuessIsCharged(limit: Limit, key: Key, now: nat, k: nat)
    requires k < limit.Burst()
    ensures Judged(limit, Spent(limit, key, now, k), Attempt(key, now, false))
         == Judgement(Spent(limit, key, now, k + 1), Reject, true)
  {
    RefillsGrow(k + 1, limit.Burst(), limit.refill);
    var table := Spent(limit, key, now, k);
    assert Debt(table, key, now) == Refills(k, limit.refill);
    assert k == 0 ==> Swept(table, now) == map[];
    assert table[key := now + Refills(k, limit.refill) + limit.refill] == Spent(limit, key, now, k + 1);
  }

  lemma GuessIsThrottled(limit: Limit, key: Key, now: nat)
    requires limit.refill > 0
    ensures Judged(limit, Spent(limit, key, now, limit.Burst()), Attempt(key, now, false)).verdict == Throttled
    ensures Judged(limit, Spent(limit, key, now, limit.Burst()), Attempt(key, now, false)).table
         == Spent(limit, key, now, limit.Burst())
  {
  }

  lemma {:induction false} GuessesFrom(limit: Limit, key: Key, now: nat, n: nat, k: nat)
    requires limit.refill > 0 && k <= limit.Burst()
    ensures Rejections(limit, Spent(limit, key, now, k), Guesses(key, now, n), key) == Min(n, limit.Burst() - k)
    decreases n
  {
    if n > 0 {
      assert Guesses(key, now, n)[1..] == Guesses(key, now, n - 1);
      if k < limit.Burst() {
        GuessIsCharged(limit, key, now, k);
        GuessesFrom(limit, key, now, n - 1, k + 1);
      } else {
        GuessIsThrottled(limit, key, now);
        GuessesFrom(limit, key, now, n - 1, k);
      }
    }
  }

  /** A fresh address gets its burst at once, no less and no more, and one guess if
      the burst is set to none. */
  lemma BurstIsGranted(limit: Limit, key: Key, now: nat, n: nat)
    requires limit.refill > 0
    ensures Rejections(limit, map[], Guesses(key, now, n), key) == Min(n, Max(limit.burst, 1))
  {
    GuessesFrom(limit, key, now, n, 0);
  }

  lemma {:induction false} ChargesAreRejections(limit: Limit, table: map<Key, nat>, run: seq<Attempt>, key: Key)
    ensures |Failures(limit, table, run, key)| <= Rejections(limit, table, run, key)
    decreases |run|
  {
    if run != [] {
      ChargesAreRejections(limit, Judged(limit, table, run[0]).table, run[1..], key);
    }
  }

  /** Every rejection of an address is charged, so that the rate bound covers every
      guess it got to make, exactly if those guesses all found room. */
  lemma {:induction false} RejectionsAreChargedIff(limit: Limit, table: map<Key, nat>, run: seq<Attempt>, key: Key)
    ensures Rejections(limit, table, run, key) == |Failures(limit, table, run, key)| <==>
              NeverFull(limit, table, run, k => k == key)
    decreases |run|
  {
    if run != [] {
      RejectionsAreChargedIff(limit, Judged(limit, table, run[0]).table, run[1..], key);
      ChargesAreRejections(limit, Judged(limit, table, run[0]).table, run[1..], key);
    }
  }

  function Addresses(run: seq<Attempt>): set<Key> {
    set a | a in run :: a.key
  }

  /** As many addresses as the table tracks never fill it. */
  lemma {:induction false} FewAddressesNeverFill(limit: Limit, table: map<Key, nat>, run: seq<Attempt>)
    requires |table.Keys + Addresses(run)| <= MAX_TRACKED
    ensures NeverFull(limit, table, run, Anyone)
    decreases |run|
  {
    if run != [] {
      var j, all := Judged(limit, table, run[0]), table.Keys + Addresses(run);
      assert run[0] in run;
      if run[0].key !in table {
        Fewer(Swept(table, run[0].now).Keys, all, run[0].key);
      }
      FewerOrEqual(j.table.Keys + Addresses(run[1..]), all);
      FewAddressesNeverFill(limit, j.table, run[1..]);
    }
  }

  lemma Fewer<T>(a: set<T>, b: set<T>, x: T)
    requires a <= b && x in b && x !in a
    ensures |a| < |b|
  {
    FewerOrEqual(a, b - {x});
  }

  lemma FewerOrEqual<T>(a: set<T>, b: set<T>)
    requires a <= b
    ensures |a| <= |b|
  {
    assert b == a + (b - a);
  }

  /** The budgets not full yet. */
  function Unexpired(table: map<Key, nat>, now: nat): map<Key, nat> {
    map k | k in table && table[k] > now :: table[k]
  }

  lemma UnexpiredFills(table: map<Key, nat>, now: nat)
    requires |Unexpired(table, now)| >= MAX_TRACKED
    ensures Swept(table, now) == Unexpired(table, now)
  {
    FewerOrEqual(Unexpired(table, now).Keys, table.Keys);
    assert |Unexpired(table, now).Keys| == |Unexpired(table, now)| && |table.Keys| == |table|;
  }

  /** The wrong guesses of `key` in a run. */
  function WrongGuesses(run: seq<Attempt>, key: Key): nat {
    if run == [] then 0
    else (if run[0].key == key && !run[0].correct then 1 else 0) + WrongGuesses(run[1..], key)
  }

  /** No wrong guess of `key` finds room. */
  predicate StaysFull(limit: Limit, table: map<Key, nat>, run: seq<Attempt>, key: Key)
    decreases |run|
  {
    run == [] ||
    (&& (run[0].key == key && !run[0].correct ==> !FindsRoom(table, run[0]))
     && StaysFull(limit, Judged(limit, table, run[0]).table, run[1..], key))
  }

  /** At the cap the bound is gone: an address that is not tracked and never finds
      room has every one of its wrong guesses judged, uncharged, whoever else tries
      in between. */
  lemma {:induction false} FullTableIsUnlimited(limit: Limit, table: map<Key, nat>, run: seq<Attempt>, key: Key)
    requires key !in table && StaysFull(limit, table, run, key)
    ensures Rejections(limit, table, run, key) == WrongGuesses(run, key) && Failures(limit, table, run, key) == []
    decreases |run|
  {
    if run != [] {
      var j := Judged(limit, table, run[0]);
      assert limit.refill <= limit.Capacity();
      FullTableIsUnlimited(limit, j.table, run[1..], key);
    }
  }

  /** With the table full of unexpired budgets, an attempt tracks nobody new and
      no budget that was unexpired expires sooner. */
  lemma FullTableHolds(limit: Limit, table: map<Key, nat>, a: Attempt, later: nat)
    requires |Unexpired(table, a.now)| >= MAX_TRACKED && a.now <= later
    ensures var j := Judged(limit, table, a);
            j.table.Keys <= table.Keys && Unexpired(table, later).Keys <= Unexpired(j.table, later).Keys
  {
    UnexpiredFills(table, a.now);
  }

  /** A table full of budgets that outlast the run stays full, whoever tries. */
  lemma {:induction false} UnexpiredStaysFull(limit: Limit, table: map<Key, nat>, run: seq<Attempt>, key: Key)
    requires key !in table && Timely(run)
    requires forall a :: a in run ==> |Unexpired(table, a.now)| >= MAX_TRACKED
    ensures StaysFull(limit, table, run, key)
    decreases |run|
  {
    if run != [] {
      var j := Judged(limit, table, run[0]);
      assert run[0] in run;
      UnexpiredFills(table, run[0].now);
      FullTableHolds(limit, table, run[0], run[0].now);
      forall a | a in run[1..] ensures |Unexpired(j.table, a.now)| >= MAX_TRACKED {
        var i :| 0 <= i < |run| - 1 && run[1..][i] == a;
        assert run[0].now <= run[i + 1].now && a in run;
        FullTableHolds(limit, table, run[0], a.now);
        FewerOrEqual(Unexpired(table, a.now).Keys, Unexpired(j.table, a.now).Keys);
        SameSize(Unexpired(table, a.now));
        SameSize(Unexpired(j.table, a.now));
      }
      UnexpiredStaysFull(limit, j.table, run[1..], key);
    }
  }

  lemma SameSize(table: map<Key, nat>)
    ensures |table.Keys| == |table|
  {
  }

  // ---- Throttling is earned.

  /** Failures in `times` less than `horizon` before `t`. */
  function Recent(times: seq<nat>, horizon: nat, t: nat): nat {
    if times == [] then 0
    else (if times[0] + horizon > t then 1 else 0) + Recent(times[1..], horizon, t)
  }

  /** The failures it counts. */
  lemma {:induction false} RecentCounts(times: seq<nat>, horizon: nat, t: nat)
    ensures Recent(times, horizon, t) == |set i | 0 <= i < |times| && times[i] + horizon > t|
  {
    var all := set i | 0 <= i < |times| && times[i] + horizon > t;
    if times == [] {
      assert all == {};
    } else {
      var n := |times| - 1;
      var before := set i | 0 <= i < n && times[..n][i] + horizon > t;
      RecentCounts(times[..n], horizon, t);
      RecentSnoc(times[..n], times[n], horizon, t);
      assert times == times[..n] + [times[n]];
      assert all == before + (if times[n] + horizon > t then {n} else {});
    }
  }

  lemma RecentSnoc(times: seq<nat>, x: nat, horizon: nat, t: nat)
    ensures Recent(times + [x], horizon, t) == Recent(times, horizon, t) + (if x + horizon > t then 1 else 0)
  {
    if times != [] {
      assert (times + [x])[1..] == times[1..] + [x];
    }
  }

  /** At time `t` the budget that fills at `at` still owes at least `k` refills,
      counting a started one. */
  predicate Owes(limit: Limit, at: nat, t: nat, k: nat) {
    k >= 1 && at > t + Refills(k - 1, limit.refill)
  }

  /** Every refill still owed at any later time is backed by a recent failure. */
  ghost predicate Explained(limit: Limit, table: map<Key, nat>, key: Key, times: seq<nat>, now: nat) {
    key in table ==>
      forall t: nat, k: nat :: t >= now && Owes(limit, table[key], t, k) ==>
        Recent(times, limit.Capacity(), t) >= k
  }

  lemma ExplainedStep(limit: Limit, table: map<Key, nat>, a: Attempt, key: Key, times: seq<nat>)
    requires limit.refill > 0
    requires Explained(limit, table, key, times, a.now)
    ensures var j := Judged(limit, table, a);
            Explained(limit, j.table, key,
                      if j.charged && a.key == key then times + [a.now] else times, a.now)
  {
    var j := Judged(limit, table, a);
    if j.charged && a.key == key {
      var times' := times + [a.now];
      forall t: nat, k: nat | t >= a.now && Owes(limit, j.table[key], t, k)
        ensures Recent(times', limit.Capacity(), t) >= k
      {
        ChargeIsRecent(limit, table, a, key, times, t, k);
      }
    }
  }

  lemma ChargeIsRecent(limit: Limit, table: map<Key, nat>, a: Attempt, key: Key, times: seq<nat>, t: nat, k: nat)
    requires limit.refill > 0
    requires Explained(limit, table, key, times, a.now)
    requires Judged(limit, table, a).charged && a.key == key
    requires t >= a.now && Owes(limit, Judged(limit, table, a).table[key], t, k)
    ensures Recent(times + [a.now], limit.Capacity(), t) >= k
  {
    var debt := Debt(table, key, a.now);
    assert Judged(limit, table, a).table[key] == a.now + debt + limit.refill;
    RecentSnoc(times, a.now, limit.Capacity(), t);
    assert a.now + limit.Capacity() > t;
    if k >= 2 {
      assert Refills(k - 1, limit.refill) == limit.refill + Refills(k - 2, limit.refill);
      assert Owes(limit, table[key], t, k - 1);
    }
  }

  lemma {:induction false} RunExplained(limit: Limit, table: map<Key, nat>, times: seq<nat>, run: seq<Attempt>,
                                        key: Key, now: nat)
    requires limit.refill > 0 && Timely(run)
    requires Explained(limit, table, key, times, if run == [] then now else run[0].now)
    requires run != [] ==> now >= run[|run| - 1].now
    ensures Explained(limit, TableAfter(limit, table, run), key, times + Failures(limit, table, run, key), now)
    decreases |run|
  {
    if run == [] {
      assert times + [] == times;
    } else {
      var j := Judged(limit, table, run[0]);
      ExplainedStep(limit, table, run[0], key, times);
      var times' := if j.charged && run[0].key == key then times + [run[0].now] else times;
      assert times' + Failures(limit, j.table, run[1..], key) == times + Failures(limit, table, run, key);
      RunExplained(limit, j.table, times', run[1..], key, now);
    }
  }

  /** An attempt is throttled only when its address was charged at least `burst`
      failures within the last `burst` refill periods. */
  lemma ThrottledOnlyWhenSpent(limit: Limit, run: seq<Attempt>, a: Attempt)
    requires limit.refill > 0
    requires Timely(run + [a])
    requires Judged(limit, TableAfter(limit, map[], run), a).verdict == Throttled
    ensures Recent(Failures(limit, map[], run, a.key), limit.Capacity(), a.now) >= limit.Burst()
  {
    var table, failures := TableAfter(limit, map[], run), Failures(limit, map[], run, a.key);
    TimelyPrefix(run, a);
    RunExplained(limit, map[], [], run, a.key, a.now);
    assert [] + failures == failures;
    assert Owes(limit, table[a.key], a.now, limit.Burst());
  }

  lemma TimelyPrefix(run: seq<Attempt>, a: Attempt)
    requires Timely(run + [a])
    ensures Timely(run)
    ensures run != [] ==> a.now >= run[|run| - 1].now
  {
    var all := run + [a];
    forall i, j | 0 <= i < j < |run| ensures run[i].now <= run[j].now {
      assert run[i] == all[i] && run[j] == all[j];
    }
    if run != [] {
      assert all[|run| - 1].now <= all[|run|].now;
    }
  }

  // ---- Sweeping is invisible.

  /** The limiter without a sweep or a cap. */
  function JudgedUnswept(limit: Limit, table: map<Key, nat>, a: Attempt): (map<Key, nat>, Verdict) {
    var debt := Debt(table, a.key, a.now);
    if debt + limit.refill > limit.Capacity() then (table, Throttled)
    else if a.correct then (table, Accept)
    else (table[a.key := a.now + debt + limit.refill], Reject)
  }

  function VerdictsUnswept(limit: Limit, table: map<Key, nat>, run: seq<Attempt>): seq<Verdict>
    decreases |run|
  {
    if run == [] then []
    else
      var (next, verdict) := JudgedUnswept(limit, table, run[0]);
      [verdict] + VerdictsUnswept(limit, next, run[1..])
  }

  /** The swept table misses only budgets that were full by `now`. */
  ghost predicate Agree(swept: map<Key, nat>, full: map<Key, nat>, now: nat) {
    && (forall k :: k in swept ==> k in full && full[k] == swept[k])
    && (forall k :: k in full && k !in swept ==> full[k] <= now)
  }

  /** While the table stays below its cap, sweeping never changes a verdict. */
  lemma {:induction false} SweepingIsInvisible(limit: Limit, swept: map<Key, nat>, full: map<Key, nat>,
                                               run: seq<Attempt>)
    requires Timely(run) && NeverFull(limit, swept, run, Anyone)
    requires run != [] ==> Agree(swept, full, run[0].now)
    ensures Verdicts(limit, swept, run) == VerdictsUnswept(limit, full, run)
    decreases |run|
  {
    if run != [] {
      var a := run[0];
      var j := Judged(limit, swept, a);
      var next := JudgedUnswept(limit, full, a).0;
      assert Agree(j.table, next, a.now);
      SweepingIsInvisible(limit, j.table, next, run[1..]);
    }
  }

  /** From an empty table the program's verdicts are those of a limiter that
      never sweeps and has no cap, for every run that stays below the cap. */
  lemma LimiterRefinesUnbounded(limit: Limit, run: seq<Attempt>)
    requires Timely(run) && NeverFull(limit, map[], run, Anyone)
    ensures Verdicts(limit, map[], run) == VerdictsUnswept(limit, map[], run)
  {
    SweepingIsInvisible(limit, map[], map[], run);
  }
}
