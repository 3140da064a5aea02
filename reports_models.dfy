/**
 * Generated reports: the generation lifecycle of a `Report`, its expiry and
 * generation time, and the payment-method breakdown of the daily sales
 * report. Times are seconds; `now` and `later` are the two readings of the
 * clock that completion takes.
 */
module Reports {

  import opened Common

  const PENDING: string := "pending"
  const GENERATING: string := "generating"
  const COMPLETED: string := "completed"
  const FAILED: string := "failed"

  /** `timedelta(days=30)` in seconds. */
  const RETENTION_SECONDS: int := 30 * 24 * 60 * 60

  /** The lifecycle columns; "" and 0 stand for an empty file path and a NULL size. */
  datatype ReportState = ReportState(status: string, startedAt: Option<int>, completedAt: Option<int>,
                                     expiresAt: Option<int>, filePath: string, fileSize: nat,
                                     errorMessage: string)

  function Started(s: ReportState, now: int): ReportState
  {
    s.(status := GENERATING, startedAt := Some(now))
  }

  /** `mark_as_completed`: the completion time is read at `now`, the expiry from `later`. */
  function Completed(s: ReportState, now: int, later: int, filePath: string, fileSize: nat): ReportState
  {
    s.(status := COMPLETED, completedAt := Some(now),
       filePath := if filePath != "" then filePath else s.filePath,
       fileSize := if fileSize != 0 then fileSize else s.fileSize,
       expiresAt := Some(later + RETENTION_SECONDS))
  }

  function Failed(s: ReportState, errorMessage: string): ReportState
  {
    s.(status := FAILED, errorMessage := if errorMessage != "" then errorMessage else s.errorMessage)
  }

  /** `is_expired`: never without an expiry, otherwise strictly after it. */
  predicate IsExpired(s: ReportState, now: int)
  {
    s.expiresAt.Some? && now > s.expiresAt.value
  }

  /** `get_generation_time`: defined only once both timestamps are set. */
  function GenerationTime(s: ReportState): (r: Option<int>)
    ensures r.Some? <==> s.startedAt.Some? && s.completedAt.Some?
  {
    if s.startedAt.Some? && s.completedAt.Some? then Some(s.completedAt.value - s.startedAt.value) else None
  }

  /**
   * Each transition sets its status and touches only its own columns; the
   * file and the error text are replaced only by a non-empty value.
   */
  lemma TransitionsSpec(s: ReportState, now: int, later: int, path: string, size: nat, msg: string)
    ensures Started(s, now).(status := s.status, startedAt := s.startedAt) == s
    ensures var c := Completed(s, now, later, path, size);
            c.status == COMPLETED && c.completedAt == Some(now) && c.expiresAt == Some(later + RETENTION_SECONDS)
            && (path != "" ==> c.filePath == path) && (path == "" ==> c.filePath == s.filePath)
            && (size != 0 ==> c.fileSize == size) && (size == 0 ==> c.fileSize == s.fileSize)
            && c.(status := s.status, completedAt := s.completedAt, expiresAt := s.expiresAt,
                  filePath := s.filePath, fileSize := s.fileSize) == s
    ensures var f := Failed(s, msg);
            f.status == FAILED && (msg != "" ==> f.errorMessage == msg) && (msg == "" ==> f.errorMessage == s.errorMessage)
            && f.(status := s.status, errorMessage := s.errorMessage) == s
  {
  }

  /**
   * A completed report is not expired from its completion until thirty days
   * after the later clock reading, and is expired afterwards.
   */
  lemma CompletedExpiry(s: ReportState, now: int, later: int, path: string, size: nat, t: int)
    requires now <= later
    ensures now <= t <= later + RETENTION_SECONDS ==> !IsExpired(Completed(s, now, later, path, size), t)
    ensures t > later + RETENTION_SECONDS ==> IsExpired(Completed(s, now, later, path, size), t)
  {
  }

  /** A report never given an expiry is never expired. */
  lemma NoExpiryNeverExpires(s: ReportState, t: int)
    requires s.expiresAt.None?
    ensures !IsExpired(s, t) && !IsExpired(Started(s, t), t) && !IsExpired(Failed(s, ""), t)
  {
  }

  /** Started at `t0` and completed at `t1`, the generation time is `t1 - t0`; failing after that keeps it. */
  lemma GenerationTimeOfRun(s: ReportState, t0: int, t1: int, later: int, path: string, size: nat, msg: string)
    ensures GenerationTime(Completed(Started(s, t0), t1, later, path, size)) == Some(t1 - t0)
    ensures GenerationTime(Failed(Completed(Started(s, t0), t1, later, path, size), msg)) == Some(t1 - t0)
    ensures s.completedAt.None? ==> GenerationTime(Failed(Started(s, t0), msg)).None?
  {
  }

  class Report {
    var status: string
    var startedAt: Option<int>
    var completedAt: Option<int>
    var expiresAt: Option<int>
    var filePath: string
    var fileSize: nat
    var errorMessage: string

    /** A new report: pending, with no timestamps, file or error. */
    constructor ()
      ensures State() == ReportState(PENDING, None, None, None, "", 0, "")
    {
      status := PENDING;
      startedAt, completedAt, expiresAt := None, None, None;
      filePath, fileSize, errorMessage := "", 0, "";
    }

    function State(): ReportState
      reads this
    {
      ReportState(status, startedAt, completedAt, expiresAt, filePath, fileSize, errorMessage)
    }

    method MarkAsStarted(now: int)
      modifies this
      ensures State() == Started(old(State()), now)
    {
      status := GENERATING;
      startedAt := Some(now);
    }

    method MarkAsCompleted(now: int, later: int, filePath: string, fileSize: nat)
      modifies this
      ensures State() == Completed(old(State()), now, later, filePath, fileSize)
    {
      status := COMPLETED;
      completedAt := Some(now);
      if filePath != "" {
        this.filePath := filePath;
      }
      if fileSize != 0 {
        this.fileSize := fileSize;
      }
      expiresAt := Some(later + RETENTION_SECONDS);
    }

    method MarkAsFailed(errorMessage: string)
      modifies this
      ensures State() == Failed(old(State()), errorMessage)
    {
      status := FAILED;
      if errorMessage != "" {
        this.errorMessage := errorMessage;
      }
    }
  }

  // ---------------------------------------------------------------------
  // Payment-method breakdown of the daily sales report
  // ---------------------------------------------------------------------

  /** One row of the per-method aggregate: a method and the sum of its completed amounts. */
  datatype MethodTotal = MethodTotal(paymentMethod: string, total: real)

  /** The keys the breakdown compares against. */
  datatype BucketKeys = BucketKeys(wallet: string, mtn: string, orange: string)

  const KEYS_AS_WRITTEN: BucketKeys := BucketKeys("wallet", "mtn", "orange")
  /** The method values a payment actually stores. */
  const KEYS_INTENDED: BucketKeys := BucketKeys("wallet", "mtn_momo", "orange_money")

  /** The value the loop leaves for `key`: the last row's total with that method, or 0. */
  function LastTotal(rows: seq<MethodTotal>, key: string): real
  {
    if |rows| == 0 then 0.0
    else if rows[|rows| - 1].paymentMethod == key then rows[|rows| - 1].total
    else LastTotal(rows[..|rows| - 1], key)
  }

  /** The loop's if/elif chain: each row goes to the first bucket whose key it matches. */
  function Buckets(rows: seq<MethodTotal>, keys: BucketKeys): (real, real, real)
  {
    if |rows| == 0 then (0.0, 0.0, 0.0)
    else
      var (w, m, o) := Buckets(rows[..|rows| - 1], keys);
      var r := rows[|rows| - 1];
      if r.paymentMethod == keys.wallet then (r.total, m, o)
      else if r.paymentMethod == keys.mtn then (w, r.total, o)
      else if r.paymentMethod == keys.orange then (w, m, r.total)
      else (w, m, o)
  }

  /** With distinct keys each bucket holds the last total of its own method. */
  lemma {:induction false} BucketsAreLastTotals(rows: seq<MethodTotal>, keys: BucketKeys)
    requires keys.wallet != keys.mtn && keys.wallet != keys.orange && keys.mtn != keys.orange
    ensures Buckets(rows, keys) == (LastTotal(rows, keys.wallet), LastTotal(rows, keys.mtn), LastTotal(rows, keys.orange))
  {
    if |rows| > 0 {
      BucketsAreLastTotals(rows[..|rows| - 1], keys);
    }
  }

  /** A key no row carries gets 0. */
  lemma {:induction false} AbsentKeyIsZero(rows: seq<MethodTotal>, key: string)
    requires forall i :: 0 <= i < |rows| ==> rows[i].paymentMethod != key
    ensures LastTotal(rows, key) == 0.0
  {
    if |rows| > 0 {
      AbsentKeyIsZero(rows[..|rows| - 1], key);
    }
  }

  /** With one row per method (what grouping by method yields), a key's bucket is that row's total. */
  lemma {:induction false} PresentKeyIsItsTotal(rows: seq<MethodTotal>, key: string, j: int)
    requires 0 <= j < |rows| && rows[j].paymentMethod == key
    requires forall i :: 0 <= i < |rows| && i != j ==> rows[i].paymentMethod != key
    ensures LastTotal(rows, key) == rows[j].total
  {
    if j < |rows| - 1 {
      PresentKeyIsItsTotal(rows[..|rows| - 1], key, j);
    }
  }

  /** The method values a payment may store. */
  predicate StoredMethod(m: string)
  {
    m == "mtn_momo" || m == "orange_money" || m == "wallet" || m == "cash"
  }

  /** As written the MTN and Orange buckets stay 0 whatever was paid through those providers. */
  lemma MobileMoneyNeverCounted(rows: seq<MethodTotal>)
    requires forall i :: 0 <= i < |rows| ==> StoredMethod(rows[i].paymentMethod)
    ensures Buckets(rows, KEYS_AS_WRITTEN).1 == 0.0 && Buckets(rows, KEYS_AS_WRITTEN).2 == 0.0
  {
    BucketsAreLastTotals(rows, KEYS_AS_WRITTEN);
    AbsentKeyIsZero(rows, "mtn");
    AbsentKeyIsZero(rows, "orange");
  }

  /** With the stored method values as keys, an MTN row's total lands in the MTN bucket. */
  lemma IntendedKeysCountMobileMoney(rows: seq<MethodTotal>, j: int)
    requires 0 <= j < |rows| && rows[j].paymentMethod == "mtn_momo"
    requires forall i :: 0 <= i < |rows| && i != j ==> rows[i].paymentMethod != "mtn_momo"
    ensures Buckets(rows, KEYS_INTENDED).1 == rows[j].total
  {
    BucketsAreLastTotals(rows, KEYS_INTENDED);
    PresentKeyIsItsTotal(rows, "mtn_momo", j);
  }

  /** The loop of `generate_for_date` that fills the three payment totals. */
  method BucketPayments(rows: seq<MethodTotal>, keys: BucketKeys) returns (wallet: real, mtn: real, orange: real)
    ensures (wallet, mtn, orange) == Buckets(rows, keys)
  {
    wallet, mtn, orange := 0.0, 0.0, 0.0;
    var i := 0;
    while i < |rows|
      invariant 0 <= i <= |rows|
      invariant (wallet, mtn, orange) == Buckets(rows[..i], keys)
    {
      assert rows[..i + 1][..i] == rows[..i];
      var r := rows[i];
      if r.paymentMethod == keys.wallet {
        wallet := r.total;
      } else if r.paymentMethod == keys.mtn {
        mtn := r.total;
      } else if r.paymentMethod == keys.orange {
        orange := r.total;
      }
      i := i + 1;
    }
    assert rows[..i] == rows;
  }
}
