/** The C-STORE service: error categorisation by message text, the retry
    and linear back-off policy of `StoreFile`, the statistics counters and
    the connection test. The network attempt itself is an oracle: attempt
    `k` fails with a message (`Some`) or succeeds (`None`). */
module StoreService {
  import opened GoRuntime
  import opened GoTime
  import opened Config

  /** The error categories; `ErrorUnset` is Go's zero value, the empty string a
      result keeps until some path sets its category. */
  datatype ErrorType =
    | ErrorUnset | ErrorNone | ErrorFileNotFound | ErrorNetwork | ErrorTimeout
    | ErrorAuth | ErrorPACSRejected | ErrorNoSpace | ErrorUnknown

  datatype StoreResult = StoreResult(success: bool, errorMessage: GoString, errorType: ErrorType,
                                     timestamp: Instant, transactionId: GoString, retryCount: nat)

  // ---------------------------------------------------------------------------
  // Categorisation

  /** `containsIgnoreCase` as the source has it: a placeholder that accepts
      every pair of strings. */
  predicate ContainsIgnoreCase(s: GoString, substr: GoString)
  {
    true
  }

  /** `contains(s, substrs...)`: some candidate is no longer than `s` and
      passes `containsIgnoreCase`. */
  predicate Contains(s: GoString, substrs: seq<GoString>)
  {
    exists i | 0 <= i < |substrs| :: |s| >= |substrs[i]| && ContainsIgnoreCase(s, substrs[i])
  }

  /** The scan of `contains`: the candidates in order, returning at the first hit. */
  method ContainsScan(s: GoString, substrs: seq<GoString>) returns (found: bool)
    ensures found == Contains(s, substrs)
  {
    var i := 0;
    while i < |substrs|
      invariant 0 <= i <= |substrs|
      invariant forall j | 0 <= j < i :: !(|s| >= |substrs[j]| && ContainsIgnoreCase(s, substrs[j]))
    {
      if |s| >= |substrs[i]| && ContainsIgnoreCase(s, substrs[i]) {
        return true;
      }
      i := i + 1;
    }
    return false;
  }

  /** Because `containsIgnoreCase` accepts everything, `contains` only
      compares lengths: it holds exactly when some candidate is no longer than `s`. */
  lemma ContainsOnlyComparesLengths(s: GoString, substrs: seq<GoString>)
    ensures Contains(s, substrs) <==> exists i | 0 <= i < |substrs| :: |substrs[i]| <= |s|
  {
    if exists i | 0 <= i < |substrs| :: |substrs[i]| <= |s| {
      var i :| 0 <= i < |substrs| && |substrs[i]| <= |s|;
      assert |s| >= |substrs[i]| && ContainsIgnoreCase(s, substrs[i]);
    }
  }

  /** `categorizeError`; `None` is a nil error, `Some(m)` an error whose text is `m`. */
  function CategorizeError(err: Option<GoString>): ErrorType
  {
    if err.None? then ErrorNone
    else
      var m := err.value;
      if Contains(m, ["timeout"]) then ErrorTimeout
      else if Contains(m, ["connection refused", "network"]) then ErrorNetwork
      else if Contains(m, ["authentication", "ae title"]) then ErrorAuth
      else if Contains(m, ["rejected", "refused"]) then ErrorPACSRejected
      else if Contains(m, ["no space", "disk full"]) then ErrorNoSpace
      else ErrorUnknown
  }

  /** A nil error is `ErrorNone`; any other error is a timeout when its text
      has at least seven bytes (the length of "timeout") and unknown otherwise,
      because every later candidate is at least seven bytes long. */
  lemma CategorizeByLength(err: Option<GoString>)
    ensures err.None? ==> CategorizeError(err) == ErrorNone
    ensures err.Some? ==> CategorizeError(err) == (if |err.value| >= 7 then ErrorTimeout else ErrorUnknown)
  {
    if err.Some? {
      var m := err.value;
      var candidates := [["timeout"], ["connection refused", "network"], ["authentication", "ae title"],
                         ["rejected", "refused"], ["no space", "disk full"]];
      assert forall c, i | 0 <= c < 5 && 0 <= i < |candidates[c]| :: |candidates[c][i]| >= 7;
      if |m| >= 7 {
        assert |["timeout"][0]| <= |m|;
        ContainsOnlyComparesLengths(m, ["timeout"]);
      } else {
        forall c | 0 <= c < 5
          ensures !Contains(m, candidates[c])
        {
          ContainsOnlyComparesLengths(m, candidates[c]);
        }
      }
    }
  }

  // ---------------------------------------------------------------------------
  // The retry policy

  /** The number of attempts: `MaxRetries`, or one when it is not positive. */
  function MaxAttempts(pacs: PACSConfig): (n: int)
    ensures n >= 1
    ensures pacs.maxRetries >= 1 ==> n == pacs.maxRetries
  {
    if pacs.maxRetries <= 0 then 1 else pacs.maxRetries
  }

  /** The categories after which the loop stops retrying. */
  predicate StopsRetrying(t: ErrorType)
  {
    t == ErrorFileNotFound || t == ErrorAuth || t == ErrorPACSRejected
  }

  /** The categorisation of a failed attempt never stops the retries:
      it is a timeout or unknown. */
  lemma AttemptErrorsNeverStop(m: GoString)
    ensures !StopsRetrying(CategorizeError(Some(m)))
  {
    CategorizeByLength(Some(m));
  }

  /** The result of the retry loop from attempt `k` of `n`, carrying the
      result so far. */
  function RetryFrom(k: nat, n: int, outcome: nat -> Option<GoString>, r: StoreResult): StoreResult
    decreases n - k
  {
    if k >= n then r
    else
      var r1 := r.(retryCount := k);
      match outcome(k)
      case None => r1.(success := true)
      case Some(m) =>
        var r2 := r1.(errorMessage := m, errorType := CategorizeError(Some(m)));
        if StopsRetrying(r2.errorType) then r2
        else RetryFrom(k + 1, n, outcome, r2)
  }

  /** The waits, in seconds, before attempts 1 to `count`: linear in the attempt number. */
  function Backoff(delay: int, count: nat): (waits: seq<int>)
    ensures |waits| == count
  {
    seq(count, i => delay * (i + 1))
  }

  /** What the loop does, from attempt `k` on: the reported `RetryCount` is
      the index of the last attempt made; every attempt before it failed;
      the result is a success exactly when that last attempt succeeded; and
      a failure runs all `n` attempts and reports the last one's error. */
  lemma {:induction false} RetrySchedule(k: nat, n: int, outcome: nat -> Option<GoString>, r: StoreResult)
    requires k < n && !r.success
    ensures var res := RetryFrom(k, n, outcome, r);
            && k <= res.retryCount < n
            && (forall j | k <= j < res.retryCount :: outcome(j).Some?)
            && (res.success <==> outcome(res.retryCount).None?)
            && (!res.success ==> res.retryCount == n - 1
                                 && res.errorMessage == outcome(n - 1).value
                                 && res.errorType == CategorizeError(outcome(n - 1)))
            && res.timestamp == r.timestamp && res.transactionId == r.transactionId
    decreases n - k
  {
    match outcome(k)
    case None =>
    case Some(m) =>
      AttemptErrorsNeverStop(m);
      var r2 := r.(retryCount := k, errorMessage := m, errorType := CategorizeError(Some(m)));
      if k + 1 < n {
        RetrySchedule(k + 1, n, outcome, r2);
      }
  }

  /** The whole of `StoreFile` as a value: the three early returns, then the
      retry loop from attempt 0 with a fresh result. */
  function StoreOutcome(dicomPath: GoString, fileExists: bool, lowMemory: bool, pacs: PACSConfig,
                        outcome: nat -> Option<GoString>, start: Instant, transactionId: GoString)
    : StoreResult
  {
    var r := StoreResult(false, "", ErrorUnset, start, transactionId, 0);
    if !fileExists then r.(errorMessage := "DICOM file not found: " + BaseName(dicomPath),
                           errorType := ErrorFileNotFound)
    else if lowMemory then r.(errorMessage := "System low on memory - deferring upload",
                              errorType := ErrorNoSpace)
    else if !pacs.enabled then r.(errorMessage := "PACS upload is disabled", errorType := ErrorNone)
    else RetryFrom(0, MaxAttempts(pacs), outcome, r)
  }

  /** The path without its trailing slashes. */
  function TrimTrailingSlashes(p: GoString): (r: GoString)
    ensures |r| <= |p| && r == p[..|r|]
    ensures r == [] || r[|r| - 1] != '/'
    ensures forall i | |r| <= i < |p| :: p[i] == '/'
    decreases |p|
  {
    if p != [] && p[|p| - 1] == '/' then TrimTrailingSlashes(p[..|p| - 1]) else p
  }

  /** What follows the last slash of the path, all of it when there is none. */
  function LastElement(p: GoString): (e: GoString)
    ensures HasSuffix(p, e) && '/' !in e
    ensures |e| < |p| ==> p[|p| - |e| - 1] == '/'
    ensures p != [] && p[|p| - 1] != '/' ==> e != []
    decreases |p|
  {
    if p == [] || p[|p| - 1] == '/' then []
    else
      var e := LastElement(p[..|p| - 1]) + [p[|p| - 1]];
      assert p == p[..|p| - 1] + [p[|p| - 1]];
      HasSuffixOfAppend(p[..|p| - 1], [p[|p| - 1]]);
      e
  }

  /** `filepath.Base` with `/` as the separator: "." for the empty path, "/"
      for a path made of slashes only, and otherwise the last element once the
      trailing slashes are removed, that is the last run of non-slash
      characters, which begins the path or follows a slash and is followed by
      slashes only. */
  function BaseName(p: GoString): (b: GoString)
    ensures p == "" ==> b == "."
    ensures p != "" && (forall i | 0 <= i < |p| :: p[i] == '/') ==> b == "/"
    ensures (exists i | 0 <= i < |p| :: p[i] != '/') ==>
              var k := |TrimTrailingSlashes(p)| - |b|;
              && b != "" && '/' !in b && 0 <= k && k + |b| <= |p| && p[k..k + |b|] == b
              && (k == 0 || p[k - 1] == '/')
              && forall i | k + |b| <= i < |p| :: p[i] == '/'
  {
    if p == "" then "."
    else
      var t := TrimTrailingSlashes(p);
      if t == "" then "/"
      else
        var e := LastElement(t);
        assert t[|t| - |e|..] == e;
        e
  }

  /** The message names the file the way `filepath.Join` built it: the base
      of a joined path is the name joined on. */
  lemma BaseNameOfJoin(dir: GoString, name: GoString)
    requires name != "" && '/' !in name
    ensures BaseName(JoinPath(dir, name)) == name
  {
    var p := JoinPath(dir, name);
    assert p[|p| - 1] == name[|name| - 1];
    var b := BaseName(p);
    assert p[|dir|] == '/';
    assert |b| == |name|;
  }

  /** Trailing slashes do not change the base of a path that is not empty. */
  lemma BaseNameIgnoresTrailingSlash(p: GoString)
    requires p != ""
    ensures BaseName(p + "/") == BaseName(p)
  {
    assert (p + "/")[..|p|] == p;
  }

  /** With PACS enabled, the file present and memory available, at least one
      attempt is made, and all `MaxRetries` of them are when none succeeds. */
  lemma StoreAttemptsAll(dicomPath: GoString, lowMemory: bool, pacs: PACSConfig,
                         outcome: nat -> Option<GoString>, start: Instant, transactionId: GoString)
    requires pacs.enabled && !lowMemory
    ensures var res := StoreOutcome(dicomPath, true, lowMemory, pacs, outcome, start, transactionId);
            && 0 <= res.retryCount < MaxAttempts(pacs)
            && (!res.success ==> res.retryCount == MaxAttempts(pacs) - 1)
            && (res.success ==> outcome(res.retryCount).None?)
  {
    RetrySchedule(0, MaxAttempts(pacs), outcome, StoreResult(false, "", ErrorUnset, start, transactionId, 0));
  }

  /** The retry loop of `StoreFile`: attempt after attempt, recording the
      attempt index and the error of each failure, stopping at a success or
      at an error that is not worth retrying, and waiting between attempts. */
  method RetryLoop(pacs: PACSConfig, outcome: nat -> Option<GoString>, start: StoreResult)
    returns (result: StoreResult, waits: seq<int>)
    requires !start.success
    ensures result == RetryFrom(0, MaxAttempts(pacs), outcome, start)
    ensures waits == Backoff(pacs.retryDelay, result.retryCount)
  {
    result := start;
    waits := [];
    var n := MaxAttempts(pacs);
    var attempt := 0;
    while attempt < n
      invariant 0 <= attempt <= n
      invariant RetryFrom(0, n, outcome, start) == RetryFrom(attempt, n, outcome, result)
      invariant !result.success
      invariant waits == Backoff(pacs.retryDelay, if attempt < n then attempt else n - 1)
      invariant attempt > 0 ==> result.retryCount == attempt - 1
    {
      result := result.(retryCount := attempt);
      var err := outcome(attempt);
      if err.None? {
        result := result.(success := true);
        return;
      }
      result := result.(errorMessage := err.value, errorType := CategorizeError(err));
      if StopsRetrying(result.errorType) {
        return;
      }
      if attempt < n - 1 {
        BackoffSnoc(pacs.retryDelay, attempt);
        waits := waits + [pacs.retryDelay * (attempt + 1)];
      }
      attempt := attempt + 1;
    }
  }

  /** One more wait extends the schedule by the next multiple of the delay. */
  lemma BackoffSnoc(delay: int, count: nat)
    ensures Backoff(delay, count + 1) == Backoff(delay, count) + [delay * (count + 1)]
  {
  }

  // ---------------------------------------------------------------------------
  // The service

  class StoreService {
    var lowMemory: bool
    var lowDiskSpace: bool
    var totalAttempts: int
    var successfulSends: int
    var failedSends: int
    var lastError: Option<GoString>
    var lastSuccess: Option<Instant>

    /** Every counted call either succeeded or failed. */
    ghost predicate StatsConsistent()
      reads this
    {
      totalAttempts == successfulSends + failedSends && successfulSends >= 0 && failedSends >= 0
    }

    constructor ()
      ensures !lowMemory && !lowDiskSpace
      ensures totalAttempts == 0 && successfulSends == 0 && failedSends == 0
      ensures lastError.None? && lastSuccess.None?
      ensures StatsConsistent()
    {
      lowMemory, lowDiskSpace := false, false;
      totalAttempts, successfulSends, failedSends := 0, 0, 0;
      lastError, lastSuccess := None, None;
    }

    /** `updateStats`: one more call, counted as a success or as a failure. */
    method UpdateStats(success: bool, err: Option<GoString>, now: Instant)
      modifies this
      ensures totalAttempts == old(totalAttempts) + 1
      ensures success ==> successfulSends == old(successfulSends) + 1 && failedSends == old(failedSends)
                          && lastSuccess == Some(now) && lastError == old(lastError)
      ensures !success ==> failedSends == old(failedSends) + 1 && successfulSends == old(successfulSends)
                           && lastError == err && lastSuccess == old(lastSuccess)
      ensures lowMemory == old(lowMemory) && lowDiskSpace == old(lowDiskSpace)
      ensures old(StatsConsistent()) ==> StatsConsistent()
    {
      totalAttempts := totalAttempts + 1;
      if success {
        successfulSends := successfulSends + 1;
        lastSuccess := Some(now);
      } else {
        failedSends := failedSends + 1;
        lastError := err;
      }
    }

    /** `TestConnection` against the PACS section of the configuration:
        nil exactly when PACS is enabled, memory is not low and the host and
        port are set; the conditions are evaluated in that order. */
    function TestConnection(pacs: PACSConfig): (err: Option<GoString>)
      reads this
      ensures err.None? <==> pacs.enabled && !lowMemory && pacs.host != "" && pacs.port != 0
      ensures !pacs.enabled ==> err == Some("PACS is not enabled")
    {
      if !pacs.enabled then Some("PACS is not enabled")
      else if lowMemory then Some("low memory - cannot test connection")
      else if pacs.host == "" || pacs.port == 0 then Some("invalid PACS configuration")
      else None
    }

    /** `StoreFile`. The existence of the file, the configuration, the
        attempt oracle, the clock and the transaction ID are parameters;
        `waits` lists the back-off delays in seconds. The statistics count
        the call once, and only when the retry loop ran. */
    method StoreFile(dicomPath: GoString, fileExists: bool, pacs: PACSConfig,
                     outcome: nat -> Option<GoString>, start: Instant, transactionId: GoString, now: Instant)
      returns (result: StoreResult, waits: seq<int>)
      modifies this
      ensures result == StoreOutcome(dicomPath, fileExists, old(lowMemory), pacs, outcome, start, transactionId)
      ensures waits == (if fileExists && !old(lowMemory) && pacs.enabled
                        then Backoff(pacs.retryDelay, result.retryCount) else [])
      ensures lowMemory == old(lowMemory) && lowDiskSpace == old(lowDiskSpace)
      ensures if fileExists && !old(lowMemory) && pacs.enabled
              then totalAttempts == old(totalAttempts) + 1
                   && (result.success ==> successfulSends == old(successfulSends) + 1 && failedSends == old(failedSends)
                                          && lastSuccess == Some(now) && lastError == old(lastError))
                   && (!result.success ==> failedSends == old(failedSends) + 1 && successfulSends == old(successfulSends)
                                           && lastError == Some(result.errorMessage) && lastSuccess == old(lastSuccess))
              else totalAttempts == old(totalAttempts) && successfulSends == old(successfulSends)
                   && failedSends == old(failedSends) && lastError == old(lastError) && lastSuccess == old(lastSuccess)
      ensures old(StatsConsistent()) ==> StatsConsistent()
    {
      result := StoreResult(false, "", ErrorUnset, start, transactionId, 0);
      waits := [];
      if !fileExists {
        result := result.(errorMessage := "DICOM file not found: " + BaseName(dicomPath), errorType := ErrorFileNotFound);
        return;
      }
      if lowMemory {
        result := result.(errorMessage := "System low on memory - deferring upload", errorType := ErrorNoSpace);
        return;
      }
      if !pacs.enabled {
        result := result.(errorMessage := "PACS upload is disabled", errorType := ErrorNone);
        return;
      }
      result, waits := RetryLoop(pacs, outcome, result);
      if result.success {
        UpdateStats(true, None, now);
      } else {
        UpdateStats(false, Some(result.errorMessage), now);
      }
    }
  }
}
