/**
 * How a custom benefit's result is put together from its checks' results,
 * the library-check test and the screener ownership test.  The services a
 * check is evaluated with (the storage lookup of its DMN model, the library
 * service and the DMN engine) are parameters, each of which may fail.
 */
module DecisionResource {
  import opened Wrappers
  import opened Text
  import opened Evaluation

  datatype CheckConfig = CheckConfig(checkId: string, checkName: string)

  datatype Benefit = Benefit(isPublic: bool, name: string, checks: seq<CheckConfig>)

  datatype Screener = Screener(ownerId: Option<string>)

  /** `Map.of("name", …, "result", …)` for one check. */
  datatype CheckResult = CheckResult(name: string, result: EvaluationResult)

  /**
   * What `evaluateBenefit` returns: the empty map for a public benefit, or
   * the name, overall result and per-check results of a custom one.
   */
  datatype BenefitResult =
    | NotEvaluated
    | Evaluated(name: string, result: EvaluationResult, checkResults: map<string, CheckResult>)

  /** `charAt(0)` on an empty id throws. */
  const EmptyCheckId := "StringIndexOutOfBoundsException"

  /** `isLibraryCheck`: the id starts with `L`. */
  function IsLibraryCheck(checkId: string): (r: Result<bool, string>)
    ensures r.Err? <==> checkId == []
    ensures r.Ok? ==> (r.value <==> checkId[0] == 'L')
  {
    if checkId == [] then Err(EmptyCheckId) else Ok(checkId[0] == 'L')
  }

  /** `isUserAuthorizedToAccessScreenerByScreener`: `userId.equals(ownerId)`. */
  function IsUserAuthorized(userId: string, screener: Screener): (r: bool)
    ensures r <==> screener.ownerId.Some? && screener.ownerId.value == userId
  {
    match screener.ownerId
    case None => false
    case Some(ownerId) => userId == ownerId
  }

  /** `isUserAuthorizedToAccessScreenerByScreenerId`: a screener that is not found is never accessible. */
  function IsUserAuthorizedById(userId: string, screener: Option<Screener>): (r: bool)
    ensures r <==> screener.Some? && screener.value.ownerId == Some(userId)
  {
    screener.Some? && IsUserAuthorized(userId, screener.value)
  }

  /** The overall result of lines 157-167. */
  function Combine(results: seq<EvaluationResult>): EvaluationResult {
    if forall i :: 0 <= i < |results| ==> results[i] == TRUE then TRUE
    else if exists i :: 0 <= i < |results| && results[i] == FALSE then FALSE
    else UNABLE_TO_DETERMINE
  }

  /** The key of the `checkNum`-th check: its id followed by the decimal index. */
  function CheckKey(check: CheckConfig, checkNum: nat): string {
    check.checkId + NatToString(checkNum)
  }

  /**
   * What a check evaluator gives back: the failure it throws, or its result,
   * None standing for `null`.
   */
  type Outcome = Result<Option<EvaluationResult>, string>

  /**
   * The services `evaluateBenefit` calls: `storageService.getCheckDmnModelPath`,
   * `libraryApi.evaluateCheck` and `dmnService.evaluateDmn` (which is given
   * the model path).
   */
  datatype Services = Services(
    storage: string -> Result<string, string>,
    library: CheckConfig -> Outcome,
    dmn: (string, CheckConfig) -> Outcome)

  /** `Map.of` throws on a null value. */
  const NullResult := "NullPointerException"

  /**
   * One iteration of the loop at lines 135-153: the model path is looked up
   * first, then the id is tested, then the check goes to the library service
   * or the DMN engine; a null result fails when it is put into the map.
   */
  function EvaluateCheck(check: CheckConfig, s: Services): (r: Result<EvaluationResult, string>)
    ensures s.storage(check.checkId).Err? ==> r == Err(s.storage(check.checkId).error)
    ensures s.storage(check.checkId).Ok? && check.checkId == [] ==> r == Err(EmptyCheckId)
    ensures s.storage(check.checkId).Ok? && check.checkId != [] ==>
              var out := if check.checkId[0] == 'L' then s.library(check)
                         else s.dmn(s.storage(check.checkId).value, check);
              && (out.Err? ==> r == Err(out.error))
              && (out == Ok(None) ==> r == Err(NullResult))
              && (out.Ok? && out.value.Some? ==> r == Ok(out.value.value))
  {
    match s.storage(check.checkId)
    case Err(e) => Err(e)
    case Ok(path) =>
      match IsLibraryCheck(check.checkId)
      case Err(e) => Err(e)
      case Ok(isLibrary) =>
        match (if isLibrary then s.library(check) else s.dmn(path, check))
        case Err(e) => Err(e)
        case Ok(None) => Err(NullResult)
        case Ok(Some(result)) => Ok(result)
  }

  /** The results of the first checks, in order, or the first failure. */
  function CheckResults(checks: seq<CheckConfig>, s: Services): (r: Result<seq<EvaluationResult>, string>)
    ensures r.Ok? ==> |r.value| == |checks|
  {
    if checks == [] then Ok([])
    else
      match CheckResults(checks[..|checks| - 1], s)
      case Err(e) => Err(e)
      case Ok(init) =>
        match EvaluateCheck(checks[|checks| - 1], s)
        case Err(e) => Err(e)
        case Ok(last) => Ok(init + [last])
  }

  /** The `checkResults` map after the first `|results|` puts. */
  function CheckMap(checks: seq<CheckConfig>, results: seq<EvaluationResult>): map<string, CheckResult>
    requires |results| == |checks|
  {
    if checks == [] then map[]
    else
      var n := |checks| - 1;
      CheckMap(checks[..n], results[..n])[CheckKey(checks[n], n) := CheckResult(checks[n].checkName, results[n])]
  }

  /** `evaluateBenefit(benefit, formData)`, with check evaluation abstracted. */
  function BenefitOutcome(benefit: Benefit, s: Services): Result<BenefitResult, string>
  {
    if benefit.isPublic then Ok(NotEvaluated)
    else
      match CheckResults(benefit.checks, s)
      case Err(e) => Err(e)
      case Ok(results) => Ok(Evaluated(benefit.name, Combine(results), CheckMap(benefit.checks, results)))
  }

  /** One more check evaluated: its result is appended. */
  lemma CheckStep(checks: seq<CheckConfig>, n: nat, s: Services, results: seq<EvaluationResult>, x: EvaluationResult)
    requires n < |checks|
    requires CheckResults(checks[..n], s) == Ok(results)
    requires EvaluateCheck(checks[n], s) == Ok(x)
    ensures CheckResults(checks[..n + 1], s) == Ok(results + [x])
  {
    assert checks[..n + 1][..n] == checks[..n];
  }

  /** One more check evaluated: its entry is put. */
  lemma CheckMapStep(checks: seq<CheckConfig>, n: nat, results: seq<EvaluationResult>, x: EvaluationResult)
    requires n < |checks| && |results| == n
    ensures CheckMap(checks[..n + 1], results + [x])
         == CheckMap(checks[..n], results)[CheckKey(checks[n], n) := CheckResult(checks[n].checkName, x)]
  {
    var c, r := checks[..n + 1], results + [x];
    assert c[..n] == checks[..n] && c[n] == checks[n];
    assert r[..n] == results && r[n] == x;
  }

  /** A check that fails fails the checks up to it. */
  lemma CheckFails(checks: seq<CheckConfig>, n: nat, s: Services)
    requires n < |checks| && CheckResults(checks[..n], s).Ok?
    requires EvaluateCheck(checks[n], s).Err?
    ensures CheckResults(checks[..n + 1], s) == Err(EvaluateCheck(checks[n], s).error)
  {
    assert checks[..n + 1][..n] == checks[..n];
  }

  /** Lines 124-177. */
  method EvaluateBenefit(benefit: Benefit, s: Services) returns (r: Result<BenefitResult, string>)
    ensures r == BenefitOutcome(benefit, s)
  {
    if benefit.isPublic {
      return Ok(NotEvaluated);
    }
    var resultsList: seq<EvaluationResult> := [];
    var checkResults: map<string, CheckResult> := map[];
    var checkNum: nat := 0;
    var checks := benefit.checks;
    while checkNum < |checks|
      invariant checkNum <= |checks|
      invariant CheckResults(checks[..checkNum], s) == Ok(resultsList)
      invariant |resultsList| == checkNum
      invariant checkResults == CheckMap(checks[..checkNum], resultsList)
    {
      var checkConfig := checks[checkNum];
      var dmnFilepath := s.storage(checkConfig.checkId);
      if dmnFilepath.Err? {
        CheckFails(checks, checkNum, s);
        PrefixFails(checks, checkNum + 1, s);
        return Err(dmnFilepath.error);
      }
      var isLibrary := IsLibraryCheck(checkConfig.checkId);
      if isLibrary.Err? {
        CheckFails(checks, checkNum, s);
        PrefixFails(checks, checkNum + 1, s);
        return Err(isLibrary.error);
      }
      var outcome := if isLibrary.value then s.library(checkConfig) else s.dmn(dmnFilepath.value, checkConfig);
      if outcome.Err? {
        CheckFails(checks, checkNum, s);
        PrefixFails(checks, checkNum + 1, s);
        return Err(outcome.error);
      }
      if outcome.value.None? {
        CheckFails(checks, checkNum, s);
        PrefixFails(checks, checkNum + 1, s);
        return Err(NullResult);
      }
      var evaluationResult := outcome.value.value;
      CheckStep(checks, checkNum, s, resultsList, evaluationResult);
      CheckMapStep(checks, checkNum, resultsList, evaluationResult);
      resultsList := resultsList + [evaluationResult];
      var uniqueCheckKey := checkConfig.checkId + NatToString(checkNum);
      checkResults := checkResults[uniqueCheckKey := CheckResult(checkConfig.checkName, evaluationResult)];
      checkNum := checkNum + 1;
    }
    assert checks[..checkNum] == checks;
    return Ok(Evaluated(benefit.name, Combine(resultsList), checkResults));
  }

  /** Once a prefix of the checks fails, so do all the checks. */
  lemma {:induction false} PrefixFails(checks: seq<CheckConfig>, n: nat, s: Services)
    requires n <= |checks| && CheckResults(checks[..n], s).Err?
    ensures CheckResults(checks, s) == CheckResults(checks[..n], s)
    decreases |checks| - n
  {
    if n < |checks| {
      assert checks[..n + 1][..n] == checks[..n];
      PrefixFails(checks, n + 1, s);
    } else {
      assert checks[..n] == checks;
    }
  }

  /**
   * The overall result is TRUE when every check is TRUE (so also for no
   * checks); otherwise FALSE when some check is FALSE; otherwise
   * UNABLE_TO_DETERMINE.
   */
  lemma CombineCases(results: seq<EvaluationResult>)
    ensures Combine(results) == TRUE <==> forall i :: 0 <= i < |results| ==> results[i] == TRUE
    ensures Combine(results) == FALSE <==> (exists i :: 0 <= i < |results| && results[i] == FALSE)
    ensures Combine(results) == UNABLE_TO_DETERMINE <==>
              (exists i :: 0 <= i < |results| && results[i] == UNABLE_TO_DETERMINE)
              && forall i :: 0 <= i < |results| ==> results[i] != FALSE
  {
    if exists i :: 0 <= i < |results| && results[i] == UNABLE_TO_DETERMINE {
      var i :| 0 <= i < |results| && results[i] == UNABLE_TO_DETERMINE;
      assert results[i] != TRUE;
    }
  }

  /** The overall result depends only on which results occur, not on their order. */
  lemma CombineOrderFree(a: seq<EvaluationResult>, b: seq<EvaluationResult>)
    requires multiset(a) == multiset(b)
    ensures Combine(a) == Combine(b)
  {
    InMultiset(a, FALSE);
    InMultiset(b, FALSE);
    InMultiset(a, UNABLE_TO_DETERMINE);
    InMultiset(b, UNABLE_TO_DETERMINE);
    CombineCases(a);
    CombineCases(b);
  }

  lemma InMultiset(s: seq<EvaluationResult>, x: EvaluationResult)
    ensures (exists i :: 0 <= i < |s| && s[i] == x) <==> x in multiset(s)
  {
    if x in multiset(s) {
      assert x in s;
      var i :| 0 <= i < |s| && s[i] == x;
    }
  }

  /**
   * One result is recorded per check, in order; the run fails exactly when
   * some check fails, and then with the error of the first check that fails.
   */
  lemma {:induction false} CheckResultsSpec(checks: seq<CheckConfig>, s: Services)
    ensures var r := CheckResults(checks, s);
            r.Err? <==> exists i :: 0 <= i < |checks| && EvaluateCheck(checks[i], s).Err?
    ensures var r := CheckResults(checks, s);
            r.Err? ==> exists i :: 0 <= i < |checks| && EvaluateCheck(checks[i], s) == Err(r.error)
                          && forall j :: 0 <= j < i ==> EvaluateCheck(checks[j], s).Ok?
    ensures var r := CheckResults(checks, s);
            r.Ok? ==> forall i :: 0 <= i < |checks| ==> EvaluateCheck(checks[i], s) == Ok(r.value[i])
  {
    if checks != [] {
      var n := |checks| - 1;
      var init := checks[..n];
      CheckResultsSpec(init, s);
      assert forall i :: 0 <= i < n ==> init[i] == checks[i];
      var r := CheckResults(checks, s);
      match CheckResults(init, s)
      case Err(e) =>
        var i :| 0 <= i < n && EvaluateCheck(init[i], s) == Err(e)
                 && forall j :: 0 <= j < i ==> EvaluateCheck(init[j], s).Ok?;
        assert EvaluateCheck(checks[i], s) == Err(r.error);
      case Ok(vs) =>
        if r.Ok? {
          assert r.value == vs + [EvaluateCheck(checks[n], s).value];
          forall i | 0 <= i < |checks|
            ensures EvaluateCheck(checks[i], s) == Ok(r.value[i])
          {
            if i < n {
              assert EvaluateCheck(init[i], s) == Ok(vs[i]);
            }
          }
        } else {
          assert EvaluateCheck(checks[n], s) == Err(r.error);
        }
    }
  }

  /** Every check has an entry under its id followed by its index, and nothing else does. */
  lemma {:induction false} CheckMapKeys(checks: seq<CheckConfig>, results: seq<EvaluationResult>)
    requires |results| == |checks|
    ensures CheckMap(checks, results).Keys == set i | 0 <= i < |checks| :: CheckKey(checks[i], i)
  {
    if checks != [] {
      var n := |checks| - 1;
      CheckMapKeys(checks[..n], results[..n]);
      KeysSplit(checks);
    }
  }

  /** The keys of all checks are those of all but the last, plus the last one's. */
  lemma KeysSplit(checks: seq<CheckConfig>)
    requires checks != []
    ensures var n := |checks| - 1;
            (set i | 0 <= i < |checks| :: CheckKey(checks[i], i))
            == (set i | 0 <= i < n :: CheckKey(checks[..n][i], i)) + {CheckKey(checks[n], n)}
  {
    var n := |checks| - 1;
    var before := set i | 0 <= i < n :: CheckKey(checks[..n][i], i);
    forall k | k in set i | 0 <= i < |checks| :: CheckKey(checks[i], i)
      ensures k in before + {CheckKey(checks[n], n)}
    {
      var i :| 0 <= i < |checks| && k == CheckKey(checks[i], i);
      if i < n {
        assert checks[..n][i] == checks[i];
      }
    }
    forall k | k in before
      ensures k in set i | 0 <= i < |checks| :: CheckKey(checks[i], i)
    {
      var i :| 0 <= i < n && k == CheckKey(checks[..n][i], i);
      assert checks[..n][i] == checks[i];
    }
  }

  /**
   * When the keys of the checks are all different, each check's entry holds
   * its name and result.
   */
  lemma {:induction false} CheckMapValues(checks: seq<CheckConfig>, results: seq<EvaluationResult>, i: nat)
    requires |results| == |checks| && i < |checks|
    requires forall j :: i < j < |checks| ==> CheckKey(checks[i], i) != CheckKey(checks[j], j)
    ensures CheckKey(checks[i], i) in CheckMap(checks, results)
    ensures CheckMap(checks, results)[CheckKey(checks[i], i)] == CheckResult(checks[i].checkName, results[i])
  {
    var n := |checks| - 1;
    if i < n {
      var init, rinit := checks[..n], results[..n];
      assert init[i] == checks[i] && rinit[i] == results[i];
      assert forall j :: i < j < n ==> init[j] == checks[j];
      CheckMapValues(init, rinit, i);
      assert CheckKey(checks[i], i) != CheckKey(checks[n], n);
    }
  }

  /**
   * Keys can collide: among eleven checks, the check `A1` at index 0 and the
   * check `A` at index 10 share the key `A10`, and the map keeps the later
   * entry.
   */
  lemma KeyCollision(checks: seq<CheckConfig>, results: seq<EvaluationResult>)
    requires |checks| == 11 && |results| == 11
    requires checks[0].checkId == "A1" && checks[10].checkId == "A"
    ensures CheckKey(checks[0], 0) == CheckKey(checks[10], 10)
    ensures CheckMap(checks, results)[CheckKey(checks[0], 0)] == CheckResult(checks[10].checkName, results[10])
  {
    assert NatToString(10) == "10";
    CheckMapValues(checks, results, 10);
  }
}
