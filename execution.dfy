/**
 * The `Result` of running one case version in one environment, and its
 * lifecycle: start, finish (succeed / fail / invalidate) and restart.
 * A result keeps per-step results; a failing finish can mark one step of
 * the case version as failed, found by its step number given as text.
 */
module Execution {
  import opened Wrappers
  import opened Library

  datatype Status = Created | Started | Passed | Failed | Invalidated

  /** Passed, failed and invalidated end a run until it is restarted. */
  predicate IsTerminal(s: Status)
  {
    s == Passed || s == Failed || s == Invalidated
  }

  /** Timestamps are opaque: only their identity matters to the lifecycle. */
  type Timestamp = nat

  type UserId = nat

  /** The result of one step; an empty `bugUrl` means no bug is attached. */
  datatype StepResult = StepResult(step: CaseStep, status: Status, bugUrl: string)

  /** At most one step result per step (a result has one record per step). */
  predicate UniqueSteps(srs: seq<StepResult>)
  {
    forall i, j :: 0 <= i < j < |srs| ==> srs[i].step != srs[j].step
  }

  // ---------------------------------------------------------------------
  // Step numbers arrive as text ("1"); they are read as decimal numerals.

  predicate IsDigit(c: char)
  {
    '0' <= c <= '9'
  }

  predicate AllDigits(s: string)
  {
    forall i :: 0 <= i < |s| ==> IsDigit(s[i])
  }

  function DecimalValue(s: string): nat
    requires AllDigits(s)
  {
    if |s| == 0 then 0
    else DecimalValue(s[..|s| - 1]) * 10 + (s[|s| - 1] as int - '0' as int)
  }

  /** The number a step-number text denotes, if it is a decimal numeral. */
  function ParseStepNumber(s: string): (r: Option<nat>)
    ensures r.Some? <==> |s| > 0 && AllDigits(s)
    ensures r.Some? ==> DecimalString(r.value) == StripLeadingZeros(s)
  {
    if |s| > 0 && AllDigits(s) then
      StrippedIsCanonical(s);
      Some(DecimalValue(s))
    else None
  }

  /** `s` without its leading zeros, keeping at least one character. */
  function StripLeadingZeros(s: string): string
  {
    if |s| > 1 && s[0] == '0' then StripLeadingZeros(s[1..]) else s
  }

  function DigitChar(d: nat): char
    requires d < 10
  {
    ('0' as int + d) as char
  }

  /** The canonical decimal text of a number, as a caller would pass it. */
  function DecimalString(n: nat): (s: string)
    ensures |s| > 0 && AllDigits(s)
  {
    if n < 10 then [DigitChar(n)] else DecimalString(n / 10) + [DigitChar(n % 10)]
  }

  /** Reading the decimal text of a number gives that number back. */
  lemma {:induction false} ParseDecimalString(n: nat)
    ensures ParseStepNumber(DecimalString(n)) == Some(n)
  {
    var s := DecimalString(n);
    if n < 10 {
      assert s[..|s| - 1] == [];
    } else {
      ParseDecimalString(n / 10);
      assert s[..|s| - 1] == DecimalString(n / 10);
      assert DecimalValue(s) == DecimalValue(DecimalString(n / 10)) * 10 + n % 10;
    }
  }

  /** A leading zero does not change the step number a text denotes. */
  lemma {:induction false} ParseIgnoresLeadingZero(s: string)
    requires |s| > 0
    ensures ParseStepNumber(['0'] + s) == ParseStepNumber(s)
  {
    if AllDigits(s) {
      LeadingZeroValue(s);
    } else {
      var i :| 0 <= i < |s| && !IsDigit(s[i]);
      assert (['0'] + s)[i + 1] == s[i];
    }
  }

  lemma {:induction false} LeadingZeroValue(s: string)
    requires AllDigits(s)
    ensures AllDigits(['0'] + s) && DecimalValue(['0'] + s) == DecimalValue(s)
  {
    var t := ['0'] + s;
    if |s| > 0 {
      assert t[..|t| - 1] == ['0'] + s[..|s| - 1];
      LeadingZeroValue(s[..|s| - 1]);
    }
  }

  /** A numeral that does not start with zero denotes a positive number. */
  lemma {:induction false} PositiveValue(s: string)
    requires |s| > 0 && AllDigits(s) && s[0] != '0'
    ensures DecimalValue(s) > 0
  {
    if |s| > 1 {
      var p := s[..|s| - 1];
      assert p[0] == s[0];
      PositiveValue(p);
    }
  }

  /** A numeral without leading zeros is the decimal text of its value. */
  lemma {:induction false} CanonicalDigits(s: string)
    requires |s| > 0 && AllDigits(s) && (|s| == 1 || s[0] != '0')
    ensures DecimalString(DecimalValue(s)) == s
  {
    var p, d := s[..|s| - 1], s[|s| - 1] as int - '0' as int;
    assert DigitChar(d) == s[|s| - 1];
    if |s| > 1 {
      assert p[0] == s[0];
      PositiveValue(p);
      CanonicalDigits(p);
      var v := DecimalValue(s);
      assert v / 10 == DecimalValue(p) && v % 10 == d;
      assert s == p + [s[|s| - 1]];
    }
  }

  /** The decimal text of a numeral's value is the numeral without its leading zeros. */
  lemma {:induction false} StrippedIsCanonical(s: string)
    requires |s| > 0 && AllDigits(s)
    ensures DecimalString(DecimalValue(s)) == StripLeadingZeros(s)
  {
    if |s| > 1 && s[0] == '0' {
      assert s == ['0'] + s[1..];
      LeadingZeroValue(s[1..]);
      StrippedIsCanonical(s[1..]);
    } else {
      CanonicalDigits(s);
    }
  }

  // ---------------------------------------------------------------------
  // Finding the step that a failing finish marks.

  /** The first step of the case version with the given number, if there is one. */
  function FindStep(steps: seq<CaseStep>, number: int): (r: Option<CaseStep>)
    ensures r.Some? ==> r.value in steps && r.value.number == number
    ensures r.Some? ==> exists i :: 0 <= i < |steps| && steps[i] == r.value &&
                                    (forall k :: 0 <= k < i ==> steps[k].number != number)
    ensures r.None? ==> forall i :: 0 <= i < |steps| ==> steps[i].number != number
  {
    if |steps| == 0 then None
    else if steps[0].number == number then Some(steps[0])
    else FindStep(steps[1..], number)
  }

  /**
   * The step a `stepnumber` argument designates: none when no step number is
   * given, when it is not a numeral, or when no step carries that number.
   */
  function LookupStep(steps: seq<CaseStep>, stepnumber: Option<string>): (r: Option<CaseStep>)
    ensures r.Some? <==>
      stepnumber.Some? && ParseStepNumber(stepnumber.value).Some? &&
      exists i :: 0 <= i < |steps| && steps[i].number == ParseStepNumber(stepnumber.value).value
    ensures r.Some? ==> r.value in steps && ParseStepNumber(stepnumber.value) == Some(r.value.number)
  {
    match stepnumber
    case None => None
    case Some(text) =>
      match ParseStepNumber(text)
      case None => None
      case Some(n) => FindStep(steps, n)
  }

  /** A step of a case version with distinct numbers is designated by its own number. */
  lemma LookupStepByNumber(steps: seq<CaseStep>, i: nat)
    requires DistinctStepNumbers(steps) && i < |steps| && steps[i].number >= 0
    ensures LookupStep(steps, Some(DecimalString(steps[i].number))) == Some(steps[i])
  {
    ParseDecimalString(steps[i].number);
  }

  /** The position of the step result for `step`, if there is one. */
  function IndexOfStep(srs: seq<StepResult>, step: CaseStep): (r: Option<nat>)
    ensures r.Some? ==> r.value < |srs| && srs[r.value].step == step
    ensures r.None? ==> forall i :: 0 <= i < |srs| ==> srs[i].step != step
  {
    if |srs| == 0 then None
    else if srs[0].step == step then Some(0)
    else match IndexOfStep(srs[1..], step)
      case None => None
      case Some(i) => Some(i + 1)
  }

  /**
   * Marking `step` failed: an existing step result for that step is updated
   * in place; otherwise one new step result is added.
   */
  function RecordFailure(srs: seq<StepResult>, step: CaseStep, bug: string): (r: seq<StepResult>)
    requires UniqueSteps(srs)
    ensures UniqueSteps(r)
    ensures StepResult(step, Failed, bug) in r
    ensures forall i :: 0 <= i < |srs| && srs[i].step == step ==>
      r == srs[i := StepResult(step, Failed, bug)]
    ensures (forall i :: 0 <= i < |srs| ==> srs[i].step != step) ==>
      r == srs + [StepResult(step, Failed, bug)]
  {
    match IndexOfStep(srs, step)
    case Some(i) =>
      var r := srs[i := StepResult(step, Failed, bug)];
      assert r[i] == StepResult(step, Failed, bug);
      r
    case None => srs + [StepResult(step, Failed, bug)]
  }

  // ---------------------------------------------------------------------
  // Bug URLs.

  /** The distinct non-empty bug URLs of the step results. */
  function CollectBugUrls(srs: seq<StepResult>): (urls: set<string>)
    ensures forall u :: u in urls <==> u != "" && exists i :: 0 <= i < |srs| && srs[i].bugUrl == u
  {
    if |srs| == 0 then {}
    else
      var last := srs[|srs| - 1].bugUrl;
      CollectBugUrls(srs[..|srs| - 1]) + (if last == "" then {} else {last})
  }

  /** How many step results carry a bug URL. */
  function CountWithBug(srs: seq<StepResult>): nat
  {
    if |srs| == 0 then 0
    else CountWithBug(srs[..|srs| - 1]) + (if srs[|srs| - 1].bugUrl == "" then 0 else 1)
  }

  /** There are never more bug URLs than step results carrying one. */
  lemma {:induction false} BugUrlsBound(srs: seq<StepResult>)
    ensures |CollectBugUrls(srs)| <= CountWithBug(srs) <= |srs|
  {
    if |srs| > 0 {
      BugUrlsBound(srs[..|srs| - 1]);
    }
  }

  /** Two step results with the same bug URL collapse to one URL. */
  lemma {:induction false} BugUrlsCollapseDuplicates(srs: seq<StepResult>, i: nat, j: nat)
    requires i < j < |srs| && srs[i].bugUrl == srs[j].bugUrl != ""
    ensures |CollectBugUrls(srs)| < CountWithBug(srs)
  {
    var init := srs[..|srs| - 1];
    if j == |srs| - 1 {
      assert init[i].bugUrl == srs[j].bugUrl;
      assert CollectBugUrls(srs) == CollectBugUrls(init);
      BugUrlsBound(init);
    } else {
      assert init[i] == srs[i] && init[j] == srs[j];
      BugUrlsCollapseDuplicates(init, i, j);
    }
  }

  // ---------------------------------------------------------------------
  // The result record and its transitions.

  class Result {
    /** The steps of the case version this result is for. */
    const steps: seq<CaseStep>
    var status: Status
    var started: Timestamp
    var completed: Option<Timestamp>
    var modifiedBy: Option<UserId>
    var comment: string
    var stepResults: seq<StepResult>

    ghost predicate Valid()
      reads this
    {
      UniqueSteps(stepResults)
    }

    /** A completed timestamp is present exactly when the status is terminal. */
    predicate CompletedIffTerminal()
      reads this
    {
      completed.Some? <==> IsTerminal(status)
    }

    /** The distinct bug URLs reported against this result's steps. */
    function BugUrls(): (urls: set<string>)
      reads this
      ensures forall u :: u in urls <==>
        u != "" && exists i :: 0 <= i < |stepResults| && stepResults[i].bugUrl == u
    {
      CollectBugUrls(stepResults)
    }

    /** A fresh result for a case version, in status created. */
    constructor (steps: seq<CaseStep>, now: Timestamp)
      ensures Valid() && CompletedIffTerminal()
      ensures this.steps == steps && status == Created && started == now
      ensures completed == None && modifiedBy == None && comment == "" && stepResults == []
    {
      this.steps := steps;
      status := Created;
      started := now;
      completed := None;
      modifiedBy := None;
      comment := "";
      stepResults := [];
    }

    /** Records a step result directly, as the step-result factory does. */
    method AddStepResult(sr: StepResult)
      requires Valid()
      requires forall i :: 0 <= i < |stepResults| ==> stepResults[i].step != sr.step
      modifies this
      ensures Valid()
      ensures stepResults == old(stepResults) + [sr]
      ensures status == old(status) && started == old(started) && completed == old(completed)
      ensures modifiedBy == old(modifiedBy) && comment == old(comment)
    {
      stepResults := stepResults + [sr];
    }

    method Start(now: Timestamp, user: Option<UserId>)
      requires Valid()
      modifies this
      ensures Valid()
      ensures status == Started && started == now
      ensures modifiedBy == if user.Some? then user else old(modifiedBy)
      ensures completed == old(completed) && comment == old(comment)
      ensures stepResults == old(stepResults)
      ensures CompletedIffTerminal() <==> old(completed).None?
    {
      status := Started;
      started := now;
      if user.Some? {
        modifiedBy := user;
      }
    }

    method FinishSucceed(now: Timestamp, user: Option<UserId>)
      requires Valid()
      modifies this
      ensures Valid() && CompletedIffTerminal()
      ensures status == Passed && completed == Some(now)
      ensures modifiedBy == if user.Some? then user else old(modifiedBy)
      ensures started == old(started) && comment == old(comment)
      ensures stepResults == old(stepResults)
    {
      status := Passed;
      completed := Some(now);
      if user.Some? {
        modifiedBy := user;
      }
    }

    /** `note` is the comment; "" when none is given. */
    method FinishInvalidate(now: Timestamp, user: Option<UserId>, note: string)
      requires Valid()
      modifies this
      ensures Valid() && CompletedIffTerminal()
      ensures status == Invalidated && completed == Some(now) && comment == note
      ensures modifiedBy == if user.Some? then user else old(modifiedBy)
      ensures started == old(started) && stepResults == old(stepResults)
    {
      status := Invalidated;
      completed := Some(now);
      comment := note;
      if user.Some? {
        modifiedBy := user;
      }
    }

    /**
     * `note` is the comment and `bug` the bug URL, each "" when none is given.
     * A step number that designates no step of the case version is ignored.
     */
    method FinishFail(now: Timestamp, user: Option<UserId>, note: string,
                      stepnumber: Option<string>, bug: string)
      requires Valid()
      modifies this
      ensures Valid() && CompletedIffTerminal()
      ensures status == Failed && completed == Some(now) && comment == note
      ensures modifiedBy == if user.Some? then user else old(modifiedBy)
      ensures started == old(started)
      ensures stepResults == match LookupStep(steps, stepnumber)
                             case None => old(stepResults)
                             case Some(step) => RecordFailure(old(stepResults), step, bug)
    {
      var step := LookupStep(steps, stepnumber);
      if step.Some? {
        stepResults := RecordFailure(stepResults, step.value, bug);
      }
      status := Failed;
      completed := Some(now);
      comment := note;
      if user.Some? {
        modifiedBy := user;
      }
    }

    /** Back to started, from any status, discarding the previous outcome. */
    method Restart(now: Timestamp, user: Option<UserId>)
      requires Valid()
      modifies this
      ensures Valid() && CompletedIffTerminal()
      ensures status == Started && started == now
      ensures completed == None && comment == "" && stepResults == []
      ensures modifiedBy == if user.Some? then user else old(modifiedBy)
    {
      status := Started;
      started := now;
      completed := None;
      comment := "";
      stepResults := [];
      if user.Some? {
        modifiedBy := user;
      }
    }
  }

  // ---------------------------------------------------------------------
  // Client code replaying the lifecycle scenarios of the result tests.

  method ScenarioBugUrls()
  {
    var r := new Result([], 0);
    var b1, b2 := "http://www.example.com/bug1", "http://www.example.com/bug2";
    r.AddStepResult(StepResult(CaseStep(1, 1), Created, ""));
    r.AddStepResult(StepResult(CaseStep(2, 1), Created, b1));
    r.AddStepResult(StepResult(CaseStep(3, 1), Created, b1));
    r.AddStepResult(StepResult(CaseStep(4, 1), Created, b2));
    assert r.stepResults[1].bugUrl == b1 && r.stepResults[3].bugUrl == b2;
    assert r.BugUrls() == {b1, b2};
  }

  method ScenarioFailStep()
  {
    var step := CaseStep(7, 1);
    var r := new Result([step], 0);
    r.Start(0, None);
    assert ParseStepNumber("1") == Some(1);
    r.FinishFail(1, None, "", Some("1"), "http://www.example.com/");
    assert r.stepResults == [StepResult(step, Failed, "http://www.example.com/")];
    assert r.status == Failed && r.completed == Some(1);
  }

  method ScenarioFailExistingStepResult()
  {
    var step := CaseStep(7, 1);
    var r := new Result([step], 0);
    r.Start(0, None);
    r.AddStepResult(StepResult(step, Passed, ""));
    assert ParseStepNumber("1") == Some(1);
    r.FinishFail(1, None, "", Some("1"), "");
    assert r.stepResults == [StepResult(step, Failed, "")];
  }

  method ScenarioBadStepNumberIgnored()
  {
    var step := CaseStep(7, 1);
    var r := new Result([step], 0);
    r.Start(0, None);
    assert ParseStepNumber("2") == Some(2);
    r.FinishFail(1, None, "", Some("2"), "");
    assert r.stepResults == [];
  }

  method ScenarioRestartClears()
  {
    var step := CaseStep(7, 1);
    var r := new Result([step], 0);
    r.AddStepResult(StepResult(step, Failed, ""));
    r.FinishInvalidate(2, Some(5), "it ain't valid");
    r.Restart(3, None);
    assert r.status == Started && r.started == 3 && r.completed == None;
    assert r.comment == "" && r.stepResults == [] && r.modifiedBy == Some(5);
  }
}
