/** The fail-fast validation loops `validate_template`
    (taskcat/taskcat.py:221-245) and `validate_parameters` (256-270), with
    `validate_json` (247-254), stated on the object's fields as a value.
    The remote CloudFormation check and the parameter fetch are oracles. */
module Runs {
  import opened Common
  import opened Config
  import opened Resolution
  import opened Assets

  /** The fields after a run, how it ended, and the remote requests it made,
      in order. */
  datatype Run = Run(st: State, status: Status, calls: seq<string>)

  /** A run that follows earlier requests. */
  function Then(earlier: seq<string>, r: Run): (s: Run)
    ensures s.st == r.st && s.status == r.status && s.calls == earlier + r.calls
  {
    r.(calls := earlier + r.calls)
  }

  /** The loop both validators share: each test in order is handled by
      `step`, which is told how many requests the run has made so far; the
      first step that does not end normally ends the whole run (there
      `sys.exit` or an uncaught exception stops the process). */
  function RunTests(st: State, tests: seq<string>, step: (State, string, nat) -> Run, k: nat): Run
    decreases |tests|
  {
    if tests == [] then Run(st, Normal, [])
    else
      var r := step(st, tests[0], k);
      if r.status != Normal then r
      else Then(r.calls, RunTests(r.st, tests[1..], step, k + |r.calls|))
  }

  /** Running `a + b` is running `a`, then, only if `a` ended normally,
      running `b` from where `a` left the fields. */
  lemma {:induction false} RunTestsAppend(st: State, a: seq<string>, b: seq<string>,
                                             step: (State, string, nat) -> Run, k: nat)
    ensures RunTests(st, a + b, step, k) ==
              var r := RunTests(st, a, step, k);
              if r.status != Normal then r
              else Then(r.calls, RunTests(r.st, b, step, k + |r.calls|))
    decreases |a|
  {
    if a == [] {
      assert a + b == b;
      assert RunTests(st, a, step, k) == Run(st, Normal, []);
    } else {
      assert (a + b)[0] == a[0];
      assert (a + b)[1..] == a[1..] + b;
      var r0 := step(st, a[0], k);
      if r0.status != Normal {
        assert RunTests(st, a, step, k) == r0;
        assert RunTests(st, a + b, step, k) == r0;
      } else {
        var k1 := k + |r0.calls|;
        RunTestsAppend(r0.st, a[1..], b, step, k1);
        var ra := RunTests(r0.st, a[1..], step, k1);
        assert RunTests(st, a, step, k) == Then(r0.calls, ra);
        assert RunTests(st, a + b, step, k) == Then(r0.calls, RunTests(r0.st, a[1..] + b, step, k1));
        if ra.status == Normal {
          var rb := RunTests(ra.st, b, step, k1 + |ra.calls|);
          assert r0.calls + (ra.calls + rb.calls) == (r0.calls + ra.calls) + rb.calls;
          assert k + |r0.calls + ra.calls| == k1 + |ra.calls|;
          assert RunTests(st, a + b, step, k) == Then(r0.calls + ra.calls, rb);
        } else {
          assert RunTests(st, a + b, step, k) == Then(r0.calls, ra);
        }
      }
    }
  }

  /** Fail-fast: once a run has stopped, tests queued after the stopping
      point are never touched; fields, status and requests are the same. */
  lemma FailFast(st: State, a: seq<string>, b: seq<string>, step: (State, string, nat) -> Run, k: nat)
    requires RunTests(st, a, step, k).status != Normal
    ensures RunTests(st, a + b, step, k) == RunTests(st, a, step, k)
  {
    RunTestsAppend(st, a, b, step, k);
  }

  /** One more test of a run that follows earlier requests. */
  lemma RunTestsContinue(st: State, tests: seq<string>, step: (State, string, nat) -> Run, k: nat, earlier: seq<string>)
    requires tests != []
    ensures var r := step(st, tests[0], k);
            Then(earlier, RunTests(st, tests, step, k)) ==
              if r.status != Normal then Then(earlier, r)
              else Then(earlier + r.calls, RunTests(r.st, tests[1..], step, k + |r.calls|))
  {
    var r := step(st, tests[0], k);
    if r.status == Normal {
      assert earlier + (r.calls + RunTests(r.st, tests[1..], step, k + |r.calls|).calls) ==
             (earlier + r.calls) + RunTests(r.st, tests[1..], step, k + |r.calls|).calls;
    }
  }

  /** The loop invariant of a method that runs the tests one at a time:
      after one more step, the whole run either is that step's outcome
      following the earlier requests, or goes on from the step's fields. */
  lemma RunTestsAdvance(run: Run, earlier: seq<string>, st: State, tests: seq<string>,
                           step: (State, string, nat) -> Run, r: Run)
    requires tests != [] && r == step(st, tests[0], |earlier|)
    requires run == Then(earlier, RunTests(st, tests, step, |earlier|))
    ensures r.status != Normal ==> run == Run(r.st, r.status, earlier + r.calls)
    ensures r.status == Normal ==>
              run == Then(earlier + r.calls, RunTests(r.st, tests[1..], step, |earlier + r.calls|))
  {
    RunTestsContinue(st, tests, step, |earlier|, earlier);
  }

  /** The request promise of a run or of one step: each request satisfies
      `ok` (its number in the run, counted from `k`, and the request),
      except that the last request of a run that did not end normally may
      fail it. */
  ghost predicate RequestsOk(calls: seq<string>, normal: bool, k: nat, ok: (nat, string) -> bool)
  {
    forall n :: 0 <= n < |calls| && (normal || n < |calls| - 1) ==> ok(k + n, calls[n])
  }

  /** What every step of a loop promises about its requests: at most
      `width` of them, exactly `width` on a normal end, and the request
      promise. */
  ghost predicate StepsKeep(step: (State, string, nat) -> Run, width: nat, ok: (nat, string) -> bool)
  {
    forall st: State, t: string, k: nat {:trigger step(st, t, k)} ::
      |step(st, t, k).calls| <= width &&
      (step(st, t, k).status == Normal ==> |step(st, t, k).calls| == width) &&
      RequestsOk(step(st, t, k).calls, step(st, t, k).status == Normal, k, ok)
  }

  /** The requests of a whole run keep the same promise: a normal end made
      `width` requests per test, all satisfying `ok`; a stopped run made
      only requests satisfying `ok` before its last one. */
  lemma {:induction false} RunTestsRequests(st: State, tests: seq<string>, step: (State, string, nat) -> Run,
                                               k: nat, width: nat, ok: (nat, string) -> bool)
    requires StepsKeep(step, width, ok)
    ensures RunTests(st, tests, step, k).status == Normal ==>
              |RunTests(st, tests, step, k).calls| == width * |tests|
    ensures RequestsOk(RunTests(st, tests, step, k).calls, RunTests(st, tests, step, k).status == Normal, k, ok)
    decreases |tests|
  {
    if tests == [] {
      assert RunTests(st, tests, step, k) == Run(st, Normal, []);
    } else {
      var r0 := step(st, tests[0], k);
      assert |r0.calls| <= width && (r0.status == Normal ==> |r0.calls| == width) &&
             RequestsOk(r0.calls, r0.status == Normal, k, ok);
      if r0.status != Normal {
        assert RunTests(st, tests, step, k) == r0;
      } else {
        RunTestsRequests(r0.st, tests[1..], step, k + width, width, ok);
        var rest := RunTests(r0.st, tests[1..], step, k + width);
        assert RunTests(st, tests, step, k) == Then(r0.calls, rest);
        assert width * |tests| == width * (|tests[1..]| + 1) == width * |tests[1..]| + width;
        RequestsOkAppend(r0.calls, rest.calls, rest.status == Normal, k, ok);
      }
    }
  }

  /** The request promise of a whole step followed by that of the rest is
      the promise of both. */
  lemma RequestsOkAppend(a: seq<string>, b: seq<string>, normal: bool, k: nat, ok: (nat, string) -> bool)
    requires RequestsOk(a, true, k, ok) && RequestsOk(b, normal, k + |a|, ok)
    ensures RequestsOk(a + b, normal, k, ok)
  {
    forall n | 0 <= n < |a + b| && (normal || n < |a + b| - 1)
      ensures ok(k + n, (a + b)[n])
    {
      if n >= |a| {
        assert (a + b)[n] == b[n - |a|];
        assert ok(k + |a| + (n - |a|), b[n - |a|]);
      }
    }
  }

  /** When every step that exits made a last request satisfying `bad`, a
      run that exits did too. */
  lemma {:induction false} RunTestsExit(st: State, tests: seq<string>, step: (State, string, nat) -> Run,
                                           k: nat, bad: string -> bool)
    requires forall st: State, t: string, k: nat {:trigger step(st, t, k)} ::
               step(st, t, k).status.Exit? ==>
                 |step(st, t, k).calls| > 0 && bad(step(st, t, k).calls[|step(st, t, k).calls| - 1])
    ensures var r := RunTests(st, tests, step, k);
            r.status.Exit? ==> |r.calls| > 0 && bad(r.calls[|r.calls| - 1])
    decreases |tests|
  {
    if tests != [] {
      var r0 := step(st, tests[0], k);
      if r0.status == Normal {
        RunTestsExit(r0.st, tests[1..], step, k + |r0.calls|, bad);
      }
    }
  }

  /** The answer of the remote CloudFormation check to one
      `validate_template` request: the client raises (`Rejected`), or the
      call returns a result, which may or may not carry the template's
      `Description` and `Parameters` keys. */
  datatype Answer = Rejected | Accepted(hasDescription: bool, hasParameters: bool)

  /** `validate_template` makes its requests to one client in `us-west-2`;
      `answer(n, url)` is the answer to the run's request number n. */
  type Validator = (nat, string) -> Answer

  /** Reading the second result: `result['Description']` always and, with
      verbose output, `result['Parameters']`; a missing key raises
      `KeyError` inside the `try`. */
  predicate Readable(a: Answer, verbose: bool)
  {
    a.Accepted? && a.hasDescription && (verbose ==> a.hasParameters)
  }

  /** The URL handed to the remote check: `get_s3_url(get_template())`
      under the project field.  A project or template that is not a string
      makes the lookup raise inside the `try`, which ends like a missing
      URL: with `sys.exit`. */
  function TemplateUrl(st: State, listing: seq<Bucket>): (r: Option<string>)
    ensures r.Some? ==> st.project.Str? && st.templateFile.Str? &&
                        r == GetS3Url(listing, st.project.s, st.templateFile.s)
    ensures st.project.Str? && st.templateFile.Str? && GetS3Url(listing, st.project.s, st.templateFile.s).Some? ==>
              r.Some?
  {
    match (st.project, st.templateFile)
    case (Str(p), Str(t)) => GetS3Url(listing, p, t)
    case _ => None
  }

  /** One test of `validate_template`: resolve it, then validate the same
      URL twice and read the second result; a missing URL, a rejection or
      a missing result key exits with status 1. */
  function TemplateStep(st: State, cfg: Manifest, test: string, listing: seq<Bucket>,
                        answer: Validator, k: nat): (r: Run)
    ensures r.st == DefineTests(st, cfg, test).st
    ensures r.status == Raise <==> DefineTests(st, cfg, test).raised
    ensures r.status == Normal || r.status == Raise || r.status == Exit(1)
    ensures r.calls == [] <==> r.status == Raise || TemplateUrl(r.st, listing).None?
    ensures forall n :: 0 <= n < |r.calls| ==> Some(r.calls[n]) == TemplateUrl(r.st, listing)
  {
    var d := DefineTests(st, cfg, test);
    if d.raised then Run(d.st, Raise, [])
    else match TemplateUrl(d.st, listing)
      case None => Run(d.st, Exit(1), [])
      case Some(url) =>
        if answer(k, url).Rejected? then Run(d.st, Exit(1), [url])
        else if !Readable(answer(k + 1, url), d.st.verbose) then Run(d.st, Exit(1), [url, url])
        else Run(d.st, Normal, [url, url])
  }

  function TemplateSteps(cfg: Manifest, listing: seq<Bucket>, answer: Validator): (State, string, nat) -> Run
  {
    (st: State, test: string, k: nat) => TemplateStep(st, cfg, test, listing, answer, k)
  }

  /** `validate_template(cfg, tests)`: the test region is first set from
      the global regions (raising when that lookup raises), then the tests
      run in order; a normal end is the `return True`. */
  function ValidateTemplateRun(st: State, cfg: Manifest, tests: seq<string>, listing: seq<Bucket>,
                               answer: Validator): (r: Run)
    ensures GlobalRegions(cfg.global).None? ==> r == Run(st, Raise, [])
    ensures GlobalRegions(cfg.global).Some? && tests == [] ==>
              r == Run(WithGlobalRegions(st, GlobalRegions(cfg.global).value), Normal, [])
    ensures GlobalRegions(cfg.global).Some? && tests != [] &&
            TemplateStep(WithGlobalRegions(st, GlobalRegions(cfg.global).value), cfg, tests[0], listing, answer, 0).status != Normal ==>
              r == TemplateStep(WithGlobalRegions(st, GlobalRegions(cfg.global).value), cfg, tests[0], listing, answer, 0)
  {
    match GlobalRegions(cfg.global)
    case None => Run(st, Raise, [])
    case Some(rs) => RunTests(WithGlobalRegions(st, rs), tests, TemplateSteps(cfg, listing, answer), 0)
  }

  /** What one template step promises: a normal end made two accepted
      requests for one URL, the second answer carrying a `Description` (and
      `Parameters` with verbose output); an exit after two accepted answers
      means the second lacked one of those keys; at most two requests are
      made and all but the last were accepted. */
  lemma TemplateStepRequests(st: State, cfg: Manifest, test: string, listing: seq<Bucket>,
                             answer: Validator, k: nat)
    ensures var r := TemplateStep(st, cfg, test, listing, answer, k);
            |r.calls| <= 2 &&
            (r.status == Normal ==>
               |r.calls| == 2 && r.calls[0] == r.calls[1] &&
               answer(k, r.calls[0]).Accepted? && Readable(answer(k + 1, r.calls[1]), r.st.verbose)) &&
            (|r.calls| == 2 ==> r.calls[0] == r.calls[1] && answer(k, r.calls[0]).Accepted?) &&
            (r.status.Exit? && |r.calls| == 1 ==> answer(k, r.calls[0]).Rejected?) &&
            (r.status.Exit? && |r.calls| == 2 ==> !Readable(answer(k + 1, r.calls[1]), r.st.verbose))
  {
  }

  /** The remote check sees the test's own template: every request of a
      resolved test is the first matching object key for the global project
      and the test's `template_file`. */
  lemma TemplateStepValidatesTestTemplate(st: State, cfg: Manifest, test: string, spec: Mapping,
                                          listing: seq<Bucket>, answer: Validator, k: nat)
    requires cfg.tests.Some? && Lookup(cfg.tests.value, test) == Some(spec)
    requires Resolvable(cfg.global, spec)
    requires !DefineTests(st, cfg, test).raised
    ensures var r := TemplateStep(st, cfg, test, listing, answer, k);
            var p := cfg.global.value["project"];
            var t := spec["template_file"];
            (r.calls != [] ==> p.Str? && t.Str? && GetS3Url(listing, p.s, t.s).Some?) &&
            (forall n :: 0 <= n < |r.calls| ==> Some(r.calls[n]) == GetS3Url(listing, p.s, t.s))
    ensures var p := cfg.global.value["project"];
            var t := spec["template_file"];
            p.Str? && t.Str? && GetS3Url(listing, p.s, t.s).Some? ==>
              TemplateStep(st, cfg, test, listing, answer, k).calls != []
  {
    FieldsCopied(st, cfg, test, spec);
  }

  /** Every template step keeps the request promise with two requests per
      test, each accepted by the remote check. */
  lemma TemplateStepsKeep(cfg: Manifest, listing: seq<Bucket>, answer: Validator)
    ensures StepsKeep(TemplateSteps(cfg, listing, answer), 2, (n: nat, url: string) => answer(n, url).Accepted?)
  {
    var step := TemplateSteps(cfg, listing, answer);
    var ok := (n: nat, url: string) => answer(n, url).Accepted?;
    forall st': State, t: string, k: nat
      ensures |step(st', t, k).calls| <= 2 &&
              (step(st', t, k).status == Normal ==> |step(st', t, k).calls| == 2) &&
              RequestsOk(step(st', t, k).calls, step(st', t, k).status == Normal, k, ok)
    {
      TemplateStepRequests(st', cfg, t, listing, answer, k);
    }
  }

  /** `validate_template` returns only after validating every test's
      template twice, every request accepted; a run that stopped had every
      request but its last accepted. */
  lemma TemplateRunRequests(st: State, cfg: Manifest, tests: seq<string>, listing: seq<Bucket>, answer: Validator)
    ensures var r := ValidateTemplateRun(st, cfg, tests, listing, answer);
            r.status == Normal ==> |r.calls| == 2 * |tests|
    ensures var r := ValidateTemplateRun(st, cfg, tests, listing, answer);
            RequestsOk(r.calls, r.status == Normal, 0, (n: nat, url: string) => answer(n, url).Accepted?)
  {
    TemplateStepsKeep(cfg, listing, answer);
    match GlobalRegions(cfg.global)
    case None =>
    case Some(rs) =>
      RunTestsRequests(WithGlobalRegions(st, rs), tests, TemplateSteps(cfg, listing, answer), 0, 2,
                       (n: nat, url: string) => answer(n, url).Accepted?);
  }

  /** `validate_template` first stores the global regions: a run over no
      tests, or over one test whose `regions` is null, ends with the test
      region set to the global list. */
  lemma TemplateRunStartsFromGlobalRegions(st: State, cfg: Manifest, test: string, spec: Mapping,
                                          listing: seq<Bucket>, answer: Validator)
    requires GlobalRegions(cfg.global).Some?
    requires cfg.tests.Some? && Lookup(cfg.tests.value, test) == Some(spec)
    requires Resolvable(cfg.global, spec) && "regions" in spec && spec["regions"] == Null
    ensures ValidateTemplateRun(st, cfg, [], listing, answer).st.testRegion == [List(GlobalRegions(cfg.global).value)]
    ensures ValidateTemplateRun(st, cfg, [test], listing, answer).st.testRegion == [List(GlobalRegions(cfg.global).value)]
  {
    var s0 := WithGlobalRegions(st, GlobalRegions(cfg.global).value);
    NullRegionsKeepPrevious(s0, cfg, test, spec);
    RunTestsContinue(s0, [test], TemplateSteps(cfg, listing, answer), 0, []);
  }

  /** The outcome of fetching a parameter file with `urllib.urlopen` and
      reading it with `json.load`: the fetch raised, or a document came
      back that does or does not parse as JSON. */
  datatype Fetched = Unreachable | Document(parses: bool)

  /** `validate_json`: `False` exactly when `json.load` raises `ValueError`. */
  predicate ValidateJson(doc: Fetched)
    requires doc.Document?
  {
    doc.parses
  }

  /** One test of `validate_parameters`: resolve it, fetch the parameter
      path (stale if the name was not found) and check it parses; a
      parameter field that is not a string, or a fetch error, raises out
      of the loop; a parse failure exits with status 1. */
  function ParameterStep(st: State, cfg: Manifest, test: string, fetch: string -> Fetched): (r: Run)
    ensures r.st == DefineTests(st, cfg, test).st
    ensures r.status == Normal || r.status == Raise || r.status == Exit(1)
    ensures r.calls == [] <==> DefineTests(st, cfg, test).raised || !r.st.parameterFile.Str?
    ensures r.calls != [] ==> r.calls == [r.st.parameterFile.s]
  {
    var d := DefineTests(st, cfg, test);
    if d.raised then Run(d.st, Raise, [])
    else match d.st.parameterFile
      case Str(path) =>
        var doc := fetch(path);
        if doc.Unreachable? then Run(d.st, Raise, [path])
        else if ValidateJson(doc) then Run(d.st, Normal, [path])
        else Run(d.st, Exit(1), [path])
      case _ => Run(d.st, Raise, [])
  }

  function ParameterSteps(cfg: Manifest, fetch: string -> Fetched): (State, string, nat) -> Run
  {
    (st: State, test: string, k: nat) => ParameterStep(st, cfg, test, fetch)
  }

  /** `validate_parameters(cfg, tests)`: no region set-up, the tests in
      order, stopping at the first that does not end normally. */
  function ValidateParametersRun(st: State, cfg: Manifest, tests: seq<string>, fetch: string -> Fetched): (r: Run)
    ensures tests == [] ==> r == Run(st, Normal, [])
    ensures tests != [] && ParameterStep(st, cfg, tests[0], fetch).status != Normal ==>
              r == ParameterStep(st, cfg, tests[0], fetch)
  {
    RunTests(st, tests, ParameterSteps(cfg, fetch), 0)
  }

  lemma ParameterStepRequests(st: State, cfg: Manifest, test: string, fetch: string -> Fetched, k: nat)
    ensures var r := ParameterStep(st, cfg, test, fetch);
            |r.calls| <= 1 &&
            (r.status == Normal ==> |r.calls| == 1 && fetch(r.calls[0]) == Document(true)) &&
            (r.status.Exit? ==> |r.calls| == 1 && fetch(r.calls[0]) == Document(false)) &&
            (r.status == Raise && |r.calls| == 1 ==> fetch(r.calls[0]) == Unreachable)
  {
  }

  /** `validate_parameters` returns only after one fetch per test, each of
      which parsed; when it exits, the last file fetched did not parse and
      every earlier one did. */
  lemma ParameterRunRequests(st: State, cfg: Manifest, tests: seq<string>, fetch: string -> Fetched)
    ensures var r := ValidateParametersRun(st, cfg, tests, fetch);
            r.status == Normal ==> |r.calls| == |tests|
    ensures var r := ValidateParametersRun(st, cfg, tests, fetch);
            RequestsOk(r.calls, r.status == Normal, 0, (n: nat, path: string) => fetch(path) == Document(true))
    ensures var r := ValidateParametersRun(st, cfg, tests, fetch);
            r.status.Exit? ==> |r.calls| > 0 && fetch(r.calls[|r.calls| - 1]) == Document(false)
  {
    var step := ParameterSteps(cfg, fetch);
    var parsed := (n: nat, path: string) => fetch(path) == Document(true);
    var unparsable := (path: string) => fetch(path) == Document(false);
    forall st': State, t: string, k: nat
      ensures |step(st', t, k).calls| <= 1 &&
              (step(st', t, k).status == Normal ==> |step(st', t, k).calls| == 1) &&
              RequestsOk(step(st', t, k).calls, step(st', t, k).status == Normal, k, parsed) &&
              (step(st', t, k).status.Exit? ==>
                 |step(st', t, k).calls| > 0 && unparsable(step(st', t, k).calls[|step(st', t, k).calls| - 1]))
    {
      ParameterStepRequests(st', cfg, t, fetch, k);
    }
    RunTestsRequests(st, tests, step, 0, 1, parsed);
    RunTestsExit(st, tests, step, 0, unparsable);
  }

  /** A test that resolves fetches its own `parameter_input` when that is
      a string, and raises without fetching anything otherwise. */
  lemma ParameterStepFetchesTestFile(st: State, cfg: Manifest, test: string, spec: Mapping, fetch: string -> Fetched)
    requires cfg.tests.Some? && Lookup(cfg.tests.value, test) == Some(spec)
    requires Resolvable(cfg.global, spec)
    requires !DefineTests(st, cfg, test).raised
    ensures spec["parameter_input"].Str? ==>
              ParameterStep(st, cfg, test, fetch).calls == [spec["parameter_input"].s]
    ensures !spec["parameter_input"].Str? ==>
              ParameterStep(st, cfg, test, fetch) == Run(DefineTests(st, cfg, test).st, Raise, [])
  {
    FieldsCopied(st, cfg, test, spec);
  }

  /** Two tests, the first of which fails its template check: the second
      test is never resolved and never validated. */
  lemma SecondTestUntouchedAfterFirstFails(st: State, cfg: Manifest, t1: string, t2: string,
                                           listing: seq<Bucket>, answer: Validator)
    requires TemplateStep(st, cfg, t1, listing, answer, 0).status != Normal
    ensures RunTests(st, [t1, t2], TemplateSteps(cfg, listing, answer), 0) ==
              TemplateStep(st, cfg, t1, listing, answer, 0)
  {
    FailFast(st, [t1], [t2], TemplateSteps(cfg, listing, answer), 0);
    assert [t1] + [t2] == [t1, t2];
  }
}
