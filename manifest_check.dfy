/** `TaskCat.validate_yaml` (taskcat/taskcat.py:354-396): the structural
    check of the manifest that queues the tests to run.

    The method reads no field of the object apart from the verbosity flag
    (which only affects printing), so it is modelled at module level.
    Whether the file exists (`os.path.isfile`) is the input `isFile`; the
    result of `yaml.load` is `doc`, which is None when the parser raised or
    the document is not a mapping (indexing it then raises, and the
    surrounding `except Exception` turns that into `False`). */
module ManifestCheck {
  import opened Common
  import opened Config

  /** The global keys checked, in the order they are checked. */
  const RequiredGlobalKeys: seq<string> := ["s3bucket", "project", "owner", "reporting", "regions"]

  /** The keys every non-empty test must carry, in the order they are checked. */
  const RequiredTestKeys: seq<string> := ["template_file", "parameter_input"]

  /** The cause printed before `sys.exit(1)`. */
  datatype Fault = CannotOpen | MissingGlobalKey(key: string) | MissingTestKey(test: string, key: string)

  /** What `validate_yaml` does: return the queued test names, return
      `False` after a caught exception, or halt the process with status 1
      (`SystemExit` is not an `Exception`, so the handler does not catch it). */
  datatype YamlOutcome = Queued(names: seq<string>) | Malformed | Halt(fault: Fault)

  /** The first key of `required`, in order, that `present` lacks. */
  function FirstMissing(required: seq<string>, present: Mapping): (r: Option<string>)
    ensures r.Some? ==> r.value in required && r.value !in present
  {
    if required == [] then None
    else if required[0] !in present then Some(required[0])
    else FirstMissing(required[1..], present)
  }

  /** `required[j]` is missing and every key before it is present. */
  ghost predicate FirstMissingAt(required: seq<string>, present: Mapping, j: int)
  {
    0 <= j < |required| && required[j] !in present &&
    forall m :: 0 <= m < j ==> required[m] in present
  }

  lemma {:induction false} FirstMissingIff(required: seq<string>, present: Mapping)
    ensures FirstMissing(required, present).None? <==> forall k :: k in required ==> k in present
    ensures forall j :: FirstMissingAt(required, present, j) ==>
              FirstMissing(required, present) == Some(required[j])
    ensures FirstMissing(required, present).Some? ==>
              FirstMissing(required, present).value in required &&
              FirstMissing(required, present).value !in present
  {
    if required != [] {
      FirstMissingIff(required[1..], present);
      forall j | FirstMissingAt(required, present, j)
        ensures FirstMissing(required, present) == Some(required[j])
      {
        if j > 0 {
          assert FirstMissingAt(required[1..], present, j - 1);
        }
      }
      if required[0] in present {
        assert forall k :: k in required ==> k == required[0] || k in required[1..];
      }
    }
  }

  /** The key a test is halted for.  The check sits inside the loop over
      the test's own keys, so a test with an empty mapping is never
      checked. */
  function TestFault(spec: Mapping): Option<string>
  {
    if spec == map[] then None else FirstMissing(RequiredTestKeys, spec)
  }

  /** The first test, in `tests` order, that `validate_yaml` halts for. */
  function FirstBadTest(ts: seq<TestEntry>): (r: Option<Fault>)
    ensures r.Some? ==> r.value.MissingTestKey? && r.value.test in Names(ts)
  {
    if ts == [] then None
    else match TestFault(ts[0].spec)
      case Some(k) => Some(MissingTestKey(ts[0].name, k))
      case None => FirstBadTest(ts[1..])
  }

  lemma {:induction false} FirstBadTestIff(ts: seq<TestEntry>)
    ensures FirstBadTest(ts).None? <==> forall i :: 0 <= i < |ts| ==> TestFault(ts[i].spec).None?
    ensures forall i :: 0 <= i < |ts| && TestFault(ts[i].spec).Some? &&
                        (forall m :: 0 <= m < i ==> TestFault(ts[m].spec).None?) ==>
              FirstBadTest(ts) == Some(MissingTestKey(ts[i].name, TestFault(ts[i].spec).value))
    ensures FirstBadTest(ts).Some? ==>
              exists i :: 0 <= i < |ts| && TestFault(ts[i].spec).Some? &&
                FirstBadTest(ts) == Some(MissingTestKey(ts[i].name, TestFault(ts[i].spec).value))
  {
    if ts != [] {
      FirstBadTestIff(ts[1..]);
      if TestFault(ts[0].spec).None? {
        forall i | 0 <= i < |ts| && TestFault(ts[i].spec).Some? &&
                   (forall m :: 0 <= m < i ==> TestFault(ts[m].spec).None?)
          ensures FirstBadTest(ts) == Some(MissingTestKey(ts[i].name, TestFault(ts[i].spec).value))
        {
          assert ts[1..][i - 1] == ts[i];
          assert forall m :: 0 <= m < i - 1 ==> ts[1..][m] == ts[m + 1];
        }
        if FirstBadTest(ts).Some? {
          var i :| 0 <= i < |ts[1..]| && TestFault(ts[1..][i].spec).Some? &&
            FirstBadTest(ts[1..]) == Some(MissingTestKey(ts[1..][i].name, TestFault(ts[1..][i].spec).value));
          assert ts[1..][i] == ts[i + 1];
        }
        if forall i :: 0 <= i < |ts[1..]| ==> TestFault(ts[1..][i].spec).None? {
          forall i | 0 <= i < |ts| ensures TestFault(ts[i].spec).None? {
            if i > 0 {
              assert ts[1..][i - 1] == ts[i];
            }
          }
        }
      }
    }
  }

  /** The decision `validate_yaml` makes, stated on the whole input. */
  function ValidateYamlSpec(isFile: bool, doc: Option<Manifest>): (r: YamlOutcome)
    ensures r == Halt(CannotOpen) <==> !isFile
    ensures r.Malformed? ==> isFile && (doc.None? || doc.value.global.None? || doc.value.tests.None?)
    ensures r.Halt? && r.fault.MissingGlobalKey? ==>
              doc.Some? && doc.value.global.Some? && r.fault.key in RequiredGlobalKeys &&
              r.fault.key !in doc.value.global.value
    ensures r.Halt? && r.fault.MissingTestKey? ==>
              doc.Some? && doc.value.tests.Some? && r.fault.test in Names(doc.value.tests.value)
    ensures r.Queued? ==> doc.Some? && doc.value.tests.Some? && |r.names| == |doc.value.tests.value|
  {
    if !isFile then Halt(CannotOpen)
    else if doc.None? || doc.value.global.None? then Malformed
    else match FirstMissing(RequiredGlobalKeys, doc.value.global.value)
      case Some(k) => Halt(MissingGlobalKey(k))
      case None =>
        match doc.value.tests
        case None => Malformed
        case Some(ts) =>
          match FirstBadTest(ts)
          case Some(f) => Halt(f)
          case None => Queued(Names(ts))
  }

  /** The check on one mapping: the required keys in their fixed order,
      stopping at the first one missing. */
  method CheckKeys(required: seq<string>, present: Mapping) returns (missing: Option<string>)
    ensures missing == FirstMissing(required, present)
  {
    for j := 0 to |required|
      invariant forall m :: 0 <= m < j ==> required[m] in present
    {
      if required[j] !in present {
        FirstMissingIff(required, present);
        assert FirstMissingAt(required, present, j);
        return Some(required[j]);
      }
    }
    FirstMissingIff(required, present);
    return None;
  }

  /** One test of `validate_yaml`: the required test keys are checked once
      for each key of the test's own mapping. */
  method CheckTest(spec: Mapping) returns (missing: Option<string>)
    ensures missing == TestFault(spec)
  {
    missing := None;
    var parms := spec.Keys;
    while parms != {}
      invariant parms <= spec.Keys
      invariant parms != spec.Keys ==> TestFault(spec).None?
      invariant missing.None?
      decreases parms
    {
      var p :| p in parms;
      missing := CheckKeys(RequiredTestKeys, spec);
      if missing.Some? {
        assert p in spec;
        return;
      }
      parms := parms - {p};
    }
    if spec.Keys == {} {
      assert spec == map[];
    }
  }

  /** `validate_yaml`: the global keys in their fixed order, then every
      test in `tests` order (queued before it is checked), then the list. */
  method ValidateYaml(isFile: bool, doc: Option<Manifest>) returns (outcome: YamlOutcome)
    ensures outcome == ValidateYamlSpec(isFile, doc)
  {
    var runTests: seq<string> := [];
    if !isFile {
      return Halt(CannotOpen);
    }
    if doc.None? || doc.value.global.None? {
      return Malformed;
    }
    var missing := CheckKeys(RequiredGlobalKeys, doc.value.global.value);
    if missing.Some? {
      return Halt(MissingGlobalKey(missing.value));
    }
    if doc.value.tests.None? {
      return Malformed;
    }
    var ts := doc.value.tests.value;
    for i := 0 to |ts|
      invariant runTests == Names(ts[..i])
      invariant forall m :: 0 <= m < i ==> TestFault(ts[m].spec).None?
    {
      runTests := runTests + [ts[i].name];
      var fault := CheckTest(ts[i].spec);
      if fault.Some? {
        FirstBadTestIff(ts);
        return Halt(MissingTestKey(ts[i].name, fault.value));
      }
    }
    FirstBadTestIff(ts);
    assert ts[..|ts|] == ts;
    return Queued(runTests);
  }

  /** A queued run lists exactly the names of `tests`, in their order, and
      happens exactly when the file opens, parses, carries every global key
      and every non-empty test carries both test keys. */
  lemma QueuedExactly(isFile: bool, doc: Option<Manifest>)
    ensures ValidateYamlSpec(isFile, doc).Queued? <==>
              isFile && doc.Some? && doc.value.global.Some? && doc.value.tests.Some? &&
              (forall k :: k in RequiredGlobalKeys ==> k in doc.value.global.value) &&
              (forall i :: 0 <= i < |doc.value.tests.value| ==>
                 TestFault(doc.value.tests.value[i].spec).None?)
    ensures ValidateYamlSpec(isFile, doc).Queued? ==>
              ValidateYamlSpec(isFile, doc).names == Names(doc.value.tests.value)
  {
    if isFile && doc.Some? && doc.value.global.Some? {
      FirstMissingIff(RequiredGlobalKeys, doc.value.global.value);
      if doc.value.tests.Some? {
        FirstBadTestIff(doc.value.tests.value);
      }
    }
  }

  /** A missing global key halts with the first missing key in the fixed
      order, before any test is looked at: no list comes back. */
  lemma MissingGlobalKeyHalts(isFile: bool, doc: Option<Manifest>, j: int)
    requires isFile && doc.Some? && doc.value.global.Some?
    requires FirstMissingAt(RequiredGlobalKeys, doc.value.global.value, j)
    ensures ValidateYamlSpec(isFile, doc) == Halt(MissingGlobalKey(RequiredGlobalKeys[j]))
  {
    FirstMissingIff(RequiredGlobalKeys, doc.value.global.value);
  }

  /** The first non-empty test lacking `template_file` (checked first) or
      `parameter_input` halts the run. */
  lemma MissingTestKeyHalts(isFile: bool, doc: Option<Manifest>, i: int, j: int)
    requires isFile && doc.Some? && doc.value.global.Some? && doc.value.tests.Some?
    requires forall k :: k in RequiredGlobalKeys ==> k in doc.value.global.value
    requires 0 <= i < |doc.value.tests.value|
    requires forall m :: 0 <= m < i ==> TestFault(doc.value.tests.value[m].spec).None?
    requires doc.value.tests.value[i].spec != map[]
    requires FirstMissingAt(RequiredTestKeys, doc.value.tests.value[i].spec, j)
    ensures ValidateYamlSpec(isFile, doc) ==
              Halt(MissingTestKey(doc.value.tests.value[i].name, RequiredTestKeys[j]))
  {
    FirstMissingIff(RequiredGlobalKeys, doc.value.global.value);
    FirstMissingIff(RequiredTestKeys, doc.value.tests.value[i].spec);
    FirstBadTestIff(doc.value.tests.value);
  }

  /** A halt for a test key always names a test whose mapping is non-empty
      and really lacks that key: a test with an empty mapping never halts. */
  lemma TestHaltNamesNonEmptyTest(isFile: bool, doc: Option<Manifest>, test: string, key: string)
    requires ValidateYamlSpec(isFile, doc) == Halt(MissingTestKey(test, key))
    ensures doc.Some? && doc.value.tests.Some?
    ensures exists i :: 0 <= i < |doc.value.tests.value| &&
              doc.value.tests.value[i].name == test &&
              doc.value.tests.value[i].spec != map[] &&
              key in RequiredTestKeys && key !in doc.value.tests.value[i].spec
  {
    var ts := doc.value.tests.value;
    FirstBadTestIff(ts);
    var i :| 0 <= i < |ts| && TestFault(ts[i].spec).Some? &&
      FirstBadTest(ts) == Some(MissingTestKey(ts[i].name, TestFault(ts[i].spec).value));
    FirstMissingIff(RequiredTestKeys, ts[i].spec);
  }

  /** `False` comes back exactly when the file exists but the document does
      not parse, has no `global`, or has every global key but no `tests`. */
  lemma MalformedExactly(isFile: bool, doc: Option<Manifest>)
    ensures ValidateYamlSpec(isFile, doc) == Malformed <==>
              isFile &&
              (doc.None? || doc.value.global.None? ||
               ((forall k :: k in RequiredGlobalKeys ==> k in doc.value.global.value) &&
                doc.value.tests.None?))
  {
    if isFile && doc.Some? && doc.value.global.Some? {
      FirstMissingIff(RequiredGlobalKeys, doc.value.global.value);
    }
  }
}
