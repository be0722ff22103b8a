# taskcat core, modelled in Dafny

taskcat tests AWS CloudFormation templates. A YAML manifest (`config.yml`)
has a `global` section: the bucket, the project, the owner, the reporting
flag and the regions. It also has a `tests` section that maps each test name
to its `template_file`, its `parameter_input` and, optionally, its own
`regions`. This project models the decision logic and the object state
behind that workflow in `taskcat/taskcat.py`:

- **Manifest check** (`validate_yaml`): module `ManifestCheck`. It checks the
  five global keys in their fixed order, queues every test in `tests` order
  and checks its two keys. It either halts with status 1, answers `False`
  after a caught exception, or returns the queued names.
- **The `TaskCat` object**: class `Engine.TaskCat`. It keeps the same fields
  (`project`, `s3bucket`, `_template_file`, `_parameter_file`, `test_region`,
  `_use_global`, `config`, `verbose`, `nametag`). It has the setters and
  getters, `define_tests`, `set_test_region`, `get_global_region`, the
  staging loop of `s3upload`, and the two validation loops
  `validate_template` and `validate_parameters`.
- **Specification functions on a snapshot of those fields**: module
  `Resolution` covers the region rules and `define_tests`. Module `Runs`
  covers the fail-fast loops; module `Assets` covers `get_s3_url`,
  `buildmap` and the upload key. Every state-changing method of the class
  is proved to leave its fields, its status and its remote requests as these
  functions say. The properties are proved as lemmas about the functions.
- **Flag checks** of `interface`: module `Cli`.

How a call ends is a `Status`:
- `Normal`: the call returned.
- `Exit(n)`: `sys.exit(n)`, `exit(n)`, or `parser.error` (status 2).
- `Raise`: an exception escaped the call.

The program's outside world becomes inputs or oracles:
- The parsed YAML document (`Config.Manifest`). Values are strings, lists,
  null or booleans; `tests` is an ordered list of (name, mapping) pairs.
- The results of `os.path.isfile` and `os.path.isdir`, as booleans.
- The paths `os.walk` yields.
- The S3 listing, as buckets in order, each with its object keys in order.
- The outcome of each upload.
- The answer of CloudFormation's `validate_template` to the n-th request: a rejection, or a result that may lack its `Description` or `Parameters` key.
- What fetching a parameter file returns.

## Model

| member | source | states |
|---|---|---|
| Common.ContainsIff | taskcat/taskcat.py:86-87 | Python's substring test `a in b` on strings holds exactly when `a` occurs at some position of `b` |
| Config.Lookup | taskcat/taskcat.py:273-277 | `tests[name]` finds nothing exactly when no test carries the name; what it finds is the mapping of a test carrying that name |
| Config.LookupFinds | taskcat/taskcat.py:273-277 | with unique test names, `tests[name]` finds the one entry carrying the name, and nothing when no test has it |
| Config.Iterate | taskcat/taskcat.py:210-212 | `iter(v)`: a list yields its elements, a string its one-character strings; null and booleans are not iterable |
| ManifestCheck.FirstMissingIff | taskcat/taskcat.py:370-375 | the key the global check halts for is the first required key, in order, that is absent; none is reported iff all are present |
| ManifestCheck.FirstMissing | taskcat/taskcat.py:370-375 | a key reported missing is one of the required keys and is absent from the mapping |
| ManifestCheck.FirstBadTestIff | taskcat/taskcat.py:377-387 | the test the test check halts for is the first, in `tests` order, whose mapping is non-empty and lacks a required key; none iff no test does |
| ManifestCheck.FirstBadTest | taskcat/taskcat.py:377-387 | a test fault is always a missing test key and names one of the tests |
| ManifestCheck.ValidateYamlSpec | taskcat/taskcat.py:354-396 | the open failure halts exactly when the path is not a file; `False` comes back only for a file whose YAML, `global` or `tests` is missing; a global-key halt names a required key that is absent; a test-key halt names one of the tests; a returned list has one name per test |
| ManifestCheck.CheckKeys | taskcat/taskcat.py:370-375 | the loop over the required keys stops at the first one absent, and reports none when all are present |
| ManifestCheck.CheckTest | taskcat/taskcat.py:380-387 | the nested loops over a test's own keys report a missing test key exactly as `TestFault` says, so an empty mapping is never checked |
| ManifestCheck.ValidateYaml | taskcat/taskcat.py:354-396 | the nested loops return exactly the outcome `ValidateYamlSpec` gives: the names queued, `False`, or a halt with its cause |
| ManifestCheck.QueuedExactly | taskcat/taskcat.py:366-396 | a list comes back iff the file opens and parses, has every global key, and every non-empty test has both keys; the list is all the test names, in order |
| ManifestCheck.MissingGlobalKeyHalts | taskcat/taskcat.py:358-375 | a missing global key halts with status 1, naming the first missing key in the order s3bucket, project, owner, reporting, regions; no list comes back |
| ManifestCheck.MissingTestKeyHalts | taskcat/taskcat.py:364-387 | the first non-empty test lacking `template_file` or `parameter_input` halts the run with status 1 |
| ManifestCheck.TestHaltNamesNonEmptyTest | taskcat/taskcat.py:380-387 | a halt for a test key names a test whose mapping is non-empty and lacks that key, so an empty test never halts |
| ManifestCheck.MalformedExactly | taskcat/taskcat.py:366-395 | `False` comes back iff the file exists but the YAML does not parse, has no `global`, or has every global key but no `tests` |
| Resolution.WithTestRegion | taskcat/taskcat.py:199-202 | `set_test_region(v)` stores the one-element list `[v]` and changes no other field |
| Resolution.WithGlobalRegions | taskcat/taskcat.py:204-219 | after a successful global lookup, the test region is `[regions]`; `_use_global` is on iff it was on or a region was appended; no other field changes |
| Resolution.GlobalRegions | taskcat/taskcat.py:204-219 | the lookup raises exactly when `global` is missing, or some global key contains "region" and `regions` is missing or not iterable; with no such key it returns the empty list |
| Resolution.DefineEntry | taskcat/taskcat.py:276-306 | a test or `global` lacking one of the four keys raises before any field is written; otherwise bucket, project, template and parameter file are copied; verbosity is unchanged; the test region is kept or becomes a one-element list |
| Resolution.DefineTests | taskcat/taskcat.py:272-308 | a raise means `tests` is missing or the name was found; the fields change only when the name is found; verbosity is unchanged |
| Resolution.OnlyRegionsKey | taskcat/taskcat.py:204-219 | when `regions` is the only global key containing "region", `get_global_region` returns exactly that list, in order |
| Resolution.GlobalRegionsRepeat | taskcat/taskcat.py:206-216 | the result is the `regions` list repeated once per global key containing "region": its length is that count times the list's length, and its members are the configured regions |
| Resolution.TwoRegionKeysDoubleTheList | taskcat/taskcat.py:206-216 | a second region-like global key doubles the list |
| Resolution.LocalRegionsWin | taskcat/taskcat.py:290-298 | a test's non-null `regions` becomes the test region, wrapped in a list, whatever `global` says; the call raises iff verbose output is on and the entry is a boolean, which the debug loop cannot iterate; `_use_global` is untouched |
| Resolution.MissingRegionsUsesGlobal | taskcat/taskcat.py:299-301 | without a `regions` key the test region is the wrapped global lookup; the call raises iff that lookup raises |
| Resolution.NullRegionsKeepPrevious | taskcat/taskcat.py:290-291 | `regions: null` leaves the previous test region and `_use_global` as they were |
| Resolution.FieldsCopied | taskcat/taskcat.py:275-283 | a matching test sets the bucket and project from `global`, and the template and parameter file from the test |
| Resolution.UnknownOrIncompleteTestChangesNothing | taskcat/taskcat.py:272-279 | an unknown test name changes no field and raises nothing; a test missing a key raises before any field is written |
| Resolution.RegionIsWrappedOrKept | taskcat/taskcat.py:290-306 | after `define_tests` the test region is either unchanged or a one-element list |
| Assets.FirstInBucketFirstMatch | taskcat/taskcat.py:190-194 | within one bucket, the URL is for the first object with the project prefix that contains the key; None iff there is none |
| Assets.FirstInBucket | taskcat/taskcat.py:190-194 | a URL found in a bucket starts with `https://s3.amazonaws.com/<bucket>/` |
| Assets.GetS3UrlFirstMatch | taskcat/taskcat.py:183-194 | `get_s3_url` returns `https://s3.amazonaws.com/<bucket>/<object>` for the first candidate in bucket order, then object order; None iff no bucket holds a candidate |
| Assets.GetS3Url | taskcat/taskcat.py:183-194 | a URL found starts with `https://s3.amazonaws.com/` followed by the name of one of the listed buckets |
| Assets.MapFilterMembers | taskcat/taskcat.py:84-88 | a walked path is kept iff it contains the map string and does not contain ".git" |
| Assets.MapFilter | taskcat/taskcat.py:81-89 | `buildmap` keeps at most as many paths as were walked, and each one kept passes the test |
| Assets.MapFilterAppend | taskcat/taskcat.py:81-89 | `buildmap` keeps the walk order: filtering two stretches of the walk one after the other gives the filtered stretches one after the other |
| Assets.BuildMap | taskcat/taskcat.py:81-89 | the loop keeps exactly the walked paths that pass the test, in walk order |
| Assets.UploadKey | taskcat/taskcat.py:165 | the upload key is the file name, or the file name without its first two characters, when the second of those is a slash |
| Assets.UploadKeyStripsWalkPrefix | taskcat/taskcat.py:165 | a walked path "./x" is uploaded under "x" |
| Assets.UploadKeyStripsAnyFirstCharacter | taskcat/taskcat.py:165 | the regex dot strips any first ASCII character but a newline (file names are byte strings, and the dot matches one byte), so "a/x" is uploaded under "x" too |
| Assets.UploadKeyKeepsOtherNames | taskcat/taskcat.py:165 | a name whose second character is not a slash, or that starts with a newline, is uploaded under its own name |
| Assets.FailedUploadDropsOnlyItself | taskcat/taskcat.py:164-173 | a failed upload is swallowed: the files around it are uploaded as if it were absent |
| Assets.UploadedKeys | taskcat/taskcat.py:164-173 | the loop uploads at most one key per file |
| Assets.UploadedKeysAppend | taskcat/taskcat.py:164-173 | the uploaded keys keep the file order: two stretches of files give their keys one after the other |
| Assets.UploadedKeysMembers | taskcat/taskcat.py:164-173 | a key reaches the bucket iff some file with that key was uploaded successfully |
| Runs.RunTestsAppend | taskcat/taskcat.py:224-245 | running tests `a + b` is running `a`, then `b` from the fields `a` left, only if `a` ended normally |
| Runs.FailFast | taskcat/taskcat.py:241-244 | once a run has stopped, later tests are never touched: fields, status and requests are those of the prefix |
| Runs.RunTestsAdvance | taskcat/taskcat.py:224-245 | one more pass of the loop either ends the run with that test's outcome after the earlier requests, or continues from the fields it left |
| Runs.RunTestsContinue | taskcat/taskcat.py:224-245 | one test more: a step that does not end normally is the outcome, otherwise the run goes on with the remaining tests from the fields it left |
| Runs.RunTestsRequests | taskcat/taskcat.py:224-245 | if every step makes at most `w` requests that pass, a normal run made `w` per test, all passing; a stopped run's requests pass except possibly its last |
| Runs.RequestsOkAppend | taskcat/taskcat.py:224-245 | the promise about one test's requests followed by the promise about the later tests' requests is the promise about both |
| Runs.RunTestsExit | taskcat/taskcat.py:265-268 | if every exiting step's last request is bad, so is the last request of a run that exits |
| Runs.TemplateUrl | taskcat/taskcat.py:229-230 | a URL is handed over only for a string project and template, and is then `get_s3_url`'s answer; such a pair with a matching object always gives one |
| Runs.TemplateStep | taskcat/taskcat.py:224-244 | the fields are those `define_tests` left; the step raises iff `define_tests` raised, and otherwise ends normally or exits with status 1; no request is made iff it raised or there is no URL; every request is for the test's URL |
| Runs.TemplateStepRequests | taskcat/taskcat.py:226-244 | one test makes at most two requests, both for the same URL; a passing test had both accepted and the second answer carried `Description` (and `Parameters` with verbose output); an exit after one request follows a rejection; an exit after two follows a rejection or a missing key |
| Runs.TemplateStepValidatesTestTemplate | taskcat/taskcat.py:225-230 | every request of a resolved test is for the first `get_s3_url` match of the global project and the test's `template_file`; when there is such a match it is requested |
| Runs.TemplateStepsKeep | taskcat/taskcat.py:226-244 | every template step keeps the two-requests promise |
| Runs.TemplateRunRequests | taskcat/taskcat.py:221-245 | `validate_template` returns True only after two accepted validations per test; a stopped run had every request but the last accepted |
| Runs.ValidateTemplateRun | taskcat/taskcat.py:221-245 | a raising region lookup ends the run before any test; with no tests the test region is the global list and the run returns True; a first test that fails is the whole run's outcome |
| Runs.TemplateRunStartsFromGlobalRegions | taskcat/taskcat.py:221-245 | the test region is first set to the global list: a run over no tests, or over one test whose `regions` is null, ends with the test region `[regions]` |
| Runs.ParameterStep | taskcat/taskcat.py:258-268 | the fields are those `define_tests` left; nothing is fetched iff `define_tests` raised or the parameter field is not a string; otherwise exactly that path is fetched |
| Runs.ValidateParametersRun | taskcat/taskcat.py:256-270 | with no tests the run returns True and changes nothing; a first test that fails is the whole run's outcome |
| Runs.ParameterStepRequests | taskcat/taskcat.py:258-268 | one test fetches at most one parameter file; a normal end means it parsed as JSON, an exit means it did not, and a raise after a fetch means the fetch failed |
| Runs.ParameterRunRequests | taskcat/taskcat.py:256-270 | `validate_parameters` returns True after one parsing fetch per test; when it exits, the last file did not parse and every earlier one did |
| Runs.ParameterStepFetchesTestFile | taskcat/taskcat.py:259-262 | a resolved test fetches its own `parameter_input` when that is a string, and raises without fetching otherwise |
| Runs.SecondTestUntouchedAfterFirstFails | taskcat/taskcat.py:224-244 | when the first test fails validation, the second test is never resolved or validated |
| Engine.S3UploadRun | taskcat/taskcat.py:145-173 | staging raises iff `global`, its `s3bucket` or its `project` is missing or the project is not a string; otherwise it exits with status 1 iff the project is not a directory; bucket and project are set from `global` once looked up, and a failed bucket lookup changes nothing; only bucket and project change; at most one key per walked path, and keys only on a normal end |
| Engine.StagedKeys | taskcat/taskcat.py:155-173 | a successful staging uploads, under its key, exactly the walked paths that contain the project name, do not contain ".git", and whose upload succeeded |
| Engine.UploadEach | taskcat/taskcat.py:160-173 | the per-file loop returns exactly the keys `UploadedKeys` gives, so a failed upload is skipped and the loop goes on |
| Engine.TaskCat.constructor | taskcat/taskcat.py:95-109 | the fields start as "not set", the test region as `['none']`, `config.yml`, verbose and `_use_global` off |
| Engine.TaskCat.Interface | taskcat/taskcat.py:463-502 | `interface()`'s checks end as `Cli.CheckFlags` says; `-v` turns verbose on only after the two early exits |
| Engine.TaskCat.SetProject | taskcat/taskcat.py:111-112 | the project field becomes the argument |
| Engine.TaskCat.GetProject | taskcat/taskcat.py:114-115 | returns the project field |
| Engine.TaskCat.SetS3Bucket | taskcat/taskcat.py:117-118 | the bucket field becomes the argument |
| Engine.TaskCat.GetS3Bucket | taskcat/taskcat.py:120-121 | returns the bucket field |
| Engine.TaskCat.SetConfig | taskcat/taskcat.py:123-128 | an existing file becomes the config; otherwise the process exits with status 1 and the config is unchanged |
| Engine.TaskCat.GetConfig | taskcat/taskcat.py:130-131 | returns the config path |
| Engine.TaskCat.GetTemplate | taskcat/taskcat.py:133-134 | returns the template field |
| Engine.TaskCat.SetParameterFile | taskcat/taskcat.py:136-137 | the parameter field becomes the argument |
| Engine.TaskCat.SetTemplateFile | taskcat/taskcat.py:139-140 | the template field becomes the argument |
| Engine.TaskCat.GetParameter | taskcat/taskcat.py:142-143 | returns the parameter field |
| Engine.TaskCat.GetTestRegion | taskcat/taskcat.py:196-197 | returns the test region |
| Engine.TaskCat.SetTestRegion | taskcat/taskcat.py:199-202 | the test region becomes `[v]`, and `v` is returned |
| Engine.TaskCat.GetGlobalRegion | taskcat/taskcat.py:204-219 | the loops return the `Resolution.GlobalRegions` list, or raise exactly when it does; `_use_global` turns on iff a region was appended |
| Engine.TaskCat.VisitGlobalKey | taskcat/taskcat.py:206-216 | one global key: a region-like key appends the `regions` list or raises, and it raises only when the whole lookup raises |
| Engine.TaskCat.AppendRegions | taskcat/taskcat.py:212-215 | the inner loop appends every region in order and turns `_use_global` on iff it appended one |
| Engine.TaskCat.DefineTest | taskcat/taskcat.py:276-306 | the body for the matching test, including the verbose debug loop over a local `regions` entry, leaves the fields and raise/no-raise as `Resolution.DefineEntry` says |
| Engine.TaskCat.DefineTests | taskcat/taskcat.py:272-308 | `define_tests` leaves the fields and raise/no-raise as `Resolution.DefineTests` says |
| Engine.TaskCat.S3Upload | taskcat/taskcat.py:145-173 | staging sets the bucket and project, halts or raises as `S3UploadRun` says, and returns exactly the keys of the successful uploads |
| Engine.TaskCat.ValidateOneTemplate | taskcat/taskcat.py:225-244 | one pass of the loop ends as `Runs.TemplateStep` says: fields, status and requests |
| Engine.TaskCat.ValidateEachTemplate | taskcat/taskcat.py:224-245 | the loop over the tests ends as `Runs.RunTests` with the template step says |
| Engine.TaskCat.ValidateTemplate | taskcat/taskcat.py:221-245 | `validate_template` ends as `Runs.ValidateTemplateRun` says, so `TemplateRunRequests` and `FailFast` hold of it |
| Engine.TaskCat.ValidateOneParameterFile | taskcat/taskcat.py:259-268 | one pass of the loop ends as `Runs.ParameterStep` says |
| Engine.TaskCat.ValidateParameters | taskcat/taskcat.py:256-270 | `validate_parameters` ends as `Runs.ValidateParametersRun` says, so `ParameterRunRequests` holds of it |
| Cli.LaterChecks | taskcat/taskcat.py:487-500 | these checks pass iff a template comes with a parameter file and the other way round, and a boto profile comes with no key; otherwise status 2 |
| Cli.CheckFlagsAsWritten | taskcat/taskcat.py:463-502 | as written: status 0 iff there are no arguments or `-ey`; status 1 iff `(A and B) or C or D`; status 2 from `parser.error` otherwise, unless the arguments are accepted, which happens iff the early exits and the conflict test are passed, template and parameter file come together, and a profile comes without keys |
| Cli.CheckFlags | taskcat/taskcat.py:463-502 | status 0 iff there are no arguments or `-ey`; status 1 iff a config file comes with `-t`, `-b` or `-r` (the intended reading, see Findings); the arguments are accepted iff neither of those holds, template and parameter file come together and a profile comes without keys; every other command line ends with status 2 |
| Cli.AcceptedFlagsConsistent | taskcat/taskcat.py:463-502 | accepted arguments pair a template with a parameter file and never combine a profile with keys |
| Cli.DiscreteModeAccepted | taskcat/taskcat.py:475-502 | with the intended reading, template, parameters, bucket and regions without a config file are accepted |
| Cli.BucketFlagAloneRejected | taskcat/taskcat.py:475-478 | as written, `-t -p -b` without `-c` exits with status 1 although the intended check accepts it |
| Cli.ReadingsDiffer | taskcat/taskcat.py:475-478 | the written and the intended tests differ exactly on command lines without `-c` that set `-b` or `-r` |

## Left out

- Credentials and the STS identity call (`aws_api_init`) are not part of this model. They are foreign calls and session state.
- The boto3 S3 and CloudFormation clients become inputs. The S3 listing is a list of buckets. CloudFormation's answer is an oracle indexed by request number. The hard-coded `us-west-2` client region is not modelled.
- `yaml.load`, `json.load` and `urllib.urlopen` are oracles. The model takes the parsed manifest, a parse/no-parse answer and a fetch outcome.
- `os.walk`, `os.path.isfile` and `os.path.isdir` are inputs.
- Printing, the listing printed at the end of `s3upload`, the `welcome` banner and the empty `main` are left out. They make no decisions. Verbose output is modelled where it decides an outcome: the debug loop over a local `regions` entry in `define_tests`, and the `Parameters` read in `validate_template`.
- argparse parsing itself is left out. The model starts from the parsed arguments; an unknown flag and `--help` are not modelled.
- Python 2 dict order: the order of `tests` and of `global`'s keys is given as an input, not derived from hashing.
- A `tests` entry whose body is not a mapping is not representable. In `validate_yaml` it would raise inside the `try` (answer `False`); in `define_tests` it would raise.
- Test names are unique (`Config.Manifest.WellFormed`), as dict keys are. The methods that look tests up require it.
- `str()` and `print` failures on non-ASCII text are not modelled.
- Engine.TaskCat.S3Upload: a bucket name that boto3 would refuse is stored as given. `bucket.Acl().put` and `upload_file` together form one upload outcome.
- Engine.TaskCat.constructor: `template_path`, `parameter_path`, `_termsize` and `_banner` are not modelled, because no modelled code reads them. The constructor stops before `__init__`'s last call, which is `Engine.TaskCat.Interface`.
- Engine.TaskCat.Interface: it follows the corrected yaml-mode test. The test as written is `Cli.CheckFlagsAsWritten` (see Findings).
- Runs.TemplateRunRequests: across a whole run it states only that the requests were accepted; the reading of `Description` and `Parameters` is stated per test by `Runs.TemplateStepRequests`.
- Assets.UploadKey: Python 2 file names are byte strings; the model reads each character as one byte, so a name whose first character is non-ASCII (several bytes) is not modelled. `os.walk('.')` yields names starting with "./", so the program does not meet such a name here.
- Runs.ValidateJson: `json.load` is an oracle, so this predicate only reports the oracle's answer and has no contract of its own.

## Findings

| source | as written | input that shows it | evidently intended | confidence | as-written member | corrected member |
|---|---|---|---|---|---|---|
| taskcat/taskcat.py:475-478 | `config_yml is not None and template is not None or s3bucket is not None or region is not None` parses as `(A and B) or C or D` | `-t stack.template -p stack.json -b my-bucket` with no `-c`: rejected with status 1 and a message about a yaml config file that was never given | reject `-t`, `-b` or `-r` only together with `-c`, i.e. `A and (B or C or D)`, as the message says | high; not executed | Cli.BucketFlagAloneRejected | Cli.CheckFlags |
