/** The flag checks at the end of `interface` (taskcat/taskcat.py:463-502),
    as a decision over the parsed arguments.  `parser.error` prints the
    usage line and ends the process with status 2, so the `sys.exit(1)`
    lines after it are never reached. */
module Cli {
  import opened Common

  /** The parsed command line; `argCount` is `len(sys.argv)`. */
  datatype Args = Args(
    argCount: nat,
    configYml: Option<string>,
    s3bucket: Option<string>,
    template: Option<string>,
    marketplace: bool,
    region: Option<seq<string>>,
    botoProfile: Option<string>,
    awsAccessKey: Option<string>,
    awsSecretKey: Option<string>,
    parmsFile: Option<string>,
    exampleYaml: bool,
    verbose: bool)

  /** The exit status of `parser.error`. */
  const UsageError := 2

  /** The yaml-mode test as the source parses it: `A and B or C or D` is
      `(A and B) or C or D`. */
  predicate YamlConflictAsWritten(a: Args)
  {
    (a.configYml.Some? && a.template.Some?) || a.s3bucket.Some? || a.region.Some?
  }

  /** The yaml-mode test as its message describes it: a config file
      together with any of `-t`, `-b`, `-r`. */
  predicate YamlConflict(a: Args)
  {
    a.configYml.Some? && (a.template.Some? || a.s3bucket.Some? || a.region.Some?)
  }

  /** The later checks, shared by both readings: a template needs a
      parameter file and the other way round, and a boto profile excludes
      explicit keys. */
  function LaterChecks(a: Args): (r: Status)
    ensures r == Normal || r == Exit(UsageError)
    ensures r == Normal <==>
              (a.template.Some? <==> a.parmsFile.Some?) &&
              !(a.botoProfile.Some? && (a.awsAccessKey.Some? || a.awsSecretKey.Some?))
  {
    if a.template.Some? && a.parmsFile.None? then Exit(UsageError)
    else if a.template.None? && a.parmsFile.Some? then Exit(UsageError)
    else if a.botoProfile.Some? && (a.awsAccessKey.Some? || a.awsSecretKey.Some?) then Exit(UsageError)
    else Normal
  }

  /** The checks in the order the source runs them, with the yaml-mode
      test as written. */
  function CheckFlagsAsWritten(a: Args): (r: Status)
    ensures r == Exit(0) <==> a.argCount == 1 || a.exampleYaml
    ensures r == Exit(1) <==> a.argCount != 1 && !a.exampleYaml && YamlConflictAsWritten(a)
    ensures r == Normal ==> a.s3bucket.None? && a.region.None?
    ensures r == Normal || r == Exit(0) || r == Exit(1) || r == Exit(UsageError)
    ensures r == Normal <==>
              a.argCount != 1 && !a.exampleYaml && !YamlConflictAsWritten(a) &&
              (a.template.Some? <==> a.parmsFile.Some?) &&
              !(a.botoProfile.Some? && (a.awsAccessKey.Some? || a.awsSecretKey.Some?))
  {
    if a.argCount == 1 then Exit(0)
    else if a.exampleYaml then Exit(0)
    else if YamlConflictAsWritten(a) then Exit(1)
    else LaterChecks(a)
  }

  /** The checks with the yaml-mode test as intended. */
  function CheckFlags(a: Args): (r: Status)
    ensures r == Exit(0) <==> a.argCount == 1 || a.exampleYaml
    ensures r == Exit(1) <==> a.argCount != 1 && !a.exampleYaml && YamlConflict(a)
    ensures r == Normal ==>
              a.configYml.None? || (a.template.None? && a.s3bucket.None? && a.region.None?)
    ensures r == Normal || r == Exit(0) || r == Exit(1) || r == Exit(UsageError)
    ensures r == Normal <==>
              a.argCount != 1 && !a.exampleYaml && !YamlConflict(a) &&
              (a.template.Some? <==> a.parmsFile.Some?) &&
              !(a.botoProfile.Some? && (a.awsAccessKey.Some? || a.awsSecretKey.Some?))
  {
    if a.argCount == 1 then Exit(0)
    else if a.exampleYaml then Exit(0)
    else if YamlConflict(a) then Exit(1)
    else LaterChecks(a)
  }

  /** Whether `interface` switches verbose output on: `-v` is read only
      after the two early exits. */
  predicate SetsVerbose(a: Args)
  {
    a.argCount != 1 && !a.exampleYaml && a.verbose
  }

  /** Arguments that pass the checks are consistent: a template comes
      with its parameter file, a profile without keys. */
  lemma AcceptedFlagsConsistent(a: Args)
    requires CheckFlags(a) == Normal
    ensures a.template.Some? <==> a.parmsFile.Some?
    ensures a.botoProfile.None? || (a.awsAccessKey.None? && a.awsSecretKey.None?)
    ensures a.argCount != 1 && !a.exampleYaml
  {
  }

  /** Command-line mode (template, parameters, bucket and regions, no
      config file) passes the checks. */
  lemma DiscreteModeAccepted(a: Args)
    requires a.argCount > 1 && !a.exampleYaml && a.configYml.None?
    requires a.template.Some? && a.parmsFile.Some?
    requires a.botoProfile.None?
    ensures CheckFlags(a) == Normal
  {
  }

  /** As written, a bucket or a region given without a config file is
      rejected as a yaml-mode conflict; the message speaks of a yaml
      config file that was never given. */
  lemma BucketFlagAloneRejected()
    ensures var a := Args(7, None, Some("my-bucket"), Some("stack.template"), false, None,
                          None, None, None, Some("stack.json"), false, false);
            CheckFlagsAsWritten(a) == Exit(1) && CheckFlags(a) == Normal
  {
  }

  /** The two readings differ exactly on a command line without a config
      file that sets a bucket or a region and reaches the test. */
  lemma ReadingsDiffer(a: Args)
    ensures CheckFlagsAsWritten(a) != CheckFlags(a) <==>
              a.argCount != 1 && !a.exampleYaml && a.configYml.None? && (a.s3bucket.Some? || a.region.Some?)
  {
  }
}
