/** The `TaskCat` object (taskcat/taskcat.py:93-308): the fields the core
    overwrites, their setters and getters, and the methods that resolve a
    test, stage assets and run the two validators.  Each method is proved
    to leave the fields as the matching function of modules Resolution,
    Runs and Assets says. */
module Engine {
  import opened Common
  import opened Config
  import opened Resolution
  import opened Assets
  import opened Runs
  import Cli

  /** The initial value of the text fields. */
  const NotSet: Value := Str("not set")

  /** `s3upload` stated on the fields: the bucket name and the project are
      copied from `global` (each lookup raising when the key is missing),
      the project directory must exist (status 1 otherwise), then every
      kept file is uploaded; the keys that reach the bucket come back. */
  function S3UploadRun(st: State, cfg: Manifest, projectIsDir: bool, walked: seq<string>,
                       upload: (string, string) -> bool): (r: Run)
    ensures r.status == Normal || r.status == Raise || r.status == Exit(1)
    ensures r.status == Raise <==>
              cfg.global.None? || "s3bucket" !in cfg.global.value || "project" !in cfg.global.value ||
              !cfg.global.value["project"].Str?
    ensures r.status == Exit(1) <==> r.status != Raise && !projectIsDir
    ensures cfg.global.Some? && "s3bucket" in cfg.global.value ==> r.st.s3bucket == cfg.global.value["s3bucket"]
    ensures cfg.global.Some? && "s3bucket" in cfg.global.value && "project" in cfg.global.value ==>
              r.st.project == cfg.global.value["project"]
    ensures cfg.global.None? || "s3bucket" !in cfg.global.value ==> r.st == st
    ensures r.st.(s3bucket := st.s3bucket, project := st.project) == st
    ensures |r.calls| <= |walked| && (r.calls != [] ==> r.status == Normal)
  {
    if cfg.global.None? || "s3bucket" !in cfg.global.value then Run(st, Raise, [])
    else
      var withBucket := st.(s3bucket := cfg.global.value["s3bucket"]);
      if "project" !in cfg.global.value then Run(withBucket, Raise, [])
      else
        var project := cfg.global.value["project"];
        var withProject := withBucket.(project := project);
        if !project.Str? then Run(withProject, Raise, [])
        else if !projectIsDir then Run(withProject, Exit(1), [])
        else Run(withProject, Normal, UploadedKeys(MapFilter(walked, project.s), upload))
  }

  /** Staging uploads, under its key, exactly the walked paths whose text
      contains the project name and whose upload succeeded. */
  lemma StagedKeys(st: State, cfg: Manifest, walked: seq<string>, upload: (string, string) -> bool, k: string)
    requires S3UploadRun(st, cfg, true, walked, upload).status == Normal
    ensures cfg.global.Some? && "project" in cfg.global.value && cfg.global.value["project"].Str?
    ensures k in S3UploadRun(st, cfg, true, walked, upload).calls <==>
              exists f :: f in walked && Keep(f, cfg.global.value["project"].s) && UploadKey(f) == k && upload(f, k)
  {
    var p := cfg.global.value["project"].s;
    var files := MapFilter(walked, p);
    UploadedKeysMembers(files, upload, k);
    if k in UploadedKeys(files, upload) {
      var i :| 0 <= i < |files| && UploadKey(files[i]) == k && upload(files[i], k);
      MapFilterMembers(walked, p, files[i]);
    }
    if exists f :: f in walked && Keep(f, p) && UploadKey(f) == k && upload(f, k) {
      var f :| f in walked && Keep(f, p) && UploadKey(f) == k && upload(f, k);
      MapFilterMembers(walked, p, f);
      var i :| 0 <= i < |files| && files[i] == f;
    }
  }

  /** The per-file loop of `s3upload`: a failed upload is printed and the
      loop moves on to the next file. */
  method UploadEach(fsMap: seq<string>, upload: (string, string) -> bool) returns (uploaded: seq<string>)
    ensures uploaded == UploadedKeys(fsMap, upload)
  {
    uploaded := [];
    for i := 0 to |fsMap|
      invariant uploaded == UploadedKeys(fsMap[..i], upload)
    {
      var filename := fsMap[i];
      var key := UploadKey(filename);
      assert fsMap[..i + 1] == fsMap[..i] + [filename];
      UploadedKeysAppend(fsMap[..i], [filename], upload);
      if upload(filename, key) {
        uploaded := uploaded + [key];
      }
    }
    assert fsMap[..|fsMap|] == fsMap;
  }

  /** Visiting one more global key counts it among the region-like keys
      seen exactly when its name contains "region". */
  lemma VisitKey(g: Mapping, todo: set<string>, key: string)
    requires key in todo && todo <= g.Keys
    ensures |RegionKeys(g) - (todo - {key})| == |RegionKeys(g) - todo| + (if Contains(key, "region") then 1 else 0)
  {
    if Contains(key, "region") {
      assert RegionKeys(g) - (todo - {key}) == (RegionKeys(g) - todo) + {key};
    } else {
      assert RegionKeys(g) - (todo - {key}) == RegionKeys(g) - todo;
    }
  }

  class TaskCat {
    var nametag: string
    var verbose: bool
    var config: string
    var project: Value
    var s3bucket: Value
    var templateFile: Value
    var parameterFile: Value
    var testRegion: seq<Value>
    var useGlobal: bool

    /** The fields the core overwrites, as a value. */
    function Snapshot(): State
      reads this
    {
      State(project, s3bucket, templateFile, parameterFile, testRegion, useGlobal, verbose)
    }

    /** `__init__` up to its final call of `interface()`, which is the
        method Interface. */
    constructor (nametag: string)
      ensures this.nametag == nametag && !verbose && config == "config.yml"
      ensures Snapshot() == State(NotSet, NotSet, NotSet, NotSet, [Str("none")], false, false)
    {
      this.nametag := nametag;
      verbose := false;
      config := "config.yml";
      project := NotSet;
      s3bucket := NotSet;
      templateFile := NotSet;
      parameterFile := NotSet;
      testRegion := [Str("none")];
      useGlobal := false;
    }

    /** `interface()`, which `__init__` calls last: `-v` switches verbose
        output on, then the flag checks decide whether the run goes on. */
    method Interface(args: Cli.Args) returns (status: Status)
      modifies this`verbose
      ensures status == Cli.CheckFlags(args)
      ensures verbose == (old(verbose) || Cli.SetsVerbose(args))
    {
      if args.argCount == 1 || args.exampleYaml {
        return Exit(0);
      }
      if args.verbose {
        verbose := true;
      }
      if Cli.YamlConflict(args) {
        return Exit(1);
      }
      status := Cli.LaterChecks(args);
    }

    method SetProject(p: Value)
      modifies this`project
      ensures project == p
    {
      project := p;
    }

    method GetProject() returns (p: Value)
      ensures p == project
    {
      p := project;
    }

    method SetS3Bucket(bucket: Value)
      modifies this`s3bucket
      ensures s3bucket == bucket
    {
      s3bucket := bucket;
    }

    method GetS3Bucket() returns (bucket: Value)
      ensures bucket == s3bucket
    {
      bucket := s3bucket;
    }

    /** `set_config`: a path that is not a file ends the process with
        status 1 and leaves the field alone. */
    method SetConfig(configYml: string, isFile: bool) returns (status: Status)
      modifies this`config
      ensures status == (if isFile then Normal else Exit(1))
      ensures config == (if isFile then configYml else old(config))
    {
      if isFile {
        config := configYml;
        status := Normal;
      } else {
        status := Exit(1);
      }
    }

    method GetConfig() returns (c: string)
      ensures c == config
    {
      c := config;
    }

    method GetTemplate() returns (t: Value)
      ensures t == templateFile
    {
      t := templateFile;
    }

    method SetParameterFile(parameter: Value)
      modifies this`parameterFile
      ensures parameterFile == parameter
    {
      parameterFile := parameter;
    }

    method SetTemplateFile(template: Value)
      modifies this`templateFile
      ensures templateFile == template
    {
      templateFile := template;
    }

    method GetParameter() returns (p: Value)
      ensures p == parameterFile
    {
      p := parameterFile;
    }

    method GetTestRegion() returns (r: seq<Value>)
      ensures r == testRegion
    {
      r := testRegion;
    }

    /** `set_test_region`: the list is stored wrapped in a one-element list
        and handed back unchanged. */
    method SetTestRegion(regionList: Value) returns (r: Value)
      modifies this`testRegion
      ensures testRegion == [regionList] && r == regionList
    {
      testRegion := [];
      testRegion := testRegion + [regionList];
      r := regionList;
    }

    /** `get_global_region`: for each global key whose name contains
        "region", the elements of `global['regions']` are appended, and
        `_use_global` is set by the first one appended. */
    method GetGlobalRegion(cfg: Manifest) returns (regions: seq<Value>, status: Status)
      modifies this`useGlobal
      ensures status == Normal || status == Raise
      ensures status == Normal <==> GlobalRegions(cfg.global).Some?
      ensures status == Normal ==> regions == GlobalRegions(cfg.global).value
      ensures useGlobal <==> old(useGlobal) || (status == Normal && |regions| > 0)
    {
      regions := [];
      if cfg.global.None? {
        return regions, Raise;
      }
      var g := cfg.global.value;
      var todo := g.Keys;
      ghost var xs: seq<Value> := if "regions" in g && Iterate(g["regions"]).Some? then Iterate(g["regions"]).value else [];
      while todo != {}
        invariant todo <= g.Keys
        invariant regions == Repeat(xs, |RegionKeys(g) - todo|)
        invariant |RegionKeys(g) - todo| > 0 ==> "regions" in g && Iterate(g["regions"]).Some?
        invariant useGlobal <==> old(useGlobal) || |regions| > 0
        decreases todo
      {
        var key :| key in todo;
        var raised;
        regions, raised := VisitGlobalKey(g, todo, key, regions, xs);
        if raised {
          return regions, Raise;
        }
        todo := todo - {key};
      }
      assert RegionKeys(g) - todo == RegionKeys(g);
      status := Normal;
    }

    /** One key of the loop in `get_global_region`: a region-like key
        appends the `regions` list, or raises when there is no iterable
        `regions` entry. */
    method VisitGlobalKey(g: Mapping, todo: set<string>, key: string, regions: seq<Value>, ghost xs: seq<Value>)
      returns (r: seq<Value>, raised: bool)
      requires key in todo && todo <= g.Keys
      requires xs == if "regions" in g && Iterate(g["regions"]).Some? then Iterate(g["regions"]).value else []
      requires regions == Repeat(xs, |RegionKeys(g) - todo|)
      requires |RegionKeys(g) - todo| > 0 ==> "regions" in g && Iterate(g["regions"]).Some?
      modifies this`useGlobal
      ensures raised ==> GlobalRegions(Some(g)).None?
      ensures !raised ==> r == Repeat(xs, |RegionKeys(g) - (todo - {key})|)
      ensures !raised ==> regions <= r
      ensures !raised && |RegionKeys(g) - (todo - {key})| > 0 ==> "regions" in g && Iterate(g["regions"]).Some?
      ensures useGlobal <==> old(useGlobal) || (!raised && |r| > |regions|)
    {
      r := regions;
      raised := false;
      VisitKey(g, todo, key);
      if Contains(key, "region") {
        assert key in RegionKeys(g) && |RegionKeys(g)| > 0;
        if "regions" !in g {
          return r, true;
        }
        var it := Iterate(g["regions"]);
        if it.None? {
          return r, true;
        }
        var items := it.value;
        r := AppendRegions(regions, items);
        assert r == Repeat(xs, |RegionKeys(g) - todo| + 1);
      }
    }

    /** The inner loop of `get_global_region`: each region is appended and
        switches `_use_global` on. */
    method AppendRegions(regions: seq<Value>, items: seq<Value>) returns (r: seq<Value>)
      modifies this`useGlobal
      ensures r == regions + items
      ensures useGlobal <==> old(useGlobal) || |items| > 0
    {
      r := regions;
      for j := 0 to |items|
        invariant r == regions + items[..j]
        invariant useGlobal <==> old(useGlobal) || j > 0
      {
        r := r + [items[j]];
        useGlobal := true;
      }
      assert items[..|items|] == items;
    }

    /** The body of `define_tests` for the entry whose name matched. */
    method DefineTest(cfg: Manifest, spec: Mapping) returns (status: Status)
      modifies this`project, this`s3bucket, this`templateFile, this`parameterFile, this`testRegion, this`useGlobal
      ensures status == Normal || status == Raise
      ensures Step(Snapshot(), status == Raise) == DefineEntry(old(Snapshot()), cfg.global, spec)
    {
      status := Normal;
      if "template_file" !in spec || "parameter_input" !in spec {
        return Raise;
      }
      if cfg.global.None? || "project" !in cfg.global.value || "s3bucket" !in cfg.global.value {
        return Raise;
      }
      var t := spec["template_file"];
      var p := spec["parameter_input"];
      var n := cfg.global.value["project"];
      var b := cfg.global.value["s3bucket"];
      SetS3Bucket(b);
      SetProject(n);
      SetTemplateFile(t);
      SetParameterFile(p);
      if "regions" in spec {
        if spec["regions"] != Null {
          var r := SetTestRegion(spec["regions"]);
          if verbose && Iterate(spec["regions"]).None? {
            return Raise;
          }
        }
      } else {
        var globalRegions, s := GetGlobalRegion(cfg);
        if s == Raise {
          return Raise;
        }
        var r := SetTestRegion(List(globalRegions));
      }
    }

    /** `define_tests`: the loop over the test names acts on the one entry
        whose name matches. */
    method DefineTests(cfg: Manifest, test: string) returns (status: Status)
      requires cfg.WellFormed()
      modifies this`project, this`s3bucket, this`templateFile, this`parameterFile, this`testRegion, this`useGlobal
      ensures status == Normal || status == Raise
      ensures Step(Snapshot(), status == Raise) == Resolution.DefineTests(old(Snapshot()), cfg, test)
    {
      if cfg.tests.None? {
        return Raise;
      }
      var ts := cfg.tests.value;
      LookupFinds(ts, test);
      for i := 0 to |ts|
        invariant (forall m :: 0 <= m < i ==> ts[m].name != test) ==> Snapshot() == old(Snapshot())
        invariant (exists m :: 0 <= m < i && ts[m].name == test) ==>
                    Lookup(ts, test).Some? &&
                    Step(Snapshot(), false) == DefineEntry(old(Snapshot()), cfg.global, Lookup(ts, test).value)
      {
        if ts[i].name == test {
          assert forall m :: 0 <= m < i ==> ts[m].name != test;
          status := DefineTest(cfg, ts[i].spec);
          if status == Raise {
            return;
          }
        }
      }
      if exists m :: 0 <= m < |ts| && ts[m].name == test {
        var m :| 0 <= m < |ts| && ts[m].name == test;
        assert Names(ts)[m] == test;
      }
      status := Normal;
    }

    /** `s3upload`: the per-file loop swallows a failed upload and moves on. */
    method S3Upload(cfg: Manifest, projectIsDir: bool, walked: seq<string>, upload: (string, string) -> bool)
      returns (status: Status, uploaded: seq<string>)
      modifies this`s3bucket, this`project
      ensures Run(Snapshot(), status, uploaded) == S3UploadRun(old(Snapshot()), cfg, projectIsDir, walked, upload)
    {
      uploaded := [];
      if cfg.global.None? || "s3bucket" !in cfg.global.value {
        return Raise, uploaded;
      }
      SetS3Bucket(cfg.global.value["s3bucket"]);
      if "project" !in cfg.global.value {
        return Raise, uploaded;
      }
      SetProject(cfg.global.value["project"]);
      if !project.Str? {
        return Raise, uploaded;
      }
      if !projectIsDir {
        return Exit(1), uploaded;
      }
      var fsMap := BuildMap(walked, project.s);
      uploaded := UploadEach(fsMap, upload);
      status := Normal;
    }

    /** One pass of the loop in `validate_template`: resolve the test, look
        up its template's URL and validate it twice. */
    method ValidateOneTemplate(cfg: Manifest, test: string, listing: seq<Bucket>, answer: Validator, k: nat)
      returns (status: Status, calls: seq<string>)
      requires cfg.WellFormed()
      modifies this`project, this`s3bucket, this`templateFile, this`parameterFile, this`testRegion, this`useGlobal
      ensures Run(Snapshot(), status, calls) == TemplateStep(old(Snapshot()), cfg, test, listing, answer, k)
    {
      calls := [];
      var d := DefineTests(cfg, test);
      if d == Raise {
        return Raise, calls;
      }
      var url: Option<string> := None;
      if project.Str? && templateFile.Str? {
        url := GetS3Url(listing, project.s, templateFile.s);
      }
      if url.None? {
        return Exit(1), calls;
      }
      calls := calls + [url.value];
      if answer(k, url.value).Rejected? {
        return Exit(1), calls;
      }
      calls := calls + [url.value];
      var result := answer(k + 1, url.value);
      if !Readable(result, verbose) {
        return Exit(1), calls;
      }
      status := Normal;
    }

    /** `validate_template`: sets the test region from the global regions,
        then resolves and validates each test in order; the first failure
        ends the run. */
    method ValidateTemplate(cfg: Manifest, testList: seq<string>, listing: seq<Bucket>, answer: Validator)
      returns (status: Status, calls: seq<string>)
      requires cfg.WellFormed()
      modifies this`project, this`s3bucket, this`templateFile, this`parameterFile, this`testRegion, this`useGlobal
      ensures Run(Snapshot(), status, calls) == ValidateTemplateRun(old(Snapshot()), cfg, testList, listing, answer)
    {
      var regions, s := GetGlobalRegion(cfg);
      if s == Raise {
        return Raise, [];
      }
      var r := SetTestRegion(List(regions));
      status, calls := ValidateEachTemplate(cfg, testList, listing, answer);
    }

    /** The loop of `validate_template` over the tests. */
    method ValidateEachTemplate(cfg: Manifest, testList: seq<string>, listing: seq<Bucket>, answer: Validator)
      returns (status: Status, calls: seq<string>)
      requires cfg.WellFormed()
      modifies this`project, this`s3bucket, this`templateFile, this`parameterFile, this`testRegion, this`useGlobal
      ensures Run(Snapshot(), status, calls) == RunTests(old(Snapshot()), testList, TemplateSteps(cfg, listing, answer), 0)
    {
      calls := [];
      ghost var step := TemplateSteps(cfg, listing, answer);
      ghost var run := RunTests(Snapshot(), testList, step, 0);
      var rest := testList;
      while rest != []
        invariant run == Then(calls, RunTests(Snapshot(), rest, step, |calls|))
      {
        ghost var before := Snapshot();
        var testStatus, testCalls := ValidateOneTemplate(cfg, rest[0], listing, answer, |calls|);
        RunTestsAdvance(run, calls, before, rest, step, Run(Snapshot(), testStatus, testCalls));
        calls := calls + testCalls;
        if testStatus != Normal {
          return testStatus, calls;
        }
        rest := rest[1..];
      }
      status := Normal;
    }

    /** One pass of the loop in `validate_parameters`: resolve the test,
        fetch its parameter file and check that it parses. */
    method ValidateOneParameterFile(cfg: Manifest, test: string, fetch: string -> Fetched)
      returns (status: Status, fetched: seq<string>)
      requires cfg.WellFormed()
      modifies this`project, this`s3bucket, this`templateFile, this`parameterFile, this`testRegion, this`useGlobal
      ensures Run(Snapshot(), status, fetched) == ParameterStep(old(Snapshot()), cfg, test, fetch)
    {
      fetched := [];
      var d := DefineTests(cfg, test);
      if d == Raise {
        return Raise, fetched;
      }
      var parms := GetParameter();
      if !parms.Str? {
        return Raise, fetched;
      }
      fetched := [parms.s];
      var doc := fetch(parms.s);
      if doc.Unreachable? {
        return Raise, fetched;
      }
      var jsonStatus := ValidateJson(doc);
      if !jsonStatus {
        return Exit(1), fetched;
      }
      status := Normal;
    }

    /** `validate_parameters`: resolves each test in order, fetches its
        parameter file and stops at the first one that is not JSON. */
    method ValidateParameters(cfg: Manifest, testList: seq<string>, fetch: string -> Fetched)
      returns (status: Status, fetched: seq<string>)
      requires cfg.WellFormed()
      modifies this`project, this`s3bucket, this`templateFile, this`parameterFile, this`testRegion, this`useGlobal
      ensures Run(Snapshot(), status, fetched) == ValidateParametersRun(old(Snapshot()), cfg, testList, fetch)
    {
      fetched := [];
      ghost var step := ParameterSteps(cfg, fetch);
      ghost var run := RunTests(Snapshot(), testList, step, 0);
      var rest := testList;
      while rest != []
        invariant run == Then(fetched, RunTests(Snapshot(), rest, step, |fetched|))
      {
        ghost var before := Snapshot();
        var testStatus, testFetched := ValidateOneParameterFile(cfg, rest[0], fetch);
        RunTestsAdvance(run, fetched, before, rest, step, Run(Snapshot(), testStatus, testFetched));
        fetched := fetched + testFetched;
        if testStatus != Normal {
          return testStatus, fetched;
        }
        rest := rest[1..];
      }
      status := Normal;
    }
  }
}
