/** The per-test resolution of `TaskCat`, stated on the object's fields as
    a value: `get_global_region` (taskcat/taskcat.py:204-219),
    `set_test_region` (199-202) and `define_tests` (272-308).  The class in
    module Engine is proved to follow these functions. */
module Resolution {
  import opened Common
  import opened Config

  /** The fields of `TaskCat` that the core overwrites, and the verbosity
      flag, which decides whether the debug output runs. */
  datatype State = State(
    project: Value,
    s3bucket: Value,
    templateFile: Value,
    parameterFile: Value,
    testRegion: seq<Value>,
    useGlobal: bool,
    verbose: bool)

  /** The fields after a call, and whether an exception escaped it. */
  datatype Step = Step(st: State, raised: bool)

  /** The global keys whose name contains "region"; `get_global_region`
      appends the `regions` list once for each of them. */
  function RegionKeys(g: Mapping): set<string>
  {
    set k | k in g && Contains(k, "region")
  }

  /** `get_global_region`: None when it raises.  With no region-like key
      it returns the empty list; a region-like key without a `regions`
      entry raises `KeyError`; a `regions` entry that is not iterable
      raises too, because the handler's message uses `namespace`, which is
      assigned only after `iter` succeeded (`UnboundLocalError`). */
  function GlobalRegions(global: Option<Mapping>): (r: Option<seq<Value>>)
    ensures r.None? <==>
              global.None? ||
              (|RegionKeys(global.value)| > 0 &&
               ("regions" !in global.value || Iterate(global.value["regions"]).None?))
    ensures r.Some? && |RegionKeys(global.value)| == 0 ==> r.value == []
  {
    match global
    case None => None
    case Some(g) =>
      var n := |RegionKeys(g)|;
      if n == 0 then Some([])
      else if "regions" !in g then None
      else match Iterate(g["regions"])
        case None => None
        case Some(xs) => Some(Repeat(xs, n))
  }

  /** `set_test_region(v)`: the region list is stored wrapped in a
      one-element list. */
  function WithTestRegion(st: State, v: Value): (r: State)
    ensures r.testRegion == [v]
    ensures r.(testRegion := st.testRegion) == st
  {
    st.(testRegion := [v])
  }

  /** `set_test_region(get_global_region(cfg))` after the lookup succeeded:
      `_use_global` is switched on as soon as one region is appended and is
      never switched off. */
  function WithGlobalRegions(st: State, rs: seq<Value>): (r: State)
    ensures r.testRegion == [List(rs)]
    ensures r.useGlobal <==> st.useGlobal || |rs| > 0
    ensures r.(testRegion := st.testRegion, useGlobal := st.useGlobal) == st
  {
    st.(testRegion := [List(rs)], useGlobal := st.useGlobal || |rs| > 0)
  }

  /** Whether the four lookups of `define_tests` succeed: the test's
      `template_file` and `parameter_input`, then `global`'s `project` and
      `s3bucket`. */
  predicate Resolvable(global: Option<Mapping>, spec: Mapping)
  {
    "template_file" in spec && "parameter_input" in spec &&
    global.Some? && "project" in global.value && "s3bucket" in global.value
  }

  /** The body of `define_tests` for the matching test.  The four lookups
      happen before any field is written, so a missing key leaves the
      fields as they were; the global-region lookup happens after the four
      fields are written.  With verbose output on, the debug loop iterates
      the stored local region list, which raises `TypeError` when that
      value is a boolean. */
  function DefineEntry(st: State, global: Option<Mapping>, spec: Mapping): (r: Step)
    ensures !Resolvable(global, spec) ==> r == Step(st, true)
    ensures Resolvable(global, spec) ==>
              r.st.s3bucket == global.value["s3bucket"] && r.st.project == global.value["project"] &&
              r.st.templateFile == spec["template_file"] && r.st.parameterFile == spec["parameter_input"]
    ensures r.st.verbose == st.verbose
    ensures r.st.testRegion == st.testRegion || |r.st.testRegion| == 1
  {
    if "template_file" !in spec || "parameter_input" !in spec then Step(st, true)
    else if global.None? || "project" !in global.value || "s3bucket" !in global.value then Step(st, true)
    else
      var copied := st.(s3bucket := global.value["s3bucket"], project := global.value["project"],
                        templateFile := spec["template_file"], parameterFile := spec["parameter_input"]);
      if "regions" in spec then
        if spec["regions"] != Null then
          Step(WithTestRegion(copied, spec["regions"]), st.verbose && Iterate(spec["regions"]).None?)
        else Step(copied, false)
      else
        match GlobalRegions(global)
        case None => Step(copied, true)
        case Some(rs) => Step(WithGlobalRegions(copied, rs), false)
  }

  /** `define_tests(cfg, test)`: a `tests` section that is missing or not a
      mapping raises; a name that is not among the tests changes nothing. */
  function DefineTests(st: State, cfg: Manifest, test: string): (r: Step)
    ensures r.raised ==> cfg.tests.None? || Lookup(cfg.tests.value, test).Some?
    ensures r.st != st ==> cfg.tests.Some? && Lookup(cfg.tests.value, test).Some?
    ensures r.st.verbose == st.verbose
  {
    match cfg.tests
    case None => Step(st, true)
    case Some(ts) =>
      match Lookup(ts, test)
      case None => Step(st, false)
      case Some(spec) => DefineEntry(st, cfg.global, spec)
  }

  /** With only the `regions` key looking like a region key, the global
      lookup returns exactly the `regions` list, in order. */
  lemma OnlyRegionsKey(g: Mapping, xs: seq<Value>)
    requires "regions" in g && g["regions"] == List(xs)
    requires forall k :: k in g && k != "regions" ==> !Contains(k, "region")
    ensures GlobalRegions(Some(g)) == Some(xs)
  {
    assert "region" <= "regions";
    assert RegionKeys(g) == {"regions"};
    assert Repeat(xs, 1) == Repeat(xs, 0) + xs == xs;
  }

  /** In general the `regions` list comes back once per region-like global
      key, so it holds exactly the configured regions (or nothing when no
      key looks like a region key). */
  lemma GlobalRegionsRepeat(g: Mapping, r: Value)
    requires GlobalRegions(Some(g)).Some?
    ensures |RegionKeys(g)| > 0 ==> "regions" in g && Iterate(g["regions"]).Some?
    ensures |GlobalRegions(Some(g)).value| == |RegionKeys(g)| * (if |RegionKeys(g)| > 0 then |Iterate(g["regions"]).value| else 0)
    ensures r in GlobalRegions(Some(g)).value <==> |RegionKeys(g)| > 0 && r in Iterate(g["regions"]).value
  {
    if |RegionKeys(g)| > 0 {
      RepeatMembers(Iterate(g["regions"]).value, |RegionKeys(g)|, r);
    }
  }

  /** A second region-like global key doubles the list. */
  lemma TwoRegionKeysDoubleTheList(g: Mapping, other: string, xs: seq<Value>)
    requires "regions" in g && g["regions"] == List(xs)
    requires other in g && other != "regions" && Contains(other, "region")
    requires forall k :: k in g && k != "regions" && k != other ==> !Contains(k, "region")
    ensures GlobalRegions(Some(g)) == Some(xs + xs)
  {
    assert "region" <= "regions";
    assert RegionKeys(g) == {"regions", other};
    assert |RegionKeys(g)| == 2;
    assert Repeat(xs, 2) == Repeat(xs, 1) + xs == xs + xs;
  }

  /** Local override: a test's non-null `regions` entry becomes the test
      region, wrapped in a list, whatever the global regions are; the call
      raises only when verbose output is on and that entry is a boolean. */
  lemma LocalRegionsWin(st: State, cfg: Manifest, test: string, spec: Mapping, otherGlobal: Mapping)
    requires cfg.tests.Some? && Lookup(cfg.tests.value, test) == Some(spec)
    requires "template_file" in spec && "parameter_input" in spec
    requires cfg.global.Some? && "project" in cfg.global.value && "s3bucket" in cfg.global.value
    requires "regions" in spec && spec["regions"] != Null
    requires "project" in otherGlobal && "s3bucket" in otherGlobal
    ensures DefineTests(st, cfg, test).raised <==> st.verbose && spec["regions"].Bool?
    ensures DefineTests(st, cfg, test).st.testRegion == [spec["regions"]]
    ensures DefineTests(st, cfg.(global := Some(otherGlobal)), test).st.testRegion == [spec["regions"]]
    ensures DefineTests(st, cfg, test).st.useGlobal == st.useGlobal
  {
  }

  /** No `regions` key: the test region is the global lookup's list. */
  lemma MissingRegionsUsesGlobal(st: State, cfg: Manifest, test: string, spec: Mapping)
    requires cfg.tests.Some? && Lookup(cfg.tests.value, test) == Some(spec)
    requires "template_file" in spec && "parameter_input" in spec
    requires cfg.global.Some? && "project" in cfg.global.value && "s3bucket" in cfg.global.value
    requires "regions" !in spec
    ensures DefineTests(st, cfg, test).raised <==> GlobalRegions(cfg.global).None?
    ensures GlobalRegions(cfg.global).Some? ==>
              DefineTests(st, cfg, test).st.testRegion == [List(GlobalRegions(cfg.global).value)] &&
              (DefineTests(st, cfg, test).st.useGlobal <==> st.useGlobal || |GlobalRegions(cfg.global).value| > 0)
  {
  }

  /** `regions: null` passes the `in` test but not the `is not None` test,
      so the previous test region stays. */
  lemma NullRegionsKeepPrevious(st: State, cfg: Manifest, test: string, spec: Mapping)
    requires cfg.tests.Some? && Lookup(cfg.tests.value, test) == Some(spec)
    requires "template_file" in spec && "parameter_input" in spec
    requires cfg.global.Some? && "project" in cfg.global.value && "s3bucket" in cfg.global.value
    requires "regions" in spec && spec["regions"] == Null
    ensures !DefineTests(st, cfg, test).raised
    ensures DefineTests(st, cfg, test).st.testRegion == st.testRegion
    ensures DefineTests(st, cfg, test).st.useGlobal == st.useGlobal
  {
  }

  /** A matching test copies bucket and project from `global` and the
      template and parameter file from the test, whatever happens to the
      region afterwards. */
  lemma FieldsCopied(st: State, cfg: Manifest, test: string, spec: Mapping)
    requires cfg.tests.Some? && Lookup(cfg.tests.value, test) == Some(spec)
    requires "template_file" in spec && "parameter_input" in spec
    requires cfg.global.Some? && "project" in cfg.global.value && "s3bucket" in cfg.global.value
    ensures DefineTests(st, cfg, test).st.s3bucket == cfg.global.value["s3bucket"]
    ensures DefineTests(st, cfg, test).st.project == cfg.global.value["project"]
    ensures DefineTests(st, cfg, test).st.templateFile == spec["template_file"]
    ensures DefineTests(st, cfg, test).st.parameterFile == spec["parameter_input"]
  {
  }

  /** A name that is not among the tests changes no field and raises
      nothing; a key missing from the test or from `global` raises before
      any field is written. */
  lemma UnknownOrIncompleteTestChangesNothing(st: State, cfg: Manifest, test: string)
    requires cfg.WellFormed() && cfg.tests.Some?
    ensures test !in Names(cfg.tests.value) ==> DefineTests(st, cfg, test) == Step(st, false)
    ensures forall i :: (0 <= i < |cfg.tests.value| && cfg.tests.value[i].name == test &&
                         !Resolvable(cfg.global, cfg.tests.value[i].spec)) ==>
              DefineTests(st, cfg, test) == Step(st, true)
  {
    LookupFinds(cfg.tests.value, test);
  }

  /** Only a raise or the region step can leave the region untouched: on a
      normal return the test region is always a one-element list. */
  lemma RegionIsWrappedOrKept(st: State, cfg: Manifest, test: string)
    ensures var r := DefineTests(st, cfg, test);
            r.st.testRegion == st.testRegion || |r.st.testRegion| == 1
  {
  }
}
