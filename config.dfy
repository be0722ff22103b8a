/** The parsed YAML manifest, as the program sees it after `yaml.load`:
    a `global` mapping and a `tests` mapping from test name to that
    test's own mapping.  The order of `tests` is the order in which
    `.keys()` hands the names out. */
module Config {
  import opened Common

  /** A YAML node below the top two levels: a string, a list, null or a
      boolean. */
  datatype Value = Str(s: string) | List(items: seq<Value>) | Null | Bool(b: bool)

  type Mapping = map<string, Value>

  datatype TestEntry = TestEntry(name: string, spec: Mapping)

  /** `global` or `tests` is None when the section is absent or is not a
      mapping; either way indexing it raises. */
  datatype Manifest = Manifest(global: Option<Mapping>, tests: Option<seq<TestEntry>>)
  {
    /** A Python dict cannot hold one key twice. */
    predicate WellFormed()
    {
      tests.Some? ==> UniqueNames(tests.value)
    }
  }

  predicate UniqueNames(ts: seq<TestEntry>)
  {
    forall i, j :: 0 <= i < j < |ts| ==> ts[i].name != ts[j].name
  }

  function Names(ts: seq<TestEntry>): (names: seq<string>)
    ensures |names| == |ts|
    ensures forall i :: 0 <= i < |ts| ==> names[i] == ts[i].name
  {
    seq(|ts|, i requires 0 <= i < |ts| => ts[i].name)
  }

  /** `tests[name]`: the mapping of the first entry with that name. */
  function Lookup(ts: seq<TestEntry>, name: string): (r: Option<Mapping>)
    ensures r.None? <==> name !in Names(ts)
    ensures r.Some? ==> exists i :: 0 <= i < |ts| && ts[i].name == name && ts[i].spec == r.value
  {
    if ts == [] then None
    else if ts[0].name == name then Some(ts[0].spec)
    else Lookup(ts[1..], name)
  }

  /** With unique names, looking a name up finds the one entry carrying
      it, and finds nothing when no entry carries it. */
  lemma {:induction false} LookupFinds(ts: seq<TestEntry>, name: string)
    requires UniqueNames(ts)
    ensures Lookup(ts, name).None? <==> name !in Names(ts)
    ensures forall i :: 0 <= i < |ts| && ts[i].name == name ==> Lookup(ts, name) == Some(ts[i].spec)
  {
    if ts != [] {
      LookupFinds(ts[1..], name);
      forall i | 0 <= i < |ts| && ts[i].name == name
        ensures Lookup(ts, name) == Some(ts[i].spec)
      {
        if i > 0 {
          assert ts[0].name != ts[i].name;
          assert ts[1..][i - 1] == ts[i];
        }
      }
    }
  }

  /** Python's `iter(v)`: a string yields its characters as one-character
      strings, a list its elements; null and booleans are not iterable
      (`TypeError`). */
  function Iterate(v: Value): (r: Option<seq<Value>>)
    ensures v.List? ==> r == Some(v.items)
    ensures v.Str? ==>
              (r.Some? && |r.value| == |v.s| &&
               forall i :: 0 <= i < |v.s| ==> r.value[i] == Str([v.s[i]]))
    ensures (v.Null? || v.Bool?) <==> r.None?
  {
    match v
    case Str(s) => Some(seq(|s|, i requires 0 <= i < |s| => Str([s[i]])))
    case List(xs) => Some(xs)
    case _ => None
  }
}
