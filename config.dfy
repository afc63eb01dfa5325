/**
 * The plugin configuration and the lookup sets `MarkExpression::new`
 * builds from it (src/lib.rs:16-23, 35-66).
 */
module Config {
  import opened Wrappers

  /** The deserialised configuration; every field may be absent. */
  datatype Config = Config(
    title: Option<string>,
    functions: Option<seq<string>>,
    methods: Option<map<string, seq<string>>>,
    dynamicImports: Option<seq<string>>)

  /** The immutable matcher state of a `MarkExpression`. */
  datatype Patterns = Patterns(
    title: string,
    functions: set<string>,
    methods: map<string, set<string>>,
    dynamicImports: set<string>)

  /** `unwrap_or_default().iter().cloned().collect()` into a `HashSet`. */
  function NameSet(names: Option<seq<string>>): (s: set<string>)
    ensures forall n :: n in s <==> names.Some? && n in names.value
  {
    set n | n in names.GetOr([])
  }

  /** The per-object method sets: each listed name list becomes a set. */
  function MethodSets(methods: Option<map<string, seq<string>>>): (r: map<string, set<string>>)
    ensures r.Keys == (if methods.Some? then methods.value.Keys else {})
    ensures forall o, m :: o in r ==> (m in r[o] <==> m in methods.value[o])
  {
    var given := methods.GetOr(map[]);
    map o | o in given :: NameSet(Some(given[o]))
  }

  /** `MarkExpression::new` without the comment store. */
  function Compile(c: Config): (p: Patterns)
    ensures p.title == (if c.title.Some? then c.title.value else "")
    ensures forall n :: n in p.functions <==> c.functions.Some? && n in c.functions.value
    ensures forall n :: n in p.dynamicImports <==> c.dynamicImports.Some? && n in c.dynamicImports.value
    ensures p.methods.Keys == (if c.methods.Some? then c.methods.value.Keys else {})
    ensures forall o, m :: o in p.methods ==> (m in p.methods[o] <==> m in c.methods.value[o])
  {
    Patterns(c.title.GetOr(""), NameSet(c.functions), MethodSets(c.methods), NameSet(c.dynamicImports))
  }

  /** A configuration with every field absent tracks nothing. */
  lemma EmptyConfigTracksNothing()
    ensures Compile(Config(None, None, None, None)) == Patterns("", {}, map[], {})
  {
  }

  predicate Distinct(ns: seq<string>) {
    forall i, j :: 0 <= i < j < |ns| ==> ns[i] != ns[j]
  }

  /**
   * Collecting into a set collapses duplicates: the set is never larger than
   * the list, and exactly as large when the list has no repeated name.
   */
  /** A list is distinct iff its head is not repeated and its tail is distinct. */
  lemma DistinctCons(ns: seq<string>)
    requires ns != []
    ensures Distinct(ns) <==> ns[0] !in ns[1..] && Distinct(ns[1..])
  {
    if Distinct(ns) {
      forall i, j | 0 <= i < j < |ns[1..]| ensures ns[1..][i] != ns[1..][j] {
        assert ns[1..][i] == ns[i + 1] && ns[1..][j] == ns[j + 1];
      }
      if ns[0] in ns[1..] {
        var j :| 0 <= j < |ns[1..]| && ns[1..][j] == ns[0];
        assert ns[j + 1] == ns[0];
      }
    }
    if ns[0] !in ns[1..] && Distinct(ns[1..]) {
      forall i, j | 0 <= i < j < |ns| ensures ns[i] != ns[j] {
        assert ns[j] == ns[1..][j - 1];
        if i > 0 {
          assert ns[i] == ns[1..][i - 1];
        }
      }
    }
  }

  /**
   * Collecting into a set collapses duplicates: the set is never larger than
   * the list, and exactly as large when the list has no repeated name.
   */
  lemma {:induction false} NameSetCollapsesDuplicates(ns: seq<string>)
    ensures |NameSet(Some(ns))| <= |ns|
    ensures |NameSet(Some(ns))| == |ns| <==> Distinct(ns)
  {
    if ns == [] {
      assert NameSet(Some(ns)) == {};
    } else {
      var rest := ns[1..];
      NameSetCollapsesDuplicates(rest);
      DistinctCons(ns);
      assert ns == [ns[0]] + rest;
      assert NameSet(Some(ns)) == {ns[0]} + NameSet(Some(rest));
      if ns[0] in rest {
        assert NameSet(Some(ns)) == NameSet(Some(rest));
      } else {
        assert |NameSet(Some(ns))| == 1 + |NameSet(Some(rest))|;
      }
    }
  }
}
