/** The three integer gauges of a run, how a card option's effects change them,
    and the failure test that ends a normal turn. No clamping anywhere: the
    gauges are unbounded integers. */
module GaugeState {
  import opened Content

  const Budget: string := "budget"
  const Loisirs: string := "loisirs"
  const Epargne: string := "epargne"

  /** The names of the gauges; any other effect key is ignored. */
  predicate IsGauge(name: string)
  {
    name == Budget || name == Loisirs || name == Epargne
  }

  /** The value every gauge has when the game starts. */
  const Initial: int := 50

  datatype Gauges = Gauges(budget: int, loisirs: int, epargne: int)

  const Start: Gauges := Gauges(Initial, Initial, Initial)

  /** The gauge stored under `name`. */
  function Value(g: Gauges, name: string): int
    requires IsGauge(name)
  {
    if name == Budget then g.budget else if name == Loisirs then g.loisirs else g.epargne
  }

  /** The delta an effect map gives a name: its entry, or 0 when it has none. */
  function Delta(effects: Effects, name: string): int
  {
    if name in effects then effects[name] else 0
  }

  /** A choice's effects added to the gauges, each gauge on its own. */
  function Apply(g: Gauges, effects: Effects): (r: Gauges)
    ensures forall name :: IsGauge(name) ==> Value(r, name) == Value(g, name) + Delta(effects, name)
  {
    Gauges(g.budget + Delta(effects, Budget),
           g.loisirs + Delta(effects, Loisirs),
           g.epargne + Delta(effects, Epargne))
  }

  /** The failure test evaluated after every choice. */
  function Failing(g: Gauges): (failed: bool)
    ensures failed <==> exists name :: IsGauge(name) && Value(g, name) <= 0
  {
    assert Value(g, Budget) == g.budget && Value(g, Loisirs) == g.loisirs && Value(g, Epargne) == g.epargne;
    g.budget <= 0 || g.loisirs <= 0 || g.epargne <= 0
  }

  /** A gauge of 0 fails; gauges of 1 do not. */
  lemma FailingBoundary(g: Gauges)
    ensures Failing(g.(budget := 0)) && Failing(g.(loisirs := 0)) && Failing(g.(epargne := 0))
    ensures !Failing(Gauges(1, 1, 1))
  {
  }

  /** A gauge the effect map does not name keeps its value. */
  lemma ApplyUnnamed(g: Gauges, effects: Effects, name: string)
    requires IsGauge(name) && name !in effects
    ensures Value(Apply(g, effects), name) == Value(g, name)
  {
  }

  /** An empty effect map leaves every gauge unchanged. */
  lemma ApplyEmpty(g: Gauges)
    ensures Apply(g, map[]) == g
  {
  }

  /** Keys that are not gauge names have no influence. */
  lemma ApplyIgnoresOtherKeys(g: Gauges, effects: Effects)
    ensures Apply(g, effects) == Apply(g, map k | k in effects && IsGauge(k) :: effects[k])
  {
  }

  /** The effects of two successive choices add up, without clamping in between. */
  lemma ApplyTwice(g: Gauges, e1: Effects, e2: Effects)
    ensures Apply(Apply(g, e1), e2) == Apply(g, map k | k in e1.Keys + e2.Keys :: Delta(e1, k) + Delta(e2, k))
  {
  }

  /** Adds a single effect entry to the gauge it names; other names change nothing. */
  function AddEntry(g: Gauges, name: string, delta: int): Gauges
  {
    if name == Budget then g.(budget := g.budget + delta)
    else if name == Loisirs then g.(loisirs := g.loisirs + delta)
    else if name == Epargne then g.(epargne := g.epargne + delta)
    else g
  }

  /** Adds effect entries one at a time, in the order given. */
  function AddEntries(g: Gauges, entries: seq<(string, int)>): Gauges
    decreases |entries|
  {
    if entries == [] then g else AddEntries(AddEntry(g, entries[0].0, entries[0].1), entries[1..])
  }

  /** `entries` lists every key of `effects` exactly once, with its delta. */
  predicate Enumerates(entries: seq<(string, int)>, effects: Effects)
  {
    (forall i :: 0 <= i < |entries| ==> entries[i].0 in effects && effects[entries[i].0] == entries[i].1) &&
    (forall i, j :: 0 <= i < j < |entries| ==> entries[i].0 != entries[j].0) &&
    (forall k :: k in effects ==> exists i :: 0 <= i < |entries| && entries[i].0 == k)
  }

  /** Adding one entry first and the rest of the map afterwards is `Apply`. */
  lemma AddEntryThenRest(g: Gauges, k: string, effects: Effects)
    requires k in effects
    ensures Apply(AddEntry(g, k, effects[k]), effects - {k}) == Apply(g, effects)
  {
  }

  /** Dropping the first entry of an enumeration enumerates the rest of the map. */
  lemma EnumeratesTail(entries: seq<(string, int)>, effects: Effects)
    requires Enumerates(entries, effects) && entries != []
    ensures Enumerates(entries[1..], effects - {entries[0].0})
  {
  }

  /** Adding the entries of an effect map one by one, in any order, is `Apply`. */
  lemma {:induction false} AddEntriesAgrees(g: Gauges, entries: seq<(string, int)>, effects: Effects)
    requires Enumerates(entries, effects)
    ensures AddEntries(g, entries) == Apply(g, effects)
    decreases |entries|
  {
    if entries == [] {
      assert Budget !in effects && Loisirs !in effects && Epargne !in effects;
    } else {
      var k := entries[0].0;
      EnumeratesTail(entries, effects);
      AddEntriesAgrees(AddEntry(g, k, effects[k]), entries[1..], effects - {k});
      AddEntryThenRest(g, k, effects);
    }
  }
}
