/**
 Reference definition of the plugin admission filter of the association
 processor, for one fixed iteration order of the plugin map, and what it
 guarantees: the names handed to the engine are exactly those visited before
 the first plugin that has already executed.
 */
module Admission {
  import opened Message

  /** Every name of `order` is a plugin of `plugins`. */
  predicate KeysIn<C>(plugins: map<string, PluginState<C>>, order: seq<string>)
  {
    forall k :: k in order ==> k in plugins
  }

  /** No name occurs twice in `order`. */
  predicate Distinct(order: seq<string>)
  {
    forall i, j :: 0 <= i < j < |order| ==> order[i] != order[j]
  }

  /** `order` is one of the orders in which ranging over the map `plugins`
      may visit its keys: every key exactly once. */
  predicate IsIterationOrder<C>(plugins: map<string, PluginState<C>>, order: seq<string>)
  {
    Distinct(order) && KeysIn(plugins, order) && (forall k :: k in plugins ==> k in order)
  }

  /** Position in `order` of the first plugin that has already executed, or
      `|order|` when there is none. */
  function FirstExecuted<C>(plugins: map<string, PluginState<C>>, order: seq<string>): (n: nat)
    requires KeysIn(plugins, order)
    ensures n <= |order|
    ensures forall i :: 0 <= i < n ==> !plugins[order[i]].hasExecuted
    ensures n < |order| ==> plugins[order[n]].hasExecuted
  {
    if order == [] then 0
    else if plugins[order[0]].hasExecuted then 0
    else 1 + FirstExecuted(plugins, order[1..])
  }

  /** The configurations of the first `n` plugins visited, keyed by name. */
  function PrefixConfigs<C>(plugins: map<string, PluginState<C>>, order: seq<string>, n: nat)
    : (configs: map<string, C>)
    requires KeysIn(plugins, order)
    requires n <= |order|
  {
    map k | k in order[..n] :: plugins[k].configuration
  }

  /** The map handed to the engine: the configuration of every plugin visited
      strictly before the first one that has already executed. */
  function Admitted<C>(plugins: map<string, PluginState<C>>, order: seq<string>): (configs: map<string, C>)
    requires KeysIn(plugins, order)
  {
    PrefixConfigs(plugins, order, FirstExecuted(plugins, order))
  }

  /** Extending the visited prefix by one name adds exactly that name. */
  lemma PrefixConfigsStep<C>(plugins: map<string, PluginState<C>>, order: seq<string>, n: nat)
    requires KeysIn(plugins, order)
    requires n < |order|
    ensures PrefixConfigs(plugins, order, n + 1)
         == PrefixConfigs(plugins, order, n)[order[n] := plugins[order[n]].configuration]
  {
  }

  /** Every admitted name is a plugin and carries that plugin's own
      configuration, so the engine never receives more plugins than the
      command has. */
  lemma AdmittedIsSubMap<C>(plugins: map<string, PluginState<C>>, order: seq<string>)
    requires KeysIn(plugins, order)
    ensures Admitted(plugins, order).Keys <= plugins.Keys
    ensures forall k :: k in Admitted(plugins, order) ==>
              Admitted(plugins, order)[k] == plugins[k].configuration
    ensures |Admitted(plugins, order)| <= |plugins|
  {
    var a := Admitted(plugins, order);
    assert a.Keys <= plugins.Keys;
    SubsetCardinality(a.Keys, plugins.Keys);
  }

  lemma SubsetCardinality<T>(a: set<T>, b: set<T>)
    requires a <= b
    ensures |a| <= |b|
  {
    assert b == a + (b - a);
  }

  /** No plugin that has already executed is admitted. */
  lemma ExecutedNeverAdmitted<C>(plugins: map<string, PluginState<C>>, order: seq<string>, k: string)
    requires KeysIn(plugins, order)
    requires k in plugins && plugins[k].hasExecuted
    ensures k !in Admitted(plugins, order)
  {
  }

  /** Stop at first: for a duplicate-free order, a name is admitted exactly
      when it is visited strictly before the first executed plugin; every name
      visited at or after it is dropped, executed or not. */
  lemma StopAtFirstExecuted<C>(plugins: map<string, PluginState<C>>, order: seq<string>, j: nat)
    requires KeysIn(plugins, order) && Distinct(order)
    requires j < |order|
    ensures order[j] in Admitted(plugins, order) <==> j < FirstExecuted(plugins, order)
  {
  }

  /** An unexecuted plugin visited after an executed one is silently dropped. */
  lemma UnexecutedAfterExecutedDropped<C>(plugins: map<string, PluginState<C>>, order: seq<string>,
                                          i: nat, j: nat)
    requires KeysIn(plugins, order) && Distinct(order)
    requires i < j < |order|
    requires plugins[order[i]].hasExecuted && !plugins[order[j]].hasExecuted
    ensures order[j] !in Admitted(plugins, order)
  {
  }

  /** For a duplicate-free order, exactly `FirstExecuted` plugins are admitted. */
  lemma {:induction false} AdmittedCount<C>(plugins: map<string, PluginState<C>>, order: seq<string>, n: nat)
    requires KeysIn(plugins, order) && Distinct(order)
    requires n <= |order|
    ensures |PrefixConfigs(plugins, order, n)| == n
    ensures n == FirstExecuted(plugins, order) ==> |Admitted(plugins, order)| == n
  {
    if n > 0 {
      AdmittedCount(plugins, order, n - 1);
      PrefixConfigsStep(plugins, order, n - 1);
      var before := PrefixConfigs(plugins, order, n - 1);
      NotInEarlierPrefix(order, n - 1);
      MapAddSize(before, order[n - 1], plugins[order[n - 1]].configuration);
    }
  }

  lemma NotInEarlierPrefix(order: seq<string>, n: nat)
    requires Distinct(order) && n < |order|
    ensures order[n] !in order[..n]
  {
  }

  lemma MapAddSize<K, V>(m: map<K, V>, x: K, v: V)
    requires x !in m
    ensures |m[x := v]| == |m| + 1
  {
  }

  /** When nothing has executed yet, every plugin of the command is admitted
      with its own configuration. */
  lemma NoneExecutedAdmitsAll<C>(plugins: map<string, PluginState<C>>, order: seq<string>)
    requires IsIterationOrder(plugins, order)
    requires forall k :: k in plugins ==> !plugins[k].hasExecuted
    ensures Admitted(plugins, order) == map k | k in plugins :: plugins[k].configuration
  {
  }

  /** When the first plugin visited has already executed, nothing is admitted. */
  lemma FirstVisitedExecutedAdmitsNone<C>(plugins: map<string, PluginState<C>>, order: seq<string>)
    requires KeysIn(plugins, order)
    requires |order| > 0 && plugins[order[0]].hasExecuted
    ensures Admitted(plugins, order) == map[]
  {
  }

  /** The order-independent alternative of skipping each executed plugin on
      its own, which the filter does not implement. */
  function SkipEachExecuted<C>(plugins: map<string, PluginState<C>>): (configs: map<string, C>)
    ensures forall k :: k in configs <==> k in plugins && !plugins[k].hasExecuted
  {
    map k | k in plugins && !plugins[k].hasExecuted :: plugins[k].configuration
  }

  /** The filter admits a sub-map of what per-plugin skipping would admit, and
      the two agree exactly when every plugin visited after the first executed
      one has executed too. */
  lemma AdmittedVersusSkipEach<C>(plugins: map<string, PluginState<C>>, order: seq<string>)
    requires IsIterationOrder(plugins, order)
    ensures forall k :: k in Admitted(plugins, order) ==>
              k in SkipEachExecuted(plugins) && Admitted(plugins, order)[k] == SkipEachExecuted(plugins)[k]
    ensures Admitted(plugins, order) == SkipEachExecuted(plugins)
        <==> forall j :: FirstExecuted(plugins, order) <= j < |order| ==> plugins[order[j]].hasExecuted
  {
  }

  /** Which plugins are admitted depends on the iteration order: the same two
      plugins, one executed, admit one or none. */
  lemma AdmittedDependsOnOrder()
    ensures var plugins := map["a" := PluginState(1, false), "b" := PluginState(2, true)];
            && IsIterationOrder(plugins, ["a", "b"]) && IsIterationOrder(plugins, ["b", "a"])
            && Admitted(plugins, ["a", "b"]) == map["a" := 1]
            && Admitted(plugins, ["b", "a"]) == map[]
  {
  }
}
