/**
 The plugin execution dependency of the association processor: the filter
 that builds the map of configurations handed to the plugin engine.
 */
module Processor {
  import opened Message
  import opened Admission

  /** Runs the plugins of document `documentID`. The function `engine` stands
      for the plugin engine, which receives the document ID and the admitted
      configurations; the plugin registry, the reply callback and the cancel
      flag are the engine's concern and are folded into it. `order` is the
      order in which the map range visits the plugins. The plugin configurations
      are copied by value: each admitted name carries its own plugin's
      configuration. */
  method RunPlugins<C, R>(documentID: string, plugins: map<string, PluginState<C>>, order: seq<string>,
                          engine: (string, map<string, C>) -> R)
    returns (outputs: R)
    requires IsIterationOrder(plugins, order)
    ensures outputs == engine(documentID, Admitted(plugins, order))
    ensures (forall k :: k in plugins ==> !plugins[k].hasExecuted) ==>
              outputs == engine(documentID, map k | k in plugins :: plugins[k].configuration)
    ensures |order| > 0 && plugins[order[0]].hasExecuted ==> outputs == engine(documentID, map[])
  {
    var configs: map<string, C> := map[];
    var i := 0;
    while i < |order|
      invariant i <= FirstExecuted(plugins, order)
      invariant configs == PrefixConfigs(plugins, order, i)
    {
      var pluginName := order[i];
      var pluginConfig := plugins[pluginName];
      if pluginConfig.hasExecuted {
        break;
      }
      PrefixConfigsStep(plugins, order, i);
      configs := configs[pluginName := pluginConfig.configuration];
      i := i + 1;
    }
    assert configs == Admitted(plugins, order);
    if forall k :: k in plugins ==> !plugins[k].hasExecuted {
      NoneExecutedAdmitsAll(plugins, order);
    }
    if |order| > 0 && plugins[order[0]].hasExecuted {
      FirstVisitedExecutedAdmitsNone(plugins, order);
    }
    outputs := engine(documentID, configs);
  }

  /** The variable of a map range loop as Go before version 1.22 declares it:
      one variable for the whole loop, overwritten on every pass. */
  class RangeVariable<C> {
    var state: PluginState<C>

    constructor (s: PluginState<C>)
      ensures state == s
    {
      state := s;
    }
  }

  /** Position of the last plugin the loop assigns to its range variable: the
      executed plugin it stops at, or else the last plugin of the order. */
  function LastVisited<C>(plugins: map<string, PluginState<C>>, order: seq<string>): (i: nat)
    requires KeysIn(plugins, order) && |order| > 0
    ensures i < |order|
  {
    var n := FirstExecuted(plugins, order);
    if n < |order| then n else |order| - 1
  }

  /** What the engine reads through the stored pointers when they all point
      into one shared range variable: the admitted names, each with the
      configuration of the last plugin visited. */
  function SharedVariableView<C>(plugins: map<string, PluginState<C>>, order: seq<string>)
    : (configs: map<string, C>)
    requires KeysIn(plugins, order)
  {
    if order == [] then map[]
    else
      var last := plugins[order[LastVisited(plugins, order)]].configuration;
      map k | k in Admitted(plugins, order) :: last
  }

  /** The filter as written, under the pre-1.22 loop semantics: every stored
      pointer is the address of the configuration inside the one range
      variable, so the engine sees the same configuration under every name. */
  method RunPluginsSharedRangeVariable<C, R>(documentID: string, plugins: map<string, PluginState<C>>,
                                             order: seq<string>, engine: (string, map<string, C>) -> R)
    returns (outputs: R)
    requires IsIterationOrder(plugins, order)
    ensures outputs == engine(documentID, SharedVariableView(plugins, order))
  {
    var configs: map<string, RangeVariable<C>> := map[];
    var pluginConfig: RangeVariable?<C> := null;
    var i := 0;
    while i < |order|
      invariant i <= FirstExecuted(plugins, order)
      invariant configs.Keys == PrefixConfigs(plugins, order, i).Keys
      invariant i == 0 ==> configs == map[]
      invariant i > 0 ==> pluginConfig != null && pluginConfig.state == plugins[order[i - 1]]
      invariant pluginConfig != null ==> fresh(pluginConfig)
      invariant forall k :: k in configs ==> configs[k] == pluginConfig
    {
      var pluginName := order[i];
      if pluginConfig == null {
        pluginConfig := new RangeVariable(plugins[pluginName]);
      } else {
        pluginConfig.state := plugins[pluginName];
      }
      if pluginConfig.state.hasExecuted {
        break;
      }
      PrefixConfigsStep(plugins, order, i);
      configs := configs[pluginName := pluginConfig];
      i := i + 1;
    }
    var seen := map k | k in configs :: configs[k].state.configuration;
    assert i == FirstExecuted(plugins, order);
    if configs != map[] {
      var last := plugins[order[LastVisited(plugins, order)]].configuration;
      assert pluginConfig != null && pluginConfig.state.configuration == last;
      assert seen == map k | k in Admitted(plugins, order) :: last;
    } else {
      assert seen.Keys == {};
    }
    outputs := engine(documentID, seen);
  }

  /** The shared range variable hands the engine the right configurations
      exactly when every admitted plugin has the same configuration as the
      last plugin visited. */
  lemma SharedVariableViewCorrectIff<C>(plugins: map<string, PluginState<C>>, order: seq<string>)
    requires KeysIn(plugins, order) && |order| > 0
    ensures SharedVariableView(plugins, order) == Admitted(plugins, order)
        <==> forall i :: 0 <= i < FirstExecuted(plugins, order) ==>
               plugins[order[i]].configuration == plugins[order[LastVisited(plugins, order)]].configuration
  {
    var n := FirstExecuted(plugins, order);
    var last := plugins[order[LastVisited(plugins, order)]].configuration;
    var a := Admitted(plugins, order);
    if forall i :: 0 <= i < n ==> plugins[order[i]].configuration == last {
      forall k | k in a ensures a[k] == last {
        var i :| 0 <= i < n && order[..n][i] == k;
        assert order[i] == k;
      }
    } else {
      var i :| 0 <= i < n && plugins[order[i]].configuration != last;
      assert order[..n][i] == order[i];
      assert a[order[i]] != SharedVariableView(plugins, order)[order[i]];
    }
  }

  /** As written, two plugins that have not executed, visited in the order
      a, b, are both handed b's configuration. */
  lemma SharedVariableMixesConfigurations()
    ensures var plugins := map["a" := PluginState(1, false), "b" := PluginState(2, false)];
            && IsIterationOrder(plugins, ["a", "b"])
            && Admitted(plugins, ["a", "b"]) == map["a" := 1, "b" := 2]
            && SharedVariableView(plugins, ["a", "b"]) == map["a" := 2, "b" := 2]
  {
  }

  /** As written, when the loop stops at an executed plugin, the unexecuted
      plugin before it is handed the executed plugin's configuration. */
  lemma SharedVariableRunsExecutedConfiguration()
    ensures var plugins := map["a" := PluginState(1, false), "b" := PluginState(2, true)];
            && IsIterationOrder(plugins, ["a", "b"])
            && Admitted(plugins, ["a", "b"]) == map["a" := 1]
            && SharedVariableView(plugins, ["a", "b"]) == map["a" := 2]
  {
  }
}
