/**
 The plugin record of a command's state (the message contracts package of the
 agent), reduced to what the plugin admission filter reads.
 */
module Message {

  /** One plugin of a command: its configuration, left opaque as the type
      parameter `C`, and whether it has already run. */
  datatype PluginState<C> = PluginState(configuration: C, hasExecuted: bool)
}
