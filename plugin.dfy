/**
 * The plugin's mutable state (plugin.go): the tool registry, the session
 * registry, the protocol server's advertised tool set and a record of the
 * "tools changed" notifications fired. The lock guarding these maps is not
 * modelled: every operation is one atomic step.
 */
module PluginState {
  import opened Types
  import Config

  class Plugin {
    /**
     * The plugin's configuration, never changed after start-up. Any settings
     * are accepted here; the program always passes `Config.WithDefaults` of its section.
     */
    const cfg: Config.Settings
    /** Tool registry: name to tool. */
    var tools: map<string, Tool>
    /** The tools the protocol server advertises and routes calls to. */
    var advertised: map<string, Tool>
    /** Session registry: session id to session. */
    var sessions: map<string, SessionInfo>
    /** How many "tools changed" notifications have fired. */
    var toolsChangedSignals: nat

    /** The state right after `Init`: both registries empty. */
    constructor (cfg: Config.Settings)
      ensures this.cfg == cfg
      ensures tools == map[] && advertised == map[] && sessions == map[]
      ensures toolsChangedSignals == 0
    {
      this.cfg := cfg;
      tools := map[];
      advertised := map[];
      sessions := map[];
      toolsChangedSignals := 0;
    }
  }
}
