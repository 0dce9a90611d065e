/** The configuration record every component is built from. It is the union of the fields the
    core files read (the repository is mid-refactor: several of them are not declared by the
    shown config type); loading it from YAML is not part of this model. */
module Configuration {

  datatype Config = Config(
    rootDirectory: string,
    entrypoint: string,
    entrypointArgs: seq<string>,
    envFiles: seq<string>,
    excludePaths: seq<string>,
    hardReload: seq<string>,
    softReload: seq<string>,
    prestart: seq<string>,
    uiEnabled: bool,
    uiPort: int,
    proxyEnabled: bool,
    proxyPort: int,
    downstreamHost: string,
    /** in seconds, as written in the configuration file */
    downstreamTimeout: int,
    proxyOnly: bool)

  /** The port the web UI and the console capture listen on: the configured one, or 4001
      when the UI is enabled without a port. An enabled UI never listens on port 0. */
  function UiPort(cfg: Config): (port: int)
    ensures cfg.uiEnabled ==> port != 0
    ensures cfg.uiPort != 0 || !cfg.uiEnabled ==> port == cfg.uiPort
  {
    if cfg.uiEnabled && cfg.uiPort == 0 then 4001 else cfg.uiPort
  }
}
