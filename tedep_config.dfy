/**
 The process-wide configuration of tedep-ep, built from the `run` subcommand's
 arguments: the namespace to watch and two intervals given in seconds.
 */
module TedepConfig {
  import opened KubeApi

  /** Rust's `u64`. */
  newtype u64 = x: int | 0 <= x < 0x1_0000_0000_0000_0000

  /** The `run` subcommand's arguments: a positional namespace, `--reconcile-interval`, `--retry-interval`. */
  datatype RunArgs = RunArgs(namespaceStr: string, reconcileInterval: u64, retryInterval: u64)

  /**
   `GlobalConfig`; its accessors `namespace_str`, `reconcile_interval` and
   `retry_interval` are this datatype's fields, returned without change.
   */
  datatype GlobalConfig = GlobalConfig(namespaceStr: string, reconcileInterval: Duration, retryInterval: Duration)

  /** `Duration::from_secs`: a whole number of seconds, exact for every `u64`. */
  function FromSecs(secs: u64): (d: Duration)
    ensures d as int == secs as int
  {
    secs as int
  }

  /** `GlobalConfig::from_run_args`: the namespace verbatim and both flags as whole seconds. */
  function FromRunArgs(args: RunArgs): (g: GlobalConfig)
    ensures g.namespaceStr == args.namespaceStr
    ensures g.reconcileInterval == args.reconcileInterval as int
    ensures g.retryInterval == args.retryInterval as int
  {
    GlobalConfig(args.namespaceStr, FromSecs(args.reconcileInterval), FromSecs(args.retryInterval))
  }

  /** Distinct flag settings give distinct configurations: nothing is lost in the conversion. */
  lemma FromRunArgsInjective(a: RunArgs, b: RunArgs)
    requires FromRunArgs(a) == FromRunArgs(b)
    ensures a == b
  {
  }
}
