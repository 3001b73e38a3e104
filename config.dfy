/** The caller's configuration records (config.go). They carry no behaviour. */
module Config {
  import opened Common

  /** A mount as the caller describes it; read-only-ness is derived from the options. */
  datatype Mount = Mount(mountType: string, source: string, destination: string, options: seq<string>)

  /** The identity triple used only for naming and labelling. */
  datatype CommandDetails = CommandDetails(executorId: Int64, chainExecutorId: Int64, resultId: Int64)

  datatype ContainerConfig = ContainerConfig(image: string, user: string, env: seq<string>, mounts: seq<Mount>)

  /** `timeout` is a time.Duration: an int64 count of nanoseconds. */
  datatype TaskConfig = TaskConfig(executable: string, args: seq<string>, timeout: Int64, workingDir: string)

  datatype NetworkConfig = NetworkConfig(dns: seq<string>, dnsSearch: seq<string>, dnsOptions: seq<string>)

  /** The whole configuration. `namespace` is the containerd namespace the
      factory reads from it; the logger is not modelled. */
  datatype Config = Config(
    containerConfig: ContainerConfig,
    networkConfig: NetworkConfig,
    taskConfig: TaskConfig,
    commandDetails: CommandDetails,
    namespace: string,
    newRelic: Option<AppHandle>)
}
