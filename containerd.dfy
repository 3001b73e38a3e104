/** The containerd backend's client wrapper and command constructor (containerd.go). */
module ContainerdBackend {
  import opened Common

  /** An opaque reference to a runtime client object. */
  type ClientHandle = nat

  /** The calls of the ContainerdClient interface, as they appear in a call trace. */
  datatype ClientCall =
    | WithLease(expiration: Int64)
    | IsServing
    | LoadContainer(id: string)
    | Reconnect

  /** The client together with the namespace every call is made in. */
  datatype Containerd = Containerd(client: ClientHandle, namespace: string)

  /** The dynamic types the library switches on when it is handed a client:
      a *docker.Client, a *containerd.Client, a Containerd wrapper value, or
      anything else (named by its type). */
  datatype ClientValue =
    | DockerClientRef(handle: ClientHandle)
    | ContainerdClientRef(handle: ClientHandle)
    | ContainerdValue(wrapper: Containerd)
    | OtherValue(typeName: string)

  /** The process-handle wrapper over an execution method of type E. */
  datatype GenericCmd<E> = GenericCmd(
    path: string,
    args: seq<string>,
    execution: E,
    client: Containerd,
    newRelic: Option<AppHandle>)

  /** Containerd.Command: wraps an execution method with the executable and its
      arguments; the receiver becomes the command's client and no tracing
      application is attached yet. */
  function Command<E>(c: Containerd, execution: E, name: string, args: seq<string>): (cmd: GenericCmd<E>)
    ensures cmd.path == name
    ensures |cmd.args| == |args| && forall i :: 0 <= i < |args| ==> cmd.args[i] == args[i]
    ensures cmd.execution == execution
    ensures cmd.client == c && cmd.client.namespace == c.namespace
    ensures cmd.newRelic == None
  {
    GenericCmd(name, args, execution, c, None)
  }
}
