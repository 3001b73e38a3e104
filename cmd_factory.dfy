/** The command factory (cmd_factory.go): choosing a backend from the client's
    dynamic type, mapping the configuration onto the containerd execution's
    options, and converting the caller's mounts into the two runtimes' mount
    types. */
module CmdFactory {
  import opened Common
  import opened Config
  import ContainerdBackend
  import opened ContainerdExecution

  /** The option that makes a mount read-only. */
  const ReadOnlyOption: string := "ro"

  // ---------------------------------------------------------------------------
  // Mount conversion

  /** docker.HostMount, the docker daemon's mount type. */
  datatype HostMount = HostMount(mountType: string, source: string, target: string, readOnly: bool)

  /** What isReadOnly decides: some option is exactly "ro". */
  predicate ReadOnly(m: Mount)
  {
    ReadOnlyOption in m.options
  }

  /** isReadOnly: scans the options in order and stops at the first "ro". */
  method IsReadOnly(m: Mount) returns (r: bool)
    ensures r <==> exists i :: 0 <= i < |m.options| && m.options[i] == ReadOnlyOption
    ensures r == ReadOnly(m)
  {
    for i := 0 to |m.options|
      invariant ReadOnlyOption !in m.options[..i]
    {
      if m.options[i] == ReadOnlyOption {
        return true;
      }
    }
    assert m.options[..|m.options|] == m.options;
    return false;
  }

  /** Where "ro" sits among the options does not matter, and no other option
      makes a mount read-only. */
  lemma ReadOnlyOptions(m: Mount, before: seq<string>, opt: string, after: seq<string>)
    requires m.options == before + [opt] + after
    ensures ReadOnly(m) <==> opt == ReadOnlyOption || ReadOnly(m.(options := before + after))
  {
    var rest := before + after;
    if ReadOnly(m) && opt != ReadOnlyOption {
      var i :| 0 <= i < |m.options| && m.options[i] == ReadOnlyOption;
      if i < |before| {
        assert rest[i] == ReadOnlyOption;
      } else {
        assert rest[i - 1] == ReadOnlyOption;
      }
    }
    if ReadOnly(m.(options := rest)) {
      var i :| 0 <= i < |rest| && rest[i] == ReadOnlyOption;
      if i < |before| {
        assert m.options[i] == ReadOnlyOption;
      } else {
        assert m.options[i + 1] == ReadOnlyOption;
      }
    }
  }

  /** convertMount to specs.Mount: every field carried over. */
  function ToSpecMount(m: Mount): (s: SpecMount)
    ensures FromSpecMount(s) == m
  {
    SpecMount(m.mountType, m.source, m.destination, m.options)
  }

  /** The caller's mount a runtime mount was made from. */
  function FromSpecMount(s: SpecMount): Mount
  {
    Mount(s.mountType, s.source, s.destination, s.options)
  }

  /** The two mount types carry the same information: converting loses
      nothing in either direction. */
  lemma SpecMountRoundTrip(m: Mount, s: SpecMount)
    ensures FromSpecMount(ToSpecMount(m)) == m
    ensures ToSpecMount(FromSpecMount(s)) == s
  {
  }

  /** convertMount to docker.HostMount: the destination becomes the target and
      the options collapse to the read-only flag. */
  function ToHostMount(m: Mount): (h: HostMount)
    ensures h.readOnly <==> exists i :: 0 <= i < |m.options| && m.options[i] == ReadOnlyOption
  {
    HostMount(m.mountType, m.source, m.destination, ReadOnly(m))
  }

  /** The docker mount keeps everything of the runtime mount except its
      options, of which only the presence of "ro" survives. */
  lemma HostMountFromSpecMount(m: Mount)
    ensures var s, h := ToSpecMount(m), ToHostMount(m);
      h == HostMount(s.mountType, s.source, s.destination, ReadOnlyOption in s.options)
  {
  }

  /** Two mounts that differ only in options other than "ro" give the same
      docker mount. */
  lemma HostMountForgetsOptions(m: Mount, n: Mount)
    requires m.mountType == n.mountType && m.source == n.source && m.destination == n.destination
    requires (ReadOnlyOption in m.options) == (ReadOnlyOption in n.options)
    ensures ToHostMount(m) == ToHostMount(n)
  {
  }

  /** convertMounts: a slice of the same length, filled by index. */
  method ConvertMounts<T(0)>(ms: seq<Mount>, convert: Mount -> T) returns (mounts: seq<T>)
    ensures |mounts| == |ms|
    ensures forall i :: 0 <= i < |ms| ==> mounts[i] == convert(ms[i])
  {
    var slice := new T[|ms|];
    for i := 0 to |ms|
      invariant forall j :: 0 <= j < i ==> slice[j] == convert(ms[j])
    {
      slice[i] := convert(ms[i]);
    }
    mounts := slice[..];
  }

  // ---------------------------------------------------------------------------
  // The containerd execution

  /** The field mapping of getContainerdExecution. */
  predicate MapsConfig(opts: CreateTaskOptions, config: Config)
  {
    && opts.image == config.containerConfig.image
    && opts.user == config.containerConfig.user
    && opts.env == config.containerConfig.env
    && opts.commandTimeout == config.taskConfig.timeout
    && opts.workingDir == config.taskConfig.workingDir
    && opts.commandDetails == config.commandDetails
    && |opts.mounts| == |config.containerConfig.mounts|
    && forall i :: 0 <= i < |opts.mounts| ==> opts.mounts[i] == ToSpecMount(config.containerConfig.mounts[i])
  }

  /** getContainerdExecution: the options of the createTask execution
      ByCreatingTask builds (they are the only state it sets, as the
      CreateTask constructor shows). No mount is lost or altered. */
  method GetContainerdExecution(config: Config) returns (opts: CreateTaskOptions)
    ensures MapsConfig(opts, config)
    ensures |opts.mounts| == |config.containerConfig.mounts|
    ensures forall i :: 0 <= i < |opts.mounts| ==> FromSpecMount(opts.mounts[i]) == config.containerConfig.mounts[i]
  {
    var mounts := ConvertMounts(config.containerConfig.mounts, ToSpecMount);
    opts := CreateTaskOptions(
      config.containerConfig.image,
      mounts,
      config.containerConfig.user,
      config.containerConfig.env,
      config.taskConfig.timeout,
      config.taskConfig.workingDir,
      config.commandDetails);
  }

  /** Any two options that both map a configuration are equal: the mapping
      fixes every field. */
  lemma MapsConfigUnique(a: CreateTaskOptions, b: CreateTaskOptions, config: Config)
    requires MapsConfig(a, config) && MapsConfig(b, config)
    ensures a == b
  {
    assert a.mounts == b.mounts;
  }

  // ---------------------------------------------------------------------------
  // Backend selection

  /** The command a factory call hands back. The docker command is kept only
      as far as the factory shapes it: the client, the mounts it converts for
      the docker execution, and the New Relic application. */
  datatype Cmd =
    | DockerCmd(client: ContainerdBackend.ClientHandle, hostMounts: seq<HostMount>, newRelic: Option<AppHandle>)
    | ContainerdCmd(cmd: ContainerdBackend.GenericCmd<CreateTaskOptions>)
  {
    function NewRelic(): Option<AppHandle>
    {
      match this
      case DockerCmd(_, _, app) => app
      case ContainerdCmd(cmd) => cmd.newRelic
    }
  }

  /** The two panics of Command. */
  datatype Panic = NamespaceNotSet | UnsupportedClient(client: ContainerdBackend.ClientValue)

  /** Command: a *docker.Client and a *containerd.Client each get a command of
      their backend, anything else panics, and so does a containerd client
      with no namespace configured. */
  method Command(client: ContainerdBackend.ClientValue, config: Config) returns (r: Result<Cmd, Panic>)
    ensures r.Success? <==> client.DockerClientRef? || (client.ContainerdClientRef? && config.namespace != "")
    ensures r.Success? ==> r.value.NewRelic() == config.newRelic
    ensures client.DockerClientRef? ==>
              && r.Success? && r.value.DockerCmd? && r.value.client == client.handle
              && |r.value.hostMounts| == |config.containerConfig.mounts|
              && forall i :: 0 <= i < |r.value.hostMounts| ==>
                               r.value.hostMounts[i] == ToHostMount(config.containerConfig.mounts[i])
    ensures client.ContainerdClientRef? && config.namespace == "" ==> r == Failure(NamespaceNotSet)
    ensures client.ContainerdClientRef? && config.namespace != "" ==>
              && r.Success? && r.value.ContainerdCmd?
              && r.value.cmd.client == ContainerdBackend.Containerd(client.handle, config.namespace)
              && r.value.cmd.path == config.taskConfig.executable
              && r.value.cmd.args == config.taskConfig.args
              && MapsConfig(r.value.cmd.execution, config)
    ensures client.ContainerdValue? || client.OtherValue? ==> r == Failure(UnsupportedClient(client))
  {
    match client {
      case DockerClientRef(handle) =>
        var hostMounts := ConvertMounts(config.containerConfig.mounts, ToHostMount);
        r := Success(DockerCmd(handle, hostMounts, config.newRelic));
      case ContainerdClientRef(handle) =>
        if config.namespace == "" {
          r := Failure(NamespaceNotSet);
        } else {
          var cdc := ContainerdBackend.Containerd(handle, config.namespace);
          var execution := GetContainerdExecution(config);
          var cmd := ContainerdBackend.Command(cdc, execution, config.taskConfig.executable, config.taskConfig.args);
          r := Success(ContainerdCmd(cmd.(newRelic := config.newRelic)));
        }
      case _ =>
        r := Failure(UnsupportedClient(client));
    }
  }
}
