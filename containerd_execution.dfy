/** The containerd task lifecycle (containerd_execution.go): the pure builders
    for labels, the container name, the nerdctl argument vector and the process
    spec; the call sequences of run, wait and cleanup as functions of scripted
    runtime outcomes; and the createTask object whose methods drive them. */
module ContainerdExecution {
  import opened Common
  import opened Text
  import opened Config
  import opened ContainerdBackend

  const RandomSuffixLength: nat := 6
  /** 5 * time.Minute, in nanoseconds. */
  const TimeoutBuffer: Int64 := 300_000_000_000
  const NerdctlBinary: string := "nerdctl"

  const Chains: string := "chains"
  const OwnerLabel: string := "wk/owner"
  const DeadlineLabel: string := "chains/deadline"
  const CommandExecutorIdLabel: string := "chains/commandExecutorId"
  const ChainExecutorIdLabel: string := "chains/chainExecutorId"
  const CommandResultIdLabel: string := "chains/commandResultId"

  /** Below this magnitude an int64 survives the float64 round trip of abs exactly. */
  const MaxExactMagnitude: int := 0x20_0000_0000_0000

  /** specs.Mount, the runtime's mount type. */
  datatype SpecMount = SpecMount(mountType: string, source: string, destination: string, options: seq<string>)

  datatype CreateTaskOptions = CreateTaskOptions(
    image: string,
    mounts: seq<SpecMount>,
    user: string,
    env: seq<string>,
    commandTimeout: Int64,
    workingDir: string,
    commandDetails: CommandDetails)

  // ---------------------------------------------------------------------------
  // Expiration and labels

  /** The lease expiration and wait timeout: the command timeout plus the
      buffer, with Go's int64 wrap-around. */
  function Expiration(commandTimeout: Int64): (e: Int64)
    ensures commandTimeout < Int64Limit - TimeoutBuffer ==> e == commandTimeout + TimeoutBuffer
    ensures commandTimeout >= 0 && commandTimeout < Int64Limit - TimeoutBuffer ==> e >= TimeoutBuffer
  {
    WrapInt64(commandTimeout + TimeoutBuffer)
  }

  /** The label set fixed at creation. `deadline` is the lease context's
      deadline already formatted, when the context has one. */
  function LabelSet(details: CommandDetails, deadline: Option<string>): (labels: map<string, string>)
    ensures OwnerLabel in labels && labels[OwnerLabel] == Chains
    ensures DeadlineLabel in labels <==> deadline.Some?
  {
    var base := map[
      OwnerLabel := Chains,
      CommandExecutorIdLabel := FormatInt(details.executorId),
      ChainExecutorIdLabel := FormatInt(details.chainExecutorId),
      CommandResultIdLabel := FormatInt(details.resultId)];
    if deadline.Some? then base[DeadlineLabel := deadline.value] else base
  }

  /** The owner label, the three identity labels in decimal, and the deadline
      label exactly when the context has a deadline; nothing else. */
  lemma LabelSetContents(details: CommandDetails, deadline: Option<string>)
    ensures var labels := LabelSet(details, deadline);
      && OwnerLabel in labels && labels[OwnerLabel] == Chains
      && CommandExecutorIdLabel in labels && labels[CommandExecutorIdLabel] == FormatInt(details.executorId)
      && ChainExecutorIdLabel in labels && labels[ChainExecutorIdLabel] == FormatInt(details.chainExecutorId)
      && CommandResultIdLabel in labels && labels[CommandResultIdLabel] == FormatInt(details.resultId)
      && (DeadlineLabel in labels <==> deadline.Some?)
      && (deadline.Some? ==> labels[DeadlineLabel] == deadline.value)
      && labels.Keys == {OwnerLabel, CommandExecutorIdLabel, ChainExecutorIdLabel, CommandResultIdLabel}
                        + (if deadline.Some? then {DeadlineLabel} else {})
      && |labels| == if deadline.Some? then 5 else 4
  {
    var base := map[
      OwnerLabel := Chains,
      CommandExecutorIdLabel := FormatInt(details.executorId),
      ChainExecutorIdLabel := FormatInt(details.chainExecutorId),
      CommandResultIdLabel := FormatInt(details.resultId)];
    assert |base.Keys| == 4;
  }

  /** The identity labels decode back to the identity triple. */
  lemma LabelIdsRoundTrip(details: CommandDetails, deadline: Option<string>)
    ensures ParseInt(LabelSet(details, deadline)[CommandExecutorIdLabel]) == Some(details.executorId)
    ensures ParseInt(LabelSet(details, deadline)[ChainExecutorIdLabel]) == Some(details.chainExecutorId)
    ensures ParseInt(LabelSet(details, deadline)[CommandResultIdLabel]) == Some(details.resultId)
  {
    ParseFormatRoundTrip(details.executorId);
    ParseFormatRoundTrip(details.chainExecutorId);
    ParseFormatRoundTrip(details.resultId);
  }

  // ---------------------------------------------------------------------------
  // Container name

  /** abs over the range where the source's float64 path is exact. */
  function Abs(v: Int64): (r: Int64)
    requires v >= -MaxExactMagnitude
    ensures r >= 0
    ensures r == v || r == -v
  {
    if v >= 0 then v else -v
  }

  predicate NameableDetails(d: CommandDetails)
  {
    d.executorId >= -MaxExactMagnitude && d.chainExecutorId >= -MaxExactMagnitude && d.resultId >= -MaxExactMagnitude
  }

  /** generateContainerName, with RandomString's output passed in as `suffix`. */
  function GenerateContainerName(details: CommandDetails, suffix: string): (name: string)
    requires NameableDetails(details)
    ensures |name| > 7 && name[..7] == "chains-"
  {
    var fields := NameFields(details, suffix);
    assert JoinHyphen(fields) == "chains" + "-" + JoinHyphen(fields[1..]);
    JoinHyphen(fields)
  }

  /** The fields of the "chains-%d-%d-%d-%s" pattern. */
  function NameFields(details: CommandDetails, suffix: string): seq<string>
    requires NameableDetails(details)
  {
    ["chains", FormatInt(Abs(details.chainExecutorId)), FormatInt(Abs(details.executorId)),
     FormatInt(Abs(details.resultId)), suffix]
  }

  /** Only the suffix may hold a '-': the other fields are "chains" and digits. */
  lemma NameFieldsHyphenFree(details: CommandDetails, suffix: string)
    requires NameableDetails(details)
    requires '-' !in suffix
    ensures var fields := NameFields(details, suffix);
      forall i :: 0 <= i < |fields| ==> '-' !in fields[i]
  {
    var fields := NameFields(details, suffix);
    DigitsHaveNoHyphen(fields[1]);
    DigitsHaveNoHyphen(fields[2]);
    DigitsHaveNoHyphen(fields[3]);
    assert '-' !in "chains";
  }

  lemma DigitsHaveNoHyphen(s: string)
    requires AllDigits(s)
    ensures '-' !in s
  {
  }

  /** The name splits on '-' into "chains", the three absolute ids in decimal
      (chain executor, executor, result) and the suffix. */
  lemma ContainerNameFields(details: CommandDetails, suffix: string)
    requires NameableDetails(details)
    requires '-' !in suffix
    ensures SplitHyphen(GenerateContainerName(details, suffix))
            == ["chains", FormatInt(Abs(details.chainExecutorId)), FormatInt(Abs(details.executorId)),
                FormatInt(Abs(details.resultId)), suffix]
  {
    NameFieldsHyphenFree(details, suffix);
    SplitJoinHyphen(NameFields(details, suffix));
  }

  /** The id fields of the name parse back to the absolute ids. */
  lemma ContainerNameIds(details: CommandDetails, suffix: string)
    requires NameableDetails(details)
    requires '-' !in suffix
    ensures var fields := SplitHyphen(GenerateContainerName(details, suffix));
      && |fields| == 5
      && ParseInt(fields[1]) == Some(Abs(details.chainExecutorId))
      && ParseInt(fields[2]) == Some(Abs(details.executorId))
      && ParseInt(fields[3]) == Some(Abs(details.resultId))
  {
    ContainerNameFields(details, suffix);
    ParseFormatRoundTrip(Abs(details.chainExecutorId));
    ParseFormatRoundTrip(Abs(details.executorId));
    ParseFormatRoundTrip(Abs(details.resultId));
  }

  /** The name ends in the suffix. */
  lemma ContainerNameSuffix(details: CommandDetails, suffix: string)
    requires NameableDetails(details)
    ensures var name := GenerateContainerName(details, suffix);
      |name| >= |suffix| && name[|name| - |suffix|..] == suffix
  {
    JoinHyphenEndsWithLast(NameFields(details, suffix));
  }

  /** With a hyphen-free suffix the name never contains "--". */
  lemma ContainerNameNoDoubleHyphen(details: CommandDetails, suffix: string)
    requires NameableDetails(details)
    requires '-' !in suffix
    ensures NoDoubleHyphen(GenerateContainerName(details, suffix))
  {
    NameFieldsHyphenFree(details, suffix);
    JoinHyphenNoDouble(NameFields(details, suffix));
  }

  // ---------------------------------------------------------------------------
  // nerdctl argument vector

  /** `-v` value of a mount: source and destination only; options are not emitted. */
  function MountArg(m: SpecMount): string { m.source + ":" + m.destination }

  function LabelArg(key: string, value: string): string { key + "=" + value }

  /** The fixed head of the vector. */
  function HeadArgs(namespace: string, name: string, user: string): seq<string>
  {
    ["--namespace", namespace, "create", "--name", name, "--user", user]
  }

  /** One `-v source:destination` pair per mount, in order. */
  function MountFlags(mounts: seq<SpecMount>): (flags: seq<string>)
    ensures |flags| == 2 * |mounts|
  {
    if |mounts| == 0 then []
    else MountFlags(mounts[..|mounts| - 1]) + ["-v", MountArg(mounts[|mounts| - 1])]
  }

  /** One `-e entry` pair per environment entry, in order. */
  function EnvFlags(env: seq<string>): (flags: seq<string>)
    ensures |flags| == 2 * |env|
  {
    if |env| == 0 then [] else EnvFlags(env[..|env| - 1]) + ["-e", env[|env| - 1]]
  }

  predicate KeysIn(keys: seq<string>, labels: map<string, string>)
  {
    forall i :: 0 <= i < |keys| ==> keys[i] in labels
  }

  /** One `--label key=value` pair per key, in the order of `keys`. */
  function LabelFlags(keys: seq<string>, labels: map<string, string>): (flags: seq<string>)
    requires KeysIn(keys, labels)
    ensures |flags| == 2 * |keys|
  {
    if |keys| == 0 then []
    else
      var last := keys[|keys| - 1];
      assert KeysIn(keys[..|keys| - 1], labels);
      LabelFlags(keys[..|keys| - 1], labels) + ["--label", LabelArg(last, labels[last])]
  }

  lemma {:induction false} MountFlagsAt(mounts: seq<SpecMount>, i: nat)
    requires i < |mounts|
    ensures MountFlags(mounts)[2 * i] == "-v" && MountFlags(mounts)[2 * i + 1] == MountArg(mounts[i])
  {
    if i < |mounts| - 1 {
      MountFlagsAt(mounts[..|mounts| - 1], i);
    }
  }

  lemma {:induction false} EnvFlagsAt(env: seq<string>, i: nat)
    requires i < |env|
    ensures EnvFlags(env)[2 * i] == "-e" && EnvFlags(env)[2 * i + 1] == env[i]
  {
    if i < |env| - 1 {
      EnvFlagsAt(env[..|env| - 1], i);
    }
  }

  lemma {:induction false} LabelFlagsAt(keys: seq<string>, labels: map<string, string>, i: nat)
    requires KeysIn(keys, labels) && i < |keys|
    ensures LabelFlags(keys, labels)[2 * i] == "--label"
    ensures LabelFlags(keys, labels)[2 * i + 1] == LabelArg(keys[i], labels[keys[i]])
  {
    if i < |keys| - 1 {
      assert KeysIn(keys[..|keys| - 1], labels);
      LabelFlagsAt(keys[..|keys| - 1], labels, i);
    }
  }

  /** `keys` lists every element of `s` exactly once: the last key is an
      element, and the keys before it list the others. */
  ghost predicate IsEnumeration(keys: seq<string>, s: set<string>)
    decreases |keys|
  {
    if |keys| == 0 then s == {}
    else
      var last := keys[|keys| - 1];
      last in s && IsEnumeration(keys[..|keys| - 1], s - {last})
  }

  /** Visiting one more element extends an enumeration. */
  lemma EnumerationStep(keys: seq<string>, s: set<string>, k: string)
    requires IsEnumeration(keys, s) && k !in s
    ensures IsEnumeration(keys + [k], s + {k})
  {
    assert (keys + [k])[..|keys|] == keys;
    assert (s + {k}) - {k} == s;
  }

  /** An enumeration has as many keys as elements, lists only elements, misses
      none, and lists none twice. */
  lemma {:induction false} EnumerationCovers(keys: seq<string>, s: set<string>)
    requires IsEnumeration(keys, s)
    ensures |keys| == |s|
    ensures forall i :: 0 <= i < |keys| ==> keys[i] in s
    ensures forall k :: k in s ==> k in keys
    ensures forall i, j :: 0 <= i < j < |keys| ==> keys[i] != keys[j]
    decreases |keys|
  {
    if |keys| > 0 {
      var last := keys[|keys| - 1];
      var front := keys[..|keys| - 1];
      EnumerationCovers(front, s - {last});
      assert keys == front + [last];
      forall k | k in s ensures k in keys {
        if k != last {
          assert k in front;
        }
      }
    }
  }

  /** The values that follow the flags of a `flag value ...` section. */
  function ListedValues(section: seq<string>): set<string>
  {
    set i | 0 <= i < |section| && i % 2 == 1 :: section[i]
  }

  function LabelStrings(labels: map<string, string>): set<string>
  {
    set k | k in labels :: LabelArg(k, labels[k])
  }

  lemma ListedWithinLabels(keys: seq<string>, labels: map<string, string>)
    requires KeysIn(keys, labels)
    ensures ListedValues(LabelFlags(keys, labels)) <= LabelStrings(labels)
  {
    var section := LabelFlags(keys, labels);
    forall x | x in ListedValues(section) ensures x in LabelStrings(labels) {
      var i :| 0 <= i < |section| && i % 2 == 1 && section[i] == x;
      LabelFlagsAt(keys, labels, i / 2);
      assert 2 * (i / 2) + 1 == i;
    }
  }

  lemma LabelsWithinListed(keys: seq<string>, labels: map<string, string>)
    requires KeysIn(keys, labels)
    requires forall k :: k in labels ==> k in keys
    ensures LabelStrings(labels) <= ListedValues(LabelFlags(keys, labels))
  {
    var section := LabelFlags(keys, labels);
    forall x | x in LabelStrings(labels) ensures x in ListedValues(section) {
      var k :| k in labels && x == LabelArg(k, labels[k]);
      var j :| 0 <= j < |keys| && keys[j] == k;
      LabelFlagsAt(keys, labels, j);
      assert section[2 * j + 1] == x;
    }
  }

  /** A label section: `--label` at every even position, and as values
      exactly the `key=value` strings of the labels, each once. */
  ghost predicate IsLabelSection(section: seq<string>, labels: map<string, string>)
  {
    && |section| == 2 * |labels|
    && (forall i :: 0 <= i < |labels| ==> section[2 * i] == "--label")
    && ListedValues(section) == LabelStrings(labels)
  }

  /** Listed in the order of an enumeration of the keys, the label pairs form
      a label section. */
  lemma ListedLabelValues(keys: seq<string>, labels: map<string, string>)
    requires IsEnumeration(keys, labels.Keys)
    ensures KeysIn(keys, labels)
    ensures IsLabelSection(LabelFlags(keys, labels), labels)
  {
    EnumerationCovers(keys, labels.Keys);
    forall i | 0 <= i < |labels| ensures LabelFlags(keys, labels)[2 * i] == "--label" {
      LabelFlagsAt(keys, labels, i);
    }
    ListedWithinLabels(keys, labels);
    LabelsWithinListed(keys, labels);
  }

  /** The nerdctl argument vector for labels visited in the order `order`:
      the head, the mount pairs, the environment pairs, the label pairs, the
      image. */
  function CreateArgs(namespace: string, name: string, opts: CreateTaskOptions,
                      labels: map<string, string>, order: seq<string>): seq<string>
    requires KeysIn(order, labels)
  {
    HeadArgs(namespace, name, opts.user) + MountFlags(opts.mounts) + EnvFlags(opts.env)
      + LabelFlags(order, labels) + [opts.image]
  }

  /** buildCreateContainerArgs: the head, then the three appending loops, then
      the image. Each loop appends one section; the sections are built by the
      three methods below. The labels are visited in the map's iteration
      order, which is not fixed; `order` is the order this call used. */
  method BuildCreateContainerArgs(namespace: string, opts: CreateTaskOptions, labels: map<string, string>,
                                  suffix: string) returns (args: seq<string>, ghost order: seq<string>)
    requires NameableDetails(opts.commandDetails)
    ensures IsEnumeration(order, labels.Keys) && KeysIn(order, labels)
    ensures args == CreateArgs(namespace, GenerateContainerName(opts.commandDetails, suffix), opts, labels, order)
    ensures LaidOut(args, namespace, GenerateContainerName(opts.commandDetails, suffix), opts, labels)
  {
    var head := HeadArgs(namespace, GenerateContainerName(opts.commandDetails, suffix), opts.user);
    var volumes := MountFlagsOf(opts.mounts);
    var envs := EnvFlagsOf(opts.env);
    var section;
    section, order := LabelFlagsOf(labels);
    args := head + volumes + envs + section + [opts.image];
    CreateArgsLayout(namespace, GenerateContainerName(opts.commandDetails, suffix), opts, labels, order);
  }

  /** The mount loop: `-v source:destination` per mount, in order. */
  method MountFlagsOf(mounts: seq<SpecMount>) returns (flags: seq<string>)
    ensures flags == MountFlags(mounts)
  {
    flags := [];
    for i := 0 to |mounts|
      invariant flags == MountFlags(mounts[..i])
    {
      assert mounts[..i + 1][..i] == mounts[..i];
      flags := flags + ["-v", MountArg(mounts[i])];
    }
    assert mounts[..|mounts|] == mounts;
  }

  /** The environment loop: `-e entry` per entry, in order. */
  method EnvFlagsOf(env: seq<string>) returns (flags: seq<string>)
    ensures flags == EnvFlags(env)
  {
    flags := [];
    for i := 0 to |env|
      invariant flags == EnvFlags(env[..i])
    {
      assert env[..i + 1][..i] == env[..i];
      flags := flags + ["-e", env[i]];
    }
    assert env[..|env|] == env;
  }

  /** The label loop: `--label key=value` per entry, in the map's iteration
      order, here an arbitrary choice of the next unvisited key; `order` is
      the sequence of keys visited. */
  method LabelFlagsOf(labels: map<string, string>) returns (flags: seq<string>, ghost order: seq<string>)
    ensures IsEnumeration(order, labels.Keys) && KeysIn(order, labels)
    ensures flags == LabelFlags(order, labels)
    ensures IsLabelSection(flags, labels)
  {
    var rest := labels.Keys;
    flags := [];
    order := [];
    while rest != {}
      invariant rest <= labels.Keys
      invariant IsEnumeration(order, labels.Keys - rest)
      invariant KeysIn(order, labels)
      invariant flags == LabelFlags(order, labels)
      decreases |rest|
    {
      var key :| key in rest;
      EnumerationStep(order, labels.Keys - rest, key);
      assert (order + [key])[..|order|] == order;
      flags := flags + ["--label", LabelArg(key, labels[key])];
      order := order + [key];
      assert labels.Keys - rest + {key} == labels.Keys - (rest - {key});
      rest := rest - {key};
    }
    assert labels.Keys - rest == labels.Keys;
    ListedLabelValues(order, labels);
  }

  /** From position `at` on, `-v` and a mount's `src:dst` for each mount in order. */
  ghost predicate MountPairsAt(args: seq<string>, at: nat, mounts: seq<SpecMount>)
  {
    && at + 2 * |mounts| <= |args|
    && forall i :: 0 <= i < |mounts| ==> args[at + 2 * i] == "-v" && args[at + 2 * i + 1] == MountArg(mounts[i])
  }

  /** From position `at` on, `-e` and an entry for each environment entry in order. */
  ghost predicate EnvPairsAt(args: seq<string>, at: nat, env: seq<string>)
  {
    && at + 2 * |env| <= |args|
    && forall i :: 0 <= i < |env| ==> args[at + 2 * i] == "-e" && args[at + 2 * i + 1] == env[i]
  }

  lemma MountsAt(args: seq<string>, mounts: seq<SpecMount>, at: nat)
    requires at + 2 * |mounts| <= |args| && args[at..at + 2 * |mounts|] == MountFlags(mounts)
    ensures MountPairsAt(args, at, mounts)
  {
    forall i | 0 <= i < |mounts| ensures args[at + 2 * i] == "-v" && args[at + 2 * i + 1] == MountArg(mounts[i]) {
      MountFlagsAt(mounts, i);
      assert args[at + 2 * i] == args[at..at + 2 * |mounts|][2 * i];
      assert args[at + 2 * i + 1] == args[at..at + 2 * |mounts|][2 * i + 1];
    }
  }

  lemma EnvAt(args: seq<string>, env: seq<string>, at: nat)
    requires at + 2 * |env| <= |args| && args[at..at + 2 * |env|] == EnvFlags(env)
    ensures EnvPairsAt(args, at, env)
  {
    forall i | 0 <= i < |env| ensures args[at + 2 * i] == "-e" && args[at + 2 * i + 1] == env[i] {
      EnvFlagsAt(env, i);
      assert args[at + 2 * i] == args[at..at + 2 * |env|][2 * i];
      assert args[at + 2 * i + 1] == args[at..at + 2 * |env|][2 * i + 1];
    }
  }

  /** A nerdctl create vector read position by position: the head, `-v
      src:dst` per mount in order, `-e` per variable in order, then a label
      section, and the image last. */
  ghost predicate LaidOut(args: seq<string>, namespace: string, name: string,
                          opts: CreateTaskOptions, labels: map<string, string>)
  {
    var m := 7 + 2 * |opts.mounts|;
    var e := m + 2 * |opts.env|;
    && |args| == e + 2 * |labels| + 1
    && args[..7] == HeadArgs(namespace, name, opts.user)
    && MountPairsAt(args, 7, opts.mounts)
    && EnvPairsAt(args, m, opts.env)
    && IsLabelSection(args[e..|args| - 1], labels)
    && args[|args| - 1] == opts.image
  }

  lemma CreateArgsHead(namespace: string, name: string, opts: CreateTaskOptions,
                       labels: map<string, string>, order: seq<string>)
    requires KeysIn(order, labels)
    ensures var args := CreateArgs(namespace, name, opts, labels, order);
      |args| == 7 + 2 * |opts.mounts| + 2 * |opts.env| + 2 * |order| + 1 && args[..7] == HeadArgs(namespace, name, opts.user)
  {
    var head := HeadArgs(namespace, name, opts.user);
    var rest := MountFlags(opts.mounts) + EnvFlags(opts.env) + LabelFlags(order, labels) + [opts.image];
    assert CreateArgs(namespace, name, opts, labels, order) == head + rest;
  }

  lemma CreateArgsMounts(namespace: string, name: string, opts: CreateTaskOptions,
                         labels: map<string, string>, order: seq<string>)
    requires KeysIn(order, labels)
    ensures MountPairsAt(CreateArgs(namespace, name, opts, labels, order), 7, opts.mounts)
  {
    var args := CreateArgs(namespace, name, opts, labels, order);
    var v := MountFlags(opts.mounts);
    var rest := EnvFlags(opts.env) + LabelFlags(order, labels) + [opts.image];
    assert args == HeadArgs(namespace, name, opts.user) + v + rest;
    assert args[7..7 + |v|] == v;
    MountsAt(args, opts.mounts, 7);
  }

  /** The third of five concatenated sections sits right after the first two. */
  lemma ThirdSection(a: seq<string>, b: seq<string>, c: seq<string>, d: seq<string>, e: seq<string>)
    ensures var s := a + b + c + d + e;
      |a| + |b| + |c| <= |s| && s[|a| + |b|..|a| + |b| + |c|] == c
  {
    var s := a + b + c + d + e;
    forall i | 0 <= i < |c| ensures s[|a| + |b| + i] == c[i] {
    }
  }

  lemma CreateArgsEnv(namespace: string, name: string, opts: CreateTaskOptions,
                      labels: map<string, string>, order: seq<string>)
    requires KeysIn(order, labels)
    ensures EnvPairsAt(CreateArgs(namespace, name, opts, labels, order), 7 + 2 * |opts.mounts|, opts.env)
  {
    var args := CreateArgs(namespace, name, opts, labels, order);
    ThirdSection(HeadArgs(namespace, name, opts.user), MountFlags(opts.mounts), EnvFlags(opts.env),
                 LabelFlags(order, labels), [opts.image]);
    EnvAt(args, opts.env, 7 + 2 * |opts.mounts|);
  }

  lemma CreateArgsLabels(namespace: string, name: string, opts: CreateTaskOptions,
                         labels: map<string, string>, order: seq<string>)
    requires KeysIn(order, labels)
    ensures var args := CreateArgs(namespace, name, opts, labels, order);
      var e := 7 + 2 * |opts.mounts| + 2 * |opts.env|;
      e <= |args| - 1 && args[e..|args| - 1] == LabelFlags(order, labels) && args[|args| - 1] == opts.image
  {
    var args := CreateArgs(namespace, name, opts, labels, order);
    var pre := HeadArgs(namespace, name, opts.user) + MountFlags(opts.mounts) + EnvFlags(opts.env);
    var l := LabelFlags(order, labels);
    assert args == pre + l + [opts.image];
    assert args[|pre|..|args| - 1] == l;
  }

  /** Whatever order the labels were visited in, the vector has the layout above. */
  lemma CreateArgsLayout(namespace: string, name: string, opts: CreateTaskOptions,
                         labels: map<string, string>, order: seq<string>)
    requires IsEnumeration(order, labels.Keys) && KeysIn(order, labels)
    ensures LaidOut(CreateArgs(namespace, name, opts, labels, order), namespace, name, opts, labels)
  {
    CreateArgsHead(namespace, name, opts, labels, order);
    CreateArgsMounts(namespace, name, opts, labels, order);
    CreateArgsEnv(namespace, name, opts, labels, order);
    CreateArgsLabels(namespace, name, opts, labels, order);
    ListedLabelValues(order, labels);
  }

  // ---------------------------------------------------------------------------
  // Process spec

  datatype User = User(uid: UInt32, gid: UInt32)

  /** The part of the OCI process spec that the lifecycle touches or must keep. */
  datatype Process = Process(args: seq<string>, cwd: string, user: User, env: seq<string>)

  /** createProcessSpec over the fetched base spec: Args and Cwd are replaced,
      the uid is replaced by the low 32 bits of the user string when that parses
      as a base-10 int64, and left as it was otherwise; everything else is kept. */
  function ProcessSpecFor(fetched: Result<Process, Error>, cmd: seq<string>, workingDir: string,
                          user: string): (r: Result<Process, Error>)
    ensures r.Failure? <==> fetched.Failure?
    ensures fetched.Failure? ==> r.error == Wrapped("error getting spec from container", fetched.error)
    ensures fetched.Success? ==> && r.value.args == cmd && r.value.cwd == workingDir
                                 && r.value.env == fetched.value.env
                                 && r.value.user.gid == fetched.value.user.gid
    ensures fetched.Success? ==> r.value.user.uid == match ParseInt(user)
                                                     case Some(v) => LowBits32(v)
                                                     case None => fetched.value.user.uid
  {
    match fetched
    case Failure(e) => Failure(Wrapped("error getting spec from container", e))
    case Success(p) =>
      var uid := match ParseInt(user) case Some(v) => LowBits32(v) case None => p.user.uid;
      Success(p.(args := cmd, cwd := workingDir, user := p.user.(uid := uid)))
  }

  /** A numeric user string gives that uid. */
  lemma ProcessSpecNumericUser()
    ensures ProcessSpecFor(Success(Process([], "", User(0, 0), [])), ["java", "-jar", "data-prep-cli.jar"],
                           "/go/src", "61000")
            == Success(Process(["java", "-jar", "data-prep-cli.jar"], "/go/src", User(61000, 0), []))
  {
    ParseFormatRoundTrip(61000);
    assert FormatInt(61000) == "61000";
  }

  /** A non-numeric user string leaves the uid as the base spec had it, and is not an error. */
  lemma ProcessSpecNonNumericUser(base: Process, cmd: seq<string>, dir: string)
    ensures ProcessSpecFor(Success(base), cmd, dir, "nobody").Success?
    ensures ProcessSpecFor(Success(base), cmd, dir, "nobody").value.user == base.user
  {
    ParseIntRejectsNonDigit("nobody", 0);
  }

  // ---------------------------------------------------------------------------
  // Runtime handles, scripted outcomes and the call trace

  /** The namespaced context, and its deadline when it has one. */
  datatype Context = Context(namespace: string, deadline: Option<Time>)

  datatype ContainerRef = ContainerRef(id: string)
  datatype TaskRef = TaskRef(handle: nat)
  datatype ProcessRef = ProcessRef(handle: nat)
  datatype ExitChannel = ExitChannel(handle: nat)

  /** A call made by the lifecycle, in the order it is made. */
  datatype Call =
    | Client(op: ClientCall)
    | Subprocess(binary: string, args: seq<string>)
    | NewTask
    | GetSpec
    | Exec(id: string, process: Process)
    | ProcessWait
    | ProcessStart
    | AwaitExit(timeout: Int64)
    | TaskDelete
    | ContainerDelete
    | LeaseDone

  /** What IsServing answers. */
  datatype Serving = Serving(serving: bool, err: Option<Error>)

  predicate NeedsReconnect(s: Serving) { !s.serving || s.err.Some? }

  /** The outcome of each runtime call run makes, in call order. */
  datatype RunScript = RunScript(
    isServing: Serving,
    reconnect: Option<Error>,
    newTask: Result<TaskRef, Error>,
    spec: Result<Process, Error>,
    exec: Result<ProcessRef, Error>,
    wait: Result<ExitChannel, Error>,
    start: Option<Error>)

  /** How far run gets: the first step that fails, or Started. */
  datatype RunStage = ConnectionFailed | NewTaskFailed | SpecFailed | ExecFailed | WaitFailed | StartFailed | Started

  function StageRank(st: RunStage): nat
  {
    match st
    case ConnectionFailed => 0
    case NewTaskFailed => 1
    case SpecFailed => 2
    case ExecFailed => 3
    case WaitFailed => 4
    case StartFailed => 5
    case Started => 6
  }

  function RunStageOf(s: RunScript): RunStage
  {
    if NeedsReconnect(s.isServing) && s.reconnect.Some? then ConnectionFailed
    else if s.newTask.Failure? then NewTaskFailed
    else if s.spec.Failure? then SpecFailed
    else if s.exec.Failure? then ExecFailed
    else if s.wait.Failure? then WaitFailed
    else if s.start.Some? then StartFailed
    else Started
  }

  /** The error run returns: the failing step's error wrapped with its context. */
  function RunError(s: RunScript): (err: Option<Error>)
    ensures err.None? <==> RunStageOf(s) == Started
  {
    match RunStageOf(s)
    case ConnectionFailed => Some(Wrapped("error ensuring grpc connection", s.reconnect.value))
    case NewTaskFailed => Some(Wrapped("error creating task", s.newTask.error))
    case SpecFailed => Some(Wrapped("error creating process spec", Wrapped("error getting spec from container", s.spec.error)))
    case ExecFailed => Some(Wrapped("error creating process", s.exec.error))
    case WaitFailed => Some(Wrapped("error waiting for process", s.wait.error))
    case StartFailed => Some(Wrapped("error starting process", s.start.value))
    case Started => None
  }

  /** The calls of the process part of run: Exec, then the process Wait when
      Exec succeeded, then Start when Wait succeeded. */
  function ProcessCalls(s: RunScript, execId: string, process: Process): seq<Call>
  {
    [Exec(execId, process)] + if s.exec.Failure? then []
    else [ProcessWait] + if s.wait.Failure? then [] else [ProcessStart]
  }

  /** The calls run makes: the connection check (and a reconnect when
      needed), then each step in turn, the later steps only when the earlier
      one succeeded. */
  function RunCalls(s: RunScript, execId: string, cmd: seq<string>, workingDir: string, user: string): seq<Call>
  {
    ConnectionCalls(s.isServing)
    + if NeedsReconnect(s.isServing) && s.reconnect.Some? then []
      else TaskCalls(s, execId, cmd, workingDir, user)
  }

  /** ensureConnection: the serving check, then a reconnect when it is needed. */
  function ConnectionCalls(serving: Serving): seq<Call>
  {
    [Client(IsServing)] + if NeedsReconnect(serving) then [Client(Reconnect)] else []
  }

  /** What run does once connected: NewTask, then Spec, then the process calls,
      each step only when the earlier one succeeded. */
  function TaskCalls(s: RunScript, execId: string, cmd: seq<string>, workingDir: string, user: string): seq<Call>
  {
    [NewTask] + if s.newTask.Failure? then []
    else [GetSpec] + if s.spec.Failure? then []
    else ProcessCalls(s, execId, ProcessSpecFor(s.spec, cmd, workingDir, user).value)
  }

  /** On success the calls are exactly: connection check, optional reconnect,
      NewTask, Spec, Exec of the overridden process, process Wait, process Start. */
  lemma RunCallsOnSuccess(s: RunScript, execId: string, cmd: seq<string>, workingDir: string, user: string)
    requires RunError(s).None?
    ensures RunCalls(s, execId, cmd, workingDir, user)
            == [Client(IsServing)] + (if NeedsReconnect(s.isServing) then [Client(Reconnect)] else [])
               + [NewTask, GetSpec, Exec(execId, ProcessSpecFor(s.spec, cmd, workingDir, user).value),
                  ProcessWait, ProcessStart]
  {
  }

  /** The process part of run calls Exec first, then Wait exactly when Exec
      succeeded and Start exactly when Wait did too. */
  lemma ProcessCallsContents(s: RunScript, execId: string, process: Process)
    ensures var calls := ProcessCalls(s, execId, process);
      && |calls| > 0 && calls[0] == Exec(execId, process)
      && NewTask !in calls && GetSpec !in calls
      && (forall i :: 0 <= i < |calls| ==> !calls[i].Client?)
      && (ProcessWait in calls <==> s.exec.Success?)
      && (ProcessStart in calls <==> s.exec.Success? && s.wait.Success?)
  {
  }

  /** Once connected, run calls NewTask first, Spec exactly when NewTask
      succeeded, and each process step exactly when every earlier step did. */
  lemma TaskCallsContents(s: RunScript, execId: string, cmd: seq<string>, workingDir: string, user: string)
    ensures var calls := TaskCalls(s, execId, cmd, workingDir, user);
      && NewTask in calls
      && (forall i :: 0 <= i < |calls| ==> !calls[i].Client?)
      && (GetSpec in calls <==> s.newTask.Success?)
      && ((exists i :: 0 <= i < |calls| && calls[i].Exec?) <==> s.newTask.Success? && s.spec.Success?)
      && (ProcessWait in calls <==> s.newTask.Success? && s.spec.Success? && s.exec.Success?)
      && (ProcessStart in calls <==> s.newTask.Success? && s.spec.Success? && s.exec.Success? && s.wait.Success?)
  {
    var calls := TaskCalls(s, execId, cmd, workingDir, user);
    if s.newTask.Success? && s.spec.Success? {
      var process := ProcessSpecFor(s.spec, cmd, workingDir, user).value;
      ProcessCallsContents(s, execId, process);
      assert calls == [NewTask, GetSpec] + ProcessCalls(s, execId, process);
      assert calls[2].Exec?;
    } else if s.newTask.Success? {
      assert calls == [NewTask, GetSpec];
    } else {
      assert calls == [NewTask];
    }
  }

  /** Each step is invoked exactly when every earlier step succeeded, up to
      Exec: the first failure aborts run and no later step is called. */
  lemma RunStepsInvoked(s: RunScript, execId: string, cmd: seq<string>, workingDir: string, user: string)
    ensures var calls := RunCalls(s, execId, cmd, workingDir, user);
      && (Client(Reconnect) in calls <==> NeedsReconnect(s.isServing))
      && (NewTask in calls <==> !(NeedsReconnect(s.isServing) && s.reconnect.Some?))
      && (GetSpec in calls <==> NewTask in calls && s.newTask.Success?)
      && ((exists i :: 0 <= i < |calls| && calls[i].Exec?) <==> GetSpec in calls && s.spec.Success?)
  {
    var calls := RunCalls(s, execId, cmd, workingDir, user);
    var conn := ConnectionCalls(s.isServing);
    if NeedsReconnect(s.isServing) && s.reconnect.Some? {
      assert calls == conn;
    } else {
      var rest := TaskCalls(s, execId, cmd, workingDir, user);
      TaskCallsContents(s, execId, cmd, workingDir, user);
      assert calls == conn + rest;
      assert Client(Reconnect) in rest <==> false;
      if exists i :: 0 <= i < |rest| && rest[i].Exec? {
        var i :| 0 <= i < |rest| && rest[i].Exec?;
        assert calls[|conn| + i].Exec?;
      }
      if exists i :: 0 <= i < |calls| && calls[i].Exec? {
        var i :| 0 <= i < |calls| && calls[i].Exec?;
        assert rest[i - |conn|].Exec?;
      }
    }
  }

  /** The process Wait and Start are invoked exactly when every earlier
      step succeeded, and run succeeds exactly when Start is called and
      succeeds. */
  lemma RunLaterStepsInvoked(s: RunScript, execId: string, cmd: seq<string>, workingDir: string, user: string)
    ensures var calls := RunCalls(s, execId, cmd, workingDir, user);
      && (ProcessWait in calls <==> GetSpec in calls && s.spec.Success? && s.exec.Success?)
      && (ProcessStart in calls <==> ProcessWait in calls && s.wait.Success?)
      && (RunError(s).None? <==> ProcessStart in calls && s.start.None?)
  {
    var calls := RunCalls(s, execId, cmd, workingDir, user);
    var conn := ConnectionCalls(s.isServing);
    if NeedsReconnect(s.isServing) && s.reconnect.Some? {
      assert calls == conn;
    } else {
      TaskCallsContents(s, execId, cmd, workingDir, user);
      assert calls == conn + TaskCalls(s, execId, cmd, workingDir, user);
    }
  }

  /** Once connected, Start is called only as the last call, right after
      the process Wait. */
  lemma TaskCallsEndWithStart(s: RunScript, execId: string, cmd: seq<string>, workingDir: string, user: string)
    ensures var calls := TaskCalls(s, execId, cmd, workingDir, user);
      ProcessStart in calls ==>
        |calls| >= 2 && calls[|calls| - 2] == ProcessWait && calls[|calls| - 1] == ProcessStart
  {
    var calls := TaskCalls(s, execId, cmd, workingDir, user);
    if s.newTask.Failure? {
      assert calls == [NewTask];
    } else if s.spec.Failure? {
      assert calls == [NewTask, GetSpec];
    } else {
      var process := ProcessSpecFor(s.spec, cmd, workingDir, user).value;
      assert calls == [NewTask, GetSpec] + ProcessCalls(s, execId, process);
    }
  }

  /** Wait is registered before Start: when Start is called, the call just
      before it is the process Wait, and Start is the last call. */
  lemma WaitBeforeStart(s: RunScript, execId: string, cmd: seq<string>, workingDir: string, user: string)
    ensures var calls := RunCalls(s, execId, cmd, workingDir, user);
      ProcessStart in calls ==>
        |calls| >= 2 && calls[|calls| - 2] == ProcessWait && calls[|calls| - 1] == ProcessStart
  {
    var calls := RunCalls(s, execId, cmd, workingDir, user);
    var conn := ConnectionCalls(s.isServing);
    assert ProcessStart !in conn;
    if NeedsReconnect(s.isServing) && s.reconnect.Some? {
      assert calls == conn;
    } else {
      var rest := TaskCalls(s, execId, cmd, workingDir, user);
      TaskCallsEndWithStart(s, execId, cmd, workingDir, user);
      assert calls == conn + rest;
    }
  }

  /** The outcome of the race in wait between the exit channel and the timer. */
  datatype WaitRace = ExitFirst(exitCode: UInt32, statusError: Option<Error>) | TimeoutFirst

  /** wait's result: the exit code and status error when the exit came first,
      and (-1, Canceled) when the timer fired first. */
  function WaitOutcome(race: WaitRace): (r: (int, Option<Error>))
    ensures race.ExitFirst? ==> r == (race.exitCode, race.statusError)
    ensures race.TimeoutFirst? ==> r == (-1, Some(Canceled))
    ensures r.0 == -1 <==> race.TimeoutFirst?
  {
    match race
    case ExitFirst(code, statusError) => (code, statusError)
    case TimeoutFirst => (-1 as int, Some(Canceled))
  }

  /** The outcomes of the two delete calls cleanup makes. */
  datatype CleanupScript = CleanupScript(taskDelete: Option<Error>, containerDelete: Option<Error>)

  predicate TaskDeleteAborts(cs: CleanupScript)
  {
    cs.taskDelete.Some? && !IsNotFound(cs.taskDelete.value)
  }

  function CleanupError(cs: CleanupScript): Option<Error>
  {
    if TaskDeleteAborts(cs) then Some(Wrapped("error deleting task", cs.taskDelete.value))
    else if cs.containerDelete.None? || IsNotFound(cs.containerDelete.value) then None
    else Some(Wrapped("error deleting container", cs.containerDelete.value))
  }

  /** Task delete, container delete unless the task delete failed for a reason
      other than NotFound, then the lease's done function when it is set. */
  function CleanupCalls(cs: CleanupScript, leaseDone: bool): seq<Call>
  {
    [TaskDelete] + (if TaskDeleteAborts(cs) then [] else [ContainerDelete]) + (if leaseDone then [LeaseDone] else [])
  }

  /** cleanup's error rule: a task-delete error other than NotFound is returned
      and the container is never deleted; otherwise the container delete
      decides, NotFound counting as success; the lease is released on every path. */
  lemma CleanupRule(cs: CleanupScript, leaseDone: bool)
    ensures TaskDeleteAborts(cs) ==> && ContainerDelete !in CleanupCalls(cs, leaseDone)
                                     && CleanupError(cs) == Some(Wrapped("error deleting task", cs.taskDelete.value))
    ensures !TaskDeleteAborts(cs) ==> && ContainerDelete in CleanupCalls(cs, leaseDone)
                                      && (CleanupError(cs).None? <==> cs.containerDelete.None? || IsNotFound(cs.containerDelete.value))
    ensures (LeaseDone in CleanupCalls(cs, leaseDone)) == leaseDone
    ensures leaseDone ==> CleanupCalls(cs, leaseDone)[|CleanupCalls(cs, leaseDone)| - 1] == LeaseDone
    ensures CleanupCalls(cs, leaseDone)[0] == TaskDelete
  {
  }

  /** The calls createContainer makes: nerdctl with the given arguments, then
      LoadContainer by the trimmed id when nerdctl succeeded. */
  function CreateContainerCalls(args: seq<string>, nerdctl: Result<string, Error>): seq<Call>
  {
    [Subprocess(NerdctlBinary, args)] + (if nerdctl.Success? then [Client(LoadContainer(TrimSpace(nerdctl.value)))] else [])
  }

  function DeadlineText(deadline: Option<Time>, format: Time -> string): Option<string>
  {
    match deadline
    case Some(t) => Some(format(t))
    case None => None
  }

  // ---------------------------------------------------------------------------
  // The lifecycle object

  /** createTask: the state of one execution. `calls` is the trace of runtime
      calls made so far; the logger and tracing transaction are not modelled. */
  class CreateTask {
    var opts: CreateTaskOptions
    var ctx: Option<Context>
    var hasDoneFunc: bool
    var container: Option<ContainerRef>
    var task: Option<TaskRef>
    var cmd: seq<string>
    var process: Option<ProcessRef>
    var exitChan: Option<ExitChannel>
    var labels: map<string, string>
    var expiration: Int64
    ghost var calls: seq<Call>

    /** ByCreatingTask: only the options are set. */
    constructor (opts: CreateTaskOptions)
      ensures this.opts == opts
      ensures ctx == None && !hasDoneFunc && container == None && task == None && cmd == []
      ensures process == None && exitChan == None && labels == map[] && expiration == 0 && calls == []
    {
      this.opts := opts;
      ctx := None;
      hasDoneFunc := false;
      container := None;
      task := None;
      cmd := [];
      process := None;
      exitChan := None;
      labels := map[];
      expiration := 0;
      calls := [];
    }

    /** create: stores the command and expiration, takes a lease on a
        namespaced context, builds the labels and creates the container.
        `labelOrder` is the order in which the labels were passed to nerdctl. */
    method Create(c: Containerd, cmd: seq<string>, lease: Result<Option<Time>, Error>, format: Time -> string,
                  suffix: string, nerdctl: Result<string, Error>, loaded: Result<ContainerRef, Error>)
      returns (err: Option<Error>, ghost labelOrder: seq<string>)
      requires NameableDetails(opts.commandDetails)
      modifies this`cmd, this`expiration, this`calls, this`ctx, this`hasDoneFunc, this`labels, this`container
      ensures this.cmd == cmd && expiration == Expiration(opts.commandTimeout)
      ensures lease.Failure? ==>
                && err == Some(Wrapped("error creating containerd context", lease.error))
                && calls == old(calls) + [Client(WithLease(expiration))]
                && ctx == old(ctx) && hasDoneFunc == old(hasDoneFunc) && labels == old(labels)
                && container == old(container)
      ensures lease.Success? ==>
                && ctx == Some(Context(c.namespace, lease.value)) && hasDoneFunc
                && labels == LabelSet(opts.commandDetails, DeadlineText(lease.value, format))
                && IsEnumeration(labelOrder, labels.Keys) && KeysIn(labelOrder, labels)
                && calls == old(calls) + [Client(WithLease(expiration))]
                            + CreateContainerCalls(CreateArgs(c.namespace, GenerateContainerName(opts.commandDetails, suffix),
                                                              opts, labels, labelOrder), nerdctl)
      ensures lease.Success? && nerdctl.Failure? ==>
                && err == Some(Wrapped("error creating container", Wrapped("nerdctl: error creating container", nerdctl.error)))
                && container == old(container)
      ensures lease.Success? && nerdctl.Success? && loaded.Success? ==> err == None && container == Some(loaded.value)
      ensures lease.Success? && nerdctl.Success? && loaded.Failure? ==>
                err == Some(Wrapped("error creating container", loaded.error)) && container == old(container)
    {
      this.cmd := cmd;
      expiration := Expiration(opts.commandTimeout);
      calls := calls + [Client(WithLease(expiration))];
      if lease.Failure? {
        err := Some(Wrapped("error creating containerd context", lease.error));
        labelOrder := [];
      } else {
        err, labelOrder := CreateInContext(c, lease.value, format, suffix, nerdctl, loaded);
      }
    }

    /** The part of create after the lease was taken: the context, the labels
        and the container. */
    method CreateInContext(c: Containerd, deadline: Option<Time>, format: Time -> string,
                           suffix: string, nerdctl: Result<string, Error>, loaded: Result<ContainerRef, Error>)
      returns (err: Option<Error>, ghost labelOrder: seq<string>)
      requires NameableDetails(opts.commandDetails)
      modifies this`calls, this`ctx, this`hasDoneFunc, this`labels, this`container
      ensures ctx == Some(Context(c.namespace, deadline)) && hasDoneFunc
      ensures labels == LabelSet(opts.commandDetails, DeadlineText(deadline, format))
      ensures IsEnumeration(labelOrder, labels.Keys) && KeysIn(labelOrder, labels)
      ensures calls == old(calls) + CreateContainerCalls(CreateArgs(c.namespace, GenerateContainerName(opts.commandDetails, suffix),
                                                                   opts, labels, labelOrder), nerdctl)
      ensures nerdctl.Failure? ==>
                && err == Some(Wrapped("error creating container", Wrapped("nerdctl: error creating container", nerdctl.error)))
                && container == old(container)
      ensures nerdctl.Success? && loaded.Success? ==> err == None && container == Some(loaded.value)
      ensures nerdctl.Success? && loaded.Failure? ==>
                err == Some(Wrapped("error creating container", loaded.error)) && container == old(container)
    {
      ctx := Some(Context(c.namespace, deadline));
      hasDoneFunc := true;
      BuildLabels(format);
      var created, made;
      created, made, labelOrder := CreateContainer(c, suffix, nerdctl, loaded);
      calls := calls + made;
      if created.Failure? {
        err := Some(Wrapped("error creating container", created.error));
      } else {
        container := Some(created.value);
        err := None;
      }
    }

    /** buildLabels: fills the label map from the identity triple and the
        deadline of the lease context, formatted by `format` (RFC 3339). */
    method BuildLabels(format: Time -> string)
      requires ctx.Some?
      modifies this`labels
      ensures labels == LabelSet(opts.commandDetails, DeadlineText(ctx.value.deadline, format))
    {
      var m: map<string, string> := map[];
      m := m[OwnerLabel := Chains];
      m := m[CommandExecutorIdLabel := FormatInt(opts.commandDetails.executorId)];
      m := m[ChainExecutorIdLabel := FormatInt(opts.commandDetails.chainExecutorId)];
      m := m[CommandResultIdLabel := FormatInt(opts.commandDetails.resultId)];
      if ctx.value.deadline.Some? {
        m := m[DeadlineLabel := format(ctx.value.deadline.value)];
      }
      labels := m;
    }

    /** createContainer: runs nerdctl with the built arguments, then loads the
        container by the id nerdctl printed, trimmed. `order` is the order in
        which the labels were passed. */
    method CreateContainer(c: Containerd, suffix: string, nerdctl: Result<string, Error>,
                           loaded: Result<ContainerRef, Error>)
      returns (r: Result<ContainerRef, Error>, made: seq<Call>, ghost order: seq<string>)
      requires NameableDetails(opts.commandDetails)
      ensures IsEnumeration(order, labels.Keys) && KeysIn(order, labels)
      ensures made == CreateContainerCalls(
                CreateArgs(c.namespace, GenerateContainerName(opts.commandDetails, suffix), opts, labels, order), nerdctl)
      ensures nerdctl.Failure? ==> r == Failure(Wrapped("nerdctl: error creating container", nerdctl.error))
      ensures nerdctl.Success? ==> r == loaded
    {
      var args;
      args, order := BuildCreateContainerArgs(c.namespace, opts, labels, suffix);
      made := [Subprocess(NerdctlBinary, args)];
      if nerdctl.Failure? {
        r := Failure(Wrapped("nerdctl: error creating container", nerdctl.error));
      } else {
        var containerId := TrimSpace(nerdctl.value);
        made := made + [Client(LoadContainer(containerId))];
        r := loaded;
      }
    }

    /** ensureConnection: checks liveness and reconnects once when the check
        says not serving or fails; only a failed reconnect is an error. */
    method EnsureConnection(c: Containerd, serving: Serving, reconnect: Option<Error>) returns (err: Option<Error>)
      modifies this`calls
      ensures calls == old(calls) + ConnectionCalls(serving)
      ensures err.Some? <==> NeedsReconnect(serving) && reconnect.Some?
      ensures err.Some? ==> err.value == Wrapped("error ensuring grpc connection", reconnect.value)
    {
      calls := calls + [Client(IsServing)];
      if NeedsReconnect(serving) {
        calls := calls + [Client(Reconnect)];
        if reconnect.Some? {
          return Some(Wrapped("error ensuring grpc connection", reconnect.value));
        }
      }
      return None;
    }

    /** createProcessSpec: fetches the container's spec and overrides its process. */
    method CreateProcessSpec(fetched: Result<Process, Error>) returns (spec: Result<Process, Error>)
      requires container.Some?
      modifies this`calls
      ensures calls == old(calls) + [GetSpec]
      ensures spec == ProcessSpecFor(fetched, cmd, opts.workingDir, opts.user)
    {
      calls := calls + [GetSpec];
      spec := ProcessSpecFor(fetched, cmd, opts.workingDir, opts.user);
    }

    /** run: connection check, NewTask, Spec, Exec as "<container id>-task",
        process Wait, process Start; the first failure aborts. */
    method Run(c: Containerd, s: RunScript) returns (err: Option<Error>)
      requires container.Some?
      modifies this`calls, this`task, this`process, this`exitChan
      ensures err == RunError(s)
      ensures calls == old(calls) + RunCalls(s, container.value.id + "-task", cmd, opts.workingDir, opts.user)
      ensures task == if StageRank(RunStageOf(s)) >= 2 then Some(s.newTask.value) else old(task)
      ensures process == if StageRank(RunStageOf(s)) >= 4 then Some(s.exec.value) else old(process)
      ensures exitChan == if StageRank(RunStageOf(s)) >= 5 then Some(s.wait.value)
                          else if StageRank(RunStageOf(s)) == 4 then None
                          else old(exitChan)
    {
      err := EnsureConnection(c, s.isServing, s.reconnect);
      if err.Some? {
        assert RunStageOf(s) == ConnectionFailed;
      } else {
        err := RunTask(s, container.value.id + "-task");
        assert calls == old(calls) + (ConnectionCalls(s.isServing)
          + TaskCalls(s, container.value.id + "-task", cmd, opts.workingDir, opts.user));
      }
    }

    /** The part of run after the connection check: task, spec, then the process. */
    method RunTask(s: RunScript, execId: string) returns (err: Option<Error>)
      requires container.Some?
      requires !(NeedsReconnect(s.isServing) && s.reconnect.Some?)
      modifies this`calls, this`task, this`process, this`exitChan
      ensures err == RunError(s)
      ensures calls == old(calls) + TaskCalls(s, execId, cmd, opts.workingDir, opts.user)
      ensures task == if StageRank(RunStageOf(s)) >= 2 then Some(s.newTask.value) else old(task)
      ensures process == if StageRank(RunStageOf(s)) >= 4 then Some(s.exec.value) else old(process)
      ensures exitChan == if StageRank(RunStageOf(s)) >= 5 then Some(s.wait.value)
                          else if StageRank(RunStageOf(s)) == 4 then None
                          else old(exitChan)
    {
      var created := CreateTaskStep(s.newTask);
      if created.Failure? {
        assert RunStageOf(s) == NewTaskFailed;
        err := Some(Wrapped("error creating task", created.error));
      } else {
        task := Some(created.value);
        var spec := CreateProcessSpec(s.spec);
        if spec.Failure? {
          assert RunStageOf(s) == SpecFailed;
          err := Some(Wrapped("error creating process spec", spec.error));
        } else {
          err := StartProcess(s, execId, spec.value);
        }
      }
    }

    /** createTask: asks the container for a new task. */
    method CreateTaskStep(created: Result<TaskRef, Error>) returns (r: Result<TaskRef, Error>)
      modifies this`calls
      ensures calls == old(calls) + [NewTask]
      ensures r == created
    {
      calls := calls + [NewTask];
      r := created;
    }

    /** The process part of run: Exec, then Wait, registered before Start,
        then Start; reached once the connection, the task and the spec are in
        place. */
    method StartProcess(s: RunScript, execId: string, spec: Process) returns (err: Option<Error>)
      requires StageRank(RunStageOf(s)) >= 3
      modifies this`calls, this`process, this`exitChan
      ensures err == RunError(s)
      ensures calls == old(calls) + ProcessCalls(s, execId, spec)
      ensures process == if StageRank(RunStageOf(s)) >= 4 then Some(s.exec.value) else old(process)
      ensures exitChan == if StageRank(RunStageOf(s)) >= 5 then Some(s.wait.value)
                          else if StageRank(RunStageOf(s)) == 4 then None
                          else old(exitChan)
    {
      calls := calls + [Exec(execId, spec)];
      if s.exec.Failure? {
        assert RunStageOf(s) == ExecFailed;
        err := Some(Wrapped("error creating process", s.exec.error));
      } else {
        process := Some(s.exec.value);
        // wait must always be registered before start
        calls := calls + [ProcessWait];
        if s.wait.Failure? {
          assert RunStageOf(s) == WaitFailed;
          exitChan := None;
          err := Some(Wrapped("error waiting for process", s.wait.error));
        } else {
          exitChan := Some(s.wait.value);
          calls := calls + [ProcessStart];
          if s.start.Some? {
            assert RunStageOf(s) == StartFailed;
            err := Some(Wrapped("error starting process", s.start.value));
          } else {
            assert RunStageOf(s) == Started;
            err := None;
          }
        }
      }
    }

    /** wait: the race decides the result; cleanup then runs once and its
        error is discarded. */
    method Wait(c: Containerd, race: WaitRace, cleanup: CleanupScript) returns (exitCode: int, err: Option<Error>)
      requires task.Some? && container.Some?
      modifies this`calls
      ensures (exitCode, err) == WaitOutcome(race)
      ensures calls == old(calls) + [AwaitExit(expiration)] + CleanupCalls(cleanup, hasDoneFunc && ctx.Some?)
    {
      calls := calls + [AwaitExit(expiration)];
      match race {
        case ExitFirst(code, statusError) =>
          exitCode, err := code, statusError;
        case TimeoutFirst =>
          exitCode, err := -1, Some(Canceled);
      }
      var discarded := Cleanup(c, cleanup);
    }

    /** setEnv: refuses to replace a non-empty environment. */
    method SetEnv(env: seq<string>) returns (err: Option<Error>)
      modifies this`opts
      ensures |old(opts).env| > 0 ==> err == Some(Message("dexec: Config.Env already set")) && opts == old(opts)
      ensures |old(opts).env| == 0 ==> err == None && opts == old(opts).(env := env)
    {
      if |opts.env| > 0 {
        return Some(Message("dexec: Config.Env already set"));
      }
      opts := opts.(env := env);
      return None;
    }

    /** setDir: refuses to replace a non-empty working directory. */
    method SetDir(dir: string) returns (err: Option<Error>)
      modifies this`opts
      ensures old(opts).workingDir != "" ==> err == Some(Message("dexec: Config.WorkingDir already set")) && opts == old(opts)
      ensures old(opts).workingDir == "" ==> err == None && opts == old(opts).(workingDir := dir)
    {
      if opts.workingDir != "" {
        return Some(Message("dexec: Config.WorkingDir already set"));
      }
      opts := opts.(workingDir := dir);
      return None;
    }

    /** getID: the loaded container's id. */
    method GetId() returns (id: string)
      requires container.Some?
      ensures id == container.value.id
    {
      id := container.value.id;
    }

    /** kill is cleanup. */
    method Kill(c: Containerd, cs: CleanupScript) returns (err: Option<Error>)
      requires task.Some? && container.Some?
      modifies this`calls
      ensures err == CleanupError(cs)
      ensures calls == old(calls) + CleanupCalls(cs, hasDoneFunc && ctx.Some?)
    {
      err := Cleanup(c, cs);
    }

    /** cleanup: deletes the task (killing its process), then the container
        with its snapshot; the lease is released last, on every path. */
    method Cleanup(c: Containerd, cs: CleanupScript) returns (err: Option<Error>)
      requires task.Some? && container.Some?
      modifies this`calls
      ensures err == CleanupError(cs)
      ensures calls == old(calls) + CleanupCalls(cs, hasDoneFunc && ctx.Some?)
    {
      calls := calls + [TaskDelete];
      if cs.taskDelete.Some? && !IsNotFound(cs.taskDelete.value) {
        err := Some(Wrapped("error deleting task", cs.taskDelete.value));
      } else {
        calls := calls + [ContainerDelete];
        if cs.containerDelete.None? || IsNotFound(cs.containerDelete.value) {
          err := None;
        } else {
          err := Some(Wrapped("error deleting container", cs.containerDelete.value));
        }
      }
      // the deferred lease release
      if hasDoneFunc && ctx.Some? {
        calls := calls + [LeaseDone];
      }
    }
  }
}
