# go-dexec containerd core, modelled in Dafny

go-dexec runs commands in containers behind an `os/exec`-like interface. This
project models the core of its containerd backend:

- **The task lifecycle object** `createTask` (containerd_execution.go). It:
  - takes a lease;
  - builds the label map;
  - names the container `chains-<ids>-<suffix>`;
  - creates the container with a `nerdctl create` argument vector;
  - loads the container, then runs it: connection check, NewTask, Spec, Exec, Wait, Start;
  - races the exit against the timeout;
  - cleans up: task delete, container delete, lease release.
- **The fleet statistics scan** (containerd_stats.go). It lists the containers that carry the owner label and tallies eight counters from each container's deadline label and task status.
- **Backend selection and mount conversion** (cmd_factory.go): the `Command` type switch, the configuration → `CreateTaskOptions` mapping, `convertMounts`, `convertMount` and `isReadOnly`.
- **The thin constructors and dispatchers** that complete the picture: `Containerd.Command` (containerd.go), and `Stats` with `GetStats` (stats.go).

Every runtime call is a *scripted outcome* given as an input: a success value, NotFound, or another error. The `CreateTask` class keeps a ghost trace `calls` of the calls it makes, in order. So "Wait before Start", "container Delete is never invoked" and "the lease is released on every path" are statements about that trace. The clock is a parameter, and so are RFC 3339 parsing and formatting (section 5.6 of RFC 3339), as an abstract partial function and an abstract function.

Files, one module each except where noted:

- common.dfy (`Common`): Option, Result, Go-style errors with `errdefs.IsNotFound`, and int64/uint32 arithmetic.
- text.dfy (`Text`): strconv base-10 formatting and parsing, `strings.TrimSpace`, and hyphen join and split.
- config.dfy (`Config`): the records of config.go.
- containerd.dfy (`ContainerdBackend`).
- containerd_execution.dfy (`ContainerdExecution`).
- containerd_stats.dfy (`ContainerdStats`).
- containerd_stats_test.dfy (`ContainerdStatsTest`): the ten-container vector of containerd_stats_test.go.
- stats.dfy (`StatsRecord`, `StatsQuery`).
- cmd_factory.dfy (`CmdFactory`).

In these places the code differs from the behaviour one might expect, and the model follows the code:

- **Mount options.** The nerdctl `-v` value is `source:destination` only. Mount options are never emitted (containerd_execution.go:162).
- **Optional deadline label.** The deadline label is present only when the lease context has a deadline (containerd_execution.go:192).
- **Relative timeout.** `wait` times out on the relative duration `CommandTimeout + 5 minutes` (containerd_execution.go:75, 280), not on an absolute deadline. The lease expiration is that same duration (containerd_execution.go:81).
- **nerdctl failure.** A nerdctl failure returns the subprocess error wrapped. The captured standard error is not added (containerd_execution.go:140-141).
- **Namespace field.** `Command` reads `config.Namespace` (cmd_factory.go:21), which config.go does not declare. The model's `Config` carries a `namespace` field.

## Model

| member | source | states |
|---|---|---|
| Common.WrapInt64 | containerd_execution.go:75 | Go int64 addition wraps: the result equals the exact sum when that is in range, and is congruent to it modulo 2^64 |
| Common.LowBits32 | containerd_execution.go:269 | `uint32(uid)` keeps the low 32 bits: identity on [0, 2^32), congruent modulo 2^32 otherwise |
| Text.FormatNat | containerd_execution.go:187-189 | base-10 digits of a natural: non-empty, all digits, one digit exactly below 10 |
| Text.FormatInt | containerd_execution.go:187-189 | `strconv.FormatInt(v, 10)`: non-empty, digits for v ≥ 0, a leading '-' then digits for v < 0 |
| Text.DigitsValueOfFormat | containerd_execution.go:187-189 | the digits FormatNat writes denote the number written |
| Text.ParseInt | containerd_execution.go:268 | `strconv.ParseInt(s, 10, 64)`: a result needs a non-empty string, and a negative result a leading '-' |
| Text.ParseFormatRoundTrip | containerd_execution.go:187-189 | parsing a formatted int64 gives it back, so the id labels can be read again |
| Text.ParseIntDigits | containerd_execution.go:268 | one or more decimal digits, optionally after '+' or '-' and with leading zeros allowed, parse to their signed value when it is in the int64 range, and give a range error otherwise |
| Text.ParseIntShape | containerd_execution.go:268 | only digits alone or a sign followed by digits parse, so the empty string, a lone sign and anything else give an error; with ParseIntDigits this fixes ParseInt on every input |
| Text.ParseIntRejectsNonDigit | containerd_execution.go:268 | a string with a character that is neither a digit nor a leading sign does not parse |
| Text.TrimLeft | containerd_execution.go:143 | removes exactly the leading white space: a suffix of the input, white space before it, no leading white space after |
| Text.TrimRight | containerd_execution.go:143 | removes exactly the trailing white space: a prefix of the input, white space after it, no trailing white space left |
| Text.TrimSpace | containerd_execution.go:143 | the trimmed id is no longer than the printed output |
| Text.TrimSpaceShape | containerd_execution.go:143 | the trimmed id is an infix obtained by removing only white space, and neither starts nor ends with white space |
| Text.TrimLeftNoLeadingSpace | containerd_execution.go:143 | a string that does not start with white space is left alone by the left trim |
| Text.TrimSpaceIdempotent | containerd_execution.go:143 | trimming twice is trimming once |
| Text.JoinHyphenEndsWithLast | containerd_execution.go:181 | a hyphen-joined string ends with its last field |
| Text.SplitHyphen | containerd_execution.go:181 | splitting on '-' gives at least one field |
| Text.SplitHyphenNoSeparator | containerd_execution.go:181 | a string without '-' splits into itself alone |
| Text.SplitHyphenCons | containerd_execution.go:181 | splitting `x-y` with a hyphen-free x gives x followed by the fields of y |
| Text.NoDoubleHyphenCons | containerd_execution.go:181 | a non-empty hyphen-free field joined to a tail that has no "--" and does not start with '-' has no "--" |
| Text.SplitJoinHyphen | containerd_execution.go:181 | splitting on '-' undoes joining with '-' when no field holds a '-' |
| Text.JoinHyphenNoDouble | containerd_execution.go:179-181 | joining hyphen-free fields, all but the last non-empty, gives no "--" and no leading '-' |
| ContainerdBackend.Command | containerd.go:31-39 | Path is `name`, Args holds the same elements in the same order, the execution is stored unchanged, the receiver with its namespace is the client, and no New Relic application is attached |
| ContainerdExecution.Expiration | containerd_execution.go:74-76 | expiration = CommandTimeout + 5 minutes (int64 wrap-around); at least the buffer for a non-negative in-range timeout |
| ContainerdExecution.LabelSet | containerd_execution.go:184-197 | the label map always holds owner→chains, and holds the deadline label iff the context has a deadline |
| ContainerdExecution.LabelSetContents | containerd_execution.go:184-197 | owner→chains and the three ids in base 10 are always present; the deadline label is present iff the context has a deadline, holding its formatted text; there are no other keys, so 4 or 5 in all |
| ContainerdExecution.LabelIdsRoundTrip | containerd_execution.go:186-189 | the three id labels parse back to the identity triple |
| ContainerdExecution.Abs | containerd_execution.go:199-205 | abs is non-negative and equals v or -v |
| ContainerdExecution.GenerateContainerName | containerd_execution.go:174-182 | the name starts with `chains-` |
| ContainerdExecution.NameFieldsHyphenFree | containerd_execution.go:174-182 | of the name's fields, only the random suffix may hold a '-' |
| ContainerdExecution.DigitsHaveNoHyphen | containerd_execution.go:181 | a decimal rendering of an abs value holds no '-' |
| ContainerdExecution.ContainerNameFields | containerd_execution.go:174-182 | the name splits on '-' into exactly "chains", the three abs ids in decimal (chain executor, executor, result) and the suffix, as the test at containerd_execution_test.go:49-62 expects |
| ContainerdExecution.ContainerNameIds | containerd_execution.go:181 | the id fields of the name parse back to the absolute ids |
| ContainerdExecution.ContainerNameSuffix | containerd_execution.go:181 | the name ends with the random suffix |
| ContainerdExecution.ContainerNameNoDoubleHyphen | containerd_execution.go:180-181 | with a hyphen-free suffix the name never contains "--" |
| ContainerdExecution.MountFlags | containerd_execution.go:161-163 | two arguments per mount |
| ContainerdExecution.EnvFlags | containerd_execution.go:164-166 | two arguments per environment entry |
| ContainerdExecution.LabelFlags | containerd_execution.go:167-169 | two arguments per visited label |
| ContainerdExecution.MountFlagsAt | containerd_execution.go:161-163 | pair i is `-v` and mount i's `source:destination` |
| ContainerdExecution.EnvFlagsAt | containerd_execution.go:164-166 | pair i is `-e` and entry i |
| ContainerdExecution.LabelFlagsAt | containerd_execution.go:167-169 | pair i is `--label` and `key=value` of the i-th visited key |
| ContainerdExecution.EnumerationStep | containerd_execution.go:167 | visiting a not-yet-visited key extends an enumeration of the visited keys |
| ContainerdExecution.EnumerationCovers | containerd_execution.go:167 | an iteration order of the map has one entry per key, lists only keys, misses none and repeats none |
| ContainerdExecution.ListedWithinLabels | containerd_execution.go:167-169 | every `key=value` in the label section comes from the label map |
| ContainerdExecution.LabelsWithinListed | containerd_execution.go:167-169 | every label of the map appears in the label section when every key is visited |
| ContainerdExecution.ListedLabelValues | containerd_execution.go:167-169 | in any iteration order, the label section has `--label` at even positions and exactly the map's `key=value` strings as values (set equality) |
| ContainerdExecution.BuildCreateContainerArgs | containerd_execution.go:158-172 | the vector is the head, the mount pairs, the env pairs, the label pairs in an order that enumerates the map's keys, then the image; read position by position it has that layout, its label section holding exactly the map's `key=value` strings |
| ContainerdExecution.MountFlagsOf | containerd_execution.go:161-163 | the mount loop appends exactly the mount pairs, in order |
| ContainerdExecution.EnvFlagsOf | containerd_execution.go:164-166 | the env loop appends exactly the env pairs, in order |
| ContainerdExecution.LabelFlagsOf | containerd_execution.go:167-169 | the label loop visits every key exactly once, in some order, and appends the pairs in that order: two arguments per label, `--label` at even positions, and as values exactly the map's `key=value` strings |
| ContainerdExecution.MountsAt | containerd_execution.go:161-163 | the mount section read position by position |
| ContainerdExecution.EnvAt | containerd_execution.go:164-166 | the env section read position by position |
| ContainerdExecution.ThirdSection | containerd_execution.go:160-170 | a section of the vector sits right after the ones appended before it |
| ContainerdExecution.CreateArgsHead | containerd_execution.go:160-170 | the vector starts with exactly `--namespace ns create --name <name> --user <user>`, and its length is 8 + 2·mounts + 2·env + 2 per visited label key (2 per label when the keys are an enumeration, as CreateArgsLayout states) |
| ContainerdExecution.CreateArgsMounts | containerd_execution.go:161-163 | from position 7, `-v src:dst` per mount in mount order, options not emitted |
| ContainerdExecution.CreateArgsEnv | containerd_execution.go:164-166 | after the mounts, `-e entry` per environment entry in order |
| ContainerdExecution.CreateArgsLabels | containerd_execution.go:167-170 | after the env pairs come the label pairs, and the image is last |
| ContainerdExecution.CreateArgsLayout | containerd_execution.go:158-172 | whatever order the labels are visited in, the vector has the full layout: head, mounts, env, a label section equal as a set to the label map, image |
| ContainerdExecution.ProcessSpecFor | containerd_execution.go:259-272 | fails iff fetching the spec fails, with that error wrapped; otherwise Args = cmd, Cwd = WorkingDir, env and gid kept, and UID = low 32 bits of User when it parses as a base-10 int64, else unchanged |
| ContainerdExecution.ProcessSpecNumericUser | containerd_execution_test.go:64-85 | the test's spec: user "61000" gives UID 61000 with the given Args and Cwd |
| ContainerdExecution.ProcessSpecNonNumericUser | containerd_execution.go:268-271 | a non-numeric user leaves the UID unchanged and is not an error |
| ContainerdExecution.RunError | containerd_execution.go:207-240 | run fails iff some step fails, with the error of the first failing step wrapped in that step's message |
| ContainerdExecution.RunCallsOnSuccess | containerd_execution.go:207-240 | on success the calls are exactly: IsServing, Reconnect when needed, NewTask, Spec, Exec of the overridden process, Wait, Start |
| ContainerdExecution.ProcessCallsContents | containerd_execution.go:224-238 | the process part calls Exec first, Wait iff Exec succeeded, and Start iff Wait did too |
| ContainerdExecution.TaskCallsContents | containerd_execution.go:212-238 | once connected, NewTask is called, Spec iff NewTask succeeded, and each later step iff every earlier one succeeded; no client call is made |
| ContainerdExecution.RunStepsInvoked | containerd_execution.go:207-253 | Reconnect is called iff the check says not serving or errs; NewTask iff the connection did not fail; Spec and Exec iff every earlier step succeeded |
| ContainerdExecution.RunLaterStepsInvoked | containerd_execution.go:228-239 | Wait and Start are called iff every earlier step succeeded, and run succeeds iff Start is called and succeeds |
| ContainerdExecution.TaskCallsEndWithStart | containerd_execution.go:230-236 | once connected, Start is only ever the last call, right after Wait |
| ContainerdExecution.WaitBeforeStart | containerd_execution.go:230-236 | when Start is called, the call just before it is the process Wait and Start is the last call |
| ContainerdExecution.WaitOutcome | containerd_execution.go:277-283 | exit first gives (exit code, status error); timeout first gives (-1, Canceled); -1 marks exactly the timeout, since exit codes are uint32 |
| ContainerdExecution.CleanupRule | containerd_execution.go:315-329 | a task-delete error other than NotFound is returned and container Delete is never called; otherwise the container delete decides, nil or NotFound giving nil; the lease is released last iff it and the context are set; task delete comes first |
| ContainerdExecution.CreateTask.constructor | containerd_execution.go:47-49 | ByCreatingTask sets only the options |
| ContainerdExecution.CreateTask.Create | containerd_execution.go:72-99 | stores cmd and expiration and takes a lease; on a lease error returns it wrapped and touches nothing else; otherwise stores the context and done function, sets the labels, runs nerdctl with the built vector then LoadContainer, and stores the container only on success, each failure wrapped as in the source |
| ContainerdExecution.CreateTask.CreateInContext | containerd_execution.go:86-98 | the part of create after the lease: the context, labels, the creation calls and the container or the wrapped error |
| ContainerdExecution.CreateTask.BuildLabels | containerd_execution.go:184-197 | the label field becomes the label set of the identity triple and the context's formatted deadline |
| ContainerdExecution.CreateTask.CreateContainer | containerd_execution.go:110-125 | nerdctl runs with the built vector; its failure is wrapped and nothing is loaded; otherwise the container is loaded by the trimmed id |
| ContainerdExecution.CreateTask.EnsureConnection | containerd_execution.go:242-253 | IsServing, then Reconnect iff not serving or the check errs; an error only when the reconnect fails |
| ContainerdExecution.CreateTask.CreateProcessSpec | containerd_execution.go:259-272 | calls Spec once and returns ProcessSpecFor of the fetched spec, the stored cmd, working dir and user |
| ContainerdExecution.CreateTask.Run | containerd_execution.go:207-240 | returns RunError, makes exactly RunCalls with Exec id `<container id>-task`, and stores task, process and exit channel for the steps that were reached |
| ContainerdExecution.CreateTask.RunTask | containerd_execution.go:212-239 | run after a successful connection check: the task, spec and process steps with their stored fields |
| ContainerdExecution.CreateTask.CreateTaskStep | containerd_execution.go:254-257 | one NewTask call whose outcome is returned unchanged |
| ContainerdExecution.CreateTask.StartProcess | containerd_execution.go:224-239 | Exec, then Wait registered before Start, then Start; the process and exit channel are stored as reached |
| ContainerdExecution.CreateTask.Wait | containerd_execution.go:274-284 | the result is WaitOutcome of the race; cleanup runs exactly once after the wait on the expiration, and its error does not change the result |
| ContainerdExecution.CreateTask.SetEnv | containerd_execution.go:286-292 | a non-empty Env gives "already set" and leaves the options unchanged; otherwise Env is replaced and nothing else changes |
| ContainerdExecution.CreateTask.SetDir | containerd_execution.go:294-300 | a non-empty WorkingDir gives "already set" and leaves the options unchanged; otherwise WorkingDir is replaced |
| ContainerdExecution.CreateTask.GetId | containerd_execution.go:302-304 | the loaded container's id |
| ContainerdExecution.CreateTask.Kill | containerd_execution.go:306-310 | kill has exactly cleanup's result and calls |
| ContainerdExecution.CreateTask.Cleanup | containerd_execution.go:312-329 | returns CleanupError and makes exactly CleanupCalls: task delete, container delete unless the task delete failed other than NotFound, lease release when set |
| ContainerdStats.ContainersFilterText | containerd_stats.go:16 | the listing filter is exactly `labels."wk/owner"==chains` |
| ContainerdStats.ProcessContainers | containerd_stats.go:23-63 | the loop's final stats equal the tally of the containers |
| ContainerdStats.CountLabels | containerd_stats.go:26-37 | the label branch adds exactly the label contribution to the running stats |
| ContainerdStats.CountTask | containerd_stats.go:38-61 | the task branch adds exactly the task contribution to the running stats |
| ContainerdStats.GetContainerdStats | containerd_stats.go:13-64 | a listing error gives all-zero Stats and the wrapped error without examining any container; otherwise the tally of the listed containers and no error |
| ContainerdStats.LabelClasses | containerd_stats.go:26-37 | DeadlineExceeded +1 iff a deadline parses and is before now; Errors +1 iff the labels cannot be read or the deadline does not parse; a future deadline or no label changes nothing |
| ContainerdStats.TaskClasses | containerd_stats.go:38-61 | exactly the counter of the found task's status +1; NotFound changes nothing; another lookup error or a status error is one error; an unlisted status increments nothing |
| ContainerdStats.ContainerClasses | containerd_stats.go:25-62 | each counter of a container's contribution is the indicator of its class |
| ContainerdStats.LabelErrors | containerd_stats.go:30-37 | the label branch adds one error iff its labels are anomalous |
| ContainerdStats.TaskErrors | containerd_stats.go:54-61 | the task branch adds one error iff its task is anomalous |
| ContainerdStats.ContainerErrors | containerd_stats.go:25-62 | a container adds one error per anomalous branch |
| ContainerdStats.ContainerDeltaBounds | containerd_stats.go:25-62 | a container adds non-negative counts, at most two in total |
| ContainerdStats.LabelBounds | containerd_stats.go:26-37 | the label branch adds at most one |
| ContainerdStats.TaskBounds | containerd_stats.go:38-61 | the task branch adds at most one |
| ContainerdStats.SumOfBounds | containerd_stats.go:23-63 | summing contributions of at most two gives at most 2·n |
| ContainerdStats.TallyBounds | containerd_stats.go:23-63 | all counters are non-negative and their sum is at most twice the number of containers |
| ContainerdStats.TallyStep | containerd_stats.go:25-62 | one more container adds its contribution |
| ContainerdStats.SumOfCounts | containerd_stats.go:23-63 | a counter fed by two classes counts the members of both |
| ContainerdStats.TallyCounts | containerd_stats.go:23-63 | each status counter counts the containers with that status, DeadlineExceeded those past their deadline, and Errors the anomalous label and task branches |
| ContainerdStats.CountIfAppend | containerd_stats.go:25 | counts add over concatenation |
| ContainerdStats.CountIfRemove | containerd_stats.go:25 | removing one container removes its indicator |
| ContainerdStats.MultisetRemove | containerd_stats.go:25 | removing position j removes one occurrence of that container |
| ContainerdStats.CountIfPermutation | containerd_stats.go:25 | a class count does not depend on container order |
| ContainerdStats.TallyPermutation | containerd_stats.go:23-63 | the tally does not depend on the order in which containers are listed |
| ContainerdStatsTest.MockContainers | containerd_stats_test.go:56-67 | the first k mocks of the test, k of them |
| ContainerdStatsTest.SumOfSnoc | containerd_stats.go:25-62 | appending a container adds its contribution |
| ContainerdStatsTest.RunningDelta | containerd_stats_test.go:15-16 | a running task with no labels adds Running 1 |
| ContainerdStatsTest.PassedDeadlineDelta | containerd_stats_test.go:17-19 | a past deadline with a stopped task adds DeadlineExceeded 1 and Stopped 1 |
| ContainerdStatsTest.MalformedDeadlineDelta | containerd_stats_test.go:20-22 | an unparseable deadline with a created task adds Errors 1 and Created 1 |
| ContainerdStatsTest.FutureDeadlineDelta | containerd_stats_test.go:23-25 | a future deadline with a running task adds Running 1 only |
| ContainerdStatsTest.UnknownDelta | containerd_stats_test.go:26-28 | an unknown status adds Unknown 1 |
| ContainerdStatsTest.StatusErrorDelta | containerd_stats_test.go:29-31 | a status error adds Errors 1 and no status |
| ContainerdStatsTest.TaskErrorDelta | containerd_stats_test.go:32-34 | a task lookup error adds Errors 1 |
| ContainerdStatsTest.TaskNotFoundDelta | containerd_stats_test.go:35-37 | a NotFound task lookup adds nothing |
| ContainerdStatsTest.PausingDelta | containerd_stats_test.go:39-40 | a pausing task adds Pausing 1 |
| ContainerdStatsTest.PausedDelta | containerd_stats_test.go:42-43 | a paused task adds Paused 1 |
| ContainerdStatsTest.MockDeltas | containerd_stats_test.go:15-43 | every mock contributes what the test's comments say |
| ContainerdStatsTest.SumAfter1 | containerd_stats_test.go:56-57 | the running total after the first mock |
| ContainerdStatsTest.SumAfter2 | containerd_stats_test.go:56-58 | the running total after two mocks |
| ContainerdStatsTest.SumAfter3 | containerd_stats_test.go:56-59 | the running total after three mocks |
| ContainerdStatsTest.SumAfter4 | containerd_stats_test.go:56-60 | the running total after four mocks |
| ContainerdStatsTest.SumAfter5 | containerd_stats_test.go:56-61 | the running total after five mocks |
| ContainerdStatsTest.SumAfter6 | containerd_stats_test.go:56-62 | the running total after six mocks |
| ContainerdStatsTest.SumAfter7 | containerd_stats_test.go:56-63 | the running total after seven mocks |
| ContainerdStatsTest.SumAfter8 | containerd_stats_test.go:56-64 | the running total after eight mocks |
| ContainerdStatsTest.SumAfter9 | containerd_stats_test.go:56-65 | the running total after nine mocks |
| ContainerdStatsTest.SumAfter10 | containerd_stats_test.go:56-67 | the running total after all ten mocks |
| ContainerdStatsTest.TestVectorTally | containerd_stats_test.go:14-71 | the ten containers tally to Running 2, Created 1, Stopped 1, Paused 1, Pausing 1, Unknown 1, DeadlineExceeded 1, Errors 3 |
| StatsRecord.AddFields | stats.go:3-12 | addition is counter-wise over the eight counters |
| StatsRecord.AddTotal | stats.go:3-12 | totals add, and non-negativity is kept |
| StatsRecord.AddAssociative | stats.go:3-12 | counter-wise addition associates |
| StatsQuery.GetStats | stats.go:14-21 | a Containerd value returns the containerd stats result, value and error unchanged; any other client returns the zero Stats and no error |
| CmdFactory.IsReadOnly | cmd_factory.go:99-106 | the loop answers true iff some option equals exactly "ro" |
| CmdFactory.ReadOnlyOptions | cmd_factory.go:99-106 | the position of "ro" among the options does not matter, and no other option makes a mount read-only |
| CmdFactory.ToSpecMount | cmd_factory.go:88-94 | the runtime mount converts back to exactly the caller's mount |
| CmdFactory.SpecMountRoundTrip | cmd_factory.go:88-94 | the runtime mount copies Type, Source, Destination and Options unchanged: converting loses nothing in either direction |
| CmdFactory.ToHostMount | cmd_factory.go:81-87 | ReadOnly is set iff some option is exactly "ro" |
| CmdFactory.HostMountFromSpecMount | cmd_factory.go:81-94 | the docker mount keeps Type and Source, takes Destination as Target, and reduces the options to the presence of "ro" |
| CmdFactory.HostMountForgetsOptions | cmd_factory.go:81-87 | mounts that differ only in options other than "ro" give the same docker mount |
| CmdFactory.ConvertMounts | cmd_factory.go:71-77 | same length, and element i is the conversion of mount i |
| CmdFactory.GetContainerdExecution | cmd_factory.go:54-65 | Image, User, Env and CommandDetails are copied, Timeout becomes CommandTimeout and WorkingDir WorkingDir, and every mount is converted with nothing lost |
| CmdFactory.MapsConfigUnique | cmd_factory.go:54-65 | the mapping fixes every field of the options |
| CmdFactory.Command | cmd_factory.go:12-32 | a docker client gets a docker command with its converted mounts; a containerd client with an empty namespace panics; otherwise the command carries the client and namespace, Path = Executable, Args = TaskConfig.Args and the mapped options; any other client type panics; both branches copy NewRelic |

## Left out

- **nerdctl subprocess.** `exec.Command` and `cmd.Run` (containerd_execution.go:127-145) are I/O. Their outcome is the parameter `nerdctl`: the printed output or an error. The trace records the subprocess call with its argument vector.
- **containerd API calls.** WithLease, LoadContainer, NewTask, Exec, process Wait and Start, Spec, task and container Delete, IsServing, Reconnect, Containers, Labels, Task and Status are foreign calls. Their outcomes are inputs, and their semantics are not modelled.
- **Concurrency in wait and the connection check.**
  - The `select` race in wait (containerd_execution.go:277-283) is the input `WaitRace`.
  - The 10-second timeout context of ensureConnection (containerd_execution.go:244) is not modelled.
- **The clock and time formatting.** `time.Now`, `time.Parse` and `Format` with RFC 3339 are parameters.
- **ContainerdStats.ProcessContainers: one clock reading.** It uses one `now` for the whole scan, while the source reads the clock once per container.
- **ContainerdExecution.Abs: the float path.** Abs requires a magnitude of at most 2^53. Beyond that the source's float64 path is inexact, and MinInt64 is implementation-defined.
- **RandomString** is not part of this model. The six-character suffix is a parameter.
- **Logging and tracing.** New Relic segments and transactions and logrus logging are observational only.
- **I/O plumbing.** `cio` streams and the io.Reader/io.Writer plumbing of run are not modelled.
- **The docker backend.**
  - `getDockerExecution`, `ByCreatingContainer` and `Docker.Command` (cmd_factory.go:14-19, 34-52) are not part of this model.
  - CmdFactory.Command: the docker command keeps only the client, the converted host mounts and the New Relic application.
  - CmdFactory.Command: a panic is a `Failure`. Its message text is not modelled, beyond naming the unsupported client.
- **CmdFactory.GetContainerdExecution** returns the options of the execution it builds. `ByCreatingTask` sets nothing else, and the logger is not modelled.
- **Dispatch in stats.go.** stats.go:17 passes a `Containerd` value where containerd_stats.go:13 expects a `*containerd.Client`. The model dispatches abstractly, with `list` standing for that value's Containers call.
- **processContainers.** The test calls `processContainers` (containerd_stats_test.go:69), which containerd_stats.go does not define. `ContainerdStats.ProcessContainers` models the loop at containerd_stats.go:23-63 as that function.
- **ContainerdExecution.CreateTask.Cleanup** requires a stored task and container. The source dereferences both, so a nil one would panic.
- **ContainerdExecution.CreateTask.Run** requires a loaded container, since the source calls `t.container.ID()`. When Wait fails, the exit channel is the nil one Wait returned.
- **Text.TrimSpace** trims ASCII white space only, not the full Unicode set.
- **Label iteration order.** Go's map iteration order is left open. The label loop picks an arbitrary next key, and its order is returned as a ghost value.
