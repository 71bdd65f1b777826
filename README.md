# ECS init: the agent container manager

This project models the agent container manager of ECS init: the `Client` in
`ecs-init/docker/docker.go`. The manager runs the ECS agent inside Docker. It
does the following:

- checks whether the agent image is loaded;
- finds the agent's container by name;
- force-removes an old agent container;
- builds the agent container's configuration:
  - a fixed default environment, overlaid with the `KEY=VALUE` override file and flattened to `KEY=VALUE` strings;
  - the agent image;
  - the introspection port `51678/tcp`;
- builds the host configuration:
  - seven bind mounts, the last two read-only;
  - the introspection port, published on `127.0.0.1` only;
- creates, starts and waits for the agent container, and stops it with a ten-second grace period.

## Modules

- `GoStrings`: the Go `strings` functions the manager uses: `TrimSpace`, `Split` and `SplitN(…, 2)`, each with a one-character separator. Each is specified by what it returns, with its round trips:
  - `Split` and `Join` are inverses;
  - `SplitN2` undoes a join of two pieces;
  - the result of `TrimSpace` is unique and trimming is idempotent.
- `AgentConfig`: the values of the `config` package as an opaque record, and the file system as a map from paths to contents.
- `EnvFile`: the override file parser (`loadEnvVariables`). Parsing is a fold of one optional entry per line. The parser's promises are proved as lemmas:
  - which keys appear;
  - that the last line for a key wins;
  - that keys hold no `=` while values keep theirs;
  - a file that cannot be read gives no variables: this is the `None` case of `ParseEnvFile`, which `LoadEnvVariables` is proved to compute.
- `ContainerSpec`: docker.go's constants, the default environment, the merged environment, and the container and host configurations that the manager builds.
- `DockerRuntime`: the Docker client as a class with the following state:
  - its images and containers;
  - a log of every call made to it;
  - a scripted `Behaviour` that stands in for a test's mock: which call fails, the ID a created container gets, and what a wait reports.
- `Docker`: the `Client` class. Its methods are proved against specification functions:
  - `Tagged` and `FirstNamed` for the two nested searches;
  - `ParseEnvFile` for the parser loop;
  - `AgentEnv` and `Flattened` for the two loops of `getContainerConfig`;
  - the runtime's call log for the lifecycle sequences.

Go ranges over maps in no fixed order. Both loops of `getContainerConfig` therefore pick their next key by nondeterministic choice. The environment is specified as a set of strings, with one string per key and no repeats.

## Model

| member | source | states |
|---|---|---|
| Docker.Client.IsAgentImageLoaded | ecs-init/docker/docker.go:54-69 | Lists all images once. A list error is returned with `false`. Otherwise the result is `true` exactly when some image carries the agent image name among its tags. |
| Docker.TaggedIff | ecs-init/docker/docker.go:61-67 | The nested search succeeds exactly when some image's tag list contains the exact name. |
| Docker.Client.LoadImage | ecs-init/docker/docker.go:72-74 | One load call with the archive; the runtime's error is returned unchanged. |
| Docker.Client.FindAgentContainer | ecs-init/docker/docker.go:95-116 | Lists all containers once. A list error is returned with `""`. Otherwise the result is the ID of the first container, in list order, that has a name equal to `"/" + name`, or `""` when none has. |
| Docker.FirstNamedAt | ecs-init/docker/docker.go:107-113 | The first container with the name, in list order, is the one whose ID is returned. |
| Docker.FirstNamedNone | ecs-init/docker/docker.go:107-115 | When no container has the name, the search gives `""`. |
| Docker.Client.RemoveExistingAgentContainer | ecs-init/docker/docker.go:78-93 | A list error is returned, with no further call. With no agent container, it returns no error and makes no remove call. Otherwise it makes exactly one remove call, with that ID and `force = true`, and returns that call's error. The container disappears only when the remove succeeds. |
| Docker.Client.StartAgent | ecs-init/docker/docker.go:119-133 | The first call creates a container under the agent's name, with the agent container configuration and the host configuration. A failed create returns `(0, err)` and makes no other call. A failed start returns `(0, err)` and makes no wait call. Otherwise the result is exactly what the wait on the created ID reports. |
| Docker.Client.RunContainer | ecs-init/docker/docker.go:120-132 | The create, start and wait sequence for a given name and configuration, with its early returns. |
| Docker.Client.GetContainerConfig | ecs-init/docker/docker.go:135-166 | The result has the agent image, exposes exactly `51678/tcp`, and its environment is the merged environment flattened. |
| Docker.OverlayEnv | ecs-init/docker/docker.go:147-150 | The merge loop ends with the defaults overlaid by the file's variables, whatever order it visits them in. |
| Docker.FlattenEnv | ecs-init/docker/docker.go:152-155 | The flattening loop gives one `KEY=VALUE` string per variable, with no repeats and nothing else. |
| Docker.Client.LoadEnvVariables | ecs-init/docker/docker.go:168-186 | The loop computes the parse of the file: nothing on a read failure, otherwise the fold of its lines' entries. |
| Docker.Client.StopAgent | ecs-init/docker/docker.go:213-224 | A list error is returned. With no agent container, it returns no error and makes no stop call. Otherwise it makes exactly one stop call, with that ID and a 10-second timeout, and returns its error. |
| ContainerSpec.AgentEnv | ecs-init/docker/docker.go:137-150 | The merged environment: its keys are the default keys plus the file keys. A file value wins. A default key missing from the file keeps its default value. No key holds `=`. |
| ContainerSpec.ContainerEnvLookup | ecs-init/docker/docker.go:137-155 | `K=V` is in the container's environment exactly when either the file sets `K` to `V`, or the file does not set `K` and `K` defaults to `V`. |
| ContainerSpec.UpdatesEnabledOverridden | ecs-init/docker/docker_test.go:454-480 | A file that sets `ECS_UPDATES_ENABLED=false` puts `ECS_UPDATES_ENABLED=false` in the environment and leaves `ECS_UPDATES_ENABLED=true` out. |
| ContainerSpec.FlattenedLookup | ecs-init/docker/docker.go:152-155 | In a flattened environment, `K=V` is present exactly when `K` maps to `V`. |
| ContainerSpec.FlattenedSize | ecs-init/docker/docker.go:152-155 | A flattened environment has exactly one string per variable. |
| ContainerSpec.EnvStringsCount | ecs-init/docker/docker.go:154 | Distinct `=`-free keys give distinct `KEY=VALUE` strings, so there are as many strings as keys. |
| ContainerSpec.EnvStringInjective | ecs-init/docker/docker.go:154 | Two `KEY=VALUE` strings with `=`-free keys are equal only when their keys and values are. |
| ContainerSpec.DistinctCount | ecs-init/docker/docker.go:152-155 | A list without repeats has as many distinct strings as entries. |
| ContainerSpec.GetHostConfig | ecs-init/docker/docker.go:188-210 | Seven binds. The port map has exactly one key, `51678/tcp`, with exactly one binding, whose host port is `51678`. Every binding is on `127.0.0.1`. |
| ContainerSpec.HostBindsAreAgentMounts | ecs-init/docker/docker.go:189-197 | Read back as the runtime splits them at `:`, the seven bind strings are, in order, the socket, log, data, config, cache, cgroup and exec-driver mounts. Only the cgroup and exec-driver mounts are read-only. |
| ContainerSpec.BindRoundTrip | ecs-init/docker/docker.go:189-197 | A bind string `host:container[:ro]` reads back as its host path, container path and read-only flag. |
| ContainerSpec.MountsColonFree | ecs-init/docker/docker.go:189-197 | With configured paths free of `:`, every path of every mount is free of `:`. |
| EnvFile.AppliedKeys | ecs-init/docker/docker.go:177-183 | A key is defined exactly when some line defines it. |
| EnvFile.LastEntryWins | ecs-init/docker/docker.go:177-183 | A key's value is the one given by the last line that defines it. |
| EnvFile.ParsedKeysHaveNoEquals | ecs-init/docker/docker.go:178-182 | No parsed key holds `=`. |
| EnvFile.LineEntryMeaning | ecs-init/docker/docker.go:178-182 | A line contributes a variable exactly when its trimmed text holds `=`. The key is then the text before the first `=` and holds no `=`, and key, `=` and value rebuild the trimmed line. |
| EnvFile.LineEntryOf | ecs-init/docker/docker.go:178-182 | A line `KEY=VALUE` with no white space at its ends reads back as that key and value, the empty key of `=VALUE` included. The value keeps any further `=` and any quotes. |
| GoStrings.TrimSpace | ecs-init/docker/docker.go:176 | The result is the input with white space stripped from both ends: it neither starts nor ends with white space, and only white space surrounds it in the input. |
| GoStrings.TrimSpaceUnique | ecs-init/docker/docker.go:176 | Exactly one text fits that description, so `TrimSpace` of such a text is that text. |
| GoStrings.TrimSpaceIdempotent | ecs-init/docker/docker.go:176-178 | Trimming an already trimmed text changes nothing. |
| GoStrings.Split | ecs-init/docker/docker.go:176 | At least one piece, and no piece holds the separator. |
| GoStrings.JoinSplit | ecs-init/docker/docker.go:176 | Joining the pieces with the separator gives back the text. |
| GoStrings.SplitJoin | ecs-init/docker/docker.go:176 | Splitting a join of separator-free pieces gives back the pieces. |
| GoStrings.SplitN2 | ecs-init/docker/docker.go:178 | Two pieces exactly when the separator occurs; then the first piece holds no separator and the text is first piece, separator, second piece. Otherwise the one piece is the text. |
| GoStrings.SplitN2Join | ecs-init/docker/docker.go:178 | Cutting `a + sep + b` at its first separator gives `a` and `b` back when `a` holds no separator. |

## Left out

- NewClient and the real Docker client (docker.go:41-51) are not modelled. The runtime is a class whose answers come from a scripted `Behaviour`.
- Log output (seelog) is not modelled. It has no effect on results.
- Container list pagination (the TODO at docker.go:96) is not modelled. The runtime returns its whole list.
- The `All` flag of the list calls is recorded in the call log but does not change what the runtime returns. The `status` filter (docker.go:99-101) is not modelled: it is empty, so it selects every container.
- The values of the `config` package are opaque strings in a `Config` record.
- `io.Reader` for LoadImage is modelled as the bytes it yields.
- The override file is read as bytes (docker.go:171) and Go's `strings` functions work on bytes; the model's file system holds text (`seq<char>`), so a file that is not valid UTF-8 cannot be expressed.
- The order of the container's environment is not modelled. Go's map iteration order is random; the model picks each key by nondeterministic choice and specifies the result as a set.
- Whether a container is running is not modelled. StopAgent's stop call is recorded with its ID and timeout only.
- Docker.Client.StopAgent: the runtime's stop call does not change the container list.
- GoStrings.TrimSpace: white space is the ASCII set (space, `\t`, `\n`, `\v`, `\f`, `\r`). Go also trims U+0085, U+00A0 and the Unicode space separators.
- ContainerSpec.HostBindsAreAgentMounts: holds only when the configured paths contain no `:`. The source does not guard against a `:` in a path, which would make the runtime read a bind differently.
- Docker.FlattenEnv: the no-repeats part requires `=`-free keys. Every key from the defaults and from the override file is `=`-free; AgentEnv proves this.
- The features exercised by docker_test.go that this docker.go lacks are not modelled:
  - instance configuration files;
  - GPU binds;
  - capabilities and extra binds;
  - container labels;
  - the four-driver logging list.
