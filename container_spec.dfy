/**
 * What the agent container is created with: the constants of docker.go, the
 * default environment, and the container and host configurations that
 * getContainerConfig and getHostConfig build.
 */
module ContainerSpec {
  import opened Wrappers
  import opened GoStrings
  import opened AgentConfig
  import opened EnvFile

  const AgentIntrospectionPort := "51678"
  const LogDir := "/log"
  const DataDir := "/data"
  const ExecDriverDir := "/var/lib/docker/execdriver"
  const ReadOnly := ":ro"
  const DefaultDockerEndpoint := "/var/run/docker.sock"
  const LoopbackIP := "127.0.0.1"

  /** The exposed port key, in Docker's `port/protocol` form. */
  const IntrospectionPortKey := AgentIntrospectionPort + "/tcp"

  datatype ContainerConfig = ContainerConfig(env: seq<string>, exposedPorts: set<string>, image: string)

  datatype PortBinding = PortBinding(hostIP: string, hostPort: string)

  datatype HostConfig = HostConfig(binds: seq<string>, portBindings: map<string, seq<PortBinding>>)

  /** A bind mount as the runtime reads a bind string. */
  datatype Bind = Bind(host: string, container: string, readOnly: bool)

  /** The environment every agent container gets unless the override file
      says otherwise. */
  function DefaultEnv(cfg: Config): map<string, string> {
    map[
      "ECS_LOGFILE" := LogDir + "/" + cfg.agentLogFile,
      "ECS_DATADIR" := DataDir,
      "ECS_AGENT_CONFIG_FILE_PATH" := cfg.agentJSONConfigFile,
      "ECS_UPDATE_DOWNLOAD_DIR" := cfg.cacheDirectory,
      "ECS_UPDATES_ENABLED" := "true",
      "ECS_AVAILABLE_LOGGING_DRIVERS" := "[\"json-file\",\"syslog\"]"
    ]
  }

  lemma DefaultKeysHaveNoEquals(cfg: Config)
    ensures forall k :: k in DefaultEnv(cfg) ==> '=' !in k
  {
  }

  /** The defaults overlaid with the override file: every key of either,
      the file's value where it has one, the default's otherwise; and no key
      holds '='. */
  function AgentEnv(cfg: Config, fs: FileSystem): (m: map<string, string>)
    ensures var file := ParseEnvFile(fs.ReadFile(cfg.agentConfigFile));
      && m.Keys == DefaultEnv(cfg).Keys + file.Keys
      && (forall k :: k in file ==> m[k] == file[k])
      && (forall k :: k in DefaultEnv(cfg) && k !in file ==> m[k] == DefaultEnv(cfg)[k])
    ensures forall k :: k in m ==> '=' !in k
  {
    var file := ParseEnvFile(fs.ReadFile(cfg.agentConfigFile));
    var defaults := DefaultEnv(cfg);
    ParsedKeysHaveNoEquals(fs.ReadFile(cfg.agentConfigFile));
    DefaultKeysHaveNoEquals(cfg);
    var m := defaults + file;
    assert m.Keys == defaults.Keys + file.Keys;
    m
  }

  /** `defaults` overlaid with the entries of `file` whose keys are not
      `pending`: the state of getContainerConfig's merge loop. */
  function Overlay(defaults: map<string, string>, file: map<string, string>, pending: set<string>): map<string, string> {
    defaults + map k | k in file && k !in pending :: file[k]
  }

  lemma OverlayStep(defaults: map<string, string>, file: map<string, string>, pending: set<string>, k: string)
    requires k in pending && k in file
    ensures Overlay(defaults, file, pending)[k := file[k]] == Overlay(defaults, file, pending - {k})
  {
  }

  lemma OverlayBounds(defaults: map<string, string>, file: map<string, string>)
    ensures Overlay(defaults, file, file.Keys) == defaults
    ensures Overlay(defaults, file, {}) == defaults + file
  {
    assert (map k | k in file && k !in {} :: file[k]) == file;
  }

  /** One `KEY=VALUE` string of the container's environment. */
  function EnvString(k: string, v: string): string {
    k + "=" + v
  }

  /** `s` is the environment string of some key of `m`. */
  predicate IsEnvStringOf(m: map<string, string>, s: string) {
    exists k :: k in m && s == EnvString(k, m[k])
  }

  /** `env` holds exactly one `KEY=VALUE` string per key of `m`, with that
      key's value, and nothing else, in some order (FlattenedSize shows
      that it then has one string per key). */
  predicate Flattened(m: map<string, string>, env: seq<string>) {
    && (forall i, j :: 0 <= i < j < |env| ==> env[i] != env[j])
    && (forall i :: 0 <= i < |env| ==> IsEnvStringOf(m, env[i]))
    && (forall k :: k in m ==> EnvString(k, m[k]) in env)
  }

  /** The container configuration getContainerConfig promises. */
  predicate IsAgentContainerConfig(cfg: Config, fs: FileSystem, c: ContainerConfig) {
    && c.image == cfg.agentImageName
    && c.exposedPorts == {IntrospectionPortKey}
    && Flattened(AgentEnv(cfg, fs), c.env)
  }

  /** Two environment strings with '='-free keys are equal only when their
      keys and values are. */
  lemma EnvStringInjective(k1: string, v1: string, k2: string, v2: string)
    requires '=' !in k1 && '=' !in k2
    requires EnvString(k1, v1) == EnvString(k2, v2)
    ensures k1 == k2 && v1 == v2
  {
    var s := EnvString(k1, v1);
    assert s[|k1|] == '=' && s[|k2|] == '=';
    assert forall j :: 0 <= j < |k1| ==> s[j] == k1[j];
    assert forall j :: 0 <= j < |k2| ==> s[j] == k2[j];
    assert |k1| == |k2|;
    assert k1 == s[..|k1|] && k2 == s[..|k2|];
    assert v1 == s[|k1| + 1..] && v2 == s[|k2| + 1..];
  }

  /** In a flattened environment a key appears with its own value only:
      `K=V` is present exactly when `K` maps to `V`. */
  lemma FlattenedLookup(m: map<string, string>, env: seq<string>, k: string, v: string)
    requires Flattened(m, env)
    requires forall key :: key in m ==> '=' !in key
    requires '=' !in k
    ensures EnvString(k, v) in env <==> k in m && m[k] == v
  {
    if EnvString(k, v) in env {
      var i :| 0 <= i < |env| && env[i] == EnvString(k, v);
      var key :| key in m && env[i] == EnvString(key, m[key]);
      EnvStringInjective(k, v, key, m[key]);
    }
  }

  /** In the agent container's environment a variable of the override
      file appears with the file's value, and any other default variable
      with its default value; no other `KEY=VALUE` string is present. */
  lemma ContainerEnvLookup(cfg: Config, fs: FileSystem, c: ContainerConfig, k: string, v: string)
    requires IsAgentContainerConfig(cfg, fs, c)
    requires '=' !in k
    ensures var file := ParseEnvFile(fs.ReadFile(cfg.agentConfigFile));
      EnvString(k, v) in c.env <==>
        if k in file then file[k] == v else k in DefaultEnv(cfg) && DefaultEnv(cfg)[k] == v
  {
    var m := AgentEnv(cfg, fs);
    FlattenedLookup(m, c.env, k, v);
  }

  /** The file-override case: an override file that sets
      ECS_UPDATES_ENABLED to "false" leaves `ECS_UPDATES_ENABLED=false` in
      the container's environment and no `ECS_UPDATES_ENABLED=true`. */
  lemma UpdatesEnabledOverridden(cfg: Config, fs: FileSystem, c: ContainerConfig)
    requires IsAgentContainerConfig(cfg, fs, c)
    requires var file := ParseEnvFile(fs.ReadFile(cfg.agentConfigFile));
      "ECS_UPDATES_ENABLED" in file && file["ECS_UPDATES_ENABLED"] == "false"
    ensures EnvString("ECS_UPDATES_ENABLED", "false") in c.env
    ensures EnvString("ECS_UPDATES_ENABLED", "true") !in c.env
  {
    var key := "ECS_UPDATES_ENABLED";
    assert '=' !in key;
    ContainerEnvLookup(cfg, fs, c, key, "false");
    ContainerEnvLookup(cfg, fs, c, key, "true");
  }

  /** The `KEY=VALUE` strings of every key of `m`. */
  function EnvStrings(m: map<string, string>): set<string> {
    set k | k in m :: EnvString(k, m[k])
  }

  /** A sequence without repeated elements has as many distinct elements
      as it has positions. */
  lemma {:induction false} DistinctCount(s: seq<string>)
    requires forall i, j :: 0 <= i < j < |s| ==> s[i] != s[j]
    ensures |set x | x in s| == |s|
  {
    if s != [] {
      var init := s[..|s| - 1];
      DistinctCount(init);
      assert (set x | x in s) == (set x | x in init) + {s[|s| - 1]};
    }
  }

  /** Different '='-free keys give different environment strings, so a map
      has as many environment strings as keys. */
  lemma {:induction false} EnvStringsCount(m: map<string, string>)
    requires forall key :: key in m ==> '=' !in key
    ensures |EnvStrings(m)| == |m|
    decreases |m|
  {
    if m != map[] {
      var k :| k in m;
      var rest := m - {k};
      EnvStringsCount(rest);
      forall x | x in EnvStrings(m)
        ensures x in EnvStrings(rest) + {EnvString(k, m[k])}
      {
        var k1 :| k1 in m && x == EnvString(k1, m[k1]);
        if k1 != k {
          assert k1 in rest && rest[k1] == m[k1];
        }
      }
      forall x | x in EnvStrings(rest) ensures x in EnvStrings(m) {
        var k1 :| k1 in rest && x == EnvString(k1, rest[k1]);
        assert k1 in m && m[k1] == rest[k1];
      }
      assert EnvStrings(m) == EnvStrings(rest) + {EnvString(k, m[k])};
      if EnvString(k, m[k]) in EnvStrings(rest) {
        var k2 :| k2 in rest && EnvString(k2, rest[k2]) == EnvString(k, m[k]);
        EnvStringInjective(k2, rest[k2], k, m[k]);
        assert false;
      }
      assert |m| == |rest| + 1;
    }
  }

  /** A flattened environment has exactly one string per key. */
  lemma FlattenedSize(m: map<string, string>, env: seq<string>)
    requires Flattened(m, env)
    requires forall key :: key in m ==> '=' !in key
    ensures |env| == |m|
  {
    DistinctCount(env);
    EnvStringsCount(m);
    assert (set x | x in env) == EnvStrings(m);
  }

  /** getHostConfig: seven bind strings in a fixed order, and the
      introspection port published on the loopback address only. */
  function GetHostConfig(cfg: Config): (h: HostConfig)
    ensures |h.binds| == 7
    ensures h.portBindings.Keys == {IntrospectionPortKey}
    ensures |h.portBindings[IntrospectionPortKey]| == 1
    ensures h.portBindings[IntrospectionPortKey][0].hostPort == AgentIntrospectionPort
    ensures forall p, i :: p in h.portBindings && 0 <= i < |h.portBindings[p]| ==> h.portBindings[p][i].hostIP == LoopbackIP
  {
    var binds := [
      cfg.dockerUnixSocket + ":" + DefaultDockerEndpoint,
      cfg.logDirectory + ":" + LogDir,
      cfg.agentDataDirectory + ":" + DataDir,
      cfg.agentConfigDirectory + ":" + cfg.agentConfigDirectory,
      cfg.cacheDirectory + ":" + cfg.cacheDirectory,
      cfg.cgroupDirectory + ":" + cfg.cgroupDirectory + ReadOnly,
      cfg.execDriverDirectory + ":" + ExecDriverDir + ReadOnly
    ];
    var portBindings := map[IntrospectionPortKey := [PortBinding(LoopbackIP, AgentIntrospectionPort)]];
    HostConfig(binds, portBindings)
  }

  /** The mounts the agent is meant to get, in order: read-write socket, log,
      data, config and cache directories, then the cgroup and exec-driver
      directories read-only. */
  function AgentMounts(cfg: Config): seq<Bind> {
    [
      Bind(cfg.dockerUnixSocket, DefaultDockerEndpoint, false),
      Bind(cfg.logDirectory, LogDir, false),
      Bind(cfg.agentDataDirectory, DataDir, false),
      Bind(cfg.agentConfigDirectory, cfg.agentConfigDirectory, false),
      Bind(cfg.cacheDirectory, cfg.cacheDirectory, false),
      Bind(cfg.cgroupDirectory, cfg.cgroupDirectory, true),
      Bind(cfg.execDriverDirectory, ExecDriverDir, true)
    ]
  }

  /** How the runtime reads a bind string: `host:container` or
      `host:container:ro`. */
  function ParseBind(s: string): Option<Bind> {
    var parts := Split(s, ':');
    if |parts| == 2 then Some(Bind(parts[0], parts[1], false))
    else if |parts| == 3 && parts[2] == "ro" then Some(Bind(parts[0], parts[1], true))
    else None
  }

  /** A bind as the source writes it. */
  function BindString(b: Bind): string {
    if b.readOnly then b.host + ":" + b.container + ReadOnly else b.host + ":" + b.container
  }

  /** Paths without ':' survive the trip through a bind string. */
  lemma BindRoundTrip(b: Bind)
    requires ':' !in b.host && ':' !in b.container
    ensures ParseBind(BindString(b)) == Some(b)
  {
    if b.readOnly {
      var parts := [b.host, b.container, "ro"];
      assert Join(parts[2..], ':') == "ro";
      assert Join(parts[1..], ':') == b.container + [':'] + "ro";
      assert Join(parts, ':') == BindString(b);
      SplitJoin(parts, ':');
    } else {
      var parts := [b.host, b.container];
      assert Join(parts[1..], ':') == b.container;
      assert Join(parts, ':') == BindString(b);
      SplitJoin(parts, ':');
    }
  }

  /** The paths of the configuration a bind string is made of hold no ':'. */
  predicate BindPathsColonFree(cfg: Config) {
    && ':' !in cfg.dockerUnixSocket && ':' !in cfg.logDirectory && ':' !in cfg.agentDataDirectory
    && ':' !in cfg.agentConfigDirectory && ':' !in cfg.cacheDirectory && ':' !in cfg.cgroupDirectory
    && ':' !in cfg.execDriverDirectory
  }

  /** Each bind string is the string of the matching mount. */
  lemma BindsAreBindStrings(cfg: Config)
    ensures forall i :: 0 <= i < 7 ==> GetHostConfig(cfg).binds[i] == BindString(AgentMounts(cfg)[i])
  {
  }

  /** With the configured paths free of ':', so is every path of every
      mount. */
  lemma MountsColonFree(cfg: Config)
    requires BindPathsColonFree(cfg)
    ensures forall i :: 0 <= i < 7 ==> ':' !in AgentMounts(cfg)[i].host && ':' !in AgentMounts(cfg)[i].container
  {
    ContainerPathsColonFree();
    var mounts := AgentMounts(cfg);
    forall i | 0 <= i < 7 ensures ':' !in mounts[i].host && ':' !in mounts[i].container {
    }
  }

  /** The fixed container-side paths hold no ':'. */
  lemma ContainerPathsColonFree()
    ensures ':' !in DefaultDockerEndpoint && ':' !in LogDir && ':' !in DataDir && ':' !in ExecDriverDir
  {
  }

  /** Read back by the runtime, the seven bind strings are the agent's seven
      mounts in order, and only the cgroup and exec-driver ones are read-only. */
  lemma HostBindsAreAgentMounts(cfg: Config)
    requires BindPathsColonFree(cfg)
    ensures forall i :: 0 <= i < 7 ==> ParseBind(GetHostConfig(cfg).binds[i]) == Some(AgentMounts(cfg)[i])
    ensures forall i :: 0 <= i < 7 ==> (ParseBind(GetHostConfig(cfg).binds[i]).value.readOnly <==> i == 5 || i == 6)
  {
    BindsAreBindStrings(cfg);
    MountsColonFree(cfg);
    forall i | 0 <= i < 7 ensures ParseBind(GetHostConfig(cfg).binds[i]) == Some(AgentMounts(cfg)[i]) {
      BindRoundTrip(AgentMounts(cfg)[i]);
    }
  }
}
