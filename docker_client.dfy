/**
 * The agent container manager (docker.go's Client): it finds the agent image
 * and container by name, builds the container's configuration, and drives
 * the runtime through create/start/wait, remove and stop.
 */
module Docker {
  import opened Wrappers
  import opened GoStrings
  import opened AgentConfig
  import opened EnvFile
  import opened ContainerSpec
  import opened DockerRuntime

  /** The grace period StopAgent gives the agent before it is killed. */
  const StopContainerTimeoutSeconds: nat := 10

  /** The runtime reports container names with a leading '/'. */
  function AgentContainerName(cfg: Config): string {
    "/" + cfg.agentContainerName
  }

  /** Some image, in list order, carries `tag` among its repository tags. */
  function Tagged(images: seq<Image>, tag: string): bool {
    |images| > 0 && (tag in images[0].repoTags || Tagged(images[1..], tag))
  }

  lemma {:induction false} TaggedIff(images: seq<Image>, tag: string)
    ensures Tagged(images, tag) <==> exists i :: 0 <= i < |images| && tag in images[i].repoTags
  {
    if |images| > 0 {
      TaggedIff(images[1..], tag);
      if exists i :: 1 <= i < |images| && tag in images[i].repoTags {
        var i :| 1 <= i < |images| && tag in images[i].repoTags;
        assert images[1..][i - 1] == images[i];
      }
    }
  }

  /** The ID of the first container, in list order, one of whose names is
      `name`; "" when there is none. */
  function FirstNamed(cs: seq<Container>, name: string): string {
    if cs == [] then ""
    else if name in cs[0].names then cs[0].id
    else FirstNamed(cs[1..], name)
  }

  lemma {:induction false} FirstNamedAt(cs: seq<Container>, name: string, i: int)
    requires 0 <= i < |cs| && name in cs[i].names
    requires forall j :: 0 <= j < i ==> name !in cs[j].names
    ensures FirstNamed(cs, name) == cs[i].id
  {
    if i > 0 {
      FirstNamedAt(cs[1..], name, i - 1);
    }
  }

  lemma {:induction false} FirstNamedNone(cs: seq<Container>, name: string)
    requires forall j :: 0 <= j < |cs| ==> name !in cs[j].names
    ensures FirstNamed(cs, name) == ""
  {
    if cs != [] {
      FirstNamedNone(cs[1..], name);
    }
  }

  /** The create call StartAgent makes: the agent's name, its container
      configuration and its host configuration. */
  predicate CreatesAgent(cfg: Config, fs: FileSystem, call: Call) {
    && call.ContainerCreated?
    && call.name == cfg.agentContainerName
    && IsAgentContainerConfig(cfg, fs, call.config)
    && call.hostConfig == GetHostConfig(cfg)
  }

  class Client {
    const docker: Runtime
    const fs: FileSystem
    const cfg: Config

    constructor(docker: Runtime, fs: FileSystem, cfg: Config)
      ensures this.docker == docker && this.fs == fs && this.cfg == cfg
    {
      this.docker := docker;
      this.fs := fs;
      this.cfg := cfg;
    }

    /** Lists every image and reports whether one carries the agent image
        name; a failed list is reported with `false`. */
    method IsAgentImageLoaded() returns (loaded: bool, err: Option<Error>)
      modifies docker`log
      ensures docker.log == old(docker.log) + [ImagesListed(true)]
      ensures err == docker.behaviour.listImagesError
      ensures loaded == (err.None? && Tagged(docker.images, cfg.agentImageName))
    {
      var images, listErr := docker.ListImages(true);
      if listErr.Some? {
        return false, listErr;
      }
      var name := cfg.agentImageName;
      for i := 0 to |images|
        invariant forall k :: 0 <= k < i ==> name !in images[k].repoTags
      {
        var tags := images[i].repoTags;
        for j := 0 to |tags|
          invariant forall m :: 0 <= m < j ==> tags[m] != name
        {
          if tags[j] == name {
            TaggedIff(images, name);
            return true, None;
          }
        }
      }
      TaggedIff(images, name);
      return false, None;
    }

    /** Hands an image archive to the runtime. */
    method LoadImage(archive: seq<bv8>) returns (err: Option<Error>)
      modifies docker`log
      ensures docker.log == old(docker.log) + [ImageLoaded(archive)]
      ensures err == docker.behaviour.loadImageError
    {
      err := docker.LoadImage(archive);
    }

    /** Lists every container and returns the ID of the first one named
        after the agent, or "" when there is none or the list failed. */
    method FindAgentContainer() returns (id: string, err: Option<Error>)
      modifies docker`log
      ensures docker.log == old(docker.log) + [ContainersListed(true)]
      ensures err == docker.behaviour.listContainersError
      ensures id == if err.None? then FirstNamed(docker.containers, AgentContainerName(cfg)) else ""
    {
      var containers, listErr := docker.ListContainers(true);
      if listErr.Some? {
        return "", listErr;
      }
      var name := AgentContainerName(cfg);
      for i := 0 to |containers|
        invariant forall k :: 0 <= k < i ==> name !in containers[k].names
      {
        var names := containers[i].names;
        for j := 0 to |names|
          invariant forall m :: 0 <= m < j ==> names[m] != name
        {
          if names[j] == name {
            FirstNamedAt(containers, name, i);
            return containers[i].id, None;
          }
        }
      }
      FirstNamedNone(containers, name);
      return "", None;
    }

    /** Force-removes the agent's container when there is one; finding none
        is not an error. */
    method RemoveExistingAgentContainer() returns (err: Option<Error>)
      modifies docker`log, docker`containers
      ensures var b := docker.behaviour;
        var id := FirstNamed(old(docker.containers), AgentContainerName(cfg));
        if b.listContainersError.Some? then
          && docker.log == old(docker.log) + [ContainersListed(true)]
          && err == b.listContainersError
          && docker.containers == old(docker.containers)
        else if id == "" then
          && docker.log == old(docker.log) + [ContainersListed(true)]
          && err.None?
          && docker.containers == old(docker.containers)
        else
          && docker.log == old(docker.log) + [ContainersListed(true), ContainerRemoved(id, true)]
          && err == b.removeError
          && docker.containers == if err.None? then Without(old(docker.containers), id) else old(docker.containers)
    {
      var id, listErr := FindAgentContainer();
      if listErr.Some? {
        return listErr;
      }
      if id == "" {
        return None;
      }
      err := docker.RemoveContainer(id, true);
    }

    /** Creates the agent container, starts it and waits for it to exit,
        returning its exit code; a failed create or start ends the sequence
        with exit code 0 and that error. */
    method StartAgent() returns (exitCode: int, err: Option<Error>)
      modifies docker`log, docker`containers
      ensures |docker.log| > |old(docker.log)| && CreatesAgent(cfg, fs, docker.log[|old(docker.log)|])
      ensures var b := docker.behaviour;
        var create := docker.log[|old(docker.log)|];
        b.createError.Some? ==>
          && docker.log == old(docker.log) + [create]
          && exitCode == 0 && err == b.createError
          && docker.containers == old(docker.containers)
      ensures var b := docker.behaviour;
        b.createError.None? ==>
          docker.containers == old(docker.containers) + [Container(b.createdId, [AgentContainerName(cfg)])]
      ensures var b := docker.behaviour;
        var create := docker.log[|old(docker.log)|];
        b.createError.None? && b.startError.Some? ==>
          && docker.log == old(docker.log) + [create, ContainerStarted(b.createdId)]
          && exitCode == 0 && err == b.startError
      ensures var b := docker.behaviour;
        var create := docker.log[|old(docker.log)|];
        b.createError.None? && b.startError.None? ==>
          && docker.log == old(docker.log) + [create, ContainerStarted(b.createdId), ContainerWaited(b.createdId)]
          && exitCode == b.exitCode && err == b.waitError
    {
      var config := GetContainerConfig();
      var hostConfig := GetHostConfig(cfg);
      exitCode, err := RunContainer(cfg.agentContainerName, config, hostConfig);
    }

    /** The create, start and wait sequence of StartAgent for a given
        name and configuration. */
    method RunContainer(name: string, config: ContainerConfig, hostConfig: HostConfig) returns (exitCode: int, err: Option<Error>)
      modifies docker`log, docker`containers
      ensures var b := docker.behaviour;
        var create := ContainerCreated(name, config, hostConfig);
        b.createError.Some? ==>
          && docker.log == old(docker.log) + [create]
          && exitCode == 0 && err == b.createError
          && docker.containers == old(docker.containers)
      ensures var b := docker.behaviour;
        b.createError.None? ==>
          docker.containers == old(docker.containers) + [Container(b.createdId, ["/" + name])]
      ensures var b := docker.behaviour;
        var create := ContainerCreated(name, config, hostConfig);
        b.createError.None? && b.startError.Some? ==>
          && docker.log == old(docker.log) + [create, ContainerStarted(b.createdId)]
          && exitCode == 0 && err == b.startError
      ensures var b := docker.behaviour;
        var create := ContainerCreated(name, config, hostConfig);
        b.createError.None? && b.startError.None? ==>
          && docker.log == old(docker.log) + [create, ContainerStarted(b.createdId), ContainerWaited(b.createdId)]
          && exitCode == b.exitCode && err == b.waitError
    {
      var create := ContainerCreated(name, config, hostConfig);
      var id, createErr := docker.CreateContainer(name, config, hostConfig);
      if createErr.Some? {
        return 0, createErr;
      }
      var startErr := docker.StartContainer(id);
      if startErr.Some? {
        assert docker.log == old(docker.log) + [create, ContainerStarted(id)];
        return 0, startErr;
      }
      exitCode, err := docker.WaitContainer(id);
      assert docker.log == old(docker.log) + [create, ContainerStarted(id), ContainerWaited(id)];
    }

    /** The override file's variables, read and parsed line by line; a file
        that cannot be read gives none. */
    method LoadEnvVariables() returns (env: map<string, string>)
      ensures env == ParseEnvFile(fs.ReadFile(cfg.agentConfigFile))
    {
      env := map[];
      var file := fs.ReadFile(cfg.agentConfigFile);
      if file.None? {
        return;
      }
      var lines := Split(TrimSpace(file.value), '\n');
      ghost var es := LineEntries(lines);
      for i := 0 to |lines|
        invariant env == Apply(es[..i])
      {
        ApplyStep(es, i);
        var parts := SplitN2(TrimSpace(lines[i]), '=');
        assert es[i] == if |parts| != 2 then None else Some((parts[0], parts[1]));
        if |parts| != 2 {
          continue;
        }
        env := env[parts[0] := parts[1]];
      }
      assert es[..|lines|] == es;
    }

    /** The defaults overlaid with the override file, flattened to
        `KEY=VALUE` strings, with the agent image and the introspection port. */
    method GetContainerConfig() returns (c: ContainerConfig)
      ensures IsAgentContainerConfig(cfg, fs, c)
    {
      var fileEnv := LoadEnvVariables();
      var envVariables := OverlayEnv(DefaultEnv(cfg), fileEnv);
      assert envVariables == AgentEnv(cfg, fs);
      var env := FlattenEnv(envVariables);
      c := ContainerConfig(env, {IntrospectionPortKey}, cfg.agentImageName);
    }

    /** Stops the agent's container with a ten-second grace period when
        there is one; finding none is not an error. */
    method StopAgent() returns (err: Option<Error>)
      modifies docker`log
      ensures var b := docker.behaviour;
        var id := FirstNamed(docker.containers, AgentContainerName(cfg));
        if b.listContainersError.Some? then
          docker.log == old(docker.log) + [ContainersListed(true)] && err == b.listContainersError
        else if id == "" then
          docker.log == old(docker.log) + [ContainersListed(true)] && err.None?
        else
          && docker.log == old(docker.log) + [ContainersListed(true), ContainerStopped(id, StopContainerTimeoutSeconds)]
          && err == b.stopError
    {
      var id, listErr := FindAgentContainer();
      if listErr.Some? {
        return listErr;
      }
      if id == "" {
        return None;
      }
      err := docker.StopContainer(id, StopContainerTimeoutSeconds);
    }
  }

  /** The first loop of getContainerConfig: every variable of the file
      replaces or adds to the defaults. Go ranges over a map in no fixed
      order; so does this loop. */
  method OverlayEnv(defaults: map<string, string>, file: map<string, string>) returns (m: map<string, string>)
    ensures m == defaults + file
  {
    m := defaults;
    var pending := file.Keys;
    OverlayBounds(defaults, file);
    while pending != {}
      invariant pending <= file.Keys
      invariant m == Overlay(defaults, file, pending)
      decreases pending
    {
      var k :| k in pending;
      OverlayStep(defaults, file, pending, k);
      m := m[k := file[k]];
      pending := pending - {k};
    }
  }

  /** The second loop of getContainerConfig: one `KEY=VALUE` string per
      variable, in the map's (unspecified) order. */
  method FlattenEnv(m: map<string, string>) returns (env: seq<string>)
    requires forall k :: k in m ==> '=' !in k
    ensures Flattened(m, env)
  {
    env := [];
    var rest := m.Keys;
    ghost var order: seq<string> := [];
    while rest != {}
      invariant rest <= m.Keys
      invariant |env| == |order|
      invariant forall i :: 0 <= i < |order| ==>
        order[i] in m && order[i] !in rest && env[i] == EnvString(order[i], m[order[i]])
      invariant forall k :: k in m && k !in rest ==> k in order
      invariant forall i, j :: 0 <= i < j < |order| ==> order[i] != order[j]
      decreases rest
    {
      var k :| k in rest;
      env := env + [k + "=" + m[k]];
      order := order + [k];
      rest := rest - {k};
    }
    FlattenedByOrder(m, env, order);
  }

  /** A sequence of strings built key by key from distinct keys of `m`,
      covering them all, is `m` flattened. */
  lemma FlattenedByOrder(m: map<string, string>, env: seq<string>, order: seq<string>)
    requires forall k :: k in m ==> '=' !in k
    requires |env| == |order|
    requires forall i :: 0 <= i < |order| ==> order[i] in m && env[i] == EnvString(order[i], m[order[i]])
    requires forall k :: k in m ==> k in order
    requires forall i, j :: 0 <= i < j < |order| ==> order[i] != order[j]
    ensures Flattened(m, env)
  {
    forall i, j | 0 <= i < j < |env| ensures env[i] != env[j] {
      if env[i] == env[j] {
        EnvStringInjective(order[i], m[order[i]], order[j], m[order[j]]);
      }
    }
    forall i | 0 <= i < |env| ensures IsEnvStringOf(m, env[i]) {
      var k := order[i];
      assert k in m && env[i] == EnvString(k, m[k]);
    }
    forall k | k in m ensures EnvString(k, m[k]) in env {
      var i :| 0 <= i < |order| && order[i] == k;
      assert env[i] == EnvString(k, m[k]);
    }
  }
}
