/**
 * The container runtime as the agent container manager sees it: the calls of
 * its Docker client, against a runtime that holds a list of images, a list of
 * containers and a log of every call made to it. Which calls fail, the ID a
 * created container gets and the exit code a wait reports are chosen by the
 * environment (a Behaviour), as a test's mock chooses them.
 */
module DockerRuntime {
  import opened Wrappers
  import opened ContainerSpec

  datatype Error = Error(message: string)

  datatype Image = Image(repoTags: seq<string>)

  datatype Container = Container(id: string, names: seq<string>)

  /** One call made to the runtime, with its arguments. */
  datatype Call =
    | ImagesListed(all: bool)
    | ImageLoaded(archive: seq<bv8>)
    | ContainersListed(all: bool)
    | ContainerCreated(name: string, config: ContainerConfig, hostConfig: HostConfig)
    | ContainerStarted(id: string)
    | ContainerWaited(id: string)
    | ContainerRemoved(id: string, force: bool)
    | ContainerStopped(id: string, timeoutSeconds: nat)

  /** How the runtime answers: the error each call returns, if any, the ID
      of the next created container, and what a wait reports. */
  datatype Behaviour = Behaviour(
    listImagesError: Option<Error>,
    loadImageError: Option<Error>,
    listContainersError: Option<Error>,
    createError: Option<Error>,
    startError: Option<Error>,
    removeError: Option<Error>,
    stopError: Option<Error>,
    createdId: string,
    exitCode: int,
    waitError: Option<Error>
  )

  /** The containers other than those with ID `id`, in their order. */
  function Without(cs: seq<Container>, id: string): (r: seq<Container>)
    ensures forall c :: c in r <==> c in cs && c.id != id
    ensures |r| <= |cs|
  {
    if cs == [] then []
    else if cs[0].id == id then Without(cs[1..], id)
    else [cs[0]] + Without(cs[1..], id)
  }

  class Runtime {
    var images: seq<Image>
    var containers: seq<Container>
    var log: seq<Call>
    const behaviour: Behaviour

    constructor(images: seq<Image>, containers: seq<Container>, behaviour: Behaviour)
      ensures this.images == images && this.containers == containers
      ensures this.behaviour == behaviour && log == []
    {
      this.images := images;
      this.containers := containers;
      this.behaviour := behaviour;
      log := [];
    }

    method ListImages(all: bool) returns (result: seq<Image>, err: Option<Error>)
      modifies this`log
      ensures log == old(log) + [ImagesListed(all)]
      ensures err == behaviour.listImagesError
      ensures result == if err.None? then images else []
    {
      log := log + [ImagesListed(all)];
      err := behaviour.listImagesError;
      result := if err.None? then images else [];
    }

    method LoadImage(archive: seq<bv8>) returns (err: Option<Error>)
      modifies this`log
      ensures log == old(log) + [ImageLoaded(archive)]
      ensures err == behaviour.loadImageError
    {
      log := log + [ImageLoaded(archive)];
      err := behaviour.loadImageError;
    }

    method ListContainers(all: bool) returns (result: seq<Container>, err: Option<Error>)
      modifies this`log
      ensures log == old(log) + [ContainersListed(all)]
      ensures err == behaviour.listContainersError
      ensures result == if err.None? then containers else []
    {
      log := log + [ContainersListed(all)];
      err := behaviour.listContainersError;
      result := if err.None? then containers else [];
    }

    /** A created container is listed under its name with the runtime's
        leading '/'. */
    method CreateContainer(name: string, config: ContainerConfig, hostConfig: HostConfig)
      returns (id: string, err: Option<Error>)
      modifies this`log, this`containers
      ensures log == old(log) + [ContainerCreated(name, config, hostConfig)]
      ensures err == behaviour.createError
      ensures err.None? ==> id == behaviour.createdId && containers == old(containers) + [Container(id, ["/" + name])]
      ensures err.Some? ==> id == "" && containers == old(containers)
    {
      log := log + [ContainerCreated(name, config, hostConfig)];
      err := behaviour.createError;
      if err.None? {
        id := behaviour.createdId;
        containers := containers + [Container(id, ["/" + name])];
      } else {
        id := "";
      }
    }

    method StartContainer(id: string) returns (err: Option<Error>)
      modifies this`log
      ensures log == old(log) + [ContainerStarted(id)]
      ensures err == behaviour.startError
    {
      log := log + [ContainerStarted(id)];
      err := behaviour.startError;
    }

    method WaitContainer(id: string) returns (exitCode: int, err: Option<Error>)
      modifies this`log
      ensures log == old(log) + [ContainerWaited(id)]
      ensures exitCode == behaviour.exitCode && err == behaviour.waitError
    {
      log := log + [ContainerWaited(id)];
      exitCode, err := behaviour.exitCode, behaviour.waitError;
    }

    method RemoveContainer(id: string, force: bool) returns (err: Option<Error>)
      modifies this`log, this`containers
      ensures log == old(log) + [ContainerRemoved(id, force)]
      ensures err == behaviour.removeError
      ensures containers == if err.None? then Without(old(containers), id) else old(containers)
    {
      log := log + [ContainerRemoved(id, force)];
      err := behaviour.removeError;
      if err.None? {
        containers := Without(containers, id);
      }
    }

    method StopContainer(id: string, timeoutSeconds: nat) returns (err: Option<Error>)
      modifies this`log
      ensures log == old(log) + [ContainerStopped(id, timeoutSeconds)]
      ensures err == behaviour.stopError
    {
      log := log + [ContainerStopped(id, timeoutSeconds)];
      err := behaviour.stopError;
    }
  }
}
