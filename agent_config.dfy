/**
 * The values the agent container manager takes from the `config` package and
 * the file system it reads. Their concrete values are not part of this model:
 * each is an opaque string chosen by whoever builds the Config.
 */
module AgentConfig {
  import opened Wrappers

  datatype Config = Config(
    agentImageName: string,       // config.AgentImageName()
    agentContainerName: string,   // config.AgentContainerName
    agentLogFile: string,         // config.AgentLogFile
    agentJSONConfigFile: string,  // config.AgentJSONConfigFile()
    agentConfigFile: string,      // config.AgentConfigFile(), the env override file
    cacheDirectory: string,       // config.CacheDirectory()
    dockerUnixSocket: string,     // config.DockerUnixSocket()
    logDirectory: string,         // config.LogDirectory()
    agentDataDirectory: string,   // config.AgentDataDirectory()
    agentConfigDirectory: string, // config.AgentConfigDirectory()
    cgroupDirectory: string,      // config.CgroupDirectory()
    execDriverDirectory: string   // config.ExecDriverDirectory()
  )

  /** The files the manager can read; a path that is absent is a read failure. */
  datatype FileSystem = FileSystem(files: map<string, string>) {

    function ReadFile(path: string): Option<string> {
      if path in files then Some(files[path]) else None
    }
  }
}
