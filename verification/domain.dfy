/** The deployer's configuration records and the deployment request. */
module Domain {

  /** One deployable service.  `serviceName`, `registry` and `healthTimeout` are
      read from the configuration but never consulted by the pipeline. */
  datatype DeployConfig = DeployConfig(
    serviceName: string,
    imageName: string,
    registry: string,
    buildPath: string,
    containerName: string,
    dockerRunArgs: string,
    healthTimeout: int)

  datatype RegistryConfig = RegistryConfig(host: string, username: string, password: string)

  datatype SSHConfig = SSHConfig(host: string, username: string, port: int, password: string, keyFile: string)

  datatype Config = Config(registry: RegistryConfig, ssh: SSHConfig, services: map<string, DeployConfig>)

  datatype DeploymentRequest = DeploymentRequest(
    serviceName: string,
    version: string,
    buildPathOverride: string,
    dryRun: bool)

  /** The zero value of an `SSHConfig`, which is what an SSH client holds as its
      active target before any live connect. */
  const ZeroSSH := SSHConfig("", "", 0, "", "")
}
