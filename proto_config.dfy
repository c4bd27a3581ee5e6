/**
 * The configuration record stored in `.protorc`. The YAML encoding and the
 * file access around it are not part of this model.
 */
module ProtoConfig {
  /**
   * The fields of the record. `lastCommitID` is the field cmd/proto/main.go
   * reads and writes; the record in pkg/proto/config.go does not declare it.
   */
  datatype Config = Config(
    gitHubURL: string,
    branch: string,
    remotePath: string,
    protoDir: string,
    buildDir: string,
    lastCommitID: string)
}
