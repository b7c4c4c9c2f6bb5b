/**
 * The value objects the worker and master pass around (the network.datamodel classes,
 * whose fields are read off the constructor calls and getters the cluster code uses),
 * and the action names of CommunicationConstants, which the cluster code compares
 * against but whose values are not part of this model.
 */
module DataModel {

  /** CommunicationDataModel: one control-plane command. */
  datatype CommMessage = CommMessage(
    sourceIp: string,
    destinationIp: string,
    actionDestinationIp: string,
    action: string,
    sourceFile: string,
    destinationFile: string,
    port: int)

  /** FileDataModel: a transfer the sender is asked to make. */
  datatype FileTask = FileTask(ip: string, port: int, filePath: string)

  /** FileObjectModel: a file event from the local receiver. */
  datatype FileObject = FileObject(actionType: string, filePath: string, senderIp: string)

  /** FileStorageLocalDataModel: what a worker records about a file it holds. */
  datatype FileStorageRecord = FileStorageRecord(
    filePath: string,
    hostIp: string,
    version: int,
    isPrimary: bool,
    replicaSet: set<string>)

  /** WorkerInstanceModel: one registered worker as getWorkers lists it. */
  datatype WorkerInstance = WorkerInstance(ip: string, name: string)

  /**
   * The action strings the worker dispatches on: CommunicationConstants SEND, DELETE,
   * ADD_REPLICA, ADD_REPLICAS and PUT_PRIMARY_REPLICA, and the ADD_FILE_ACK tag the
   * worker puts on its acknowledgements.
   */
  datatype CommTags = CommTags(
    send: string,
    delete: string,
    addReplica: string,
    addReplicas: string,
    putPrimaryReplica: string,
    addFileAck: string)
}
