/** MessagePackage: the immutable envelope that TestMqMedia queues. A datatype value cannot
    change after construction, and its constructor stores its three arguments as given;
    a missing topic (`None`) is accepted and means "no topic". */
module Package {
  import opened Results
  import opened Messages

  datatype MessagePackage = MessagePackage(messageType: TypeName, messageJson: string, topic: Option<string>)
}
