/** The control packets the program passes around. */
module Messages {
  import opened Basics

  datatype ReturnCode =
    Accepted | UnacceptableVersion | IdentifierRejected | ServerUnavailable | BadUsernameOrPassword | NotAuthorized

  datatype Will = Will(topic: Str, message: seq<Byte>, qos: Byte, retain: bool)

  datatype ConnectPacket = ConnectPacket(
    version: Byte, cleanSession: bool, keepAlive: U16, client: Str, will: Option<Will>,
    username: Option<Str>, password: Option<Str>)

  datatype MQTTMessage =
    | Connect(connect: ConnectPacket)
    | ConnAck(returnCode: ReturnCode, sessionPresent: bool)
    | Publish(publish: Basics.Publish)
    | PubAck(mid: U16)
    | PubRec(mid: U16)
    | PubRel(mid: U16)
    | PubComp(mid: U16)
    | Subscribe(mid: U16, filters: seq<(Str, Byte)>)
    | SubAck(mid: U16, codes: seq<Byte>)
    | Unsubscribe(mid: U16, topics: seq<Str>)
    | UnsubAck(mid: U16)
    | PingReq
    | PingResp
    | Disconnect
}
