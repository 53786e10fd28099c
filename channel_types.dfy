/** The canonical envelope every channel adapter turns an inbound platform
    message into (`ChannelMessage` in src/channels/types.ts). */
module ChannelTypes {

  /** `timestamp` is in milliseconds since the epoch; `fromMe` is always set by both adapters. */
  datatype ChannelMessage = ChannelMessage(
    id: string,
    chatId: string,
    senderId: string,
    senderName: string,
    content: string,
    timestamp: int,
    fromMe: bool)
}
