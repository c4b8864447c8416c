/** The packets that the command relay exchanges, with their payloads decoded. */
module Messages {
  type Id = string

  /** Text of commands and outputs is the JSON text of the raw payload. */
  datatype Body =
    | OrchCommand(node: Id, command: string)       // orchestrator.command
    | OrchReply(node: Id, ok: bool, text: string)  // orchestrator.command.reply; text is the output or the message
    | NodeCommand(command: string)                 // node.command
    | NodeReply(ok: bool, text: string)            // node.command.reply
    | Heartbeat
    | HeartbeatReply
    | Other                                        // register, heartbeat, auth.ok and error packets of the upper tier

  datatype Msg = Msg(id: Id, replyTo: Id, body: Body)
}
