// Frames exchanged between furniture, Server, Worker and the ASR service.
module Wire {

  datatype Option<+T> = None | Some(value: T)

  newtype byte = x: int | 0 <= x < 256

  type Bytes = seq<byte>

  /** A frame the Worker passes through to the ASR service. */
  datatype AsrFrame =
    | Start(sampleRate: int)
    | End
    | Audio(bytes: Bytes)
    | AsrPing
    | OtherControl
    | BadJson
    | Unreadable       // JSON that is no object, or a start whose sample rate is no number

  /** An event the ASR service sends back. */
  datatype AsrEvent =
    | Ready
    | Partial(text: string)
    | Final(text: string)
    | Eos
    | AsrPong
    | Error(message: string)

  datatype ToolCall = ToolCall(id: string, name: string, arguments: string)

  /** What the Worker remembers of a tool call it has sent out. */
  datatype Pending = Pending(name: string, arguments: string)

  datatype DeviceContext = DeviceContext(devices: seq<string>, scenes: seq<string>)

  // History tags.  They say which first round a frame or goroutine belongs to; no branch of the
  // code they model reads them.
  datatype CallRef = CallRef(turn: nat, index: nat)
  datatype Slot = FirstRound(turn: nat) | ForCall(ref: CallRef)

  /** Server to Worker: frames of its own, and whatever the client sends.  A CommandResult that
      is no handler's has no reference. */
  datatype DownFrame =
    | DeviceInfo(info: Option<DeviceContext>)   // None: the frame does not parse
    | CommandResult(toolId: string, success: bool, message: string, origin: Option<CallRef>)
    | BadResult                                 // a device_command_result that does not parse
    | TextInput(text: string)
    | Ping
    | Media(frame: AsrFrame)

  /** Worker to Server. */
  datatype UpFrame =
    | Pong
    | AsrPartial(text: string)
    | AsrFinal(text: string)
    | AsrRaw(event: AsrEvent)
    | LlmResult(text: string, slot: Option<Slot>)
    | LlmError(message: string, slot: Option<Slot>)
    | DeviceCommand(call: ToolCall, ref: CallRef)
    | TtsAudio(text: string, speaks: nat)

  const CONTROL_DEVICE := "control_device"
  const EMPTY_ARGUMENTS := "{}"
}
