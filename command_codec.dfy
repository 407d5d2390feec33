/**
  The command vocabulary shared with the alarm peripheral and the frame the
  app writes for each command: the opcode, then the payload numbers, with no
  length prefix and no terminator.
*/
module CommandCodec {
  import opened Wrappers

  const CMD_SET_ALARM: nat := 0x01
  const CMD_ARM: nat := 0x02
  const CMD_DISARM: nat := 0x03
  const CMD_SNOOZE: nat := 0x04
  const CMD_STOP: nat := 0x05
  const CMD_TEST: nat := 0x06

  /** The six commands. `SetAlarm` carries whatever numbers the time text held: no range is checked. */
  datatype Command =
    | SetAlarm(hours: nat, minutes: nat)
    | Arm
    | Disarm
    | Snooze
    | Stop
    | Test

  function Opcode(c: Command): (op: nat)
    ensures CMD_SET_ALARM <= op <= CMD_TEST
  {
    match c
    case SetAlarm(_, _) => CMD_SET_ALARM
    case Arm => CMD_ARM
    case Disarm => CMD_DISARM
    case Snooze => CMD_SNOOZE
    case Stop => CMD_STOP
    case Test => CMD_TEST
  }

  /** The `data` argument of `sendCommand`: `[hours, minutes]` for SetAlarm, nothing otherwise. */
  function Payload(c: Command): (data: seq<nat>)
    ensures |data| == PayloadLength(Opcode(c))
    ensures c.SetAlarm? ==> data == [c.hours, c.minutes]
  {
    match c
    case SetAlarm(h, m) => [h, m]
    case _ => []
  }

  /** How many payload numbers follow an opcode: what a receiver must know, since the frame does not say. */
  function PayloadLength(op: nat): nat {
    if op == CMD_SET_ALARM then 2 else 0
  }

  /**
    `[command, ...(data || [])]`: the frame for one command. Its length is
    fixed by its first element, so a command without payload is one number.
  */
  function Encode(c: Command): (frame: seq<nat>)
    ensures |frame| >= 1 && |frame| == 1 + PayloadLength(frame[0])
    ensures frame[0] == Opcode(c) && frame[1..] == Payload(c)
  {
    [Opcode(c)] + Payload(c)
  }

  /** Reading a frame back as the peripheral must: by opcode, then exactly that opcode's payload. */
  function Decode(frame: seq<nat>): (r: Option<Command>)
    ensures r.Some? ==> |frame| >= 1 && Opcode(r.value) == frame[0]
  {
    if |frame| == 0 || |frame| != 1 + PayloadLength(frame[0]) then None
    else if frame[0] == CMD_SET_ALARM then Some(SetAlarm(frame[1], frame[2]))
    else if frame[0] == CMD_ARM then Some(Arm)
    else if frame[0] == CMD_DISARM then Some(Disarm)
    else if frame[0] == CMD_SNOOZE then Some(Snooze)
    else if frame[0] == CMD_STOP then Some(Stop)
    else if frame[0] == CMD_TEST then Some(Test)
    else None
  }

  /** Every frame is read back as the command it was built from. */
  lemma DecodeEncode(c: Command)
    ensures Decode(Encode(c)) == Some(c)
  {
  }

  /** Exactly the frames the app can build are read back, and they are read back unchanged. */
  lemma EncodeDecode(frame: seq<nat>)
    ensures Decode(frame).Some? ==> Encode(Decode(frame).value) == frame
  {
  }

  /** Two commands share an opcode only if both are SetAlarm: the six opcodes are pairwise distinct. */
  lemma OpcodesDistinct(a: Command, b: Command)
    ensures Opcode(a) == Opcode(b) <==> a == b || (a.SetAlarm? && b.SetAlarm?)
  {
  }

  /** Different commands never give the same frame. */
  lemma EncodeInjective(a: Command, b: Command)
    requires Encode(a) == Encode(b)
    ensures a == b
  {
  }

  /** Every number of the frame fits in one byte, so `Buffer.from` copies it unchanged. */
  predicate IsByteFrame(frame: seq<nat>) {
    forall i :: 0 <= i < |frame| ==> frame[i] < 256
  }

  /** A frame is byte-exact exactly when a SetAlarm's hours and minutes are below 256. */
  lemma EncodeFitsBytes(c: Command)
    ensures IsByteFrame(Encode(c)) <==> (c.SetAlarm? ==> c.hours < 256 && c.minutes < 256)
  {
    var frame := Encode(c);
    if c.SetAlarm? {
      assert frame[1] == c.hours && frame[2] == c.minutes;
    }
  }
}
