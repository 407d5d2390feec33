# Haptic alarm: phone-side command link and time text

A Dafny model of the phone app that controls a Raspberry Pi Pico W alarm clock
over Bluetooth Low Energy. It covers:

- the command codec: six opcodes (0x01 SetAlarm with hours and minutes,
  0x02 Arm, 0x03 Disarm, 0x04 Snooze, 0x05 Stop, 0x06 Test). Each frame is the
  opcode followed by its payload numbers (module `CommandCodec`);
- the alarm screen's session (`AlarmApp.AlarmSession`). It holds `device`,
  `isConnected`, `isScanning` and the alarm record `{time, isArmed, isRinging}`,
  plus ghost logs of writes, alerts and cancelled connections. It handles
  permission, the scan with its exact-name filter, connect and service
  discovery, the 10-second scan timeout, reconnect, and the five button
  handlers;
- the minimal screen of `app/ble-connect.tsx` (`BleConnect.AlarmScreen`). It
  has the same scan-and-connect step, with only a `device` field;
- the time-picker button (`TimePicker.TimePickerButton`) and the text
  operations it and the session use (`TimeText`). These are
  `toString().padStart(2, '0')`, `split(':')`, `Number` on digit strings, the
  web check `^\d{2}:\d{2}$`, and the Date setters on an (hour, minute,
  second) time of day.

Every transport result is an explicit input of the method that handles it.
These results are the permission answer, a scan error, an advertisement,
connect/discover success or failure, the timeout firing, and write success or
failure. In-flight connects are a ghost multiset and scheduled timeouts are a
ghost counter, so a handler is only called for an event that can occur.

The React closures in `app/app.tsx` read state captured at an earlier render:
- the timeout reads `isScanning` and `isConnected` (lines 131, 134);
- the connect callback reads `alarm.time` (line 120);
- `sendCommand` reads `device` when called from the connect callback (lines 68, 121).

The model does not reproduce these stale reads. Every handler reads the single
current state, which is what the code is written for. The comment at the head
of `alarm_app.dfy` records this.

The code has none of the following, and the model follows it:
- no `InvalidPayload` range check on hours and minutes: "99:99" entered on the
  web is sent as SetAlarm(99, 99);
- no attempt counter to discard stale callbacks;
- no `Connecting` status: the status is only the two flags `isConnected` and
  `isScanning`;
- a failed connect leaves the flags as they are and only raises an alert.

## Model

| member | source | states |
|---|---|---|
| CommandCodec.Opcode | app/app.tsx:9-14 | every command's opcode is one of the constants 0x01..0x06 |
| CommandCodec.OpcodesDistinct | app/app.tsx:9-14 | two commands share an opcode exactly when they are equal or both SetAlarm, so the six opcodes are pairwise distinct |
| CommandCodec.Payload | app/app.tsx:74 | the `data || []` part of a frame: its length is the one fixed by the opcode, and for SetAlarm it is `[hours, minutes]` as the callers at lines 121 and 155 pass; ARM, DISARM, SNOOZE, STOP and TEST (lines 166, 176, 187, 198) pass no data, so it is empty |
| CommandCodec.Encode | app/app.tsx:74 | the opcode comes first and the payload follows in order; the frame length is 1 plus the payload length fixed by the opcode (no length prefix, no terminator), so a command without payload is one element |
| CommandCodec.Decode | app/app.tsx:74 | whatever a reader accepts carries the frame's first element as its opcode |
| CommandCodec.DecodeEncode | app/app.tsx:74 | reading the opcode and then that opcode's fixed payload recovers the encoded command |
| CommandCodec.EncodeDecode | app/app.tsx:74 | every frame a reader accepts is exactly the encoding of the command it reads |
| CommandCodec.EncodeInjective | app/app.tsx:9-14 | different commands never produce the same frame |
| CommandCodec.EncodeFitsBytes | app/app.tsx:74-75 | every number of a frame is below 256 exactly when a SetAlarm's hours and minutes are, so `Buffer.from` keeps the frame unchanged |
| TimeText.DecimalString | components/TimePicker.tsx:29-30 | `toString()` yields a non-empty digit string whose value is n; it has one digit iff n < 10 and two iff 10 <= n < 100 |
| TimeText.PadTwo | components/TimePicker.tsx:29-30 | `padStart(2, '0')` yields digits whose value is n; the length is 2 iff n < 100, and then the result is the tens digit followed by the units digit |
| TimeText.PadTwoOfDigits | components/TimePicker.tsx:29-30 | padding the value of a two-digit string gives that string back |
| TimeText.Format | components/TimePicker.tsx:29-31 | for hour and minute below 100 the text passes the `^\d{2}:\d{2}$` check and splits back to (hour, minute); its length is 5 exactly then |
| TimeText.Split | app/app.tsx:120 | `split` yields at least one piece, and no piece contains the separator |
| TimeText.SplitJoin | app/app.tsx:120 | joining the pieces of `split` with the separator gives the original string |
| TimeText.DigitsValue | app/app.tsx:120 | `Number` on a digit string (also lines 154 and components/TimePicker.tsx:50): the value of a k-digit string is below 10^k |
| TimeText.DigitsValueLeadingZero | app/app.tsx:120 | `Number` ignores a leading zero, so the padded "08" reads as 8 |
| TimeText.TimeTextOfPairs | components/TimePicker.tsx:40 | `IsTimeText` is exactly `/^\d{2}:\d{2}$/.test`: a text passes iff it is two digits, ':' and two digits with nothing around them (JS `\d` is ASCII 0-9, and `$` without the `m` flag matches only at the end of input) |
| TimeText.SplitTimeText | app/app.tsx:120 | a text of shape two digits, colon, two digits splits on ':' into exactly its two digit pairs |
| TimeText.SplitTime | app/app.tsx:120 | hours and minutes are the two-digit decimal values of characters 0-1 and 3-4; no range is checked |
| TimeText.SetHours | components/TimePicker.tsx:52 | the hour becomes h mod 24; minutes and seconds are kept |
| TimeText.SetMinutes | components/TimePicker.tsx:53 | the minute becomes m mod 60 and m div 60 carries into the hour (mod 24); seconds are kept |
| TimeText.SetSeconds | components/TimePicker.tsx:54 | the seconds are replaced; hour and minute are kept |
| TimeText.SettersInOrder | components/TimePicker.tsx:51-54 | setting hours, then minutes, then seconds to 0 gives a time that does not depend on the Date's starting time of day |
| TimeText.CreateDateFromTime | components/TimePicker.tsx:49-56 | the result is a valid time of day with seconds 0, minute = m mod 60 and hour = (h + m div 60) mod 24, for (h, m) split from the text |
| TimeText.FormatThenCreate | components/TimePicker.tsx:49-56 | formatting a valid time and reading it back into a Date keeps hour and minute and zeroes the seconds |
| TimeText.FormatSplitTime | components/TimePicker.tsx:29-31 | formatting the hour and minute split from any well-shaped text gives that text back, whatever their range |
| TimeText.CreateThenFormat | components/TimePicker.tsx:49-56 | a well-shaped text with hour <= 23 and minute <= 59, read into a Date and formatted, is the original text |
| TimePicker.TimePickerButton.constructor | components/TimePicker.tsx:13-18 | props are stored and the picker starts closed |
| TimePicker.TimePickerButton.Rerender | components/TimePicker.tsx:13-17 | a new `time` prop replaces the old one; the picker state is kept |
| TimePicker.TimePickerButton.HandleTimeChange | components/TimePicker.tsx:20-34 | the callback gets a value iff a date was selected and a callback exists; the value is the zero-padded "HH:MM" of the date, passes the shape check and splits back to the date's hour and minute; the picker is not closed |
| TimePicker.TimePickerButton.HandlePress | components/TimePicker.tsx:36-46 | on the web the prompt's text is forwarded unchanged iff it is present, passes `^\d{2}:\d{2}$` and a callback exists, and the picker flag is kept; elsewhere the picker opens and nothing is forwarded |
| TimePicker.TimePickerButton.TouchCancel | components/TimePicker.tsx:89 | the picker is closed |
| TimePicker.TimePickerButton.PickerValue | components/TimePicker.tsx:82-90 | a picker is shown iff open and not on the web; its value has seconds 0 and, for an in-range time prop, formats back to that prop |
| AlarmApp.StatusText | app/app.tsx:221 | "CONNECTED" iff connected; "SCANNING..." iff not connected and scanning; "DISCONNECTED" iff neither |
| AlarmApp.AlarmSession.Status | app/app.tsx:219-222 | the status line reads "CONNECTED" exactly when the session is connected |
| AlarmApp.SetAlarmFor | app/app.tsx:120 | a well-shaped time becomes SetAlarm with its two-digit hours and minutes (each below 100, so its frame fits in bytes), and formatting them gives the time back |
| AlarmApp.InitialSetAlarm | app/app.tsx:39 | the initial time '08:00' is sent as the frame [0x01, 8, 0] |
| AlarmApp.FirstConnection | app/app.tsx:90-125 | from the initial render (lines 38-46), a granted permission, an advertisement named 'PicoBLE' and a successful connect leave the status "CONNECTED" with exactly one write, the frame [0x01, 8, 0] |
| AlarmApp.AlarmSession.constructor | app/app.tsx:38-46 | the alarm starts as '08:00', disarmed and not ringing; there is no device and the session is neither connected nor scanning |
| AlarmApp.AlarmSession.SendCommand | app/app.tsx:67-87 | with no device nothing is written; otherwise exactly one write of the command's frame to the device is logged with its outcome; device, flags and alarm never change |
| AlarmApp.AlarmSession.ConnectToPico | app/app.tsx:90-98 | if permission is denied, only a "Permission Denied" alert is raised: no scan, `isScanning` untouched, no timeout; if granted, scanning starts and one timeout is scheduled |
| AlarmApp.AlarmSession.OnScanError | app/app.tsx:100-105 | a scan error clears `isScanning` and leaves the device untouched |
| AlarmApp.AlarmSession.OnAdvertisement | app/app.tsx:107-111 | only a device named exactly 'PicoBLE' stops the scan, clears `isScanning` and starts a connect; any other device, named or not, changes nothing |
| AlarmApp.AlarmSession.OnConnectOutcome | app/app.tsx:112-125 | only when connect and discovery both succeed are `device` and `isConnected` set, and then exactly one SetAlarm frame for the current time is written; otherwise they are unchanged, nothing is written and "Connection Failed" is raised, with no retry |
| AlarmApp.AlarmSession.OnTimeout | app/app.tsx:130-138 | when still scanning, the scan is stopped and `isScanning` cleared, and "Device Not Found" is raised only if not connected; otherwise the timeout does nothing |
| AlarmApp.AlarmSession.Reconnect | app/app.tsx:204-211 | an existing device is cancelled; afterwards there is no device and the session is not connected, and discovery restarts as in ConnectToPico |
| AlarmApp.AlarmSession.HandleTimeChange | app/app.tsx:150-159 | the alarm time is replaced; SetAlarm for the new time is written only when connected |
| AlarmApp.AlarmSession.ToggleArm | app/app.tsx:161-170 | `isArmed` flips; when connected, ARM is written if now armed and DISARM otherwise |
| AlarmApp.AlarmSession.HandleSnooze | app/app.tsx:172-181 | only `isRinging` is cleared; SNOOZE is written when connected; the "Snoozed" alert is raised |
| AlarmApp.AlarmSession.HandleStop | app/app.tsx:183-191 | `isRinging` and `isArmed` are cleared and the time is kept; STOP is written when connected |
| AlarmApp.AlarmSession.TestAlarm | app/app.tsx:193-202 | `isRinging` flips; TEST is written when connected |
| Ble.PicoFilterByName | app/app.tsx:107 | the filter (also app/ble-connect.tsx:18, `Ble.IsPico`) depends only on the advertised name and matches it exactly: an unnamed device, and a longer name starting with 'PicoBLE', are rejected |
| BleConnect.ScreenText | app/ble-connect.tsx:46 | "Connected to Pico!" exactly when a device is held, "Scanning for Pico..." exactly when none is |
| BleConnect.AlarmScreen.constructor | app/ble-connect.tsx:8 | the screen starts with no device and no scan |
| BleConnect.AlarmScreen.Mount | app/ble-connect.tsx:10-12 | mounting starts the scan |
| BleConnect.AlarmScreen.OnScanError | app/ble-connect.tsx:13-16 | a scan error changes nothing, the device included (the method may modify nothing), and the handler does not stop the scan |
| BleConnect.AlarmScreen.OnAdvertisement | app/ble-connect.tsx:18-21 | only the exact name 'PicoBLE' stops the scan and starts a connect; the device is untouched |
| BleConnect.AlarmScreen.OnConnectOutcome | app/ble-connect.tsx:23-30 | the device is set only when connect and discovery both succeed; a failure leaves it unchanged and nothing is retried |

Session invariant (`AlarmSession.Valid`): the alarm time is always well-shaped;
`isConnected` holds exactly when a device is held; `isScanning` implies the
transport scan is running. Every session method keeps it.

## Left out

- The BLE transport (react-native-ble-plx) is not modelled as radio behaviour.
  Scan start and stop are a ghost flag. Connect, service discovery and writes
  are outcomes passed to the handler, and `cancelConnection` is logged without
  its completion.
- The Android permission prompt is a boolean input. On other platforms the
  source grants permission, and that is the same input.
- `Buffer.from(...).toString('base64')` is not modelled. The model stops at the
  number array. `EncodeFitsBytes` shows that the frames the app builds need no
  byte truncation.
- `setTimeout` wall-clock timing and React scheduling are not modelled. The
  timeout is an event, and handlers run one at a time.
- The stale closure reads at app/app.tsx lines 68, 120, 131 and 134 are not
  reproduced (see above).
- `bleManager.destroy()` on unmount is not modelled, in either screen. It
  releases the library object and there is no state after it.
- JSX layout, styles, console logging and alert wording are not modelled.
  Alerts are the four values of `Alert`.
- Button visibility is not modelled: ARM and TEST are disabled when not
  connected, SNOOZE and STOP are shown only while ringing, and RECONNECT only
  while disconnected. The handlers can be called in any state, and each one
  guards on `isConnected` as the code does.
- AlarmApp.AlarmSession.HandleTimeChange: requires a time of shape two digits,
  colon, two digits. Its only caller is the picker button, whose output is
  proved to have this shape. `Number` on arbitrary text (NaN and other
  coercions) is not modelled.
- TimeText.CreateDateFromTime: requires the same shape, because its only
  input is the alarm time. The calendar day, milliseconds, time zones and
  daylight-saving shifts of `Date` are dropped; only the time of day is kept.
- TimeText.DecimalString: covers only the non-negative integers that the
  Date getters return.
- `window.prompt` is an input: the text entered, or none when cancelled.
- components/SimplePressable.tsx (press styling) is not part of this model.
  Neither is app/ble-manager.ts (platform detection and a dynamic `require`),
  nor pico/main.py and pico/test_motor.py (firmware GPIO, RTC and sleep loops).
