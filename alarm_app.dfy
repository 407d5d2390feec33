/**
  The alarm screen's session with the peripheral: discovery by exact name,
  connect and service discovery, the 10-second scan timeout, reconnect, the
  command writes and the alarm record the buttons edit.

  Every transport result (permission answer, scan error, advertisement,
  connect/discover outcome, timeout, write outcome) is an explicit input of
  the method that handles it. Each handler acts on the current state. The
  source's React closures instead read values captured at an earlier render:
  the timeout reads `isScanning` and `isConnected` as they were when
  `connectToPico` was created, and the connect callback reads `alarm.time`,
  and `sendCommand` reads `device`, from that same render (so the write after
  a fresh connect sees no device). The model gives every handler the
  single current state the code is evidently written for.
*/
module AlarmApp {
  import opened Wrappers
  import opened Ble
  import opened TimeText
  import opened CommandCodec

  /** The alarm record `{time, isArmed, isRinging}`. */
  datatype AlarmState = AlarmState(time: string, isArmed: bool, isRinging: bool)

  /** The user-visible alerts the session raises. */
  datatype Alert = PermissionDenied | ConnectionFailed | DeviceNotFound | Snoozed

  /** One `writeCharacteristicWithResponseForService` call: the device, the frame, and whether it succeeded. */
  datatype Write = Write(target: Device, frame: seq<nat>, ok: bool)

  /** The status line: connected wins over scanning. */
  function StatusText(isConnected: bool, isScanning: bool): (text: string)
    ensures text == "CONNECTED" <==> isConnected
    ensures text == "SCANNING..." <==> !isConnected && isScanning
    ensures text == "DISCONNECTED" <==> !isConnected && !isScanning
  {
    if isConnected then "CONNECTED" else if isScanning then "SCANNING..." else "DISCONNECTED"
  }

  /** The SetAlarm command for a time text: its two halves as hours and minutes, unchecked. */
  function SetAlarmFor(time: string): (c: Command)
    requires IsTimeText(time)
    ensures c.SetAlarm? && c.hours < 100 && c.minutes < 100
    ensures c.hours == 10 * DigitValue(time[0]) + DigitValue(time[1])
    ensures c.minutes == 10 * DigitValue(time[3]) + DigitValue(time[4])
    ensures IsByteFrame(Encode(c))
    ensures TimeText.Format(Clock(c.hours, c.minutes, 0)) == time
  {
    var hm := SplitTime(time);
    var c := SetAlarm(hm.0, hm.1);
    EncodeFitsBytes(c);
    FormatSplitTime(time, 0);
    c
  }

  class AlarmSession {
    var alarm: AlarmState
    /** The `device` state: the connected peripheral, or null. */
    var device: Option<Device>
    var isConnected: bool
    var isScanning: bool

    /** Whether the BLE manager's device scan is running (between `startDeviceScan` and `stopDeviceScan`). */
    ghost var scanActive: bool
    /** Peripherals whose `connect` was started and whose outcome has not arrived. */
    ghost var connecting: multiset<Device>
    /** Scan timeouts scheduled and not yet fired. */
    ghost var timers: nat
    /** Every command write, in order. */
    ghost var writes: seq<Write>
    /** Every alert raised, in order. */
    ghost var alerts: seq<Alert>
    /** Every `cancelConnection` issued, in order. */
    ghost var cancelled: seq<Device>

    ghost predicate Valid()
      reads this
    {
      && IsTimeText(alarm.time)
      && (isConnected <==> device.Some?)
      && (isScanning ==> scanActive)
    }

    /** The initial render: alarm '08:00', disarmed, silent; no device. */
    constructor ()
      ensures Valid()
      ensures alarm == AlarmState("08:00", false, false)
      ensures device.None? && !isConnected && !isScanning && !scanActive
      ensures connecting == multiset{} && timers == 0
      ensures writes == [] && alerts == [] && cancelled == []
    {
      alarm := AlarmState("08:00", false, false);
      device := None;
      isConnected := false;
      isScanning := false;
      scanActive := false;
      connecting := multiset{};
      timers := 0;
      writes := [];
      alerts := [];
      cancelled := [];
    }

    /**
      `sendCommand`: with no device, nothing is written. Otherwise the frame
      is written to the device; a failed write is only logged. Nothing but the
      write log changes.
    */
    method SendCommand(c: Command, writeOk: bool)
      requires Valid()
      modifies this`writes
      ensures Valid()
      ensures writes == old(writes) + (if device.Some? then [Write(device.value, Encode(c), writeOk)] else [])
    {
      if device.None? {
        return;
      }
      var commandData := Encode(c);
      writes := writes + [Write(device.value, commandData, writeOk)];
    }

    /**
      `connectToPico`, up to the point where it waits: when permission is
      denied an alert is raised and nothing else happens; otherwise scanning
      starts and one timeout is scheduled.
    */
    method ConnectToPico(granted: bool)
      requires Valid()
      modifies this`isScanning, this`scanActive, this`timers, this`alerts
      ensures Valid()
      ensures !granted ==> alerts == old(alerts) + [PermissionDenied]
      ensures !granted ==> isScanning == old(isScanning) && scanActive == old(scanActive) && timers == old(timers)
      ensures granted ==> isScanning && scanActive && timers == old(timers) + 1 && alerts == old(alerts)
    {
      if !granted {
        alerts := alerts + [PermissionDenied];
        return;
      }
      isScanning := true;
      scanActive := true;
      timers := timers + 1;
    }

    /** The scan callback with an error: scanning is reported as over; the device is untouched. */
    method OnScanError()
      requires Valid() && scanActive
      modifies this`isScanning
      ensures Valid() && !isScanning
    {
      isScanning := false;
    }

    /**
      The scan callback with an advertisement: a device named exactly
      'PicoBLE' stops the scan and starts a connect; any other, named or not,
      is ignored.
    */
    method OnAdvertisement(d: Device)
      requires Valid() && scanActive
      modifies this`isScanning, this`scanActive, this`connecting
      ensures Valid()
      ensures IsPico(d) ==> !scanActive && !isScanning && connecting == old(connecting) + multiset{d}
      ensures !IsPico(d) ==> isScanning == old(isScanning) && scanActive && connecting == old(connecting)
    {
      if d.name == Some(PICO_NAME) {
        scanActive := false;
        isScanning := false;
        connecting := connecting + multiset{d};
      }
    }

    /**
      The outcome of `connect` followed by `discoverAllServicesAndCharacteristics`.
      Only when both succeed is the device stored and the session connected,
      and then the current alarm time is sent as SetAlarm. Otherwise a
      "Connection Failed" alert is raised, the session is left as it was and
      nothing is retried.
    */
    method OnConnectOutcome(d: Device, connectOk: bool, discoverOk: bool, writeOk: bool)
      requires Valid() && d in connecting
      modifies this`device, this`isConnected, this`connecting, this`writes, this`alerts
      ensures Valid()
      ensures connecting == old(connecting) - multiset{d}
      ensures connectOk && discoverOk ==> device == Some(d) && isConnected && alerts == old(alerts)
      ensures connectOk && discoverOk ==> writes == old(writes) + [Write(d, Encode(SetAlarmFor(alarm.time)), writeOk)]
      ensures !(connectOk && discoverOk) ==> device == old(device) && isConnected == old(isConnected)
      ensures !(connectOk && discoverOk) ==> writes == old(writes) && alerts == old(alerts) + [ConnectionFailed]
    {
      connecting := connecting - multiset{d};
      if connectOk && discoverOk {
        device := Some(d);
        isConnected := true;
        var hm := SplitTime(alarm.time);
        SendCommand(SetAlarm(hm.0, hm.1), writeOk);
      } else {
        alerts := alerts + [ConnectionFailed];
      }
    }

    /**
      The 10-second timeout: when still scanning it stops the scan and raises
      "Device Not Found" unless connected; otherwise it does nothing.
    */
    method OnTimeout()
      requires Valid() && timers > 0
      modifies this`isScanning, this`scanActive, this`timers, this`alerts
      ensures Valid() && timers == old(timers) - 1
      ensures old(isScanning) ==> !isScanning && !scanActive
      ensures old(isScanning) ==> alerts == old(alerts) + (if isConnected then [] else [DeviceNotFound])
      ensures !old(isScanning) ==> isScanning == old(isScanning) && scanActive == old(scanActive) && alerts == old(alerts)
    {
      timers := timers - 1;
      if isScanning {
        scanActive := false;
        isScanning := false;
        if !isConnected {
          alerts := alerts + [DeviceNotFound];
        }
      }
    }

    /**
      `reconnect`: the current device, if any, is cancelled; the session is
      cleared to no device, not connected; then discovery starts again.
    */
    method Reconnect(granted: bool)
      requires Valid()
      modifies this`device, this`isConnected, this`cancelled
      modifies this`isScanning, this`scanActive, this`timers, this`alerts
      ensures Valid()
      ensures device.None? && !isConnected
      ensures cancelled == old(cancelled) + (if old(device).Some? then [old(device).value] else [])
      ensures !granted ==> alerts == old(alerts) + [PermissionDenied]
      ensures !granted ==> isScanning == old(isScanning) && scanActive == old(scanActive) && timers == old(timers)
      ensures granted ==> isScanning && scanActive && timers == old(timers) + 1 && alerts == old(alerts)
    {
      if device.Some? {
        cancelled := cancelled + [device.value];
      }
      device := None;
      isConnected := false;
      ConnectToPico(granted);
    }

    /** A new time from the picker: stored, and sent as SetAlarm when connected. */
    method HandleTimeChange(newTime: string, writeOk: bool)
      requires Valid() && IsTimeText(newTime)
      modifies this`alarm, this`writes
      ensures Valid()
      ensures alarm == old(alarm).(time := newTime)
      ensures writes == old(writes) + (if isConnected then [Write(device.value, Encode(SetAlarmFor(newTime)), writeOk)] else [])
    {
      alarm := alarm.(time := newTime);
      if isConnected {
        var hm := SplitTime(newTime);
        SendCommand(SetAlarm(hm.0, hm.1), writeOk);
      }
    }

    /** ARM/DISARM: flips `isArmed`; when connected sends ARM if now armed, DISARM if not. */
    method ToggleArm(writeOk: bool)
      requires Valid()
      modifies this`alarm, this`writes
      ensures Valid()
      ensures alarm == old(alarm).(isArmed := !old(alarm).isArmed)
      ensures writes == old(writes) + (if isConnected then [Write(device.value, Encode(if alarm.isArmed then Arm else Disarm), writeOk)] else [])
    {
      var newArmedState := !alarm.isArmed;
      alarm := alarm.(isArmed := newArmedState);
      if isConnected {
        SendCommand(if newArmedState then Arm else Disarm, writeOk);
      }
    }

    /** SNOOZE: stops the ringing only, sends SNOOZE when connected, and raises the "Snoozed" alert. */
    method HandleSnooze(writeOk: bool)
      requires Valid()
      modifies this`alarm, this`writes, this`alerts
      ensures Valid()
      ensures alarm == old(alarm).(isRinging := false)
      ensures writes == old(writes) + (if isConnected then [Write(device.value, Encode(Snooze), writeOk)] else [])
      ensures alerts == old(alerts) + [Snoozed]
    {
      alarm := alarm.(isRinging := false);
      if isConnected {
        SendCommand(Snooze, writeOk);
      }
      alerts := alerts + [Snoozed];
    }

    /** STOP: stops the ringing and disarms, keeping the time; sends STOP when connected. */
    method HandleStop(writeOk: bool)
      requires Valid()
      modifies this`alarm, this`writes
      ensures Valid()
      ensures alarm == AlarmState(old(alarm).time, false, false)
      ensures writes == old(writes) + (if isConnected then [Write(device.value, Encode(Stop), writeOk)] else [])
    {
      alarm := alarm.(isRinging := false, isArmed := false);
      if isConnected {
        SendCommand(Stop, writeOk);
      }
    }

    /** TEST ALARM: flips `isRinging`; sends TEST when connected. */
    method TestAlarm(writeOk: bool)
      requires Valid()
      modifies this`alarm, this`writes
      ensures Valid()
      ensures alarm == old(alarm).(isRinging := !old(alarm).isRinging)
      ensures writes == old(writes) + (if isConnected then [Write(device.value, Encode(Test), writeOk)] else [])
    {
      var newRingingState := !alarm.isRinging;
      alarm := alarm.(isRinging := newRingingState);
      if isConnected {
        SendCommand(Test, writeOk);
      }
    }

    /** The status line of the current state. */
    function Status(): (text: string)
      reads this
      ensures text == "CONNECTED" <==> isConnected
    {
      StatusText(isConnected, isScanning)
    }
  }

  /** The initial alarm time '08:00' is sent as SetAlarm(8, 0). */
  lemma InitialSetAlarm()
    ensures IsTimeText("08:00") && Encode(SetAlarmFor("08:00")) == [CMD_SET_ALARM, 8, 0]
  {
  }

  /**
    The first connection after the initial render: permission granted, the
    peripheral advertised, connect and discovery succeeded. The session is
    then connected and has written exactly the initial alarm time.
  */
  method FirstConnection(pico: Device, writeOk: bool) returns (status: string, ghost sent: seq<Write>)
    requires IsPico(pico)
    ensures status == "CONNECTED"
    ensures sent == [Write(pico, [CMD_SET_ALARM, 8, 0], writeOk)]
  {
    var session := new AlarmSession();
    session.ConnectToPico(true);
    session.OnAdvertisement(pico);
    assert session.alarm.time == "08:00" && session.writes == [];
    session.OnConnectOutcome(pico, true, true, writeOk);
    InitialSetAlarm();
    assert session.writes == [Write(pico, Encode(SetAlarmFor("08:00")), writeOk)];
    status := session.Status();
    sent := session.writes;
  }
}
