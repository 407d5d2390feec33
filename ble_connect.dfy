/**
  The minimal alarm screen: on mount it scans, connects to the first device
  advertised under the exact name 'PicoBLE' and shows whether it holds a
  device. It keeps only `device`; errors are only logged.
*/
module BleConnect {
  import opened Wrappers
  import opened Ble

  /** The screen's text: connected exactly when a device is held. */
  function ScreenText(device: Option<Device>): (text: string)
    ensures text == "Connected to Pico!" <==> device.Some?
    ensures text == "Scanning for Pico..." <==> device.None?
  {
    if device.Some? then "Connected to Pico!" else "Scanning for Pico..."
  }

  class AlarmScreen {
    /** The `device` state. */
    var device: Option<Device>
    /** Whether the BLE manager's device scan is running. */
    ghost var scanActive: bool
    /** Peripherals whose `connect` was started and whose outcome has not arrived. */
    ghost var connecting: multiset<Device>

    constructor ()
      ensures device.None? && !scanActive && connecting == multiset{}
    {
      device := None;
      scanActive := false;
      connecting := multiset{};
    }

    /** The mount effect: the scan is started, with no service filter. */
    method Mount()
      modifies this`scanActive
      ensures scanActive
    {
      scanActive := true;
    }

    /**
      The scan callback with an error: logged, and nothing else happens; the
      handler does not stop the scan. With no modifies clause it cannot
      change the screen.
    */
    method OnScanError()
      requires scanActive
      ensures scanActive
    {
    }

    /** The scan callback with an advertisement: only the exact name 'PicoBLE' stops the scan and starts a connect. */
    method OnAdvertisement(d: Device)
      requires scanActive
      modifies this`scanActive, this`connecting
      ensures IsPico(d) ==> !scanActive && connecting == old(connecting) + multiset{d}
      ensures !IsPico(d) ==> scanActive && connecting == old(connecting)
      ensures device == old(device)
    {
      if d.name == Some(PICO_NAME) {
        scanActive := false;
        connecting := connecting + multiset{d};
      }
    }

    /**
      The outcome of `connect` then service discovery: the device is stored
      only when both succeed; a failure is only logged and not retried.
    */
    method OnConnectOutcome(d: Device, connectOk: bool, discoverOk: bool)
      requires d in connecting
      modifies this`device, this`connecting
      ensures connecting == old(connecting) - multiset{d}
      ensures device == if connectOk && discoverOk then Some(d) else old(device)
    {
      connecting := connecting - multiset{d};
      if connectOk && discoverOk {
        device := Some(d);
      }
    }
  }
}
