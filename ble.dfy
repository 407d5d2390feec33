/** What both screens know about a BLE peripheral seen by the scanner. */
module Ble {
  import opened Wrappers

  /** A scanned peripheral: an opaque identity and its advertised name, which may be missing. */
  datatype Device = Device(id: nat, name: Option<string>)

  /** The advertised name the alarm clock uses; discovery filters on it and on nothing else. */
  const PICO_NAME: string := "PicoBLE"

  /** `scannedDevice?.name === 'PicoBLE'`: an exact match, and an unnamed device never matches. */
  predicate IsPico(d: Device) {
    d.name == Some(PICO_NAME)
  }

  /**
    The filter looks at the advertised name and nothing else, and matches it
    exactly: an unnamed device and a longer name that merely starts with
    'PicoBLE' are both rejected.
  */
  lemma PicoFilterByName(a: Device, b: Device)
    ensures a.name == b.name ==> (IsPico(a) <==> IsPico(b))
    ensures IsPico(a) && IsPico(b) ==> a.name == b.name
    ensures a.name.None? ==> !IsPico(a)
    ensures a.name.Some? && |a.name.value| > |PICO_NAME| && a.name.value[..|PICO_NAME|] == PICO_NAME ==> !IsPico(a)
  {
  }
}
