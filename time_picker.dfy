/**
  The time-picker button: it shows the alarm time, opens a native picker (or,
  on the web, a text prompt) and hands the chosen time to its `onTimeChange`
  callback as "HH:MM". The value handed to the callback is the out-parameter
  `call` of each handler (None: the callback is not invoked).
*/
module TimePicker {
  import opened Wrappers
  import opened TimeText

  class TimePickerButton {
    /** The `time` prop: the alarm time the parent currently holds. */
    var time: string
    /** Whether an `onTimeChange` callback was supplied. */
    const hasCallback: bool
    /** `Platform.OS === 'web'`. */
    const isWeb: bool
    /** The `showPicker` state. */
    var showPicker: bool

    ghost predicate Valid()
      reads this
    {
      IsTimeText(time)
    }

    constructor (time: string, hasCallback: bool, isWeb: bool)
      requires IsTimeText(time)
      ensures Valid()
      ensures this.time == time && this.hasCallback == hasCallback && this.isWeb == isWeb
      ensures !showPicker
    {
      this.time := time;
      this.hasCallback := hasCallback;
      this.isWeb := isWeb;
      showPicker := false;
    }

    /** The parent re-renders the button with a new `time` prop; the picker state is kept. */
    method Rerender(newTime: string)
      requires IsTimeText(newTime)
      modifies this`time
      ensures Valid() && time == newTime
    {
      time := newTime;
    }

    /**
      The picker's `onChange`: with a selected date and a callback, the date's
      hour and minute go to the callback as zero-padded "HH:MM". The picker
      stays open: closing it after a selection is disabled in the source.
    */
    method HandleTimeChange(selected: Option<Clock>) returns (call: Option<string>)
      requires selected.Some? ==> ValidClock(selected.value)
      ensures call.Some? <==> selected.Some? && hasCallback
      ensures call.Some? ==> call.value == Format(selected.value)
      ensures call.Some? ==> |call.value| == 5 && IsTimeText(call.value)
      ensures call.Some? ==> SplitTime(call.value) == (selected.value.hour, selected.value.minute)
    {
      if selected.Some? && hasCallback {
        var hours := PadTwo(selected.value.hour);
        var minutes := PadTwo(selected.value.minute);
        call := Some(hours + ":" + minutes);
      } else {
        call := None;
      }
    }

    /**
      A press on the button. On the web, `promptInput` is what the prompt
      returned (None: cancelled); it is handed on only when it has the shape
      two digits, colon, two digits, with no range check. Elsewhere the native
      picker is opened and nothing is handed on.
    */
    method HandlePress(promptInput: Option<string>) returns (call: Option<string>)
      modifies this`showPicker
      ensures isWeb ==> showPicker == old(showPicker)
      ensures !isWeb ==> showPicker && call.None?
      ensures call.Some? <==> isWeb && promptInput.Some? && IsTimeText(promptInput.value) && hasCallback
      ensures call.Some? ==> call == promptInput
    {
      call := None;
      if isWeb {
        if promptInput.Some? && IsTimeText(promptInput.value) {
          if hasCallback {
            call := promptInput;
          }
        }
      } else {
        showPicker := true;
      }
    }

    /** The picker's `onTouchCancel`: the only way the picker is closed. */
    method TouchCancel()
      modifies this`showPicker
      ensures !showPicker
    {
      showPicker := false;
    }

    /**
      The picker rendered under the button, if any: only when open and not on
      the web, initialised from the `time` prop read into a Date made at `now`.
      For an in-range time it shows exactly that time, seconds zeroed.
    */
    function PickerValue(now: Clock): (v: Option<Clock>)
      reads this
      requires Valid() && ValidClock(now)
      ensures v.Some? <==> showPicker && !isWeb
      ensures v.Some? ==> ValidClock(v.value) && v.value.second == 0
      ensures v.Some? && SplitTime(time).0 <= 23 && SplitTime(time).1 <= 59 ==> Format(v.value) == time
    {
      if showPicker && !isWeb then
        var date := CreateDateFromTime(time, now);
        assert SplitTime(time).0 <= 23 && SplitTime(time).1 <= 59 ==> Format(date) == time by {
          if SplitTime(time).0 <= 23 && SplitTime(time).1 <= 59 {
            CreateThenFormat(time, now);
          }
        }
        Some(date)
      else
        None
    }
  }
}
