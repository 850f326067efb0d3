/** The screening controller of the earlier generation: a three-state record
    button, error codes from the native core shown as hints, a counter that
    stops at zero, and the JSON the core hands over, completed with device
    information and passed on to the processing screen.

    As in the current controller, the core's callbacks are inputs, main-queue
    hops are applied at once, and effects on the core and the navigation stack
    are recorded in `effects`. */
module LegacyScreening {
  import opened Wrappers
  import opened Json
  import opened Numeric
  import Network

  /** The button states; there is no countdown in this generation. */
  datatype ButtonState = Disable | Ready | Running

  datatype Effect =
    | CoreRecording(on: bool)
    | Toast(message: string)
    | PushProcessing(jsonData: Option<Network.Bytes>)
    | PopScreen

  const DefaultHint := "Hold still and record"

  /** The hint shown for an error code of the core. */
  function Hint(errorCode: int): (r: string)
    ensures r == DefaultHint <==> !(1 <= errorCode <= 7)
  {
    match errorCode
    case 1 => "No face detected"
    case 2 => "Only one face is permitted"
    case 3 => "Move closer to camera"
    case 4 => "Center face in view"
    case 5 => "Increase light on face"
    case 6 => "Decrease light on face"
    case 7 => "Place more of chest in view"
    case _ => DefaultHint
  }

  /** The seven specific hints are pairwise different. */
  lemma HintsDistinct(a: int, b: int)
    requires 1 <= a <= 7 && 1 <= b <= 7 && a != b
    ensures Hint(a) != Hint(b)
  {
    HintInitial(a);
    HintInitial(b);
  }

  /** The specific hints start with seven different letters. */
  lemma HintInitial(code: int)
    requires 1 <= code <= 7
    ensures |Hint(code)| > 0 && Hint(code)[0] == "NOMCIDP"[code - 1]
  {
  }

  /** `json["setting"] as? [String: Any] ?? [:]` */
  function Settings(json: seq<(string, Json)>): seq<(string, Json)> {
    match Get(json, "setting")
    case Some(j) => (match AsObject(j) case Some(f) => f case None => [])
    case None => []
  }

  /** The object handed over by the core, with `OS_Version` and
      `Phone_Model` put into its `setting` object: the other settings and the
      other top-level entries are kept, and a `setting` entry that is not an
      object is replaced by one holding only the two new keys. */
  function WithDeviceInfo(json: seq<(string, Json)>, osVersion: string, deviceModel: string)
    : (r: seq<(string, Json)>)
    ensures forall k :: k != "setting" ==> Get(r, k) == Get(json, k)
    ensures Get(r, "setting").Some? && Get(r, "setting").value.JObject?
    ensures var setting := Get(r, "setting").value.fields;
            Get(setting, "OS_Version") == Some(JString(osVersion)) &&
            Get(setting, "Phone_Model") == Some(JString(deviceModel))
    ensures var setting := Get(r, "setting").value.fields;
            forall k :: k != "OS_Version" && k != "Phone_Model" ==> Get(setting, k) == Get(Settings(json), k)
    ensures DistinctKeys(json) ==> DistinctKeys(r)
  {
    var withOs := Put(Settings(json), "OS_Version", JString(osVersion));
    var settings := Put(withOs, "Phone_Model", JString(deviceModel));
    Put(json, "setting", JObject(settings))
  }

  class ScreeningRoot {
    var buttonState: ButtonState
    var isRecording: bool
    var counter: int
    var jsonData: Option<Network.Bytes>
    var effects: seq<Effect>

    constructor ()
      ensures buttonState == Disable && !isRecording && counter == 30
      ensures jsonData.None? && effects == []
    {
      buttonState := Disable;
      isRecording := false;
      counter := 30;
      jsonData := None;
      effects := [];
    }

    /** `errorHappened`: ignored once the counter is zero. Otherwise the hint
        is shown; a nonzero code disables the button; code zero makes a ready
        or running button run while fewer than 60 seconds remain and be ready
        otherwise, and makes a disabled button ready. */
    method ErrorHappened(errorCode: int)
      modifies this
      ensures old(counter) == 0 ==> buttonState == old(buttonState) && effects == old(effects)
      ensures old(counter) != 0 ==> effects == old(effects) + [Toast(Hint(errorCode))]
      ensures old(counter) != 0 && errorCode != 0 ==> buttonState == Disable
      ensures old(counter) != 0 && errorCode == 0 && old(buttonState) != Disable ==>
                buttonState == (if counter < 60 then Running else Ready)
      ensures old(counter) != 0 && errorCode == 0 && old(buttonState) == Disable ==> buttonState == Ready
      ensures isRecording == old(isRecording) && counter == old(counter) && jsonData == old(jsonData)
    {
      if counter == 0 {
        return;
      }
      effects := effects + [Toast(Hint(errorCode))];
      if errorCode != 0 {
        buttonState := Disable;
        return;
      }
      if buttonState == Ready || buttonState == Running {
        if counter < 60 {
          buttonState := Running;
        } else {
          buttonState := Ready;
        }
      } else {
        buttonState := Ready;
      }
    }

    /** `timerChanged`: the counter follows the truncated timer value until it
        is zero, and then stays zero. */
    method TimerChanged(timerValue: real)
      modifies this
      ensures old(counter) == 0 ==> counter == 0
      ensures old(counter) != 0 ==> counter == TruncateToInt(timerValue)
      ensures buttonState == old(buttonState) && isRecording == old(isRecording)
      ensures jsonData == old(jsonData) && effects == old(effects)
    {
      if counter != 0 {
        counter := TruncateToInt(timerValue);
      }
    }

    /** `stopRecording` */
    method StopRecording()
      modifies this
      ensures effects == old(effects) + [CoreRecording(false)]
      ensures buttonState == old(buttonState) && isRecording == old(isRecording)
      ensures counter == old(counter) && jsonData == old(jsonData)
    {
      effects := effects + [CoreRecording(false)];
    }

    /** `startRecording` */
    method StartRecording()
      modifies this
      ensures effects == old(effects) + [CoreRecording(true)]
      ensures buttonState == old(buttonState) && isRecording == old(isRecording)
      ensures counter == old(counter) && jsonData == old(jsonData)
    {
      effects := effects + [CoreRecording(true)];
    }

    /** `moveToProcessing`: recording stops and the processing screen is
        pushed with the stored JSON data, unchanged. */
    method MoveToProcessing()
      modifies this
      ensures effects == old(effects) + [CoreRecording(false), PushProcessing(old(jsonData))]
      ensures buttonState == old(buttonState) && isRecording == old(isRecording)
      ensures counter == old(counter) && jsonData == old(jsonData)
    {
      StopRecording();
      effects := effects + [PushProcessing(jsonData)];
    }

    /** `receiveJsonData`: a nil object stops the process; otherwise the
        object completed with the device information is serialized (a failure
        stops the process too) and stored, and when the counter is zero the
        processing screen is entered with it. */
    method ReceiveJsonData(json: Option<seq<(string, Json)>>, osVersion: string, deviceModel: string,
                           serialize: seq<(string, Json)> -> Option<Network.Bytes>)
      returns (outcome: Guarded<()>)
      modifies this
      ensures outcome.Traps? <==> json.None? || serialize(WithDeviceInfo(json.value, osVersion, deviceModel)).None?
      ensures outcome.Traps? ==> jsonData == old(jsonData) && effects == old(effects)
      ensures outcome.Completes? ==>
                jsonData == serialize(WithDeviceInfo(json.value, osVersion, deviceModel))
      ensures outcome.Completes? && counter == 0 ==>
                effects == old(effects) + [CoreRecording(false), PushProcessing(jsonData)]
      ensures outcome.Completes? && counter != 0 ==> effects == old(effects)
      ensures buttonState == old(buttonState) && isRecording == old(isRecording) && counter == old(counter)
    {
      if json.None? {
        return Traps;
      }
      var tmpJson := WithDeviceInfo(json.value, osVersion, deviceModel);
      var data := serialize(tmpJson);
      if data.None? {
        return Traps;
      }
      jsonData := data;
      if counter == 0 {
        MoveToProcessing();
      }
      return Completes(());
    }

    /** `recordButtonTapped`: ready starts recording, running stops it, a
        disabled button does nothing. */
    method RecordButtonTapped()
      modifies this
      ensures old(buttonState) == Ready ==>
                buttonState == Running && isRecording && effects == old(effects) + [CoreRecording(true)]
      ensures old(buttonState) == Running ==>
                buttonState == Ready && !isRecording && effects == old(effects) + [CoreRecording(false)]
      ensures old(buttonState) == Disable ==>
                buttonState == Disable && isRecording == old(isRecording) && effects == old(effects)
      ensures counter == old(counter) && jsonData == old(jsonData)
    {
      if buttonState == Ready {
        StartRecording();
        buttonState := Running;
        isRecording := true;
      } else if buttonState == Running {
        StopRecording();
        buttonState := Ready;
        isRecording := false;
      }
    }

    /** `stopCamera` */
    method StopCamera()
      modifies this
      ensures !isRecording
      ensures buttonState == old(buttonState) && counter == old(counter)
      ensures jsonData == old(jsonData) && effects == old(effects)
    {
      isRecording := false;
    }

    /** `backButtonPressed`: recording stops and the screen is popped. */
    method BackButtonPressed()
      modifies this
      ensures effects == old(effects) + [CoreRecording(false), PopScreen]
      ensures buttonState == old(buttonState) && isRecording == old(isRecording)
      ensures counter == old(counter) && jsonData == old(jsonData)
    {
      StopRecording();
      effects := effects + [PopScreen];
    }

    /** `gestureRecognizerShouldBegin`: the pop gesture stops recording; every
        gesture may begin. */
    method GestureShouldBegin(isPopGesture: bool) returns (begin: bool)
      modifies this
      ensures begin
      ensures effects == old(effects) + (if isPopGesture then [CoreRecording(false)] else [])
      ensures buttonState == old(buttonState) && isRecording == old(isRecording)
      ensures counter == old(counter) && jsonData == old(jsonData)
    {
      if isPopGesture {
        StopRecording();
      }
      return true;
    }
  }
}
