/** The older detection service of backend/app.py: one camera slot, a toggle that answers 200 to
    every action, and an alert that returns its text instead of queueing it. */
module LegacyDetection {
  import opened Common
  import opened Gear
  import Detection

  /** What `trigger_voice_alert` returns, and whether it starts a speech thread. */
  datatype Alert = Alert(message: string, speaks: bool)

  const AllDetected: string := "All safety equipment detected."
  const WarningTail: string := " missing! Please wear it."

  /** The older `trigger_voice_alert`. */
  function TriggerVoiceAlert(items: seq<string>): (r: Alert)
    ensures r.speaks <==> items != []
  {
    if items == [] then Alert(AllDetected, false)
    else Alert(Join(items, ", ") + WarningTail, true)
  }

  /** The frame loop alerts only when something is missing. */
  function FrameAlert(detected: seq<string>): (r: Option<Alert>)
    ensures r.Some? <==> MissingItems(detected) != []
    ensures r.Some? ==> r.value.speaks
  {
    var missing := MissingItems(detected);
    if missing != [] then Some(TriggerVoiceAlert(missing)) else None
  }

  /** The returned text tells the two outcomes apart: the all-clear text is returned exactly
      when nothing is missing, and the text ends in the request to wear the gear exactly when
      something is. */
  lemma AlertTextTellsOutcome(items: seq<string>)
    ensures TriggerVoiceAlert(items).message == AllDetected <==> items == []
    ensures var m := TriggerVoiceAlert(items).message;
            (|m| >= |WarningTail| && m[|m| - |WarningTail|..] == WarningTail) <==> items != []
  {
    var m := TriggerVoiceAlert(items).message;
    assert AllDetected[|AllDetected| - 3] == 'e';
    assert WarningTail[|WarningTail| - 3] == 'i';
    if items != [] {
      assert m[|m| - 3] == WarningTail[|WarningTail| - 3];
      assert m[|m| - |WarningTail|..] == WarningTail;
    }
  }

  /** The `camera` global after a toggle: "on" opens a capture only when none is held,
      "off" drops a held one, any other action (or none) leaves it. */
  function ToggledCamera(camera: Option<Detection.Capture>, action: Option<string>, opens: bool): Option<Detection.Capture>
  {
    if action == Some("on") then (if camera.None? then Some(Detection.Capture(opens)) else camera)
    else if action == Some("off") then None
    else camera
  }

  /** Toggling the same way twice is toggling once. */
  lemma ToggleIdempotent(camera: Option<Detection.Capture>, action: Option<string>, opens: bool, opens2: bool)
    ensures ToggledCamera(ToggledCamera(camera, action, opens), action, opens2) == ToggledCamera(camera, action, opens)
  {
  }

  /** "on" never replaces a held capture, and after "off" no capture is held. */
  lemma ToggleOnKeepsOffClears(camera: Option<Detection.Capture>, opens: bool)
    ensures camera.Some? ==> ToggledCamera(camera, Some("on"), opens) == camera
    ensures ToggledCamera(camera, Some("on"), opens).Some?
    ensures ToggledCamera(camera, Some("off"), opens).None?
  {
  }

  /** `f"Camera turned {action}"`, where a missing action prints as `None`. */
  function ActionText(action: Option<string>): string
  {
    if action.Some? then action.value else "None"
  }

  class LegacyService {
    var camera: Option<Detection.Capture>

    constructor ()
      ensures camera.None?
    {
      camera := None;
    }

    /** `toggle_camera`: always 200 with "Camera turned <action>". */
    method ToggleCamera(action: Option<string>, opens: bool) returns (r: Detection.Reply)
      modifies this
      ensures camera == ToggledCamera(old(camera), action, opens)
      ensures r == Detection.Reply(200, Detection.Message("Camera turned " + ActionText(action)))
    {
      if action == Some("on") {
        if camera.None? {
          camera := Some(Detection.Capture(opens));
        }
      } else if action == Some("off") {
        if camera.Some? {
          camera := None;
        }
      }
      r := Detection.Reply(200, Detection.Message("Camera turned " + ActionText(action)));
    }

    /** `video_feed`: 404 while no capture is held. */
    function VideoFeed(): (r: Detection.Reply)
      reads this
      ensures r.status == 404 <==> camera.None?
      ensures camera.None? ==> r == Detection.Reply(404, Detection.Error("Camera is off"))
    {
      if camera.None? then Detection.Reply(404, Detection.Error("Camera is off"))
      else Detection.Reply(200, Detection.FrameStream)
    }
  }
}
