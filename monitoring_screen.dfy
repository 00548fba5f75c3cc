/** The monitoring page: two tabs, a per-camera on/off flag, and the toggle request whose
    outcome flips the flag. */
module MonitoringScreen {
  import opened Common

  const GateSection: string := "gate"
  const MachineSection: string := "machine"

  /** What the toggle request produced: a parsed reply with its `ok` flag, or an exception
      from the request or from parsing the reply. */
  datatype ToggleReply = Answered(ok: bool) | Unreachable

  class MonitoringView {
    var activeSection: string
    var cameraOn: map<string, bool>

    constructor ()
      ensures activeSection == MachineSection
      ensures cameraOn == map[GateSection := false, MachineSection := false]
    {
      activeSection := MachineSection;
      cameraOn := map[GateSection := false, MachineSection := false];
    }

    /** `cameraOn[cameraType]`, with a missing key read as false. */
    predicate IsOn(cameraType: string)
      reads this
    {
      cameraType in cameraOn && cameraOn[cameraType]
    }

    /** The action the button requests. */
    function ActionFor(cameraType: string): (r: string)
      reads this
      ensures r == "off" <==> IsOn(cameraType)
      ensures r == "on" <==> !IsOn(cameraType)
    {
      if IsOn(cameraType) then "off" else "on"
    }

    /** `toggleCamera(cameraType)` when its reply arrives before the next press: the action is
        read from the flags at the click, and only an ok reply flips that camera's flag. */
    method ToggleCamera(cameraType: string, reply: ToggleReply) returns (action: string)
      modifies this`cameraOn
      ensures action == old(ActionFor(cameraType))
      ensures reply == Answered(true) ==> cameraOn == old(cameraOn)[cameraType := !old(IsOn(cameraType))]
      ensures reply != Answered(true) ==> cameraOn == old(cameraOn)
    {
      action := ActionFor(cameraType);
      ApplyReply(cameraType, reply);
    }

    /** The part of `toggleCamera` after the request's awaits, as written: an ok reply flips
        the flag as it stands when the reply arrives, whatever action was sent. */
    method ApplyReply(cameraType: string, reply: ToggleReply)
      modifies this`cameraOn
      ensures reply == Answered(true) ==> cameraOn == old(cameraOn)[cameraType := !old(IsOn(cameraType))]
      ensures reply != Answered(true) ==> cameraOn == old(cameraOn)
    {
      if reply == Answered(true) {
        cameraOn := cameraOn[cameraType := !IsOn(cameraType)];
      }
    }

    /** The corrected reply handler: an ok reply sets the flag to what the sent action asked
        for, so a stale or repeated press cannot invert it. */
    method ApplyReplySettingAction(cameraType: string, action: string, reply: ToggleReply)
      modifies this`cameraOn
      ensures reply == Answered(true) ==> cameraOn == old(cameraOn)[cameraType := action == "on"]
      ensures reply != Answered(true) ==> cameraOn == old(cameraOn)
    {
      if reply == Answered(true) {
        cameraOn := cameraOn[cameraType := action == "on"];
      }
    }

    method SelectSection(section: string)
      modifies this`activeSection
      ensures activeSection == section
    {
      activeSection := section;
    }

    /** The stream the page shows: the gate tab when it is active, the machine tab otherwise,
        and only while that camera's flag is on. */
    function VisibleStream(): (r: Option<string>)
      reads this
      ensures r == Some(GateSection) <==> activeSection == GateSection && IsOn(GateSection)
      ensures r == Some(MachineSection) <==> activeSection != GateSection && IsOn(MachineSection)
      ensures r.None? || r == Some(GateSection) || r == Some(MachineSection)
    {
      if activeSection == GateSection then (if IsOn(GateSection) then Some(GateSection) else None)
      else if IsOn(MachineSection) then Some(MachineSection) else None
    }
  }

  /** Two toggles with ok replies put a flag back where it was, and a toggle never touches the
      other camera's flag. */
  method ToggleTwice(view: MonitoringView, cameraType: string, other: string)
    requires other != cameraType
    modifies view
    ensures view.IsOn(cameraType) == old(view.IsOn(cameraType))
    ensures view.IsOn(other) == old(view.IsOn(other))
  {
    var first := view.ToggleCamera(cameraType, Answered(true));
    var second := view.ToggleCamera(cameraType, Answered(true));
    assert first != second;
  }
}
