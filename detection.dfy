/** The detection service of app.py: which section's camera is on, the voice-alert queue with its
    de-duplication through `last_alert`, and the per-camera cooldown on logging violations.
    Inference, capture, speech and the alert thread are outside the model; the labels a frame
    shows and whether the camera opens are inputs. */
module Detection {
  import opened Common
  import opened Records
  import opened Gear

  const Machine: string := "machine"
  const Gate: string := "gate"

  /** `cooldown_seconds`. */
  const CooldownSeconds: int := 5

  /** A `cv2.VideoCapture` handle and whether it opened the device. */
  datatype Capture = Capture(isOpen: bool)

  datatype Body = Message(text: string) | Error(text: string) | FrameStream

  datatype Reply = Reply(status: int, body: Body)

  /** The spoken warning for a non-empty list of missing items. */
  function AlertMessage(items: seq<string>): string
  {
    "Warning! " + Join(items, " and ") + " are missing. Please wear them immediately!"
  }

  /** The missing list for the three absence flags, in `RequiredItems` order. */
  function Pick(hardhat: bool, mask: bool, vest: bool): seq<string>
  {
    (if hardhat then ["Hardhat"] else []) + (if mask then ["Mask"] else []) + (if vest then ["Safety Vest"] else [])
  }

  lemma MissingItemsIsPick(detected: seq<string>)
    ensures MissingItems(detected)
            == Pick(AbsentLabel("Hardhat") in detected, AbsentLabel("Mask") in detected, AbsentLabel("Safety Vest") in detected)
  {
    assert RequiredItems[1..] == ["Mask", "Safety Vest"];
    assert RequiredItems[1..][1..] == ["Safety Vest"];
    assert RequiredItems[1..][1..][1..] == [];
  }

  /** The length of the joined item names, which differs for every combination. */
  lemma JoinedPickLength(hardhat: bool, mask: bool, vest: bool)
    ensures |Join(Pick(hardhat, mask, vest), " and ")|
            == if !hardhat && !mask && !vest then 0
               else (if hardhat then 7 else 0) + (if mask then 4 else 0) + (if vest then 11 else 0)
                    + 5 * ((if hardhat then 1 else 0) + (if mask then 1 else 0) + (if vest then 1 else 0) - 1)
  {
    var p := Pick(hardhat, mask, vest);
    if |p| == 2 {
      assert p[1..] == [p[1]];
      assert Join(p, " and ") == p[0] + " and " + p[1];
    } else if |p| == 3 {
      assert p == ["Hardhat", "Mask", "Safety Vest"];
      assert p[1..] == ["Mask", "Safety Vest"] && p[1..][1..] == ["Safety Vest"];
      assert Join(p[1..], " and ") == "Mask" + " and " + "Safety Vest";
      assert Join(p, " and ") == "Hardhat" + " and " + ("Mask" + " and " + "Safety Vest");
    }
  }

  /** The warning tells every combination of missing gear apart, so `last_alert` holds back a
      warning exactly when the same items are missing as in the last one queued. */
  lemma AlertMessageDistinguishesMissingItems(d1: seq<string>, d2: seq<string>)
    ensures AlertMessage(MissingItems(d1)) == AlertMessage(MissingItems(d2))
            <==> MissingItems(d1) == MissingItems(d2)
  {
    MissingItemsIsPick(d1);
    MissingItemsIsPick(d2);
    var h1, m1, v1 := AbsentLabel("Hardhat") in d1, AbsentLabel("Mask") in d1, AbsentLabel("Safety Vest") in d1;
    var h2, m2, v2 := AbsentLabel("Hardhat") in d2, AbsentLabel("Mask") in d2, AbsentLabel("Safety Vest") in d2;
    JoinedPickLength(h1, m1, v1);
    JoinedPickLength(h2, m2, v2);
    if AlertMessage(MissingItems(d1)) == AlertMessage(MissingItems(d2)) {
      assert |AlertMessage(MissingItems(d1))| == |AlertMessage(MissingItems(d2))|;
      assert h1 == h2 && m1 == m2 && v1 == v2;
    }
  }

  /** The last log of this camera is less than the cooldown before `now`. */
  predicate InCooldown(last: Option<int>, now: int)
  {
    last.Some? && now - last.value < CooldownSeconds
  }

  /** `any(camera_status.values())`. */
  predicate AnyOn(status: map<string, bool>)
  {
    exists k | k in status :: status[k]
  }

  ghost predicate AtMostOneOn(status: map<string, bool>)
  {
    forall a, b :: a in status && b in status && status[a] && status[b] ==> a == b
  }

  /** No alert follows an identical one in the queue. */
  ghost predicate NoRepeats(q: seq<string>)
  {
    forall i :: 0 <= i < |q| - 1 ==> q[i] != q[i + 1]
  }

  /** Rows logged from one camera lie at least the cooldown apart, in logging order. */
  ghost predicate CooldownSpaced(rows: seq<Violation>)
  {
    forall i, j :: 0 <= i < j < |rows| && rows[i].cameraLocation == rows[j].cameraLocation
      ==> rows[j].timestamp >= rows[i].timestamp + CooldownSeconds
  }

  class DetectionService {
    var camera: Option<Capture>
    var cameraStatus: map<string, bool>
    var lastAlert: Option<string>
    var alertQueue: seq<string>
    var lastViolationTime: map<string, Option<int>>
    /** The rows this service has inserted into `safety_violations`, in insertion order. */
    var violations: seq<Violation>
    var nextViolationId: int

    /** At most one section is on, a section is on exactly when an opened camera is held, the
        queue ends with `last_alert` and never repeats an alert back to back, and each camera's
        logged rows respect the cooldown and are no later than its `last_violation_time`. */
    ghost predicate Valid()
      reads this
    {
      && cameraStatus.Keys == {Machine, Gate}
      && lastViolationTime.Keys == {Machine, Gate}
      && AtMostOneOn(cameraStatus)
      && (AnyOn(cameraStatus) <==> camera == Some(Capture(true)))
      && (|alertQueue| > 0 ==> lastAlert == Some(alertQueue[|alertQueue| - 1]))
      && NoRepeats(alertQueue)
      && CooldownSpaced(violations)
      && (forall i :: 0 <= i < |violations| ==>
            && violations[i].cameraLocation in lastViolationTime
            && lastViolationTime[violations[i].cameraLocation].Some?
            && violations[i].timestamp <= lastViolationTime[violations[i].cameraLocation].value
            && violations[i].id < nextViolationId)
    }

    constructor ()
      ensures Valid()
      ensures camera.None? && cameraStatus == map[Machine := false, Gate := false]
      ensures lastAlert.None? && alertQueue == [] && violations == []
      ensures lastViolationTime == map[Machine := None, Gate := None]
    {
      camera := None;
      cameraStatus := map[Machine := false, Gate := false];
      lastAlert := None;
      alertQueue := [];
      lastViolationTime := map[Machine := None, Gate := None];
      violations := [];
      nextViolationId := 1;
    }

    /** `trigger_voice_alert`: an empty list changes nothing; otherwise the warning is queued
        unless it is the one last queued. */
    method TriggerVoiceAlert(items: seq<string>)
      requires Valid()
      modifies this`lastAlert, this`alertQueue
      ensures Valid()
      ensures items == [] ==> lastAlert == old(lastAlert) && alertQueue == old(alertQueue)
      ensures items != [] && old(lastAlert) == Some(AlertMessage(items))
              ==> lastAlert == old(lastAlert) && alertQueue == old(alertQueue)
      ensures items != [] && old(lastAlert) != Some(AlertMessage(items))
              ==> lastAlert == Some(AlertMessage(items)) && alertQueue == old(alertQueue) + [AlertMessage(items)]
    {
      if items == [] {
        return;
      }
      var message := AlertMessage(items);
      if Some(message) == lastAlert {
        return;
      }
      lastAlert := Some(message);
      alertQueue := alertQueue + [message];
    }

    /** The alert thread's `alert_queue.get()` (the speech that follows is not modelled). */
    method TakeAlert() returns (message: string)
      requires Valid() && |alertQueue| > 0
      modifies this`alertQueue
      ensures Valid()
      ensures message == old(alertQueue)[0] && alertQueue == old(alertQueue)[1..]
    {
      message := alertQueue[0];
      alertQueue := alertQueue[1..];
    }

    /** `capture_violation`: within the cooldown of this camera's last log nothing happens;
        otherwise the time is recorded and, when the insert succeeds, one row is added. */
    method CaptureViolation(cameraType: string, detected: seq<string>, missing: seq<string>, now: int, insertOk: bool)
      requires Valid() && cameraType in lastViolationTime
      modifies this`lastViolationTime, this`violations, this`nextViolationId
      ensures Valid()
      ensures InCooldown(old(lastViolationTime[cameraType]), now)
              ==> lastViolationTime == old(lastViolationTime) && violations == old(violations)
      ensures !InCooldown(old(lastViolationTime[cameraType]), now)
              ==> lastViolationTime == old(lastViolationTime)[cameraType := Some(now)]
      ensures !InCooldown(old(lastViolationTime[cameraType]), now) && insertOk
              ==> violations == old(violations)
                   + [Violation(old(nextViolationId), cameraType, Join(detected, ", "), Join(missing, ", "), now)]
      ensures !InCooldown(old(lastViolationTime[cameraType]), now) && !insertOk ==> violations == old(violations)
      ensures forall k :: k in lastViolationTime && k != cameraType ==> lastViolationTime[k] == old(lastViolationTime[k])
    {
      if lastViolationTime[cameraType].Some? && now - lastViolationTime[cameraType].value < CooldownSeconds {
        return;
      }
      lastViolationTime := lastViolationTime[cameraType := Some(now)];
      if insertOk {
        violations := violations + [Violation(nextViolationId, cameraType, Join(detected, ", "), Join(missing, ", "), now)];
        nextViolationId := nextViolationId + 1;
      }
    }

    /** One pass of `generate_frames` after inference: alert and log only when gear is missing. */
    method ProcessFrame(cameraType: string, detected: seq<string>, now: int, insertOk: bool)
      requires Valid() && cameraType in cameraStatus
      modifies this`lastAlert, this`alertQueue, this`lastViolationTime, this`violations, this`nextViolationId
      ensures Valid()
      ensures MissingItems(detected) == []
              ==> lastAlert == old(lastAlert) && alertQueue == old(alertQueue)
                  && lastViolationTime == old(lastViolationTime) && violations == old(violations)
      ensures MissingItems(detected) != [] ==> lastAlert == Some(AlertMessage(MissingItems(detected)))
      ensures MissingItems(detected) != [] && old(lastAlert) == Some(AlertMessage(MissingItems(detected)))
              ==> alertQueue == old(alertQueue)
      ensures MissingItems(detected) != [] && old(lastAlert) != Some(AlertMessage(MissingItems(detected)))
              ==> alertQueue == old(alertQueue) + [AlertMessage(MissingItems(detected))]
      ensures MissingItems(detected) != [] && InCooldown(old(lastViolationTime[cameraType]), now)
              ==> lastViolationTime == old(lastViolationTime) && violations == old(violations)
      ensures MissingItems(detected) != [] && !InCooldown(old(lastViolationTime[cameraType]), now)
              ==> lastViolationTime == old(lastViolationTime)[cameraType := Some(now)]
      ensures MissingItems(detected) != [] && !InCooldown(old(lastViolationTime[cameraType]), now) && insertOk
              ==> violations == old(violations)
                   + [Violation(old(nextViolationId), cameraType, Join(detected, ", "),
                                Join(MissingItems(detected), ", "), now)]
      ensures MissingItems(detected) != [] && !InCooldown(old(lastViolationTime[cameraType]), now) && !insertOk
              ==> violations == old(violations)
      ensures |violations| <= |old(violations)| + 1
    {
      var missing := MissingItems(detected);
      if missing != [] {
        TriggerVoiceAlert(missing);
        CaptureViolation(cameraType, detected, missing, now, insertOk);
      }
    }

    /** `video_feed(camera_type)`: 404 with no camera held or the section off; an unknown
        section with a camera held fails on the dictionary lookup. */
    function VideoFeed(cameraType: string): (r: Reply)
      reads this
      ensures camera.None? ==> r == Reply(404, Error("Camera for " + cameraType + " is off"))
      ensures r.status == 200 <==> camera.Some? && cameraType in cameraStatus && cameraStatus[cameraType]
      ensures camera.Some? && cameraType !in cameraStatus ==> r.status == 500
      ensures camera.Some? && cameraType in cameraStatus && !cameraStatus[cameraType]
              ==> r == Reply(404, Error("Camera for " + cameraType + " is off"))
    {
      if camera.None? then Reply(404, Error("Camera for " + cameraType + " is off"))
      else if cameraType !in cameraStatus then Reply(500, Error("KeyError"))
      else if !cameraStatus[cameraType] then Reply(404, Error("Camera for " + cameraType + " is off"))
      else Reply(200, FrameStream)
    }

    /** `toggle_camera`: "on" takes the camera only when no section holds it; "off" on the
        active section releases it and drops pending alerts. `opens` is whether the new
        capture opened the device. */
    method ToggleCamera(cameraType: string, action: string, opens: bool) returns (r: Reply)
      requires Valid()
      modifies this`camera, this`cameraStatus, this`lastAlert, this`alertQueue
      ensures Valid()
      ensures cameraType !in old(cameraStatus) ==> r == Reply(400, Error("Invalid camera type")) && unchanged(this)
      ensures cameraType in old(cameraStatus) && action == "on" && AnyOn(old(cameraStatus))
              ==> r == Reply(409, Error("Camera is already in use by another section")) && unchanged(this)
      ensures cameraType in old(cameraStatus) && action == "on" && !AnyOn(old(cameraStatus)) && !opens
              ==> r == Reply(500, Error("Failed to open " + cameraType + " camera"))
                  && camera == Some(Capture(false)) && cameraStatus == old(cameraStatus)
                  && lastAlert == old(lastAlert) && alertQueue == old(alertQueue)
      ensures cameraType in old(cameraStatus) && action == "on" && !AnyOn(old(cameraStatus)) && opens
              ==> r == Reply(200, Message(cameraType + " camera turned on"))
                  && camera == Some(Capture(true)) && cameraStatus == old(cameraStatus)[cameraType := true]
                  && lastAlert == old(lastAlert) && alertQueue == old(alertQueue)
      ensures cameraType in old(cameraStatus) && action == "off" && old(cameraStatus[cameraType])
              ==> r == Reply(200, Message(cameraType + " camera turned off"))
                  && camera.None? && cameraStatus == old(cameraStatus)[cameraType := false]
                  && lastAlert.None? && alertQueue == []
      ensures cameraType in old(cameraStatus) && action == "off" && !old(cameraStatus[cameraType])
              ==> r == Reply(200, Message(cameraType + " camera is already off")) && unchanged(this)
      ensures cameraType in old(cameraStatus) && action != "on" && action != "off"
              ==> r == Reply(400, Error("Invalid action")) && unchanged(this)
    {
      if cameraType !in cameraStatus {
        return Reply(400, Error("Invalid camera type"));
      }
      if action == "on" {
        if !AnyOn(cameraStatus) {
          camera := Some(Capture(opens));
          if !opens {
            return Reply(500, Error("Failed to open " + cameraType + " camera"));
          }
          cameraStatus := cameraStatus[cameraType := true];
          return Reply(200, Message(cameraType + " camera turned on"));
        } else {
          return Reply(409, Error("Camera is already in use by another section"));
        }
      } else if action == "off" {
        if cameraStatus[cameraType] {
          camera := None;
          cameraStatus := cameraStatus[cameraType := false];
          lastAlert := None;
          while |alertQueue| > 0
            invariant camera.None? && lastAlert.None?
            invariant cameraStatus == old(cameraStatus)[cameraType := false]
            decreases |alertQueue|
          {
            alertQueue := alertQueue[1..];
          }
          return Reply(200, Message(cameraType + " camera turned off"));
        } else {
          return Reply(200, Message(cameraType + " camera is already off"));
        }
      }
      return Reply(400, Error("Invalid action"));
    }
  }
}
