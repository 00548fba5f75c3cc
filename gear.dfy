/** The safety gear both detection services look for, and which of it a frame shows missing
    (the comprehension at app.py:131-132 and, identically, backend/app.py:49-50). */
module Gear {
  import opened Common

  const RequiredItems: seq<string> := ["Hardhat", "Mask", "Safety Vest"]

  /** The label the detector reports when an item is absent. */
  function AbsentLabel(item: string): string
  {
    "NO-" + item
  }

  /** `[item for item in required_items if f"NO-{item}" in detected_objects]`: the required
      items whose absence label was detected, in the order of `RequiredItems`. */
  function MissingItems(detected: seq<string>): (r: seq<string>)
    ensures IsSublist(r, RequiredItems)
    ensures forall item :: item in r <==> item in RequiredItems && AbsentLabel(item) in detected
  {
    FilterIsSublist(RequiredItems, item => AbsentLabel(item) in detected);
    Filter(RequiredItems, item => AbsentLabel(item) in detected)
  }

  /** Only which labels occur matters: their order and repetitions do not change the list. */
  lemma MissingItemsDependOnLabelSet(d1: seq<string>, d2: seq<string>)
    requires forall x :: x in d1 <==> x in d2
    ensures MissingItems(d1) == MissingItems(d2)
  {
    FilterCongruent(RequiredItems, item => AbsentLabel(item) in d1, item => AbsentLabel(item) in d2);
  }

  /** Nothing is missing exactly when no absence label was detected. */
  lemma NothingMissing(detected: seq<string>)
    ensures MissingItems(detected) == []
            <==> forall i :: 0 <= i < |RequiredItems| ==> AbsentLabel(RequiredItems[i]) !in detected
  {
    var r := MissingItems(detected);
    if r != [] {
      assert r[0] in r;
    }
  }
}
