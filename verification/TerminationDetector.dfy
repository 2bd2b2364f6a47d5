/** Dijkstra-Scholten termination detection for one rank (private/impl/schedulers/termination_detector.hpp). */
module TerminationDetection {
  import opened Common

  const NO_PARENT: int := -1

  /** A detector as a value: the state the protocol models carry for each rank. */
  datatype Detector = Detector(isRoot: bool, deficit: int, parent: int) {

    function TaskSent(): Detector {
      this.(deficit := deficit + 1)
    }

    /** The rank to acknowledge now, or None when the acknowledgement is deferred. */
    function TaskReceived(sender: int): (Detector, Option<int>) {
      if isRoot || parent != NO_PARENT then (this, Some(sender)) else (this.(parent := sender), None)
    }

    /** The flag is false when no sent task awaits an acknowledgement. */
    function AckReceived(): (Detector, bool) {
      if deficit == 0 then (this, false) else (this.(deficit := deficit - 1), true)
    }

    /** The parent to acknowledge now, which disengages the rank, or None. */
    function Passive(): (Detector, Option<int>) {
      if deficit != 0 || parent == NO_PARENT then (this, None) else (this.(parent := NO_PARENT), Some(parent))
    }

    predicate Quiescent() {
      deficit == 0 && parent == NO_PARENT
    }
  }

  /** The source's object. Each method is tied to the value function the protocol proofs use. */
  class TerminationDetector {
    const isRoot: bool
    var deficit: int
    var parent: int

    function Value(): Detector
      reads this
    {
      Detector(isRoot, deficit, parent)
    }

    constructor (root: bool)
      ensures Value() == Detector(root, 0, NO_PARENT) && Value().Quiescent()
    {
      isRoot := root;
      deficit := 0;
      parent := NO_PARENT;
    }

    method OnTaskSent()
      modifies this
      ensures Value() == old(Value()).TaskSent()
    {
      deficit := deficit + 1;
    }

    method OnTaskReceived(sender: int) returns (ack: Option<int>)
      modifies this
      ensures (Value(), ack) == old(Value()).TaskReceived(sender)
    {
      if isRoot || parent != NO_PARENT {
        return Some(sender);
      }
      parent := sender;
      return None;
    }

    method OnAckReceived() returns (expected: bool)
      modifies this
      ensures (Value(), expected) == old(Value()).AckReceived()
    {
      if deficit == 0 {
        return false;
      }
      deficit := deficit - 1;
      return true;
    }

    method OnPassive() returns (ack: Option<int>)
      modifies this
      ensures (Value(), ack) == old(Value()).Passive()
    {
      if deficit != 0 || parent == NO_PARENT {
        return None;
      }
      ack := Some(parent);
      parent := NO_PARENT;
    }

    method IsQuiescent() returns (quiescent: bool)
      ensures quiescent == Value().Quiescent()
    {
      quiescent := deficit == 0 && parent == NO_PARENT;
    }
  }
}
