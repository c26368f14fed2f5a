/**
 * ComputeCapacityStatus: the AppStream fleet capacity counters, four ints each
 * with a "has been set" flag.
 */
module AppStream {
  import opened AwsCore

  class ComputeCapacityStatus {
    var desired: int32
    var desiredHasBeenSet: bool
    var running: int32
    var runningHasBeenSet: bool
    var inUse: int32
    var inUseHasBeenSet: bool
    var available: int32
    var availableHasBeenSet: bool

    /** No field has been set. */
    predicate NothingSet()
      reads this
    {
      !desiredHasBeenSet
      && !runningHasBeenSet
      && !inUseHasBeenSet
      && !availableHasBeenSet
    }

    /**
     * The default constructor: every flag starts false; strings and containers
     * start empty. Numbers and booleans get no initializer in the class body,
     * so nothing is promised about their values.
     */
    constructor ()
      ensures NothingSet()
    {
      desiredHasBeenSet := false;
      runningHasBeenSet := false;
      inUseHasBeenSet := false;
      availableHasBeenSet := false;
    }

    /** SetDesired: stores the value, marks the field set and changes nothing else. */
    method SetDesired(value: int32)
      modifies this`desired, this`desiredHasBeenSet
      ensures desired == value && desiredHasBeenSet
    {
      desiredHasBeenSet := true;
      desired := value;
    }

    /** WithDesired: SetDesired, returning this same object so that calls chain. */
    method WithDesired(value: int32) returns (self: ComputeCapacityStatus)
      modifies this`desired, this`desiredHasBeenSet
      ensures self == this
      ensures desired == value && desiredHasBeenSet
    {
      SetDesired(value);
      return this;
    }

    /** SetRunning: stores the value, marks the field set and changes nothing else. */
    method SetRunning(value: int32)
      modifies this`running, this`runningHasBeenSet
      ensures running == value && runningHasBeenSet
    {
      runningHasBeenSet := true;
      running := value;
    }

    /** WithRunning: SetRunning, returning this same object so that calls chain. */
    method WithRunning(value: int32) returns (self: ComputeCapacityStatus)
      modifies this`running, this`runningHasBeenSet
      ensures self == this
      ensures running == value && runningHasBeenSet
    {
      SetRunning(value);
      return this;
    }

    /** SetInUse: stores the value, marks the field set and changes nothing else. */
    method SetInUse(value: int32)
      modifies this`inUse, this`inUseHasBeenSet
      ensures inUse == value && inUseHasBeenSet
    {
      inUseHasBeenSet := true;
      inUse := value;
    }

    /** WithInUse: SetInUse, returning this same object so that calls chain. */
    method WithInUse(value: int32) returns (self: ComputeCapacityStatus)
      modifies this`inUse, this`inUseHasBeenSet
      ensures self == this
      ensures inUse == value && inUseHasBeenSet
    {
      SetInUse(value);
      return this;
    }

    /** SetAvailable: stores the value, marks the field set and changes nothing else. */
    method SetAvailable(value: int32)
      modifies this`available, this`availableHasBeenSet
      ensures available == value && availableHasBeenSet
    {
      availableHasBeenSet := true;
      available := value;
    }

    /** WithAvailable: SetAvailable, returning this same object so that calls chain. */
    method WithAvailable(value: int32) returns (self: ComputeCapacityStatus)
      modifies this`available, this`availableHasBeenSet
      ensures self == this
      ensures available == value && availableHasBeenSet
    {
      SetAvailable(value);
      return this;
    }
  }

  /**
   * The setters relate no two counters: a status with more instances in use than
   * running can be built.
   */
  method InUseAboveRunningIsStorable() returns (status: ComputeCapacityStatus)
    ensures status.running == 1 && status.inUse == 5
    ensures status.runningHasBeenSet && status.inUseHasBeenSet
    ensures !status.desiredHasBeenSet && !status.availableHasBeenSet
  {
    status := new ComputeCapacityStatus();
    var s1 := status.WithRunning(1);
    var s2 := s1.WithInUse(5);
  }
}
