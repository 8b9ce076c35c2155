/** The company's task allocation: `writeCode` takes on a task for `n`
    specialists only when the programmers already in use plus `n` fit in the
    staff; `stopCoding` releases the most recently started task. Swift's `Int`
    is 64 bits wide and traps on overflow; a trap is the outcome `Trapped`. */
module Staffing {

  const MinInt: int := -0x8000_0000_0000_0000
  const MaxInt: int := 0x7fff_ffff_ffff_ffff

  predicate InRange(x: int)
  {
    MinInt <= x <= MaxInt
  }

  /** Swift's `Int`. */
  type Int = x: int | InRange(x)

  datatype Option<T> = None | Some(value: T)

  /** The mathematical total, added up from the left as `reduce(0, +)` does. */
  function Sum(s: seq<int>): int
  {
    if s == [] then 0 else Sum(s[..|s| - 1]) + s[|s| - 1]
  }

  /** `reduce(0, +)` on `Int`s: the total, or `None` when one of the running
      totals leaves the 64-bit range and the addition traps. */
  function CheckedSum(s: seq<Int>): (r: Option<Int>)
    ensures r.Some? <==> forall k :: 0 < k <= |s| ==> InRange(Sum(s[..k]))
    ensures r.Some? ==> r.value == Sum(s)
  {
    if s == [] then Some(0)
    else
      var init := s[..|s| - 1];
      assert forall k :: 0 < k <= |init| ==> init[..k] == s[..k];
      assert s[..|s|] == s;
      match CheckedSum(init)
      case None => None
      case Some(t) => if InRange(t + s[|s| - 1]) then Some(t + s[|s| - 1]) else None
  }

  /** What one call of `writeCode` does. */
  datatype WriteResult =
    | Started                    // the task is recorded
    | NotEnough(remaining: int)  // refused; `remaining` programmers are free
    | Trapped                    // an `Int` operation of the capacity test overflowed

  /** The decision of `writeCode(numberOfSpecialists: n)` with `capacity`
      programmers of whom the tasks `used` already take their total. */
  function Decide(capacity: Int, used: seq<Int>, n: Int): (r: WriteResult)
    ensures r.Started? <==>
      (forall k :: 0 < k <= |used| ==> InRange(Sum(used[..k]))) &&
      InRange(capacity - Sum(used)) && InRange(capacity - Sum(used) - n) &&
      Sum(used) + n <= capacity
    ensures r.NotEnough? <==>
      (forall k :: 0 < k <= |used| ==> InRange(Sum(used[..k]))) &&
      InRange(capacity - Sum(used)) && InRange(capacity - Sum(used) - n) &&
      Sum(used) + n > capacity
    ensures r.NotEnough? ==> r.remaining == capacity - Sum(used) && r.remaining < n
    ensures r.Trapped? <==>
      !(forall k :: 0 < k <= |used| ==> InRange(Sum(used[..k]))) ||
      !InRange(capacity - Sum(used)) || !InRange(capacity - Sum(used) - n)
  {
    match CheckedSum(used)
    case None => Trapped
    case Some(total) =>
      if !InRange(capacity - total) || !InRange(capacity - total - n) then Trapped
      else if capacity - total - n >= 0 then Started
      else NotEnough(capacity - total)
  }

  /** `popLast()`: drops the last element, nothing on an empty list. */
  function PopLast<T>(s: seq<T>): (r: seq<T>)
    ensures s == [] ==> r == []
    ensures s != [] ==> r + [s[|s| - 1]] == s
  {
    if s == [] then [] else s[..|s| - 1]
  }

  /** Every running total of the tasks is within the staff. */
  ghost predicate WithinCapacity(capacity: int, used: seq<int>)
  {
    forall k :: 0 < k <= |used| ==> Sum(used[..k]) <= capacity
  }

  /** The bound holds for the total itself (of an empty list only when the
      staff is not negative). */
  lemma TotalWithinCapacity(capacity: int, used: seq<int>)
    requires WithinCapacity(capacity, used)
    requires used != [] || capacity >= 0
    ensures Sum(used) <= capacity
  {
    if used != [] {
      assert used[..|used|] == used;
    }
  }

  /** An accepted task keeps every running total within the staff. */
  lemma WriteKeepsCapacity(capacity: Int, used: seq<Int>, n: Int)
    requires WithinCapacity(capacity, used)
    ensures WithinCapacity(capacity, if Decide(capacity, used, n).Started? then used + [n] else used)
  {
    var s := used + [n];
    assert forall k :: 0 < k <= |used| ==> s[..k] == used[..k];
    assert s[..|s|] == s && s[..|s| - 1] == used;
  }

  /** Releasing the last task keeps every running total within the staff. */
  lemma PopKeepsCapacity(capacity: int, used: seq<Int>)
    requires WithinCapacity(capacity, used)
    ensures WithinCapacity(capacity, PopLast(used))
  {
    var r := PopLast(used);
    assert forall k :: 0 < k <= |r| ==> r[..k] == used[..k];
  }

  class Company {
    var numberOfProgrammers: Int
    var usedProgrammers: seq<Int>

    ghost predicate Valid()
      reads this
    {
      WithinCapacity(numberOfProgrammers, usedProgrammers)
    }

    constructor (numberOfProgrammers: Int)
      ensures Valid()
      ensures this.numberOfProgrammers == numberOfProgrammers && usedProgrammers == []
    {
      this.numberOfProgrammers := numberOfProgrammers;
      usedProgrammers := [];
    }

    /** `writeCode(platform:numberOfSpecialists:)`: records the task when it fits. */
    method WriteCode(n: Int) returns (r: WriteResult)
      requires Valid()
      modifies this
      ensures Valid() && numberOfProgrammers == old(numberOfProgrammers)
      ensures r == Decide(numberOfProgrammers, old(usedProgrammers), n)
      ensures usedProgrammers == if r.Started? then old(usedProgrammers) + [n] else old(usedProgrammers)
    {
      WriteKeepsCapacity(numberOfProgrammers, usedProgrammers, n);
      r := Decide(numberOfProgrammers, usedProgrammers, n);
      if r.Started? {
        usedProgrammers := usedProgrammers + [n];
      }
    }

    /** `stopCoding()`: releases the most recently started task, if any. */
    method StopCoding()
      requires Valid()
      modifies this
      ensures Valid() && numberOfProgrammers == old(numberOfProgrammers)
      ensures usedProgrammers == PopLast(old(usedProgrammers))
    {
      PopKeepsCapacity(numberOfProgrammers, usedProgrammers);
      usedProgrammers := PopLast(usedProgrammers);
    }
  }

  /** The demonstration: 50 programmers; a task for 45 starts, one for 10 is
      refused with 5 free, and after the first task stops the one for 10 starts. */
  method Scenario() returns (company: Company, r1: WriteResult, r2: WriteResult, r3: WriteResult)
    ensures company.numberOfProgrammers == 50 && company.usedProgrammers == []
    ensures r1 == Started && r2 == NotEnough(5) && r3 == Started
  {
    company := new Company(50);
    r1 := company.WriteCode(45);
    r2 := company.WriteCode(10);
    company.StopCoding();
    r3 := company.WriteCode(10);
    company.StopCoding();
  }
}
