/** service/impl/ProjectServiceImpl.java: whether the hours booked on a
    project exceed the hours agreed for it. */
module ProjectService {
  import opened Wrappers
  import opened Text
  import opened Exceptions
  import opened Entities
  import opened Store

  /** `findByProjectId(projectId)`: the ids below `hi` of the entries booked
      on the project, ascending. */
  function ProjectEntryIds(entries: map<Id, TimeEntry>, projectId: Id, hi: int): (r: seq<Id>)
    ensures forall k :: k in r <==> 0 <= k < hi && k in entries && entries[k].project == Some(projectId)
    ensures forall i, j :: 0 <= i < j < |r| ==> r[i] < r[j]
  {
    IdsWhere(entries, (e: TimeEntry) => e.project == Some(projectId), hi)
  }

  /** `findByProjectId(projectId)` mapped to hours: one number per entry
      booked on the project with an id below `hi`, in ascending id order, each
      that entry's hours. */
  function ProjectHours(entries: map<Id, TimeEntry>, projectId: Id, hi: int): (r: seq<Int32>)
    ensures |r| == |ProjectEntryIds(entries, projectId, hi)|
    ensures forall i :: 0 <= i < |r| ==>
      ProjectEntryIds(entries, projectId, hi)[i] in entries && r[i] == entries[ProjectEntryIds(entries, projectId, hi)[i]].hours
    decreases hi
  {
    if hi <= 0 then []
    else
      assert ProjectEntryIds(entries, projectId, hi) == ProjectEntryIds(entries, projectId, hi - 1) +
        (if hi - 1 in entries && entries[hi - 1].project == Some(projectId) then [hi - 1] else []);
      ProjectHours(entries, projectId, hi - 1) + (if hi - 1 in entries && entries[hi - 1].project == Some(projectId) then [entries[hi - 1].hours] else [])
  }

  /** The exact sum of a list of hours, added left to right. */
  function Sum(hs: seq<int>): int
  {
    if hs == [] then 0 else Sum(hs[..|hs| - 1]) + hs[|hs| - 1]
  }

  /** 2^32: `int` arithmetic is exact modulo this. */
  const MODULUS: int := 0x1_0000_0000

  /** A Java `int` result: the value reduced into [-2^31, 2^31). */
  function WrapInt32(x: int): (r: Int32)
    ensures (r - x) % MODULUS == 0
    ensures INT_MIN <= x <= INT_MAX ==> r == x
  {
    (x - INT_MIN) % MODULUS + INT_MIN
  }

  /** `IntStream.sum()`: every addition wraps around at 32 bits, which is
      the same as wrapping the exact sum once. */
  function IntSum(hs: seq<Int32>): (r: Int32)
    ensures r == WrapInt32(Sum(hs))
  {
    if hs == [] then 0
    else
      var init := hs[..|hs| - 1];
      var a := IntSum(init);
      var x := hs[|hs| - 1];
      // a and Sum(init) differ by a multiple of 2^32, so a + x and Sum(hs) do too.
      assert (a - Sum(init)) % MODULUS == 0;
      WrapSameClass(a + x, Sum(hs));
      WrapInt32(a + x)
  }

  /** Two values in the same class modulo 2^32 wrap to the same `int`. */
  lemma WrapSameClass(x: int, y: int)
    requires (x - y) % MODULUS == 0
    ensures WrapInt32(x) == WrapInt32(y)
  {
    var q := (x - y) / MODULUS;
    assert x - y == q * MODULUS;
    ModShift(y - INT_MIN, q);
    assert x - INT_MIN == (y - INT_MIN) + q * MODULUS;
  }

  /** Adding `q` whole multiples of 2^32 keeps the remainder. */
  lemma {:induction false} ModShift(a: int, q: int)
    ensures (a + q * MODULUS) % MODULUS == a % MODULUS
    decreases if q < 0 then -q else q
  {
    if q > 0 {
      ModShift(a, q - 1);
      assert a + q * MODULUS == (a + (q - 1) * MODULUS) + MODULUS;
    } else if q < 0 {
      ModShift(a, q + 1);
      assert a + q * MODULUS == (a + (q + 1) * MODULUS) - MODULUS;
    }
  }

  /** isProjectOverHours as written: an unknown project throws; no limit
      means "not over"; otherwise the `int` sum of the hours, which wraps
      around past 2^31 - 1, is compared strictly with the limit. */
  function IsProjectOverHoursAsWritten(projects: map<Id, Project>, entries: map<Id, TimeEntry>, hi: int, projectId: Id)
    : (r: Result<bool, Exception>)
    ensures r == Failure(NoSuchElement) <==> projectId !in projects
    ensures projectId in projects && projects[projectId].agreedHoursLimit.None? ==> r == Success(false)
    ensures projectId in projects && projects[projectId].agreedHoursLimit.Some? ==>
      r == Success(WrapInt32(Sum(ProjectHours(entries, projectId, hi))) > projects[projectId].agreedHoursLimit.value)
  {
    if projectId !in projects then Failure(NoSuchElement)
    else if projects[projectId].agreedHoursLimit.None? then Success(false)
    else
      var total := IntSum(ProjectHours(entries, projectId, hi));
      Success(total > projects[projectId].agreedHoursLimit.value)
  }

  /** isProjectOverHours with the hours summed exactly: true exactly when the
      hours booked on the project are strictly more than its limit. */
  function IsProjectOverHours(projects: map<Id, Project>, entries: map<Id, TimeEntry>, hi: int, projectId: Id)
    : (r: Result<bool, Exception>)
    ensures r == Failure(NoSuchElement) <==> projectId !in projects
    ensures projectId in projects && projects[projectId].agreedHoursLimit.None? ==> r == Success(false)
    ensures projectId in projects && projects[projectId].agreedHoursLimit.Some? ==>
      r == Success(Sum(ProjectHours(entries, projectId, hi)) > projects[projectId].agreedHoursLimit.value)
  {
    if projectId !in projects then Failure(NoSuchElement)
    else if projects[projectId].agreedHoursLimit.None? then Success(false)
    else Success(Sum(ProjectHours(entries, projectId, hi)) > projects[projectId].agreedHoursLimit.value)
  }

  /** As long as the booked hours fit in an `int`, the code as written agrees
      with the exact comparison. */
  lemma AsWrittenAgreesWithoutOverflow(projects: map<Id, Project>, entries: map<Id, TimeEntry>, hi: int, projectId: Id)
    requires Sum(ProjectHours(entries, projectId, hi)) <= INT_MAX
    requires forall k :: k in entries ==> entries[k].hours >= 0
    ensures IsProjectOverHoursAsWritten(projects, entries, hi, projectId) == IsProjectOverHours(projects, entries, hi, projectId)
  {
    NonNegativeSum(entries, projectId, hi);
  }

  /** Hours that are never negative sum to a non-negative total. */
  lemma NonNegativeSum(entries: map<Id, TimeEntry>, projectId: Id, hi: int)
    requires forall k :: k in entries ==> entries[k].hours >= 0
    ensures Sum(ProjectHours(entries, projectId, hi)) >= 0
  {
    var hs := ProjectHours(entries, projectId, hi);
    assert forall i :: 0 <= i < |hs| ==> hs[i] >= 0;
    SumNonNegative(hs);
  }

  lemma {:induction false} SumNonNegative(hs: seq<int>)
    requires forall i :: 0 <= i < |hs| ==> hs[i] >= 0
    ensures Sum(hs) >= 0
    decreases |hs|
  {
    if hs != [] {
      SumNonNegative(hs[..|hs| - 1]);
    }
  }

  /** A project with no booked hours is never over a non-negative limit. */
  lemma NoEntriesNotOver(projects: map<Id, Project>, hi: int, projectId: Id)
    requires projectId in projects && projects[projectId].agreedHoursLimit.Some?
    requires projects[projectId].agreedHoursLimit.value >= 0
    ensures IsProjectOverHours(projects, map[], hi, projectId) == Success(false)
  {
    NoEntriesNoHours(projectId, hi);
  }

  lemma {:induction false} NoEntriesNoHours(projectId: Id, hi: int)
    ensures ProjectHours(map[], projectId, hi) == []
    decreases hi
  {
    if hi > 0 {
      NoEntriesNoHours(projectId, hi - 1);
    }
  }

  /** Booking one more entry with non-negative hours on the project, under
      the next id, never turns "over" into "not over". */
  lemma AddingHoursKeepsOver(projects: map<Id, Project>, entries: map<Id, TimeEntry>, hi: int, projectId: Id, e: TimeEntry)
    requires 0 <= hi && forall k :: k in entries ==> k < hi
    requires e.hours >= 0
    requires IsProjectOverHours(projects, entries, hi, projectId) == Success(true)
    ensures IsProjectOverHours(projects, entries[hi := e], hi + 1, projectId) == Success(true)
  {
    HoursAfterAdding(entries, hi, projectId, e);
  }

  /** The hours listed after adding an entry under the next id. */
  lemma HoursAfterAdding(entries: map<Id, TimeEntry>, hi: int, projectId: Id, e: TimeEntry)
    requires 0 <= hi && forall k :: k in entries ==> k < hi
    ensures Sum(ProjectHours(entries[hi := e], projectId, hi + 1)) ==
      Sum(ProjectHours(entries, projectId, hi)) + (if e.project == Some(projectId) then e.hours else 0)
  {
    SameBelow(entries, entries[hi := e], projectId, hi);
    var hs := ProjectHours(entries[hi := e], projectId, hi + 1);
    if e.project == Some(projectId) {
      assert hs[..|hs| - 1] == ProjectHours(entries, projectId, hi);
    } else {
      assert hs == ProjectHours(entries, projectId, hi);
    }
  }

  /** Two tables agreeing below `hi` list the same hours. */
  lemma {:induction false} SameBelow(m1: map<Id, TimeEntry>, m2: map<Id, TimeEntry>, projectId: Id, hi: int)
    requires forall k :: 0 <= k < hi ==> (k in m1 <==> k in m2) && (k in m1 ==> m1[k] == m2[k])
    ensures ProjectHours(m1, projectId, hi) == ProjectHours(m2, projectId, hi)
    decreases hi
  {
    if hi > 0 {
      SameBelow(m1, m2, projectId, hi - 1);
    }
  }

  /** A time entry of `hours` hours booked on project 1. */
  function Booked(hours: Int32): TimeEntry
  {
    TimeEntry("werk", hours, 50.0, 0, 1, Some(1), None, "user1")
  }

  /** The hours of two entries booked on project 1, under ids 1 and 2. */
  lemma TwoBookedHours(h1: Int32, h2: Int32)
    ensures ProjectHours(map[1 := Booked(h1), 2 := Booked(h2)], 1, 3) == [h1, h2]
    ensures Sum([h1, h2]) == h1 + h2
  {
    var m := map[1 := Booked(h1), 2 := Booked(h2)];
    assert ProjectHours(m, 1, 1) == [] by {
      assert ProjectHours(m, 1, 0) == [];
      assert 0 !in m;
    }
    assert ProjectHours(m, 1, 2) == [h1];
    assert ProjectHours(m, 1, 3) == [h1] + [h2];
    PairSum(h1, h2);
  }

  lemma PairSum(h1: int, h2: int)
    ensures Sum([h1, h2]) == h1 + h2
  {
    assert [h1][..0] == [];
    assert Sum([h1]) == h1;
    assert [h1, h2][..1] == [h1];
  }

  /** The unit-test figures: 5 + 4 hours against a limit of 8 is over. */
  lemma NineOverEight()
    ensures IsProjectOverHours(map[1 := Project(None, None, Some(8))], map[1 := Booked(5), 2 := Booked(4)], 3, 1) == Success(true)
  {
    TwoBookedHours(5, 4);
  }

  /** 5 + 5 hours against a limit of 10 is not over: the comparison is strict. */
  lemma TenNotOverTen()
    ensures IsProjectOverHours(map[1 := Project(None, None, Some(10))], map[1 := Booked(5), 2 := Booked(5)], 3, 1) == Success(false)
  {
    TwoBookedHours(5, 5);
  }

  /** One entry of 2^31 - 1 hours booked on project 1 is over a limit of 0. */
  lemma MaxHoursOver()
    ensures IsProjectOverHoursAsWritten(map[1 := Project(None, None, Some(0))], map[1 := Booked(INT_MAX)], 2, 1) == Success(true)
  {
    OneBookedHours(INT_MAX);
  }

  /** The hours of one entry booked on project 1, under id 1. */
  lemma OneBookedHours(h: Int32)
    ensures ProjectHours(map[1 := Booked(h)], 1, 2) == [h]
    ensures Sum([h]) == h
  {
    var m := map[1 := Booked(h)];
    assert ProjectHours(m, 1, 1) == [] by {
      assert ProjectHours(m, 1, 0) == [];
      assert 0 !in m;
    }
    assert [h][..0] == [];
  }

  /** The `int` sum wraps: 2^31 - 1 hours plus 1 hour sums to -2^31, so once
      a second entry of one hour is booked the project is no longer reported
      over a limit of 0 (compare MaxHoursOver), while the exact sum still is. */
  lemma OverflowCounterexample()
    ensures IsProjectOverHoursAsWritten(map[1 := Project(None, None, Some(0))], map[1 := Booked(INT_MAX), 2 := Booked(1)], 3, 1) == Success(false)
    ensures IsProjectOverHours(map[1 := Project(None, None, Some(0))], map[1 := Booked(INT_MAX), 2 := Booked(1)], 3, 1) == Success(true)
  {
    TwoBookedHours(INT_MAX, 1);
    WrapAtMax();
  }

  /** 2^31 - 1 + 1 wraps to -2^31. */
  lemma WrapAtMax()
    ensures WrapInt32(INT_MAX + 1) == INT_MIN
  {
    assert INT_MAX + 1 - INT_MIN == MODULUS;
  }
}
