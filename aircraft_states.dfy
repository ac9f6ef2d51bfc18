/** The start-state list of the aircraft information panel (`StatesModel`): the states
    an aircraft declares, sorted so that "auto" comes first and the rest follow by tag,
    with a synthetic "__default__" state in front when the aircraft supplies no "auto"
    state; plus the label lookup for state tags and the tag search. */
module AircraftStates {

  datatype Option<T> = None | Some(value: T)

  /** One `<state>` of an aircraft: its internal tag, its human-readable name (empty
      when a name is to be generated) and its description. */
  datatype StateInfo = StateInfo(tag: string, name: string, description: string)

  const AUTO_TAG: string := "auto"

  /** The entry put in front when the aircraft has no "auto" state. */
  const DEFAULT_STATE: StateInfo :=
    StateInfo("__default__", "Parked", "Default state for the aircraft (usually cold and dark)")

  // ===== human-readable names =====

  predicate IsKnownStateTag(tag: string)
  {
    tag == "approach" || tag == "take-off" || tag == "parking" || tag == "cold-and-dark"
    || tag == "auto" || tag == "cruise"
  }

  /** The fixed labels for the known tags; any other tag is its own label. */
  function HumanNameFromStateTag(tag: string): (name: string)
    ensures name == tag <==> !IsKnownStateTag(tag)
    ensures (tag == "parking" || tag == "cold-and-dark") ==> name == "Parked, cold & dark"
  {
    if tag == "approach" then "On approach"
    else if tag == "take-off" then "Ready for Take-off"
    else if tag == "parking" || tag == "cold-and-dark" then "Parked, cold & dark"
    else if tag == "auto" then "Automatic"
    else if tag == "cruise" then "Cruise"
    else tag
  }

  // ===== tag order =====

  /** `std::string::operator<`: lexicographic, a proper prefix first. */
  function StringLess(a: string, b: string): (r: bool)
    ensures r ==> |b| > 0
    decreases |a|
  {
    if |b| == 0 then false
    else if |a| == 0 then true
    else if a[0] != b[0] then a[0] < b[0]
    else StringLess(a[1..], b[1..])
  }

  /** A proper prefix comes first, so "" precedes every other string. */
  lemma {:induction false} StringLessPrefixFirst(a: string, b: string)
    requires |a| < |b| && a == b[..|a|]
    ensures StringLess(a, b)
    decreases |a|
  {
    if |a| > 0 {
      assert a[1..] == b[1..][..|a| - 1];
      StringLessPrefixFirst(a[1..], b[1..]);
    }
  }

  lemma {:induction false} StringLessIrreflexive(a: string)
    ensures !StringLess(a, a)
    decreases |a|
  {
    if |a| > 0 {
      StringLessIrreflexive(a[1..]);
    }
  }

  lemma {:induction false} StringLessTransitive(a: string, b: string, c: string)
    requires StringLess(a, b) && StringLess(b, c)
    ensures StringLess(a, c)
    decreases |a|
  {
    if |a| > 0 && a[0] == b[0] && b[0] == c[0] {
      StringLessTransitive(a[1..], b[1..], c[1..]);
    }
  }

  lemma {:induction false} StringLessTotal(a: string, b: string)
    ensures a == b || StringLess(a, b) || StringLess(b, a)
    decreases |a|
  {
    if |a| > 0 && |b| > 0 && a[0] == b[0] {
      StringLessTotal(a[1..], b[1..]);
      if a[1..] == b[1..] {
        assert a == [a[0]] + a[1..] && b == [b[0]] + b[1..];
      }
    }
  }

  /** The comparator handed to `std::sort`, as written: it answers true for every pair
      whose first element is "auto", including ("auto", "auto"). */
  function StateBeforeAsWritten(a: StateInfo, b: StateInfo): (r: bool)
    ensures r <==> StateBefore(a, b) || (a.tag == AUTO_TAG && b.tag == AUTO_TAG)
  {
    if a.tag == AUTO_TAG then true
    else if b.tag == AUTO_TAG then false
    else StringLess(a.tag, b.tag)
  }

  /** An "auto" state compared with itself is before itself, which a strict weak order
      forbids. */
  lemma AsWrittenComparatorIsNotIrreflexive()
    ensures StateBeforeAsWritten(StateInfo(AUTO_TAG, "", ""), StateInfo(AUTO_TAG, "", ""))
  {
  }

  /** The comparator as evidently intended: "auto" before everything except another
      "auto", the rest by tag. */
  function StateBefore(a: StateInfo, b: StateInfo): (r: bool)
    ensures r ==> b.tag != AUTO_TAG
  {
    if a.tag == AUTO_TAG then b.tag != AUTO_TAG
    else if b.tag == AUTO_TAG then false
    else StringLess(a.tag, b.tag)
  }

  /** The two comparators differ only on pairs of "auto" states. */
  lemma ComparatorsAgreeUnlessBothAuto(a: StateInfo, b: StateInfo)
    ensures StateBeforeAsWritten(a, b) != StateBefore(a, b) <==> a.tag == AUTO_TAG && b.tag == AUTO_TAG
  {
  }

  /** The corrected comparator is a strict weak order; two states are equivalent under
      it exactly when their tags agree. */
  lemma StateBeforeIsStrictWeakOrder(a: StateInfo, b: StateInfo, c: StateInfo)
    ensures !StateBefore(a, a)
    ensures StateBefore(a, b) && StateBefore(b, c) ==> StateBefore(a, c)
    ensures StateBefore(a, c) ==> StateBefore(a, b) || StateBefore(b, c)
    ensures (!StateBefore(a, b) && !StateBefore(b, a)) <==> a.tag == b.tag
  {
    StringLessIrreflexive(a.tag);
    StringLessTotal(a.tag, b.tag);
    StringLessTotal(b.tag, c.tag);
    if StringLess(a.tag, b.tag) && StringLess(b.tag, c.tag) {
      StringLessTransitive(a.tag, b.tag, c.tag);
    }
    if StringLess(b.tag, a.tag) && StringLess(c.tag, b.tag) {
      StringLessTransitive(c.tag, b.tag, a.tag);
    }
    if StringLess(a.tag, c.tag) && StringLess(c.tag, a.tag) {
      StringLessTransitive(a.tag, c.tag, a.tag);
      StringLessIrreflexive(a.tag);
    }
    if StringLess(a.tag, b.tag) && StringLess(b.tag, a.tag) {
      StringLessTransitive(a.tag, b.tag, a.tag);
    }
  }

  // ===== the sort =====

  /** No entry is before an earlier one. */
  predicate SortedStates(xs: seq<StateInfo>)
  {
    forall i, j :: 0 <= i < j < |xs| ==> !StateBefore(xs[j], xs[i])
  }

  function InsertState(x: StateInfo, xs: seq<StateInfo>): (r: seq<StateInfo>)
    ensures |r| == |xs| + 1
    decreases |xs|
  {
    if xs == [] then [x]
    else if StateBefore(xs[0], x) then [xs[0]] + InsertState(x, xs[1..])
    else [x] + xs
  }

  /** The sort the constructor performs, with the corrected comparator. */
  function SortStates(xs: seq<StateInfo>): (r: seq<StateInfo>)
    ensures |r| == |xs|
    decreases |xs|
  {
    if xs == [] then [] else InsertState(xs[0], SortStates(xs[1..]))
  }

  lemma {:induction false} InsertStatePermutes(x: StateInfo, xs: seq<StateInfo>)
    ensures multiset(InsertState(x, xs)) == multiset(xs) + multiset{x}
    decreases |xs|
  {
    if xs != [] && StateBefore(xs[0], x) {
      InsertStatePermutes(x, xs[1..]);
      assert xs == [xs[0]] + xs[1..];
    }
  }

  lemma {:induction false} InsertStateSorted(x: StateInfo, xs: seq<StateInfo>)
    requires SortedStates(xs)
    ensures SortedStates(InsertState(x, xs))
    decreases |xs|
  {
    if xs == [] {
    } else if StateBefore(xs[0], x) {
      var rest := InsertState(x, xs[1..]);
      InsertStateSorted(x, xs[1..]);
      InsertStatePermutes(x, xs[1..]);
      var r := [xs[0]] + rest;
      forall k | 0 <= k < |rest| ensures !StateBefore(rest[k], xs[0]) {
        assert rest[k] in multiset(rest);
        if rest[k] == x {
          StateBeforeIsStrictWeakOrder(xs[0], x, x);
          StateBeforeIsStrictWeakOrder(x, xs[0], x);
        } else {
          assert rest[k] in xs[1..];
          var m :| 0 <= m < |xs[1..]| && xs[1..][m] == rest[k];
          assert xs[1 + m] == rest[k];
        }
      }
      forall i, j | 0 <= i < j < |r| ensures !StateBefore(r[j], r[i]) {
        if i == 0 {
          assert r[j] == rest[j - 1];
        } else {
          assert r[i] == rest[i - 1] && r[j] == rest[j - 1];
        }
      }
    } else {
      var r := [x] + xs;
      forall i, j | 0 <= i < j < |r| ensures !StateBefore(r[j], r[i]) {
        if i == 0 {
          assert r[j] == xs[j - 1];
          StateBeforeIsStrictWeakOrder(xs[j - 1], xs[0], x);
        } else {
          assert r[i] == xs[i - 1] && r[j] == xs[j - 1];
        }
      }
    }
  }

  /** The sorted list is a permutation of the input and in comparator order. */
  lemma {:induction false} SortStatesCorrect(xs: seq<StateInfo>)
    ensures SortedStates(SortStates(xs))
    ensures multiset(SortStates(xs)) == multiset(xs)
    decreases |xs|
  {
    if xs != [] {
      SortStatesCorrect(xs[1..]);
      InsertStateSorted(xs[0], SortStates(xs[1..]));
      InsertStatePermutes(xs[0], SortStates(xs[1..]));
      assert xs == [xs[0]] + xs[1..];
    }
  }

  // ===== at most one "auto" state =====

  /** The inputs on which the source's comparator is a valid `std::sort` order: no two
      entries are both "auto". */
  predicate AtMostOneAuto(xs: seq<StateInfo>)
  {
    forall i, j :: 0 <= i < j < |xs| && xs[i].tag == AUTO_TAG ==> xs[j].tag != AUTO_TAG
  }

  function AutoCount(xs: seq<StateInfo>): nat
    decreases |xs|
  {
    if xs == [] then 0 else (if xs[0].tag == AUTO_TAG then 1 else 0) + AutoCount(xs[1..])
  }

  lemma {:induction false} NoAutoIffZeroCount(xs: seq<StateInfo>)
    ensures AutoCount(xs) == 0 <==> forall k :: 0 <= k < |xs| ==> xs[k].tag != AUTO_TAG
    decreases |xs|
  {
    if xs != [] {
      NoAutoIffZeroCount(xs[1..]);
      if AutoCount(xs) == 0 {
        forall k | 0 <= k < |xs| ensures xs[k].tag != AUTO_TAG {
          if k > 0 {
            assert xs[k] == xs[1..][k - 1];
          }
        }
      }
      if forall k :: 0 <= k < |xs| ==> xs[k].tag != AUTO_TAG {
        forall k | 0 <= k < |xs[1..]| ensures xs[1..][k].tag != AUTO_TAG {
          assert xs[1..][k] == xs[k + 1];
        }
      }
    }
  }

  lemma {:induction false} AtMostOneAutoIffCount(xs: seq<StateInfo>)
    ensures AtMostOneAuto(xs) <==> AutoCount(xs) <= 1
    decreases |xs|
  {
    if xs != [] {
      var rest := xs[1..];
      AtMostOneAutoIffCount(rest);
      NoAutoIffZeroCount(rest);
      if AtMostOneAuto(xs) {
        forall i, j | 0 <= i < j < |rest| && rest[i].tag == AUTO_TAG ensures rest[j].tag != AUTO_TAG {
          assert xs[i + 1] == rest[i] && xs[j + 1] == rest[j];
        }
        if xs[0].tag == AUTO_TAG {
          forall k | 0 <= k < |rest| ensures rest[k].tag != AUTO_TAG {
            assert xs[k + 1] == rest[k];
          }
        }
      }
      if AutoCount(xs) <= 1 {
        forall i, j | 0 <= i < j < |xs| && xs[i].tag == AUTO_TAG ensures xs[j].tag != AUTO_TAG {
          assert xs[j] == rest[j - 1];
          if i > 0 {
            assert xs[i] == rest[i - 1];
          }
        }
      }
    }
  }

  lemma {:induction false} InsertStateAutoCount(x: StateInfo, xs: seq<StateInfo>)
    ensures AutoCount(InsertState(x, xs)) == AutoCount(xs) + (if x.tag == AUTO_TAG then 1 else 0)
    decreases |xs|
  {
    var r := InsertState(x, xs);
    if xs == [] {
      assert r[1..] == [];
    } else if StateBefore(xs[0], x) {
      InsertStateAutoCount(x, xs[1..]);
      assert r[1..] == InsertState(x, xs[1..]);
    } else {
      assert r[1..] == xs;
    }
  }

  lemma {:induction false} SortStatesAutoCount(xs: seq<StateInfo>)
    ensures AutoCount(SortStates(xs)) == AutoCount(xs)
    decreases |xs|
  {
    if xs != [] {
      SortStatesAutoCount(xs[1..]);
      InsertStateAutoCount(xs[0], SortStates(xs[1..]));
    }
  }

  /** On an input with at most one "auto" state the source's comparator and the
      corrected one give the same answer for every two distinct entries. */
  lemma ComparatorsAgreeOnDistinctEntries(xs: seq<StateInfo>)
    requires AtMostOneAuto(xs)
    ensures forall i, j :: 0 <= i < |xs| && 0 <= j < |xs| && i != j ==>
      (StateBeforeAsWritten(xs[i], xs[j]) <==> StateBefore(xs[i], xs[j]))
  {
    forall i, j | 0 <= i < |xs| && 0 <= j < |xs| && i != j
      ensures StateBeforeAsWritten(xs[i], xs[j]) <==> StateBefore(xs[i], xs[j])
    {
      if i < j {
        assert !(xs[i].tag == AUTO_TAG && xs[j].tag == AUTO_TAG);
      } else {
        assert !(xs[j].tag == AUTO_TAG && xs[i].tag == AUTO_TAG);
      }
    }
  }

  /** On such an input the sorted list is also in the order of the source's comparator:
      no entry is before an earlier one under either comparator. */
  lemma SortedUnderAsWrittenComparator(states: seq<StateInfo>)
    requires AtMostOneAuto(states)
    ensures var r := SortStates(states);
      forall i, j :: 0 <= i < j < |r| ==> !StateBeforeAsWritten(r[j], r[i])
  {
    var r := SortStates(states);
    SortStatesCorrect(states);
    AtMostOneAutoIffCount(states);
    SortStatesAutoCount(states);
    AtMostOneAutoIffCount(r);
    ComparatorsAgreeOnDistinctEntries(r);
  }

  // ===== the arranged list =====

  predicate HasAutoState(states: seq<StateInfo>)
  {
    exists i :: 0 <= i < |states| && states[i].tag == AUTO_TAG
  }

  /** `_data` after the constructor: sorted, with the default state in front when the
      first sorted state is not "auto". The source reads the front of the sorted
      list, so the input must not be empty. */
  function ArrangedStates(states: seq<StateInfo>): (r: seq<StateInfo>)
    requires |states| > 0
    ensures |states| <= |r| <= |states| + 1
    ensures r[0].tag == AUTO_TAG || r[0] == DEFAULT_STATE
  {
    var sorted := SortStates(states);
    if sorted[0].tag == AUTO_TAG then sorted else [DEFAULT_STATE] + sorted
  }

  /** The sorted list starts with "auto" exactly when the input has an "auto" state,
      which is the test the constructor makes on `_data.front()`. */
  lemma SortedFrontIsAutoIffPresent(states: seq<StateInfo>)
    requires |states| > 0
    ensures HasAutoState(states) <==> SortStates(states)[0].tag == AUTO_TAG
  {
    var sorted := SortStates(states);
    SortStatesCorrect(states);
    assert sorted[0] in multiset(states);
    if HasAutoState(states) {
      var i :| 0 <= i < |states| && states[i].tag == AUTO_TAG;
      assert states[i] in multiset(sorted);
      var k :| 0 <= k < |sorted| && sorted[k] == states[i];
    }
  }

  /** With an "auto" state the list is a sorted permutation of the input, of the same
      length, with "auto" at index 0. */
  lemma ArrangedStatesWithAuto(states: seq<StateInfo>)
    requires |states| > 0 && HasAutoState(states)
    ensures var r := ArrangedStates(states);
      && |r| == |states| && r[0].tag == AUTO_TAG
      && multiset(r) == multiset(states) && SortedStates(r)
  {
    SortedFrontIsAutoIffPresent(states);
    SortStatesCorrect(states);
  }

  /** Without one, the default state is inserted at index 0, the length grows by one,
      no row is "auto" and the rest is a sorted permutation of the input. */
  lemma ArrangedStatesWithoutAuto(states: seq<StateInfo>)
    requires |states| > 0 && !HasAutoState(states)
    ensures var r := ArrangedStates(states);
      && |r| == |states| + 1 && r[0] == DEFAULT_STATE
      && multiset(r[1..]) == multiset(states) && SortedStates(r[1..])
      && (forall k :: 0 <= k < |r| ==> r[k].tag != AUTO_TAG)
  {
    SortedFrontIsAutoIffPresent(states);
    SortStatesCorrect(states);
    var sorted := SortStates(states);
    var r := ArrangedStates(states);
    assert r[1..] == sorted;
    forall k | 0 <= k < |r| ensures r[k].tag != AUTO_TAG {
      if k > 0 {
        assert r[k] == sorted[k - 1];
        assert sorted[k - 1] in multiset(states);
      }
    }
  }

  /** Either way the non-"auto" entries after the first ascend by tag. */
  lemma ArrangedTagsAscend(states: seq<StateInfo>)
    requires |states| > 0
    ensures var r := ArrangedStates(states);
      forall i, j :: 1 <= i < j < |r| && r[i].tag != AUTO_TAG && r[j].tag != AUTO_TAG ==>
        !StringLess(r[j].tag, r[i].tag)
  {
    var sorted := SortStates(states);
    SortStatesCorrect(states);
    var r := ArrangedStates(states);
    forall i, j | 1 <= i < j < |r| && r[i].tag != AUTO_TAG && r[j].tag != AUTO_TAG
      ensures !StringLess(r[j].tag, r[i].tag)
    {
      if sorted[0].tag == AUTO_TAG {
        assert !StateBefore(r[j], r[i]);
      } else {
        assert r[i] == sorted[i - 1] && r[j] == sorted[j - 1];
      }
    }
  }

  // ===== tag search =====

  /** `std::find_if` on the tag: the first index holding the tag, or -1. */
  function IndexOfTag(xs: seq<StateInfo>, tag: string): (i: int)
    ensures -1 <= i < |xs|
    ensures i == -1 <==> (forall k :: 0 <= k < |xs| ==> xs[k].tag != tag)
    ensures i >= 0 ==> xs[i].tag == tag && (forall k :: 0 <= k < i ==> xs[k].tag != tag)
    decreases |xs|
  {
    if xs == [] then -1
    else if xs[0].tag == tag then 0
    else
      var i := IndexOfTag(xs[1..], tag);
      if i == -1 then -1 else i + 1
  }

  // ===== the list model =====

  /** `Qt::DisplayRole` and the three roles above `Qt::UserRole` (0x100). */
  const DISPLAY_ROLE: int := 0
  const STATE_TAG_ROLE: int := 0x100 + 1
  const STATE_DESCRIPTION_ROLE: int := 0x100 + 2
  const STATE_EXPLICIT_ROLE: int := 0x100 + 3

  /** A `QVariant` as `data` returns it: empty, a string or a bool. */
  datatype RoleValue = NoValue | Text(text: string) | Flag(flag: bool)

  class StatesModel {
    var data: seq<StateInfo>
    var explicitAutoState: bool

    /** The states the model was built from. */
    ghost const states: seq<StateInfo>

    ghost predicate Valid()
      reads this
    {
      && |states| > 0 && AtMostOneAuto(states)
      && data == ArrangedStates(states)
      && explicitAutoState == HasAutoState(states)
    }

    /** `std::sort` needs a strict weak order; the source's comparator is one on the
        input only when at most one state is "auto". */
    constructor (states: seq<StateInfo>)
      requires |states| > 0
      requires AtMostOneAuto(states)
      ensures this.states == states
      ensures Valid()
    {
      this.states := states;
      data := SortStates(states);
      explicitAutoState := false;
      new;
      SortedFrontIsAutoIffPresent(states);
      if data[0].tag == AUTO_TAG {
        // the aircraft supplies its own "auto" state
        explicitAutoState := true;
      } else {
        data := [DEFAULT_STATE] + data;
      }
    }

    function IndexForTag(tag: string): (r: int)
      reads this
      ensures r == -1 || (0 <= r < |data| && data[r].tag == tag)
    {
      IndexOfTag(data, tag)
    }

    function RowCount(): (r: int)
      reads this
      ensures Valid() ==> r == |states| || r == |states| + 1
    {
      |data|
    }

    /** `data(index, role)`; `None` is the `std::out_of_range` that `at` throws for a
        row outside the list. */
    function Data(row: int, role: int): (r: Option<RoleValue>)
      reads this
      ensures r.None? <==> !(0 <= row < |data|)
    {
      if !(0 <= row < |data|) then None
      else
        var s := data[row];
        if role == DISPLAY_ROLE then Some(Text(if s.name == "" then HumanNameFromStateTag(s.tag) else s.name))
        else if role == STATE_TAG_ROLE then Some(Text(s.tag))
        else if role == STATE_DESCRIPTION_ROLE then Some(Text(s.description))
        else if role == STATE_EXPLICIT_ROLE then Some(Flag(if s.tag == AUTO_TAG then explicitAutoState else true))
        else Some(NoValue)
    }
  }

  /** The explicit role is true for every row of a constructed model: an "auto" row
      exists only when the aircraft supplied it, and then `_explicitAutoState` is set. */
  lemma ExplicitRoleAlwaysTrue(m: StatesModel, row: int)
    requires m.Valid()
    requires 0 <= row < |m.data|
    ensures m.Data(row, STATE_EXPLICIT_ROLE) == Some(Flag(true))
  {
    if !HasAutoState(m.states) {
      ArrangedStatesWithoutAuto(m.states);
    }
  }

  /** `indexForTag` finds the first row with the tag, and -1 exactly when no row has it;
      in particular the "auto" row is found at 0 when the aircraft has one, and the
      default state at 0 when it has none. */
  lemma IndexForTagFindsFirst(m: StatesModel, tag: string)
    requires m.Valid()
    ensures var i := m.IndexForTag(tag);
      && (i == -1 <==> forall k :: 0 <= k < |m.data| ==> m.data[k].tag != tag)
      && (i >= 0 ==> m.data[i].tag == tag && forall k :: 0 <= k < i ==> m.data[k].tag != tag)
    ensures HasAutoState(m.states) ==> m.IndexForTag(AUTO_TAG) == 0
    ensures !HasAutoState(m.states) ==> m.IndexForTag(DEFAULT_STATE.tag) == 0 && m.IndexForTag(AUTO_TAG) == -1
  {
    if HasAutoState(m.states) {
      ArrangedStatesWithAuto(m.states);
    } else {
      ArrangedStatesWithoutAuto(m.states);
    }
  }
}
