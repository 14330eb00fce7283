/**
 * The status scheduler: the list of scheduled statuses, the status being
 * edited, the create/save, delete and pause/resume handlers, and the two
 * figures derived from the list, the number of active statuses and the
 * next status to go out (the active one with the earliest "HH:MM" time).
 */
module StatusScheduler {
  import opened Options
  import opened Strings
  import opened Lists
  import opened NewStatusDialog

  /** `prev.map(s => s.id === status.id ? status : s)`: same length, same ids, entries with the id replaced. */
  function ReplaceById(xs: seq<Status>, s: Status): (r: seq<Status>)
    ensures |r| == |xs|
    ensures forall i :: 0 <= i < |xs| ==> r[i].id == xs[i].id
    ensures forall i :: 0 <= i < |xs| && xs[i].id == s.id ==> r[i] == s
    ensures forall i :: 0 <= i < |xs| && xs[i].id != s.id ==> r[i] == xs[i]
  {
    seq(|xs|, i requires 0 <= i < |xs| => if xs[i].id == s.id then s else xs[i])
  }

  /** Saving a status whose id is not listed changes nothing. */
  lemma ReplaceAbsent(xs: seq<Status>, s: Status)
    requires forall i :: 0 <= i < |xs| ==> xs[i].id != s.id
    ensures ReplaceById(xs, s) == xs
  {
  }

  /** `prev.filter(s => s.id !== id)`: every entry with the id gone, the others kept in order. */
  function RemoveById(xs: seq<Status>, id: int): (r: seq<Status>)
    ensures forall s :: s in r <==> s in xs && s.id != id
    ensures IsSubsequence(r, xs)
  {
    var keep := (s: Status) => s.id != id;
    FilterIsSubsequence(xs, keep);
    Filter(xs, keep)
  }

  /** `prev.map(s => s.id === id ? { ...s, active: !s.active } : s)`. */
  function ToggleById(xs: seq<Status>, id: int): (r: seq<Status>)
    ensures |r| == |xs|
    ensures forall i :: 0 <= i < |xs| ==> r[i] == if xs[i].id == id then xs[i].(active := !xs[i].active) else xs[i]
  {
    seq(|xs|, i requires 0 <= i < |xs| => if xs[i].id == id then xs[i].(active := !xs[i].active) else xs[i])
  }

  /** Pausing and resuming (or the reverse) gives back the same list. */
  lemma ToggleByIdTwice(xs: seq<Status>, id: int)
    ensures ToggleById(ToggleById(xs, id), id) == xs
  {
    var once := ToggleById(xs, id);
    assert forall i :: 0 <= i < |xs| ==> once[i].id == xs[i].id;
  }

  predicate IsActive(s: Status) {
    s.active
  }

  /** `scheduledStatuses.filter(s => s.active).length`. */
  function ActiveCount(xs: seq<Status>): (n: nat)
    ensures n <= |xs|
    ensures n == 0 <==> forall i :: 0 <= i < |xs| ==> !xs[i].active
  {
    var kept := Filter(xs, IsActive);
    assert kept != [] ==> kept[0] in xs && kept[0].active;
    assert kept == [] ==> forall i :: 0 <= i < |xs| ==> xs[i] !in kept;
    |kept|
  }

  /** Creating a status adds one to the count exactly when it is active. */
  lemma ActiveCountAppend(xs: seq<Status>, s: Status)
    ensures ActiveCount(xs + [s]) == ActiveCount(xs) + if s.active then 1 else 0
  {
    FilterAppend(xs, [s], IsActive);
    assert Filter([s], IsActive) == if s.active then [s] else [];
  }

  /**
   * The position of the next status: among the active entries, one with
   * the smallest time, and the first such in list order, as the stable
   * sort followed by `[0]` gives.
   */
  function NextIndex(xs: seq<Status>): (k: Option<nat>)
    ensures k.Some? ==> k.value < |xs|
  {
    if xs == [] then None
    else
      var rest := NextIndex(xs[1..]);
      if !xs[0].active then (if rest.None? then None else Some(rest.value + 1))
      else if rest.None? then Some(0)
      else if Before(xs[rest.value + 1].time, xs[0].time) then Some(rest.value + 1)
      else Some(0)
  }

  /** `k` is an active entry that no active entry precedes in time, and every earlier active entry is strictly later. */
  predicate EarliestActive(xs: seq<Status>, k: nat) {
    k < |xs| && xs[k].active
    && (forall i :: 0 <= i < |xs| && xs[i].active ==> !Before(xs[i].time, xs[k].time))
    && (forall i :: 0 <= i < k && xs[i].active ==> Before(xs[k].time, xs[i].time))
  }

  /** There is a next status exactly when some status is active, and it is the earliest active one, first in list order among equals. */
  lemma {:induction false} NextIndexIsEarliest(xs: seq<Status>)
    ensures NextIndex(xs).None? <==> forall i :: 0 <= i < |xs| ==> !xs[i].active
    ensures NextIndex(xs).Some? ==> EarliestActive(xs, NextIndex(xs).value)
  {
    if xs != [] {
      var tail := xs[1..];
      NextIndexIsEarliest(tail);
      var rest := NextIndex(tail);
      if !xs[0].active {
        if rest.Some? {
          EarliestShifts(xs, rest.value);
        }
      } else if rest.None? {
        OnlyHeadActive(xs);
      } else if Before(xs[rest.value + 1].time, xs[0].time) {
        EarlierThanHead(xs, rest.value);
      } else {
        HeadNotLater(xs, rest.value);
      }
    }
  }

  /** An inactive head leaves the earliest entry of the tail the earliest one. */
  lemma EarliestShifts(xs: seq<Status>, j: nat)
    requires xs != [] && !xs[0].active && EarliestActive(xs[1..], j)
    ensures EarliestActive(xs, j + 1)
  {
    assert forall i :: 1 <= i < |xs| ==> xs[i] == xs[1..][i - 1];
  }

  /** An active head before an inactive tail is the earliest. */
  lemma OnlyHeadActive(xs: seq<Status>)
    requires xs != [] && xs[0].active
    requires forall i :: 0 <= i < |xs| - 1 ==> !xs[1..][i].active
    ensures EarliestActive(xs, 0)
  {
    assert forall i :: 1 <= i < |xs| ==> xs[i] == xs[1..][i - 1];
    BeforeIrreflexive(xs[0].time);
  }

  /** The tail's earliest entry strictly before an active head wins. */
  lemma EarlierThanHead(xs: seq<Status>, j: nat)
    requires xs != [] && xs[0].active && EarliestActive(xs[1..], j)
    requires Before(xs[j + 1].time, xs[0].time)
    ensures EarliestActive(xs, j + 1)
  {
    assert forall i :: 1 <= i < |xs| ==> xs[i] == xs[1..][i - 1];
    BeforeAsymmetric(xs[j + 1].time, xs[0].time);
  }

  /** Otherwise the active head wins: nothing active is earlier than it. */
  lemma HeadNotLater(xs: seq<Status>, j: nat)
    requires xs != [] && xs[0].active && EarliestActive(xs[1..], j)
    requires !Before(xs[j + 1].time, xs[0].time)
    ensures EarliestActive(xs, 0)
  {
    var t0, tj := xs[0].time, xs[j + 1].time;
    BeforeIrreflexive(t0);
    BeforeTotal(t0, tj);
    forall i | 1 <= i < |xs| && xs[i].active ensures !Before(xs[i].time, t0) {
      assert xs[i] == xs[1..][i - 1];
      if Before(xs[i].time, t0) && t0 != tj {
        BeforeTransitive(xs[i].time, t0, tj);
      }
    }
  }

  /** `nextStatus`: the status at that position, absent when none is active. */
  function NextStatus(xs: seq<Status>): (next: Option<Status>)
    ensures next.None? <==> NextIndex(xs).None?
    ensures next.None? <==> forall i :: 0 <= i < |xs| ==> !xs[i].active
    ensures next.Some? ==> next.value in xs && next.value.active
    ensures next.Some? ==>
      NextIndex(xs).Some? && next.value == xs[NextIndex(xs).value] && EarliestActive(xs, NextIndex(xs).value)
  {
    NextIndexIsEarliest(xs);
    match NextIndex(xs)
    case None => None
    case Some(k) => Some(xs[k])
  }

  /** The scheduler's state. */
  class Scheduler {
    var statuses: seq<Status>
    var editing: Option<Status>

    /** The list starts with the given statuses and nothing is being edited. */
    constructor (initial: seq<Status>)
      ensures statuses == initial && editing == None
    {
      statuses := initial;
      editing := None;
    }

    /** `handleEditStatus`: the status becomes the one being edited. */
    method EditStatus(s: Status)
      modifies this
      ensures editing == Some(s) && statuses == old(statuses)
    {
      editing := Some(s);
    }

    /** Closing the edit dialog: the edit is abandoned and the list kept. */
    method CancelEdit()
      modifies this
      ensures editing == None && statuses == old(statuses)
    {
      editing := None;
    }

    /**
     * `handleCreateStatus`: while editing, the entries with the saved
     * status's id are replaced and the edit ends; otherwise the status is
     * appended.
     */
    method CreateStatus(s: Status)
      modifies this
      ensures old(editing).Some? ==> statuses == ReplaceById(old(statuses), s) && editing == None
      ensures old(editing).None? ==> statuses == old(statuses) + [s] && editing == None
    {
      if editing.Some? {
        statuses := ReplaceById(statuses, s);
        editing := None;
      } else {
        statuses := statuses + [s];
      }
    }

    /** `handleDeleteStatus`: every entry with the id goes, the rest stay in order. */
    method DeleteStatus(id: int)
      modifies this
      ensures statuses == RemoveById(old(statuses), id) && editing == old(editing)
    {
      statuses := RemoveById(statuses, id);
    }

    /** `handleToggleActive`: the entries with the id are paused or resumed. */
    method ToggleActive(id: int)
      modifies this
      ensures statuses == ToggleById(old(statuses), id) && editing == old(editing)
    {
      statuses := ToggleById(statuses, id);
    }
  }
}
