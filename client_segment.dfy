/**
 * The dialog that defines a client segment: a name, a description and
 * the criteria (last order, minimum orders, tags, preferred dishes, order
 * value and its comparison). The clock readings and the simulated size
 * drawn at random are parameters.
 */
module ClientSegment {
  import opened Strings
  import opened Lists

  /** The filter a segment applies. */
  datatype Criteria = Criteria(
    lastOrderDays: string,
    minOrders: string,
    tags: seq<string>,
    preferredItems: seq<string>,
    orderValue: string,
    orderValueOperator: string)

  /** No criterion set, and "at least" as the order-value comparison. */
  const EmptyCriteria := Criteria([], [], [], [], [], "gte")

  /** The segment handed to the caller. */
  datatype Segment = Segment(
    id: string,
    name: string,
    description: string,
    criteria: Criteria,
    estimatedSize: int,
    createdAt: string)

  /** The simulated size `Math.floor(Math.random() * 500) + 100` lies in 100..599. */
  predicate SimulatedSize(n: int) {
    100 <= n < 600
  }

  /** `handleTagToggle`'s new criteria: the tag's membership flips, every other criterion stays. */
  function ToggleTag(c: Criteria, tag: string): (r: Criteria)
    ensures tag in r.tags <==> tag !in c.tags
    ensures forall t :: t != tag ==> (t in r.tags <==> t in c.tags)
    ensures r == c.(tags := r.tags)
  {
    c.(tags := Toggle(c.tags, tag))
  }

  /** `handleItemToggle`'s new criteria: the dish's membership flips, every other criterion stays. */
  function ToggleItem(c: Criteria, item: string): (r: Criteria)
    ensures item in r.preferredItems <==> item !in c.preferredItems
    ensures forall t :: t != item ==> (t in r.preferredItems <==> t in c.preferredItems)
    ensures r == c.(preferredItems := r.preferredItems)
  {
    c.(preferredItems := Toggle(c.preferredItems, item))
  }

  /** Toggling a tag twice selects the same tags as before. */
  lemma ToggleTagTwice(c: Criteria, tag: string)
    ensures forall t :: t in ToggleTag(ToggleTag(c, tag), tag).tags <==> t in c.tags
    ensures ToggleTag(ToggleTag(c, tag), tag) == c.(tags := ToggleTag(ToggleTag(c, tag), tag).tags)
  {
    ToggleTwice(c.tags, tag);
  }

  /** Toggling a tag and toggling a dish touch different criteria, so their order does not matter. */
  lemma TogglesCommute(c: Criteria, tag: string, item: string)
    ensures ToggleItem(ToggleTag(c, tag), item) == ToggleTag(ToggleItem(c, item), tag)
  {
  }

  /** What pressing submit did. */
  datatype SegmentOutcome = BlankName | SegmentCreated(segment: Segment)

  /** The dialog's state. */
  class SegmentForm {
    var name: string
    var description: string
    var criteria: Criteria

    /** Nothing entered and no criterion set. */
    predicate IsReset()
      reads this
    {
      name == [] && description == [] && criteria == EmptyCriteria
    }

    constructor ()
      ensures IsReset()
    {
      name, description, criteria := [], [], EmptyCriteria;
    }

    /** `handleTagToggle`: only the tag list changes. */
    method TagToggle(tag: string)
      modifies this
      ensures criteria == ToggleTag(old(criteria), tag)
      ensures name == old(name) && description == old(description)
    {
      criteria := ToggleTag(criteria, tag);
    }

    /** `handleItemToggle`: only the list of preferred dishes changes. */
    method ItemToggle(item: string)
      modifies this
      ensures criteria == ToggleItem(old(criteria), item)
      ensures name == old(name) && description == old(description)
    {
      criteria := ToggleItem(criteria, item);
    }

    /** Editing the name, the description or a text criterion. */
    method Edit(newName: string, newDescription: string, newCriteria: Criteria)
      modifies this
      ensures name == newName && description == newDescription && criteria == newCriteria
    {
      name, description, criteria := newName, newDescription, newCriteria;
    }

    /**
     * `handleSubmit`: a name that is blank once trimmed is reported and
     * nothing changes; otherwise the segment is handed over, with the
     * untrimmed name, and the form is reset.
     */
    method Submit(nowId: string, size: int, nowIso: string) returns (outcome: SegmentOutcome)
      requires SimulatedSize(size)
      modifies this
      ensures Trim(old(name)) == [] ==>
        outcome == BlankName && name == old(name) && description == old(description) && criteria == old(criteria)
      ensures Trim(old(name)) != [] ==>
        outcome == SegmentCreated(Segment(nowId, old(name), old(description), old(criteria), size, nowIso))
        && IsReset()
      ensures outcome.SegmentCreated? ==> !AllSpace(outcome.segment.name) && SimulatedSize(outcome.segment.estimatedSize)
    {
      if Trim(name) == [] {
        return BlankName;
      }
      outcome := SegmentCreated(Segment(nowId, name, description, criteria, size, nowIso));
      name, description, criteria := [], [], EmptyCriteria;
    }
  }
}
