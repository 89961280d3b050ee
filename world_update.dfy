// Deferred world-mutation requests and the comparator the event queue uses.

module WorldUpdates {
  import opened Shared
  import opened CommonStates

  datatype WorldUpdateEventType =
    | Idle
    | ChangeTileState(coords: WorldCoordinates, state: CommonState)
    | KeyPickup(link: KeyDoorLink)
    | TryOpenDoor(doorCoords: WorldCoordinates)
    | PickupTreasure(treasureCoords: WorldCoordinates)

  datatype WorldUpdate = WorldUpdate(eventType: WorldUpdateEventType)

  datatype Ordering = Less | Equal | Greater

  function New(eventType: WorldUpdateEventType): (u: WorldUpdate)
    ensures u.eventType == eventType
  {
    WorldUpdate(eventType)
  }

  /** The same constructor under the name the payload-free call sites use. */
  function WithNoPayload(eventType: WorldUpdateEventType): (u: WorldUpdate)
    ensures u == New(eventType)
  {
    New(eventType)
  }

  /** The comparator as written: a ChangeTileState on the left is Greater,
      an Idle on the right is otherwise Less, everything else is Equal. */
  function Cmp(a: WorldUpdate, b: WorldUpdate): (r: Ordering)
    ensures a.eventType.ChangeTileState? ==> r == Greater
    ensures !a.eventType.ChangeTileState? && b.eventType.Idle? ==> r == Less
    ensures !a.eventType.ChangeTileState? && !b.eventType.Idle? ==> r == Equal
  {
    match (a.eventType, b.eventType)
    case (ChangeTileState(_, _), _) => Greater
    case (_, Idle) => Less
    case (_, _) => Equal
  }

  function PartialCmp(a: WorldUpdate, b: WorldUpdate): (r: Option<Ordering>)
    ensures r == Some(Cmp(a, b))
  {
    Some(Cmp(a, b))
  }

  /** The variant tag of an event. */
  function Tag(e: WorldUpdateEventType): nat {
    match e
    case Idle => 0
    case ChangeTileState(_, _) => 1
    case KeyPickup(_) => 2
    case TryOpenDoor(_) => 3
    case PickupTreasure(_) => 4
  }

  /** The comparison looks only at the variant tags, never at payloads. */
  lemma CmpDependsOnlyOnTags(a: WorldUpdate, b: WorldUpdate, a': WorldUpdate, b': WorldUpdate)
    requires Tag(a.eventType) == Tag(a'.eventType) && Tag(b.eventType) == Tag(b'.eventType)
    ensures Cmp(a, b) == Cmp(a', b')
  {
  }

  function Flip(o: Ordering): Ordering {
    match o
    case Less => Greater
    case Equal => Equal
    case Greater => Less
  }

  /** What the Ord contract of a max-heap element demands of a comparator:
      reflexive, antisymmetric and transitive. */
  ghost predicate IsTotalPreorder(cmp: (WorldUpdate, WorldUpdate) -> Ordering) {
    && (forall a :: cmp(a, a) == Equal)
    && (forall a, b :: cmp(b, a) == Flip(cmp(a, b)))
    && (forall a, b, c :: cmp(a, b) != Greater && cmp(b, c) != Greater ==> cmp(a, c) != Greater)
  }

  /** The comparator as written is not an order: it is not reflexive on Idle
      or ChangeTileState, and it is not antisymmetric on an event against Idle. */
  lemma CmpIsNotAnOrder(link: KeyDoorLink, at: WorldCoordinates, s: CommonState)
    ensures Cmp(WorldUpdate(Idle), WorldUpdate(Idle)) == Less
    ensures Cmp(WorldUpdate(ChangeTileState(at, s)), WorldUpdate(ChangeTileState(at, s))) == Greater
    ensures Cmp(WorldUpdate(KeyPickup(link)), WorldUpdate(Idle)) == Less
    ensures Cmp(WorldUpdate(Idle), WorldUpdate(KeyPickup(link))) == Equal
    ensures !IsTotalPreorder(Cmp)
  {
    assert Cmp(WorldUpdate(Idle), WorldUpdate(Idle)) != Equal;
  }

  /** In a max-heap the greater event is taken first. As written, a KeyPickup
      compares Less than an Idle, so Idle would outrank it, the reverse of the
      documented "Idle lowest" priority. */
  lemma CmpRanksIdleAboveKeyPickup(link: KeyDoorLink)
    ensures Cmp(WorldUpdate(KeyPickup(link)), WorldUpdate(Idle)) == Less
    ensures Priority(KeyPickup(link)) > Priority(Idle)
  {
  }

  /** The documented priority: ChangeTileState highest, Idle lowest, the
      others equal. */
  function Priority(e: WorldUpdateEventType): (p: nat)
    ensures p <= 2
    ensures p == 2 <==> e.ChangeTileState?
    ensures p == 0 <==> e.Idle?
  {
    match e
    case ChangeTileState(_, _) => 2
    case Idle => 0
    case _ => 1
  }

  /** The corrected comparator: compares priorities. */
  function CmpByPriority(a: WorldUpdate, b: WorldUpdate): (r: Ordering)
    ensures r == Equal <==> Priority(a.eventType) == Priority(b.eventType)
    ensures r == Greater <==> Priority(a.eventType) > Priority(b.eventType)
  {
    var pa, pb := Priority(a.eventType), Priority(b.eventType);
    if pa < pb then Less else if pa == pb then Equal else Greater
  }

  /** The corrected comparator satisfies the Ord contract, ranks
      ChangeTileState strictly above and Idle strictly below everything else. */
  lemma CmpByPriorityIsOrder(a: WorldUpdate, b: WorldUpdate)
    ensures IsTotalPreorder(CmpByPriority)
    ensures a.eventType.ChangeTileState? && !b.eventType.ChangeTileState? ==> CmpByPriority(a, b) == Greater
    ensures a.eventType.Idle? && !b.eventType.Idle? ==> CmpByPriority(a, b) == Less
    ensures !a.eventType.Idle? && !a.eventType.ChangeTileState? && !b.eventType.Idle? && !b.eventType.ChangeTileState?
      ==> CmpByPriority(a, b) == Equal
  {
  }

  /** A non-empty queue always holds an event of highest priority. */
  lemma {:induction false} HighestExists(q: multiset<WorldUpdate>)
    requires q != multiset{}
    ensures exists u :: u in q && forall v :: v in q ==> Priority(v.eventType) <= Priority(u.eventType)
  {
    if exists u :: u in q && u.eventType.ChangeTileState? {
      var u :| u in q && u.eventType.ChangeTileState?;
      assert forall v :: v in q ==> Priority(v.eventType) <= Priority(u.eventType);
    } else if exists u :: u in q && !u.eventType.Idle? {
      var u :| u in q && !u.eventType.Idle?;
      assert forall v :: v in q ==> Priority(v.eventType) <= Priority(u.eventType);
    } else {
      var u :| u in q;
      assert forall v :: v in q ==> Priority(v.eventType) <= Priority(u.eventType);
    }
  }
}
