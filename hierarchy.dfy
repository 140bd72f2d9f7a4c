/** The selection state of the client: one entry per level of the
    region, province, municipality, street hierarchy, and what a selection
    does to it. */
module Hierarchy {
  import opened Records

  datatype Level = Region | Province | Municipality | Street

  /** The fixed order in which a reset walks the levels. */
  const Levels: seq<Level> := [Region, Province, Municipality, Street]

  /** The position of a level in that order (`levels.indexOf(level)`). */
  function Index(l: Level): (i: nat)
    ensures i < |Levels| && Levels[i] == l
  {
    match l
    case Region => 0
    case Province => 1
    case Municipality => 2
    case Street => 3
  }

  /** Each position of the order holds the level whose position it is. */
  lemma LevelAt(i: nat)
    requires i < |Levels|
    ensures Index(Levels[i]) == i
  {
  }

  /** The key of a level in the state object and in output slot names. */
  function Name(l: Level): string
  {
    match l
    case Region => "region"
    case Province => "province"
    case Municipality => "municipality"
    case Street => "street"
  }

  /** The selected record of each level, or none. */
  type State = map<Level, Option<Record>>

  predicate Complete(s: State)
  {
    forall l: Level :: l in s
  }

  /** The state of a new client: nothing selected. */
  const Empty: State := map[Region := None, Province := None, Municipality := None, Street := None]

  lemma EmptyComplete()
    ensures Complete(Empty) && forall l :: Empty[l] == None
  {
    forall l: Level
      ensures l in Empty && Empty[l] == None
    {
      match l
      case Region =>
      case Province =>
      case Municipality =>
      case Street =>
    }
  }

  /** The entries from position `i` on set to none, one after the other. */
  function ClearFrom(s: State, i: nat): (r: State)
    requires Complete(s)
    ensures Complete(r)
    ensures forall l :: r[l] == if Index(l) >= i then None else s[l]
    decreases |Levels| - i
  {
    if i >= |Levels| then s
    else ClearFrom(s[Levels[i] := None], i + 1)
  }

  /** `_resetDownstream` on the state: every level strictly after `l` set to none. */
  function ClearAfter(s: State, l: Level): State
    requires Complete(s)
  {
    ClearFrom(s, Index(l) + 1)
  }

  /** A selection at level `l`: the record is stored at `l`; below the street
      level, the downstream reset follows. Either way the record is stored at
      its level, every earlier level is left as it was and every later level
      is set to none; the street level has no later level, so a street
      selection changes no other entry. */
  function AfterSelect(s: State, l: Level, item: Record): (r: State)
    requires Complete(s)
    ensures Complete(r)
    ensures r[l] == Some(item)
    ensures forall k :: Index(k) < Index(l) ==> r[k] == s[k]
    ensures forall k :: Index(k) > Index(l) ==> r[k] == None
  {
    if l == Street then s[Street := Some(item)]
    else ClearAfter(s[l := Some(item)], l)
  }

  /** Selecting twice at the same level is the same as selecting the second record. */
  lemma SelectOverwrites(s: State, l: Level, a: Record, b: Record)
    requires Complete(s)
    ensures AfterSelect(AfterSelect(s, l, a), l, b) == AfterSelect(s, l, b)
  {
    var x, y := AfterSelect(AfterSelect(s, l, a), l, b), AfterSelect(s, l, b);
    assert forall k :: x[k] == y[k];
  }

  /** A selection upstream erases every selection made below it: selecting at
      `k` and then at an earlier level `l` above the street is the same as
      selecting only at `l`. */
  lemma UpstreamSelectionSupersedes(s: State, k: Level, a: Record, l: Level, b: Record)
    requires Complete(s) && Index(l) < Index(k)
    ensures AfterSelect(AfterSelect(s, k, a), l, b) == AfterSelect(s, l, b)
  {
    var x, y := AfterSelect(AfterSelect(s, k, a), l, b), AfterSelect(s, l, b);
    assert forall m :: x[m] == y[m];
  }

  /** "No selection outlives the loss of its upstream selection": an unset
      level has only unset levels after it. The client does not maintain this. */
  predicate Consistent(s: State)
    requires Complete(s)
  {
    forall k, m :: Index(k) < Index(m) && s[k].None? ==> s[m].None?
  }

  /** The level just before `l`. */
  function Parent(l: Level): Level
    requires l != Region
  {
    Levels[Index(l) - 1]
  }

  /** From a consistent state, a selection keeps the state consistent exactly
      when it is at the region level or the level just before it is set. */
  lemma SelectConsistency(s: State, l: Level, item: Record)
    requires Complete(s) && Consistent(s)
    ensures Complete(AfterSelect(s, l, item))
    ensures Consistent(AfterSelect(s, l, item)) <==> (l == Region || s[Parent(l)].Some?)
  {
    var r := AfterSelect(s, l, item);
    if l != Region && s[Parent(l)].None? {
      assert r[Parent(l)].None? && r[l].Some?;
    } else {
      forall k | Index(k) < Index(l)
        ensures s[k].Some?
      {
        if k != Parent(l) {
          assert Index(k) < Index(Parent(l));
        }
      }
    }
  }

  /** The client lets a province be selected with no region, and a street with
      no municipality (an unscoped street search), so a selection can break
      that consistency even from the empty state. */
  lemma SelectionWithoutUpstream(item: Record)
    ensures Complete(Empty) && !Consistent(AfterSelect(Empty, Province, item))
    ensures Complete(Empty) && !Consistent(AfterSelect(Empty, Street, item))
  {
    EmptyComplete();
    SelectConsistency(Empty, Province, item);
    SelectConsistency(Empty, Street, item);
  }

  /** The output slots the client writes or blanks. */
  datatype Slot = RegionCode | ProvinceCode | IstatCode | MunicipalityCode | StreetId

  /** The key of a slot in the outputs object. */
  function SlotName(x: Slot): string
  {
    match x
    case RegionCode => "region_code"
    case ProvinceCode => "province_code"
    case IstatCode => "istat_code"
    case MunicipalityCode => "municipality_code"
    case StreetId => "street_id"
  }

  /** Different slots have different keys. */
  lemma SlotNamesDistinct(x: Slot, y: Slot)
    ensures SlotName(x) == SlotName(y) <==> x == y
  {
    if x != y {
      assert |SlotName(x)| != |SlotName(y)|;
    }
  }

  /** The output slot a selection at `l` writes the record's identifier to. */
  function SelectSlot(l: Level): Slot
  {
    match l
    case Region => RegionCode
    case Province => ProvinceCode
    case Municipality => IstatCode
    case Street => StreetId
  }

  /** The identifier a selection at `l` writes: code, code, istat_code, id. */
  function Identifier(l: Level, item: Record): Option<string>
  {
    match l
    case Region => item.code
    case Province => item.code
    case Municipality => item.istatCode
    case Street => item.id
  }

  /** The output slot a reset of level `l` blanks. */
  function ResetSlot(l: Level): Slot
  {
    match l
    case Region => RegionCode
    case Province => ProvinceCode
    case Municipality => MunicipalityCode
    case Street => StreetId
  }

  /** The reset slot's key is the level's name with "_id" for the street and
      "_code" otherwise. */
  lemma ResetSlotSpelling(l: Level)
    ensures SlotName(ResetSlot(l)) == Name(l) + (if l == Street then "_id" else "_code")
  {
    match l
    case Region => assert "region" + "_code" == "region_code";
    case Province => assert "province" + "_code" == "province_code";
    case Municipality => assert "municipality" + "_code" == "municipality_code";
    case Street => assert "street" + "_id" == "street_id";
  }

  /** The key a selection writes and the key a reset blanks differ exactly
      at the municipality level ("istat_code" against "municipality_code"). */
  lemma SlotsDifferOnlyForMunicipality(l: Level)
    ensures SlotName(ResetSlot(l)) == SlotName(SelectSlot(l)) <==> l != Municipality
  {
    SlotNamesDistinct(ResetSlot(l), SelectSlot(l));
  }

  /** The level whose reset blanks slot `x`, if any. */
  function ResetLevel(x: Slot): (r: Option<Level>)
    ensures r.Some? ==> ResetSlot(r.value) == x
    ensures forall l :: ResetSlot(l) == x ==> r == Some(l)
  {
    match x
    case RegionCode => Some(Region)
    case ProvinceCode => Some(Province)
    case IstatCode => None
    case MunicipalityCode => Some(Municipality)
    case StreetId => Some(Street)
  }

  /** Slot `x` is blanked by a reset walk after `l` that has reached
      position `upTo`. */
  predicate BlankedBy(x: Slot, l: Level, upTo: nat)
  {
    ResetLevel(x).Some? && Index(l) < Index(ResetLevel(x).value) < upTo
  }

  /** Going one position further blanks that position's reset slot too. */
  lemma BlankedByStep(x: Slot, l: Level, i: nat)
    requires 0 < i <= |Levels|
    ensures BlankedBy(x, l, i) <==> BlankedBy(x, l, i - 1) || (Index(l) < i - 1 && x == ResetSlot(Levels[i - 1]))
  {
    LevelAt(i - 1);
    if BlankedBy(x, l, i) && !BlankedBy(x, l, i - 1) {
      assert ResetLevel(x).value == Levels[i - 1];
    }
  }

  /** A whole reset after `l` blanks exactly the reset slots of the later levels. */
  lemma BlankedByReset(x: Slot, l: Level)
    ensures BlankedBy(x, l, |Levels|) <==> exists k :: Index(k) > Index(l) && x == ResetSlot(k)
  {
    if exists k :: Index(k) > Index(l) && x == ResetSlot(k) {
      var k :| Index(k) > Index(l) && x == ResetSlot(k);
      assert ResetLevel(x) == Some(k);
    }
  }

  /** No reset ever blanks the "istat_code" slot that a municipality
      selection writes. */
  lemma IstatSlotNeverReset(l: Level, upTo: nat)
    ensures !BlankedBy(SelectSlot(Municipality), l, upTo)
  {
  }

  /** `_resetDownstream` on the outputs: the present slots of the levels after `l` emptied. */
  function ResetOutputs(os: map<Slot, string>, l: Level): map<Slot, string>
  {
    map x | x in os :: if BlankedBy(x, l, |Levels|) then "" else os[x]
  }

  /** The outputs once a reset walk after `l` has reached position `i`. */
  function OutputsUpTo(o0: map<Slot, string>, l: Level, i: nat): map<Slot, string>
  {
    map x | x in o0 :: if BlankedBy(x, l, i) then "" else o0[x]
  }

  /** One step of the walk, slot by slot: the slot of the level at position
      `i - 1` becomes empty, every other slot keeps its value. */
  lemma OutputsStepAt(o0: map<Slot, string>, l: Level, i: nat, y: Slot)
    requires Index(l) + 1 < i <= |Levels| && y in o0
    ensures OutputsUpTo(o0, l, i)[y]
         == if y == ResetSlot(Levels[i - 1]) then "" else OutputsUpTo(o0, l, i - 1)[y]
  {
    BlankedByStep(y, l, i);
  }

  /** One step of the walk empties the slot of the level at position `i - 1`. */
  lemma OutputsStep(o0: map<Slot, string>, l: Level, i: nat)
    requires Index(l) + 1 < i <= |Levels|
    ensures var before := OutputsUpTo(o0, l, i - 1); var slot := ResetSlot(Levels[i - 1]);
            (if slot in before then before[slot := ""] else before) == OutputsUpTo(o0, l, i)
  {
    var before, after := OutputsUpTo(o0, l, i - 1), OutputsUpTo(o0, l, i);
    var slot := ResetSlot(Levels[i - 1]);
    var x := if slot in before then before[slot := ""] else before;
    forall y | y in o0
      ensures x[y] == after[y]
    {
      OutputsStepAt(o0, l, i, y);
    }
    assert x.Keys == after.Keys;
  }

  /** Once the walk has passed every position, its outputs are the reset's. */
  lemma OutputsEnd(o0: map<Slot, string>, l: Level)
    ensures OutputsUpTo(o0, l, |Levels|) == ResetOutputs(o0, l)
  {
  }
}
