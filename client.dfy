/** The client object and what `attachAutocomplete` wires onto a page: one
    bound field per configured level, the output slots, the debounced search
    of every text input, and the cascade a selection triggers. The page is
    modelled by its observable state (option lists and selections, input
    texts, suggestion panels, output slot values); events are the methods of
    `Form`. */
module AddressClient {
  import opened Records
  import opened Queries
  import opened Debounce
  import opened Hierarchy
  import opened Fields

  const DefaultBaseUrl := "https://anncsu-api.dataws.it/v1"

  /** The error `attachAutocomplete` raises outside a browser. */
  const NoDom := "attachAutocomplete() requires a browser environment with DOM access."

  /** A field element as the page hands it over: a select, or another input
      with the text it holds. */
  datatype Element = SelectElement | InputElement(text: string)

  /** The configuration of `attachAutocomplete`: the element bound to each
      configured level, and the output slots present with their values. */
  datatype Config = Config(fields: map<Level, Element>, outputs: map<Slot, string>)

  /** The record selected at level `k`, none when the level is unset. */
  function Selected(s: State, k: Level): Option<Record>
  {
    if k in s then s[k] else None
  }

  /** `r?.code` and `r?.istat_code`. */
  function CodeOf(r: Option<Record>): Option<string>
  {
    if r.Some? then r.value.code else None
  }

  function IstatOf(r: Option<Record>): Option<string>
  {
    if r.Some? then r.value.istatCode else None
  }

  /** The query of the source function bound to level `l`, called with input
      `v` in state `s`: regions; provinces of the selected region;
      municipalities matching `v` in the selected province; streets matching
      `v` in the selected municipality. Each reads the state when it is
      called. */
  function BoundQuery(l: Level, v: string, s: State): Query
  {
    match l
    case Region => RegionsQuery()
    case Province => ProvincesQuery(CodeOf(Selected(s, Region)))
    case Municipality => MunicipalitiesQuery(v, None, CodeOf(Selected(s, Province)))
    case Street => StreetsQuery(v, None, IstatOf(Selected(s, Municipality)))
  }

  /** A source function of the form: the records it yields for level `l`,
      input `v` and the state of the moment it is called. */
  type Source = (Level, string, State) -> seq<Record>

  /** A list source: the records a reset rebuilds the select of level `l`
      from, in the state of the moment. */
  type ListSource = (Level, State) -> seq<Record>

  /** The source functions `attachAutocomplete` binds to the four levels. */
  function Wired(net: Transport, base: string): Source
  {
    (l: Level, v: string, s: State) => Fetch(net, base, BoundQuery(l, v, s))
  }

  /** `_getDownstreamSource`: provinces of the selected region, municipalities
      of the selected province for the empty input, and no records at all for
      the other levels. */
  function DownstreamRecords(net: Transport, base: string, l: Level, s: State): seq<Record>
  {
    match l
    case Province => Fetch(net, base, ProvincesQuery(CodeOf(Selected(s, Region))))
    case Municipality => Fetch(net, base, MunicipalitiesQuery("", None, CodeOf(Selected(s, Province))))
    case _ => []
  }

  /** The list source the reset of `attachAutocomplete`'s callbacks uses. */
  function WiredDownstream(net: Transport, base: string): ListSource
  {
    (l: Level, s: State) => DownstreamRecords(net, base, l, s)
  }

  /** The downstream source of a level that has one is its bound source
      called with the empty input; the other two levels get no records. */
  lemma DownstreamIsBoundSource(net: Transport, base: string, l: Level, s: State)
    ensures l == Province || l == Municipality ==> WiredDownstream(net, base)(l, s) == Wired(net, base)(l, "", s)
    ensures l == Region || l == Street ==> WiredDownstream(net, base)(l, s) == []
  {
    match l
    case Region =>
    case Province =>
    case Municipality =>
    case Street =>
  }

  /** Every source reads only the selections above its own level. */
  lemma SourcesReadUpstream(net: Transport, base: string, l: Level, v: string, s1: State, s2: State)
    requires forall k :: Index(k) < Index(l) ==> Selected(s1, k) == Selected(s2, k)
    ensures Wired(net, base)(l, v, s1) == Wired(net, base)(l, v, s2)
    ensures WiredDownstream(net, base)(l, s1) == WiredDownstream(net, base)(l, s2)
  {
    match l
    case Region =>
    case Province =>
      assert Selected(s1, Region) == Selected(s2, Region) by { assert Index(Region) < Index(l); }
    case Municipality =>
      assert Selected(s1, Province) == Selected(s2, Province) by { assert Index(Province) < Index(l); }
    case Street =>
      assert Selected(s1, Municipality) == Selected(s2, Municipality) by { assert Index(Municipality) < Index(l); }
  }

  /** The fields right after binding: a select lists what its source returns
      for the empty input, with the sentinel selected; another input keeps its
      text and has an empty suggestion panel. */
  function Bound(els: map<Level, Element>, src: Source, s: State): map<Level, Field>
  {
    map l | l in els ::
      match els[l]
      case SelectElement => SelectBox(Rendered(src(l, "", s)), 0)
      case InputElement(t) => SearchBox(t, true, [])
  }

  /** A field before its first list arrives. */
  function Unbound(e: Element): Field
  {
    match e
    case SelectElement => SelectBox([Loading], 0)
    case InputElement(t) => SearchBox(t, true, [])
  }

  /** Each select's list rebuilt from what its source returns for the empty
      input in state `s`; the other fields as they are. */
  function FirstLists(fs: map<Level, Field>, src: Source, s: State): map<Level, Field>
  {
    map l | l in fs :: if fs[l].SelectBox? then SelectBox(Rendered(src(l, "", s)), 0) else fs[l]
  }

  /** `_resetDownstream` on the fields, started in state `s`: every field of a
      level after `l` blanked, a select rebuilt from the list source read
      right after its own level is cleared (the levels after it not yet). */
  function ResetFields(fs: map<Level, Field>, l: Level, s: State, down: ListSource): map<Level, Field>
    requires Complete(s)
  {
    map k | k in fs ::
      if Index(k) > Index(l) then Blanked(fs[k], down(k, ClearedUpTo(s, l, Index(k) + 1))) else fs[k]
  }

  /** The outputs after a selection: the level's slot, when present, gets the
      record's identifier; below the street level the reset follows. */
  function OutputsAfterSelect(os: map<Slot, string>, l: Level, item: Record): map<Slot, string>
  {
    var written := if SelectSlot(l) in os then os[SelectSlot(l) := StringValue(Identifier(l, item))] else os;
    if l == Street then written else ResetOutputs(written, l)
  }

  /** The fields after a selection made in state `s`: below the street level
      the reset, started once the record is stored; a street selection made
      with no municipality selected shows the street's municipality in the
      municipality field. */
  function FieldsAfterSelect(fs: map<Level, Field>, l: Level, item: Record, s: State, down: ListSource): map<Level, Field>
    requires Complete(s)
  {
    if l != Street then ResetFields(fs, l, s[l := Some(item)], down)
    else if s[Municipality].None? && Municipality in fs then fs[Municipality := Displayed(fs[Municipality], item.displayMunicipality)]
    else fs
  }

  /** The debounced input handler, run with the text the input holds when the
      timer fires and the state at that moment. */
  function InputHandled(f: Field, l: Level, s: State, src: Source): Field
    requires f.SearchBox?
  {
    Searched(f, src(l, f.text, s))
  }

  /** A document click hides every suggestion panel except that of the input
      clicked, if any. */
  function Dismissed(fs: map<Level, Field>, target: Option<Level>): map<Level, Field>
  {
    map k | k in fs :: Dismiss(fs[k], k, target)
  }

  function Dismiss(f: Field, k: Level, target: Option<Level>): Field
  {
    if f.SearchBox? && target != Some(k) then f.(shown := false) else f
  }

  // The loops of the form walk the levels in order; what a walk has done
  // before position `i` has a closed form, and one step moves it there from `i - 1`.

  /** The fields of the levels before position `i` taken from `done`, the
      others from `f0`. */
  function Merged(f0: map<Level, Field>, done: map<Level, Field>, i: nat): map<Level, Field>
  {
    map k | k in f0 :: if Index(k) < i && k in done then done[k] else f0[k]
  }

  lemma MergedStart(f0: map<Level, Field>, done: map<Level, Field>, i: nat)
    requires forall k :: k in f0 && k in done && Index(k) < i ==> done[k] == f0[k]
    ensures Merged(f0, done, i) == f0
  {
    var m := Merged(f0, done, i);
    assert forall k :: k in m <==> k in f0;
  }

  lemma MergedStep(f0: map<Level, Field>, done: map<Level, Field>, i: nat)
    requires 0 < i <= |Levels| && f0.Keys == done.Keys
    ensures var k := Levels[i - 1]; var before := Merged(f0, done, i - 1);
            Index(k) == i - 1
            && (k in f0 ==> before[k] == f0[k] && before[k := done[k]] == Merged(f0, done, i))
            && (k !in f0 || done[k] == f0[k] ==> before == Merged(f0, done, i))
  {
    LevelAt(i - 1);
    var k := Levels[i - 1];
    var before, after := Merged(f0, done, i - 1), Merged(f0, done, i);
    if k in f0 {
      var x := before[k := done[k]];
      assert forall m :: m in x <==> m in after;
      assert forall m :: m in x ==> x[m] == after[m];
      assert x == after;
    }
    if k !in f0 || done[k] == f0[k] {
      assert forall m :: m in before <==> m in after;
      assert forall m :: m in before ==> before[m] == after[m];
      assert before == after;
    }
  }

  lemma MergedEnd(f0: map<Level, Field>, done: map<Level, Field>)
    requires f0.Keys == done.Keys
    ensures Merged(f0, done, |Levels|) == done
  {
    var m := Merged(f0, done, |Levels|);
    assert forall k :: k in m <==> k in done;
  }

  /** One step of binding: the select at position `i - 1`, if any, gets its first list. */
  lemma BindStep(f0: map<Level, Field>, src: Source, s: State, i: nat)
    requires 0 < i <= |Levels|
    ensures var target := FirstLists(f0, src, s); var k := Levels[i - 1];
            var before := Merged(f0, target, i - 1);
            Index(k) == i - 1
            && (k in f0 ==> before[k] == f0[k])
            && (k in f0 && f0[k].SelectBox? ==>
                  before[k := SelectBox(Rendered(src(k, "", s)), 0)] == Merged(f0, target, i))
            && (!(k in f0 && f0[k].SelectBox?) ==> before == Merged(f0, target, i))
  {
    MergedStep(f0, FirstLists(f0, src, s), i);
  }

  /** One step of a document click's walk over the listeners. */
  lemma DismissStep(f0: map<Level, Field>, clicked: Option<Level>, i: nat)
    requires 0 < i <= |Levels|
    ensures var target := Dismissed(f0, clicked); var k := Levels[i - 1];
            var before := Merged(f0, target, i - 1);
            Index(k) == i - 1
            && (k in f0 ==> before[k] == f0[k])
            && (k in before && before[k].SearchBox? && clicked != Some(k) ==>
                  before[k := before[k].(shown := false)] == Merged(f0, target, i))
            && (!(k in before && before[k].SearchBox? && clicked != Some(k)) ==> before == Merged(f0, target, i))
  {
    MergedStep(f0, Dismissed(f0, clicked), i);
  }

  /** The reset walk up to position `i`: the levels after `l` and before
      `i` cleared. */
  function ClearedUpTo(s: State, l: Level, i: nat): (r: State)
    requires Complete(s)
    ensures Complete(r)
  {
    map k | k in s :: if Index(l) < Index(k) < i then None else s[k]
  }

  lemma WalkStart(s0: State, o0: map<Slot, string>, l: Level)
    requires Complete(s0)
    ensures ClearedUpTo(s0, l, Index(l) + 1) == s0
    ensures OutputsUpTo(o0, l, Index(l) + 1) == o0
  {
    assert forall k :: k in s0 <==> k in ClearedUpTo(s0, l, Index(l) + 1);
  }

  lemma ClearStep(s0: State, l: Level, i: nat)
    requires Complete(s0) && Index(l) + 1 < i <= |Levels|
    ensures ClearedUpTo(s0, l, i - 1)[Levels[i - 1] := None] == ClearedUpTo(s0, l, i)
  {
    LevelAt(i - 1);
    var x, y := ClearedUpTo(s0, l, i - 1)[Levels[i - 1] := None], ClearedUpTo(s0, l, i);
    assert forall k :: k in x <==> k in y;
  }

  /** One step of the reset walk: state, fields and outputs all move from
      position `i - 1` to `i`. */
  lemma ResetStep(s0: State, f0: map<Level, Field>, o0: map<Slot, string>, l: Level, i: nat, down: ListSource)
    requires Complete(s0) && Index(l) + 1 < i <= |Levels|
    ensures var k := Levels[i - 1];
            var blanked := ResetFields(f0, l, s0, down);
            var state := ClearedUpTo(s0, l, i - 1)[k := None];
            var before := Merged(f0, blanked, i - 1);
            var outs := OutputsUpTo(o0, l, i - 1);
            state == ClearedUpTo(s0, l, i)
            && (if k in before then before[k := Blanked(before[k], down(k, state))] else before)
               == Merged(f0, blanked, i)
            && (if ResetSlot(k) in outs then outs[ResetSlot(k) := ""] else outs) == OutputsUpTo(o0, l, i)
  {
    LevelAt(i - 1);
    ClearStep(s0, l, i);
    MergedStep(f0, ResetFields(f0, l, s0, down), i);
    OutputsStep(o0, l, i);
  }

  /** Where the reset walk starts and where it ends. */
  lemma ResetBounds(s0: State, f0: map<Level, Field>, o0: map<Slot, string>, l: Level, down: ListSource)
    requires Complete(s0)
    ensures var blanked := ResetFields(f0, l, s0, down);
            ClearedUpTo(s0, l, Index(l) + 1) == s0
            && Merged(f0, blanked, Index(l) + 1) == f0
            && OutputsUpTo(o0, l, Index(l) + 1) == o0
            && ClearedUpTo(s0, l, |Levels|) == ClearAfter(s0, l)
            && Merged(f0, blanked, |Levels|) == blanked
            && OutputsUpTo(o0, l, |Levels|) == ResetOutputs(o0, l)
  {
    var blanked := ResetFields(f0, l, s0, down);
    WalkStart(s0, o0, l);
    MergedStart(f0, blanked, Index(l) + 1);
    ClearedEnd(s0, l);
    OutputsEnd(o0, l);
    MergedEnd(f0, blanked);
  }

  lemma ClearedEnd(s0: State, l: Level)
    requires Complete(s0)
    ensures ClearedUpTo(s0, l, |Levels|) == ClearAfter(s0, l)
  {
    var x, y := ClearedUpTo(s0, l, |Levels|), ClearAfter(s0, l);
    assert forall k :: k in x <==> k in y;
  }

  /** The binding loop once it has passed the levels before position `i`:
      each select met so far has its first list. */
  function FirstListsUpTo(fs: map<Level, Field>, src: Source, s: State, i: nat): map<Level, Field>
    requires i <= |Levels|
  {
    if i == 0 then fs
    else
      var f, k := FirstListsUpTo(fs, src, s, i - 1), Levels[i - 1];
      if k in f && f[k].SelectBox? then f[k := SelectBox(Rendered(src(k, "", s)), 0)] else f
  }

  lemma {:induction false} FirstListsSoFar(fs: map<Level, Field>, src: Source, s: State, i: nat)
    requires i <= |Levels|
    ensures FirstListsUpTo(fs, src, s, i) == Merged(fs, FirstLists(fs, src, s), i)
  {
    if i == 0 {
      MergedStart(fs, FirstLists(fs, src, s), 0);
    } else {
      FirstListsSoFar(fs, src, s, i - 1);
      BindStep(fs, src, s, i);
    }
  }

  /** The binding loop, run over every level, gives every select its first list. */
  lemma FirstListsWalk(fs: map<Level, Field>, src: Source, s: State)
    ensures FirstListsUpTo(fs, src, s, |Levels|) == FirstLists(fs, src, s)
  {
    FirstListsSoFar(fs, src, s, |Levels|);
    MergedEnd(fs, FirstLists(fs, src, s));
  }

  /** The document-click listeners once those of the levels before position
      `i` have run. */
  function DismissedUpTo(fs: map<Level, Field>, clicked: Option<Level>, i: nat): map<Level, Field>
    requires i <= |Levels|
  {
    if i == 0 then fs
    else
      var f, k := DismissedUpTo(fs, clicked, i - 1), Levels[i - 1];
      if k in f && f[k].SearchBox? && clicked != Some(k) then f[k := f[k].(shown := false)] else f
  }

  lemma {:induction false} DismissedSoFar(fs: map<Level, Field>, clicked: Option<Level>, i: nat)
    requires i <= |Levels|
    ensures DismissedUpTo(fs, clicked, i) == Merged(fs, Dismissed(fs, clicked), i)
  {
    if i == 0 {
      MergedStart(fs, Dismissed(fs, clicked), 0);
    } else {
      DismissedSoFar(fs, clicked, i - 1);
      DismissStep(fs, clicked, i);
    }
  }

  /** Running every listener in level order hides every panel but the clicked
      input's: the order of the listeners does not matter. */
  lemma DismissedWalk(fs: map<Level, Field>, clicked: Option<Level>)
    ensures DismissedUpTo(fs, clicked, |Levels|) == Dismissed(fs, clicked)
  {
    DismissedSoFar(fs, clicked, |Levels|);
    MergedEnd(fs, Dismissed(fs, clicked));
  }

  /** What the reset walk changes: the state, the fields and the outputs. */
  datatype Page = Page(state: State, fields: map<Level, Field>, outputs: map<Slot, string>)

  /** One iteration of the reset walk, at level `k`: the level cleared in the
      state, its field blanked (a select rebuilt from the list source read
      right after the level is cleared, another input emptied), and its
      output slot emptied when present. */
  function ClearLevel(p: Page, k: Level, down: ListSource): Page
  {
    var st := p.state[k := None];
    var slot := ResetSlot(k);
    Page(st,
         if k in p.fields then p.fields[k := Blanked(p.fields[k], down(k, st))] else p.fields,
         if slot in p.outputs then p.outputs[slot := ""] else p.outputs)
  }

  /** The reset walk after `l` once it has cleared the levels before position `i`. */
  function Walked(p: Page, l: Level, down: ListSource, i: nat): Page
    requires i <= |Levels|
  {
    if i <= Index(l) + 1 then p else ClearLevel(Walked(p, l, down, i - 1), Levels[i - 1], down)
  }

  /** One more iteration of the reset walk clears the level at position `i`. */
  lemma WalkedStep(p: Page, l: Level, down: ListSource, i: nat)
    requires Index(l) + 1 <= i < |Levels|
    ensures Walked(p, l, down, i + 1) == ClearLevel(Walked(p, l, down, i), Levels[i], down)
  {
  }

  /** The state part of the reset walk up to position `i`. */
  lemma {:induction false} WalkedState(p: Page, l: Level, down: ListSource, i: nat)
    requires Complete(p.state) && Index(l) + 1 <= i <= |Levels|
    ensures Walked(p, l, down, i).state == ClearedUpTo(p.state, l, i)
  {
    if i == Index(l) + 1 {
      WalkStart(p.state, p.outputs, l);
    } else {
      WalkedState(p, l, down, i - 1);
      ClearStep(p.state, l, i);
    }
  }

  /** The field part of the reset walk up to position `i`. */
  lemma {:induction false} WalkedFields(p: Page, l: Level, down: ListSource, i: nat)
    requires Complete(p.state) && Index(l) + 1 <= i <= |Levels|
    ensures Walked(p, l, down, i).fields == Merged(p.fields, ResetFields(p.fields, l, p.state, down), i)
  {
    var blanked := ResetFields(p.fields, l, p.state, down);
    if i == Index(l) + 1 {
      MergedStart(p.fields, blanked, i);
    } else {
      var k, prev := Levels[i - 1], Walked(p, l, down, i - 1);
      var before, state := Merged(p.fields, blanked, i - 1), ClearedUpTo(p.state, l, i - 1)[k := None];
      WalkedState(p, l, down, i - 1);
      WalkedFields(p, l, down, i - 1);
      ResetStep(p.state, p.fields, p.outputs, l, i, down);
      calc {
        Walked(p, l, down, i).fields;
        ClearLevel(prev, k, down).fields;
        if k in prev.fields then prev.fields[k := Blanked(prev.fields[k], down(k, prev.state[k := None]))] else prev.fields;
        { assert prev.fields == before && prev.state[k := None] == state; }
        if k in before then before[k := Blanked(before[k], down(k, state))] else before;
        Merged(p.fields, blanked, i);
      }
    }
  }

  /** The output part of the reset walk up to position `i`. */
  lemma {:induction false} WalkedOutputs(p: Page, l: Level, down: ListSource, i: nat)
    requires Complete(p.state) && Index(l) + 1 <= i <= |Levels|
    ensures Walked(p, l, down, i).outputs == OutputsUpTo(p.outputs, l, i)
  {
    if i == Index(l) + 1 {
      WalkStart(p.state, p.outputs, l);
    } else {
      var prev := Walked(p, l, down, i - 1);
      WalkedOutputs(p, l, down, i - 1);
      OutputsStep(p.outputs, l, i);
      assert Walked(p, l, down, i).outputs == ClearLevel(prev, Levels[i - 1], down).outputs;
    }
  }

  /** The whole reset walk after `l` clears every later level, blanks every
      later field as `ResetFields` states and empties every later slot. */
  lemma WalkResult(p: Page, l: Level, down: ListSource)
    requires Complete(p.state)
    ensures Walked(p, l, down, |Levels|)
         == Page(ClearAfter(p.state, l), ResetFields(p.fields, l, p.state, down), ResetOutputs(p.outputs, l))
  {
    WalkedState(p, l, down, |Levels|);
    WalkedFields(p, l, down, |Levels|);
    WalkedOutputs(p, l, down, |Levels|);
    ResetBounds(p.state, p.fields, p.outputs, l, down);
  }

  /** Binding rebuilds exactly the select fields. */
  lemma BoundFromUnbound(els: map<Level, Element>, src: Source, s: State)
    ensures FirstLists(map l | l in els :: Unbound(els[l]), src, s) == Bound(els, src, s)
  {
    var x, y := FirstLists(map l | l in els :: Unbound(els[l]), src, s), Bound(els, src, s);
    assert forall l :: l in x <==> l in y;
    forall l | l in x
      ensures x[l] == y[l]
    {
      match els[l]
      case SelectElement =>
      case InputElement(_) =>
    }
  }

  /** The record a select shows as selected: that of its selected option, none
      for the sentinel. */
  function ShownRecord(f: Field): Option<Record>
    requires f.SelectBox?
  {
    if f.selected < |f.choices| then f.choices[f.selected].raw else None
  }

  /** Every select shows the record the state holds for its level. */
  predicate Agrees(fs: map<Level, Field>, s: State)
    requires Complete(s)
  {
    forall k :: k in fs && fs[k].SelectBox? ==> ShownRecord(fs[k]) == s[k]
  }

  /** A short input issues no search: whatever the sources, the handler only
      hides the panel and keeps the rows. */
  lemma ShortInputHidesPanel(f: Field, l: Level, s: State, src1: Source, src2: Source)
    requires f.SearchBox? && |f.text| < MinQueryLength
    ensures InputHandled(f, l, s, src1) == InputHandled(f, l, s, src2) == f.(shown := false)
  {
  }

  /** A long enough input lists exactly what the bound source fetches for it;
      the panel is shown when that is not empty and otherwise left as it was. */
  lemma LongInputListsMatches(f: Field, l: Level, s: State, net: Transport, base: string)
    requires f.SearchBox? && |f.text| >= MinQueryLength
    ensures var r := InputHandled(f, l, s, Wired(net, base)); var data := Fetch(net, base, BoundQuery(l, f.text, s));
            r.SearchBox? && r.text == f.text && r.rows == data
            && r.shown == (f.shown || |data| > 0)
  {
  }

  /** The street search is scoped to the selected municipality's ISTAT code
      when it has one, and runs over all streets otherwise. */
  lemma StreetSearchScope(v: string, s: State)
    ensures var q := BoundQuery(Street, v, s); var istat := IstatOf(Selected(s, Municipality));
            (q.endpoint == "streets" <==> Truthy(istat))
            && Lookup(Sent(q), "istat_code") == (if Truthy(istat) then Some(Text(Encode(Equals(istat.value)))) else None)
  {
  }

  /** A later field after a reset is blanked with the records its source
      gives once the walk has reached it. */
  lemma ResetFieldAt(fs: map<Level, Field>, l: Level, s: State, down: ListSource, k: Level)
    requires Complete(s) && k in fs && Index(k) > Index(l)
    ensures ResetFields(fs, l, s, down)[k] == Blanked(fs[k], down(k, ClearedUpTo(s, l, Index(k) + 1)))
  {
  }

  /** The wired list source of a level is the records `DownstreamRecords` gives. */
  lemma DownstreamAt(net: Transport, base: string, k: Level, s: State)
    ensures WiredDownstream(net, base)(k, s) == DownstreamRecords(net, base, k, s)
  {
  }

  /** With the lists the client wires, the reset rebuilds every select after
      `l` exactly as if it had read the state once the whole walk was done:
      each list reads only the levels above its own, which the walk has
      already left as they will stay. */
  lemma {:induction false} ResetReadsFinalState(fs: map<Level, Field>, l: Level, s: State, net: Transport, base: string)
    requires Complete(s)
    ensures var r := ResetFields(fs, l, s, WiredDownstream(net, base));
            r.Keys == fs.Keys
            && (forall k :: k in fs && Index(k) <= Index(l) ==> r[k] == fs[k])
            && (forall k :: k in fs && Index(k) > Index(l) ==>
                  r[k] == Blanked(fs[k], DownstreamRecords(net, base, k, ClearAfter(s, l))))
  {
    var wd := WiredDownstream(net, base);
    var r := ResetFields(fs, l, s, wd);
    forall k | k in fs && Index(k) > Index(l)
      ensures r[k] == Blanked(fs[k], DownstreamRecords(net, base, k, ClearAfter(s, l)))
    {
      var during, after := ClearedUpTo(s, l, Index(k) + 1), ClearAfter(s, l);
      ResetFieldAt(fs, l, s, wd, k);
      forall m | Index(m) < Index(k)
        ensures Selected(during, m) == Selected(after, m)
      {
        assert during[m] == after[m];
      }
      SourcesReadUpstream(net, base, k, "", during, after);
      DownstreamAt(net, base, k, after);
    }
  }

  /** The wired list source of the province level reads the selected region. */
  lemma ProvinceListReads(net: Transport, base: string, s: State)
    ensures WiredDownstream(net, base)(Province, s) == Fetch(net, base, ProvincesQuery(CodeOf(Selected(s, Region))))
  {
  }

  /** The wired list source of the municipality level reads the selected province. */
  lemma MunicipalityListReads(net: Transport, base: string, s: State)
    ensures WiredDownstream(net, base)(Municipality, s)
         == Fetch(net, base, MunicipalitiesQuery("", None, CodeOf(Selected(s, Province))))
  {
  }

  /** A selection above the street level leaves the fields of its own and
      earlier levels alone, empties the text of every later input, and leaves
      every later select with its sentinel selected, as the state has none. */
  lemma {:induction false} SelectBlanksDownstream(fs: map<Level, Field>, l: Level, item: Record, s: State, down: ListSource)
    requires Complete(s) && l != Street
    ensures var r := FieldsAfterSelect(fs, l, item, s, down);
            var s' := AfterSelect(s, l, item);
            r.Keys == fs.Keys
            && (forall k :: k in fs && Index(k) <= Index(l) ==> r[k] == fs[k])
            && (forall k :: k in fs && Index(k) > Index(l) && fs[k].SearchBox? ==> r[k] == fs[k].(text := ""))
            && (forall k :: k in fs && Index(k) > Index(l) && fs[k].SelectBox? ==>
                  r[k].SelectBox? && r[k].selected == 0 && ShownRecord(r[k]) == None == s'[k])
  {
    var s1 := s[l := Some(item)];
    var r := FieldsAfterSelect(fs, l, item, s, down);
    assert r == ResetFields(fs, l, s1, down);
    var s' := AfterSelect(s, l, item);
    forall k | k in fs && Index(k) > Index(l) && fs[k].SelectBox?
      ensures r[k].SelectBox? && r[k].selected == 0 && ShownRecord(r[k]) == None == s'[k]
    {
      var data := down(k, ClearedUpTo(s1, l, Index(k) + 1));
      ResetFieldAt(fs, l, s1, down, k);
      assert Rendered(data)[0].raw == None;
    }
  }

  /** Selecting a region rebuilds the province list from that region's
      provinces and, the province being cleared first, the municipality list
      from the unscoped municipality search. */
  lemma RegionSelectionRefreshes(fs: map<Level, Field>, item: Record, s: State, net: Transport, base: string)
    requires Complete(s)
    ensures var r := FieldsAfterSelect(fs, Region, item, s, WiredDownstream(net, base));
            (Province in fs && fs[Province].SelectBox? ==>
               r[Province] == SelectBox(Rendered(Fetch(net, base, ProvincesQuery(item.code))), 0))
            && (Municipality in fs && fs[Municipality].SelectBox? ==>
               r[Municipality] == SelectBox(Rendered(Fetch(net, base, MunicipalitiesQuery("", None, None))), 0))
  {
    if Province in fs && fs[Province].SelectBox? {
      RegionRefreshesProvinces(fs, item, s, net, base);
    }
    if Municipality in fs && fs[Municipality].SelectBox? {
      RegionRefreshesMunicipalities(fs, item, s, net, base);
    }
  }

  /** The province part of a region selection. */
  lemma RegionRefreshesProvinces(fs: map<Level, Field>, item: Record, s: State, net: Transport, base: string)
    requires Complete(s) && Province in fs && fs[Province].SelectBox?
    ensures FieldsAfterSelect(fs, Region, item, s, WiredDownstream(net, base))[Province]
         == SelectBox(Rendered(Fetch(net, base, ProvincesQuery(item.code))), 0)
  {
    var s1, wd := s[Region := Some(item)], WiredDownstream(net, base);
    assert FieldsAfterSelect(fs, Region, item, s, wd) == ResetFields(fs, Region, s1, wd);
    var during := ClearedUpTo(s1, Region, Index(Province) + 1);
    ResetFieldAt(fs, Region, s1, wd, Province);
    assert Selected(during, Region) == Some(item);
    ProvinceListReads(net, base, during);
  }

  /** The municipality part of a region selection. */
  lemma RegionRefreshesMunicipalities(fs: map<Level, Field>, item: Record, s: State, net: Transport, base: string)
    requires Complete(s) && Municipality in fs && fs[Municipality].SelectBox?
    ensures FieldsAfterSelect(fs, Region, item, s, WiredDownstream(net, base))[Municipality]
         == SelectBox(Rendered(Fetch(net, base, MunicipalitiesQuery("", None, None))), 0)
  {
    var s1, wd := s[Region := Some(item)], WiredDownstream(net, base);
    assert FieldsAfterSelect(fs, Region, item, s, wd) == ResetFields(fs, Region, s1, wd);
    var during := ClearedUpTo(s1, Region, Index(Municipality) + 1);
    ResetFieldAt(fs, Region, s1, wd, Municipality);
    assert Selected(during, Province) == None;
    MunicipalityListReads(net, base, during);
  }

  /** Selecting a province rebuilds the municipality list from the
      municipalities of that province. */
  lemma ProvinceSelectionRefreshes(fs: map<Level, Field>, item: Record, s: State, net: Transport, base: string)
    requires Complete(s)
    ensures var r := FieldsAfterSelect(fs, Province, item, s, WiredDownstream(net, base));
            Municipality in fs && fs[Municipality].SelectBox? ==>
              r[Municipality] == SelectBox(Rendered(Fetch(net, base, MunicipalitiesQuery("", None, item.code))), 0)
  {
    var s1, wd := s[Province := Some(item)], WiredDownstream(net, base);
    var r := FieldsAfterSelect(fs, Province, item, s, wd);
    assert r == ResetFields(fs, Province, s1, wd);
    if Municipality in fs && fs[Municipality].SelectBox? {
      var during := ClearedUpTo(s1, Province, Index(Municipality) + 1);
      ResetFieldAt(fs, Province, s1, wd, Municipality);
      assert Selected(during, Province) == Some(item);
      MunicipalityListReads(net, base, during);
    }
  }

  /** A street selection changes no field but the municipality field, and
      that one only when no municipality is selected. */
  lemma StreetSelectionFields(fs: map<Level, Field>, item: Record, s: State, down: ListSource)
    requires Complete(s)
    ensures var r := FieldsAfterSelect(fs, Street, item, s, down);
            r.Keys == fs.Keys
            && (forall k :: k in fs && k != Municipality ==> r[k] == fs[k])
            && (Municipality in fs ==>
                  r[Municipality] == if s[Municipality].None? then Displayed(fs[Municipality], item.displayMunicipality)
                                     else fs[Municipality])
  {
  }

  /** Picking an option that carries a record at a level above the street
      keeps every select showing what the state holds. */
  lemma {:induction false} PickKeepsAgreement(fs: map<Level, Field>, s: State, l: Level, k: nat, down: ListSource)
    requires Complete(s) && Agrees(fs, s) && l != Street
    requires l in fs && fs[l].SelectBox? && k < |fs[l].choices| && fs[l].choices[k].raw.Some?
    ensures var item := fs[l].choices[k].raw.value;
            Complete(AfterSelect(s, l, item))
            && Agrees(FieldsAfterSelect(fs[l := fs[l].(selected := k)], l, item, s, down), AfterSelect(s, l, item))
  {
    var item := fs[l].choices[k].raw.value;
    var picked := fs[l := fs[l].(selected := k)];
    var s' := AfterSelect(s, l, item);
    var s1 := s[l := Some(item)];
    var r := FieldsAfterSelect(picked, l, item, s, down);
    assert r == ResetFields(picked, l, s1, down);
    forall m | m in r && r[m].SelectBox?
      ensures ShownRecord(r[m]) == s'[m]
    {
      if Index(m) > Index(l) {
        var data := down(m, ClearedUpTo(s1, l, Index(m) + 1));
        ResetFieldAt(picked, l, s1, down, m);
        assert Rendered(data)[0].raw == None;
      } else if m == l {
        assert r[m] == picked[l];
      } else {
        assert r[m] == fs[m];
      }
    }
  }

  /** At the street level a pick need not keep the selects agreeing: with no
      municipality selected, the street's municipality name is written into
      the municipality select, which then shows a record the state does not
      hold. */
  lemma StreetPickCanShowUnselectedMunicipality(fs: map<Level, Field>, s: State, k: nat, j: nat, down: ListSource)
    requires Complete(s) && Agrees(fs, s) && s[Municipality].None?
    requires Street in fs && fs[Street].SelectBox? && k < |fs[Street].choices| && fs[Street].choices[k].raw.Some?
    requires Municipality in fs && fs[Municipality].SelectBox?
    requires var cs := fs[Municipality].choices;
             var item := fs[Street].choices[k].raw.value;
             j < |cs| && cs[j].raw.Some? && item.displayMunicipality == Some(cs[j].text)
             && forall i :: 0 <= i < j ==> cs[i].text != cs[j].text && cs[i].value != cs[j].value
    ensures var item := fs[Street].choices[k].raw.value;
            var r := FieldsAfterSelect(fs[Street := fs[Street].(selected := k)], Street, item, s, down);
            Municipality in r && r[Municipality].SelectBox?
            && ShownRecord(r[Municipality]) == fs[Municipality].choices[j].raw
            && !Agrees(r, AfterSelect(s, Street, item))
  {
    var item := fs[Street].choices[k].raw.value;
    var cs := fs[Municipality].choices;
    assert FirstIndex(Texts(cs), cs[j].text) == Some(j);
    var r := FieldsAfterSelect(fs[Street := fs[Street].(selected := k)], Street, item, s, down);
    assert r[Municipality] == SelectBox(cs, j);
    assert AfterSelect(s, Street, item)[Municipality] == None;
  }

  /** Picking the sentinel leaves the state as it was, so a select whose
      level holds a record stops showing it: the client never clears a level
      on the sentinel. */
  lemma SentinelKeepsSelection(fs: map<Level, Field>, s: State, l: Level)
    requires Complete(s) && Agrees(fs, s)
    requires l in fs && fs[l].SelectBox? && |fs[l].choices| > 0 && fs[l].choices[0].raw.None? && s[l].Some?
    ensures !Agrees(fs[l := fs[l].(selected := 0)], s)
  {
    var picked := fs[l := fs[l].(selected := 0)];
    assert ShownRecord(picked[l]) == None;
  }

  /** The fields right after binding show nothing selected, as the new state holds. */
  lemma BoundAgrees(els: map<Level, Element>, src: Source)
    ensures Complete(Empty) && Agrees(Bound(els, src, Empty), Empty)
  {
    EmptyComplete();
    var fs := Bound(els, src, Empty);
    forall k | k in fs && fs[k].SelectBox?
      ensures ShownRecord(fs[k]) == Empty[k]
    {
      assert Rendered(src(k, "", Empty))[0].raw == None;
    }
  }

  /** Selecting a municipality and then anything above it clears the
      municipality from the state but leaves its ISTAT code in the
      "istat_code" slot, since the reset empties "municipality_code". */
  lemma StaleIstatCode(os: map<Slot, string>, s: State, m: Record, l: Level, item: Record)
    requires Complete(s) && IstatCode in os && Index(l) < Index(Municipality)
    ensures AfterSelect(AfterSelect(s, Municipality, m), l, item)[Municipality] == None
    ensures OutputsAfterSelect(OutputsAfterSelect(os, Municipality, m), l, item)[IstatCode] == StringValue(m.istatCode)
  {
  }

  /** A selection's own output slot, when present, holds the record's
      identifier after the selection: the reset that follows never blanks it. */
  lemma SelectKeepsIdentifier(os: map<Slot, string>, l: Level, item: Record)
    requires SelectSlot(l) in os
    ensures SelectSlot(l) in OutputsAfterSelect(os, l, item)
    ensures OutputsAfterSelect(os, l, item)[SelectSlot(l)] == StringValue(Identifier(l, item))
  {
  }

  /** One fresh debouncer, with the input delay, per text input of the configuration. */
  method NewTimers(els: map<Level, Element>) returns (ts: map<Level, Debouncer<()>>)
    ensures forall l :: l in ts <==> l in els && els[l].InputElement?
    ensures forall l :: l in ts ==> fresh(ts[l]) && ts[l].delay == InputDelay && ts[l].pending == None
    ensures forall l, m :: l in ts && m in ts && l != m ==> ts[l] != ts[m]
  {
    ts := map[];
    var i := 0;
    while i < |Levels|
      invariant 0 <= i <= |Levels|
      invariant forall l :: l in ts <==> Index(l) < i && l in els && els[l].InputElement?
      invariant forall l :: l in ts ==> fresh(ts[l]) && ts[l].delay == InputDelay && ts[l].pending == None
      invariant forall l, m :: l in ts && m in ts && l != m ==> ts[l] != ts[m]
    {
      var l := Levels[i];
      LevelAt(i);
      if l in els && els[l].InputElement? {
        var d := new Debouncer(InputDelay);
        ts := ts[l := d];
      }
      i := i + 1;
    }
  }

  class Client {
    const baseUrl: string
    var state: State

    ghost predicate Valid()
      reads this
    {
      Complete(state)
    }

    /** A client on the given base URL, or the public service when the option is falsy. */
    constructor (baseUrlOption: Option<string>)
      ensures baseUrl == if Truthy(baseUrlOption) then baseUrlOption.value else DefaultBaseUrl
      ensures state == Empty && Valid()
    {
      baseUrl := if Truthy(baseUrlOption) then baseUrlOption.value else DefaultBaseUrl;
      state := Empty;
      EmptyComplete();
    }


    /** `attachAutocomplete`: fails outside a browser; otherwise binds the
        configured fields to the sources over the transport, each select
        listing what its source returns. */
    method Attach(config: Config, hasDom: bool, net: Transport) returns (r: Result<Form>)
      requires Valid()
      ensures !hasDom ==> r == Failure(NoDom)
      ensures hasDom ==> r.Success? && fresh(r.value) && r.value.client == this && r.value.Valid()
                         && r.value.source == Wired(net, baseUrl) && r.value.down == WiredDownstream(net, baseUrl)
                         && r.value.fields == Bound(config.fields, Wired(net, baseUrl), state)
                         && r.value.outputs == config.outputs
                         && (forall l :: l in r.value.timers ==> fresh(r.value.timers[l]) && r.value.timers[l].pending == None)
    {
      if !hasDom {
        return Failure(NoDom);
      }
      var form := new Form(this, config, Wired(net, baseUrl), WiredDownstream(net, baseUrl));
      return Success(form);
    }
  }

  /** The page as one `attachAutocomplete` call leaves it: the bound fields,
      the output slots, one debouncer per text input, and the sources the
      fields read their records from. */
  class Form {
    const client: Client
    const source: Source
    const down: ListSource
    const timers: map<Level, Debouncer<()>>
    var fields: map<Level, Field>
    var outputs: map<Slot, string>

    ghost predicate Valid()
      reads this, client
    {
      && Complete(client.state)
      && (forall l :: l in timers <==> l in fields && fields[l].SearchBox?)
      && (forall l :: l in timers ==> timers[l].delay == InputDelay)
      && (forall l, m :: l in timers && m in timers && l != m ==> timers[l] != timers[m])
    }

    /** Binding the configured fields: a debouncer per text input, then each
        select's list fetched in level order. */
    constructor (client: Client, config: Config, source: Source, down: ListSource)
      requires client.Valid()
      ensures this.client == client && this.source == source && this.down == down && Valid()
      ensures fields == Bound(config.fields, source, client.state)
      ensures outputs == config.outputs
      ensures forall l :: l in timers ==> fresh(timers[l]) && timers[l].pending == None
    {
      var ts := NewTimers(config.fields);
      this.client := client;
      this.source := source;
      this.down := down;
      timers := ts;
      fields := map l | l in config.fields :: Unbound(config.fields[l]);
      outputs := config.outputs;
      new;
      BindSelects();
      BoundFromUnbound(config.fields, source, client.state);
    }

    /** Every select's first list, fetched in level order with the empty
        input; the other fields are left as they are. */
    method BindSelects()
      requires Valid()
      modifies this
      ensures Valid() && outputs == old(outputs)
      ensures fields == FirstLists(old(fields), source, client.state)
    {
      ghost var f0 := fields;
      var i := 0;
      while i < |Levels|
        invariant 0 <= i <= |Levels|
        invariant Valid() && outputs == old(outputs)
        invariant fields == FirstListsUpTo(f0, source, client.state, i)
      {
        var l := Levels[i];
        if l in fields && fields[l].SelectBox? {
          RefreshSelect(l, source(l, "", client.state));
        }
        i := i + 1;
      }
      FirstListsWalk(f0, source, client.state);
    }

    /** `_refreshSelect` once its records are known: the list rebuilt, the
        sentinel selected. */
    method RefreshSelect(l: Level, data: seq<Record>)
      requires Valid() && l in fields && fields[l].SelectBox?
      modifies this
      ensures Valid() && outputs == old(outputs)
      ensures fields == old(fields)[l := SelectBox(Rendered(data), 0)]
    {
      var cs := RenderChoices(data);
      fields := fields[l := SelectBox(cs, 0)];
    }

    /** `_setElementValue` on the field of level `l`. */
    method SetElementValue(l: Level, val: Option<string>)
      requires Valid() && l in fields
      modifies this
      ensures Valid() && outputs == old(outputs)
      ensures fields == old(fields)[l := Displayed(old(fields)[l], val)]
    {
      var f := fields[l];
      if f.SelectBox? {
        if val.Some? {
          var k := FindByText(f.choices, val.value);
          if k.Some? {
            var v := f.choices[k.value].value;
            fields := fields[l := f.(selected := SelectByValue(f.choices, v, k.value))];
          }
        }
      } else {
        fields := fields[l := f.(text := StringValue(val))];
      }
    }

    /** `_resetDownstream`: walks the levels after `l` in order, clearing
        each one in the state, blanking its field and emptying its output slot. */
    method ResetDownstream(l: Level)
      requires Valid()
      modifies this, client
      ensures Valid()
      ensures client.state == ClearAfter(old(client.state), l)
      ensures fields == ResetFields(old(fields), l, old(client.state), down)
      ensures outputs == ResetOutputs(old(outputs), l)
    {
      ghost var p0 := Page(client.state, fields, outputs);
      var i := Index(l) + 1;
      while i < |Levels|
        invariant Index(l) + 1 <= i <= |Levels|
        invariant Valid()
        invariant Page(client.state, fields, outputs) == Walked(p0, l, down, i)
      {
        WalkedStep(p0, l, down, i);
        ClearAt(Levels[i]);
        i := i + 1;
      }
      WalkResult(p0, l, down);
    }

    /** One iteration of `_resetDownstream`, at level `k`: the level cleared
        in the state, its field blanked (a select rebuilt from the list
        source read after the level is cleared, another input emptied) and
        its output slot emptied. */
    method ClearAt(k: Level)
      requires Valid()
      modifies this, client
      ensures Valid()
      ensures Page(client.state, fields, outputs) == ClearLevel(old(Page(client.state, fields, outputs)), k, down)
    {
      client.state := client.state[k := None];
      if k in fields {
        if fields[k].SelectBox? {
          RefreshSelect(k, down(k, client.state));
        } else {
          fields := fields[k := fields[k].(text := "")];
        }
      }
      var slot := ResetSlot(k);
      if slot in outputs {
        outputs := outputs[slot := ""];
      }
    }

    /** The selection callback of level `l`: stores the record, writes its
        identifier to the level's output slot, then resets downstream or, for
        a street chosen with no municipality selected, shows the street's
        municipality. */
    method OnSelect(l: Level, item: Record)
      requires Valid()
      modifies this, client
      ensures Valid()
      ensures client.state == AfterSelect(old(client.state), l, item)
      ensures outputs == OutputsAfterSelect(old(outputs), l, item)
      ensures fields == FieldsAfterSelect(old(fields), l, item, old(client.state), down)
    {
      client.state := client.state[l := Some(item)];
      var slot := SelectSlot(l);
      if slot in outputs {
        outputs := outputs[slot := StringValue(Identifier(l, item))];
      }
      if l != Street {
        ResetDownstream(l);
      } else if client.state[Municipality].None? && Municipality in fields {
        SetElementValue(Municipality, item.displayMunicipality);
      }
    }

    /** A `change` of the select of level `l` to option `k`: the option is
        selected, and its record, when it carries one, goes to the selection
        callback; the sentinel changes nothing else. The method stands for a
        `change` event the browser sends; a browser sends none when the option
        picked is the one already selected, a call the method does not
        exclude. */
    method ChangeSelect(l: Level, k: nat)
      requires Valid() && l in fields && fields[l].SelectBox? && k < |fields[l].choices|
      modifies this, client
      ensures Valid()
      ensures old(fields)[l].choices[k].raw.None? ==>
                fields == old(fields)[l := old(fields)[l].(selected := k)]
                && client.state == old(client.state) && outputs == old(outputs)
      ensures old(fields)[l].choices[k].raw.Some? ==>
                var item := old(fields)[l].choices[k].raw.value;
                client.state == AfterSelect(old(client.state), l, item)
                && outputs == OutputsAfterSelect(old(outputs), l, item)
                && fields == FieldsAfterSelect(old(fields)[l := old(fields)[l].(selected := k)], l, item, old(client.state), down)
    {
      fields := fields[l := fields[l].(selected := k)];
      var raw := fields[l].choices[k].raw;
      if raw.Some? {
        OnSelect(l, raw.value);
      }
    }

    /** An `input` event on the text input of level `l` at instant `now`: the
        text changes and the search is rescheduled for `now` plus the delay. */
    method Type(l: Level, text: string, now: int)
      requires Valid() && l in timers
      modifies this, timers[l]
      ensures Valid() && outputs == old(outputs)
      ensures fields == old(fields)[l := old(fields)[l].(text := text)]
      ensures timers[l].pending == Some(Scheduled(now + InputDelay, ()))
      ensures forall m :: m in timers && m != l ==> timers[m].pending == old(timers[m].pending)
    {
      fields := fields[l := fields[l].(text := text)];
      timers[l].Call(now, ());
    }

    /** Time reaches `now` for the input of level `l`: when its search is due
        it runs with the text the input holds then. */
    method Elapse(l: Level, now: int)
      requires Valid() && l in timers
      modifies this, timers[l]
      ensures Valid() && outputs == old(outputs)
      ensures var p := old(timers[l].pending);
              p.Some? && p.value.due <= now ==>
                timers[l].pending == None
                && fields == old(fields)[l := InputHandled(old(fields)[l], l, client.state, source)]
      ensures var p := old(timers[l].pending);
              !(p.Some? && p.value.due <= now) ==>
                timers[l].pending == p && fields == old(fields)
      ensures forall m :: m in timers && m != l ==> timers[m].pending == old(timers[m].pending)
    {
      var ran := timers[l].Elapse(now);
      if ran.Some? {
        fields := fields[l := InputHandled(fields[l], l, client.state, source)];
      }
    }

    /** A click on suggestion `i` of the input of level `l`: the input takes
        the suggestion's text, its panel hides, the record goes to the
        selection callback, and the click then reaches the document, which
        hides every panel. */
    method ClickSuggestion(l: Level, i: nat)
      requires Valid() && l in fields && fields[l].SearchBox? && fields[l].shown && i < |fields[l].rows|
      modifies this, client
      ensures Valid()
      ensures var item := old(fields)[l].rows[i];
              client.state == AfterSelect(old(client.state), l, item)
              && outputs == OutputsAfterSelect(old(outputs), l, item)
              && fields == Dismissed(FieldsAfterSelect(old(fields)[l := old(fields)[l].(text := SuggestionText(item), shown := false)],
                                                       l, item, old(client.state), down), None)
    {
      var item := fields[l].rows[i];
      fields := fields[l := fields[l].(text := SuggestionText(item), shown := false)];
      OnSelect(l, item);
      ClickDocument(None);
    }

    /** A click anywhere in the document, on the input of level `clicked` or on
        no input: each input's listener, in binding order, hides its panel
        unless the click was on that input. */
    method ClickDocument(clicked: Option<Level>)
      requires Valid()
      modifies this
      ensures Valid() && outputs == old(outputs)
      ensures fields == Dismissed(old(fields), clicked)
    {
      ghost var f0 := fields;
      var i := 0;
      while i < |Levels|
        invariant 0 <= i <= |Levels|
        invariant Valid() && outputs == old(outputs)
        invariant fields == DismissedUpTo(f0, clicked, i)
      {
        var k := Levels[i];
        if k in fields && fields[k].SearchBox? && clicked != Some(k) {
          fields := fields[k := fields[k].(shown := false)];
        }
        i := i + 1;
      }
      DismissedWalk(f0, clicked);
    }
  }
}
