/** The two kinds of bound field as the client leaves them: a select whose
    option list it rebuilds, and a text input with a suggestion panel. */
module Fields {
  import opened Records

  /** Inputs shorter than this issue no search. */
  const MinQueryLength := 2

  /** One option of a select: its value, its text, and the record it carries
      (`dataset.raw`); the first option carries none. */
  datatype Choice = Choice(value: string, text: string, raw: Option<Record>)

  /** The option a select shows while its list is being fetched. */
  const Loading := Choice("", "...", None)

  /** The option every rebuilt list starts with. */
  const Sentinel := Choice("", "-- Seleziona --", None)

  datatype Field =
    | SelectBox(choices: seq<Choice>, selected: nat)
      /** `shown`: the panel has no inline `display:none`; `rows`: the
          suggestions it holds, each clickable. */
    | SearchBox(text: string, shown: bool, rows: seq<Record>)

  /** The option for one record: value `code || istat_code || id`, text
      `name || display_name`, and the record itself. */
  function ChoiceFor(item: Record): (c: Choice)
    ensures c.raw == Some(item)
    ensures Truthy(item.code) ==> c.value == item.code.value
    ensures !Truthy(item.code) && Truthy(item.istatCode) ==> c.value == item.istatCode.value
    ensures !Truthy(item.code) && !Truthy(item.istatCode) ==> c.value == StringValue(item.id)
    ensures Truthy(item.name) ==> c.text == item.name.value
    ensures !Truthy(item.name) ==> c.text == TextContent(item.displayName)
  {
    Choice(StringValue(Or(Or(item.code, item.istatCode), item.id)),
           TextContent(Or(item.name, item.displayName)),
           Some(item))
  }

  /** The option list `_refreshSelect` builds from the records: the sentinel,
      then one option per record in order. Only the sentinel carries no
      record, and option `i + 1` carries record `i`. */
  function Rendered(data: seq<Record>): (cs: seq<Choice>)
    ensures |cs| == |data| + 1
    ensures cs[0].raw == None
    ensures forall i :: 0 <= i < |data| ==> cs[i + 1].raw == Some(data[i])
    ensures cs[0] == Sentinel && forall i :: 0 <= i < |data| ==> cs[i + 1] == ChoiceFor(data[i])
  {
    [Sentinel] + seq(|data|, i requires 0 <= i < |data| => ChoiceFor(data[i]))
  }

  /** The loop of `_refreshSelect`: starts from the sentinel alone and appends
      one option per record. */
  method RenderChoices(data: seq<Record>) returns (cs: seq<Choice>)
    ensures cs == Rendered(data)
  {
    cs := [Sentinel];
    var i := 0;
    while i < |data|
      invariant 0 <= i <= |data|
      invariant cs == Rendered(data[..i])
    {
      assert data[..i + 1] == data[..i] + [data[i]];
      cs := cs + [ChoiceFor(data[i])];
      i := i + 1;
    }
    assert data[..i] == data;
  }

  /** The first position of `x` in `s`, if any. */
  function FirstIndex<T(==)>(s: seq<T>, x: T): (r: Option<nat>)
    ensures r.Some? ==> r.value < |s| && s[r.value] == x && forall j :: 0 <= j < r.value ==> s[j] != x
    ensures r.None? ==> forall j :: 0 <= j < |s| ==> s[j] != x
  {
    if s == [] then None
    else if s[0] == x then Some(0)
    else match FirstIndex(s[1..], x)
      case None => None
      case Some(k) => Some(k + 1)
  }

  function Texts(cs: seq<Choice>): (ts: seq<string>)
    ensures |ts| == |cs| && forall i :: 0 <= i < |cs| ==> ts[i] == cs[i].text
  {
    seq(|cs|, i requires 0 <= i < |cs| => cs[i].text)
  }

  function Values(cs: seq<Choice>): (vs: seq<string>)
    ensures |vs| == |cs| && forall i :: 0 <= i < |cs| ==> vs[i] == cs[i].value
  {
    seq(|cs|, i requires 0 <= i < |cs| => cs[i].value)
  }

  /** The loop of `_setElementValue` over a select's options: the first option
      whose text is `val`, stopping there. */
  method FindByText(cs: seq<Choice>, val: string) returns (k: Option<nat>)
    ensures k == FirstIndex(Texts(cs), val)
  {
    k := None;
    var i := 0;
    while i < |cs|
      invariant 0 <= i <= |cs|
      invariant forall j :: 0 <= j < i ==> cs[j].text != val
    {
      if cs[i].text == val {
        k := Some(i);
        break;
      }
      i := i + 1;
    }
  }

  /** Assigning `v` to a select's `value` selects the first option with that
      value; `k` is an option known to have it. */
  function SelectByValue(cs: seq<Choice>, v: string, k: nat): (j: nat)
    requires k < |cs| && cs[k].value == v
    ensures j <= k && cs[j].value == v
    ensures forall i :: 0 <= i < j ==> cs[i].value != v
  {
    match FirstIndex(Values(cs), v)
    case Some(j) => j
    case None => k
  }

  /** `_setElementValue`: a select shows the first option whose text equals
      the value, or stays as it was when there is none (an absent value equals
      no text); another input takes the value as its text. */
  function Displayed(f: Field, val: Option<string>): (r: Field)
    ensures f.SearchBox? ==> r == f.(text := StringValue(val))
    ensures f.SelectBox? ==> r.SelectBox? && r.choices == f.choices
    ensures f.SelectBox? && (val.None? || FirstIndex(Texts(f.choices), val.value).None?) ==> r == f
    ensures f.SelectBox? && val.Some? && FirstIndex(Texts(f.choices), val.value).Some? ==>
              var k := FirstIndex(Texts(f.choices), val.value).value;
              r.selected <= k && f.choices[r.selected].value == f.choices[k].value
              && forall i :: 0 <= i < r.selected ==> f.choices[i].value != f.choices[k].value
  {
    match f
    case SelectBox(cs, _) =>
      if val.None? then f
      else (
        match FirstIndex(Texts(cs), val.value)
        case None => f
        case Some(k) => SelectBox(cs, SelectByValue(cs, cs[k].value, k)))
    case SearchBox(_, shown, rows) => SearchBox(StringValue(val), shown, rows)
  }

  /** The label of a suggestion: `name || display_name`. */
  function Label(item: Record): Option<string>
  {
    Or(item.name, item.displayName)
  }

  /** The text a clicked suggestion puts in its input: the street type and a
      space when there is one, then the label. */
  function SuggestionText(item: Record): string
  {
    (if Truthy(item.displayStreetType) then item.displayStreetType.value + " " else "") + StringValue(Label(item))
  }

  /** A clicked suggestion's text begins with the street type when there is
      one and always ends with the label. */
  lemma SuggestionTextParts(item: Record)
    ensures var t := SuggestionText(item); var tail := StringValue(Label(item));
            |t| >= |tail| && t[|t| - |tail|..] == tail
    ensures Truthy(item.displayStreetType) ==>
              var dst := item.displayStreetType.value;
              SuggestionText(item)[..|dst| + 1] == dst + " "
    ensures !Truthy(item.displayStreetType) ==> SuggestionText(item) == StringValue(Label(item))
  {
    if Truthy(item.displayStreetType) {
      var dst := item.displayStreetType.value;
      assert (dst + " " + StringValue(Label(item)))[..|dst| + 1] == dst + " ";
    }
  }

  /** The debounced input handler once its records are known: a short input
      hides the panel; otherwise the rows are replaced by the records, and the
      panel is shown when there is at least one (it is left as it was
      otherwise). */
  function Searched(f: Field, data: seq<Record>): (r: Field)
    requires f.SearchBox?
  {
    if |f.text| < MinQueryLength then f.(shown := false)
    else f.(rows := data, shown := f.shown || |data| > 0)
  }

  /** A field after a reset: a select gets the list rebuilt from `data` with
      the sentinel selected; another input gets the empty text. */
  function Blanked(f: Field, data: seq<Record>): (r: Field)
  {
    match f
    case SelectBox(_, _) => SelectBox(Rendered(data), 0)
    case SearchBox(_, shown, rows) => SearchBox("", shown, rows)
  }
}
