/**
 * The about page's logic: the expandable experience items, the
 * signature's guarded stroke update, and the animated skill bars.
 */
module About {
  import opened Wrappers
  import Signature

  /** JavaScript truthiness of `expandedItems[i]`: a missing entry reads as collapsed. */
  predicate IsExpanded(items: map<int, bool>, i: int): (r: bool)
    ensures r <==> Get(items, i).GetOr(false)
  {
    i in items && items[i]
  }

  /** `{ ...prev, [index]: !prev[index] }`. */
  function Toggled(items: map<int, bool>, index: int): (r: map<int, bool>)
    ensures index in r && r[index] == !IsExpanded(items, index)
    ensures forall j :: j != index ==> (j in r <==> j in items)
    ensures forall j :: j != index && j in items ==> r[j] == items[j]
  {
    items[index := !IsExpanded(items, index)]
  }

  /** Toggling twice restores the item's state, a missing entry now stored as `false`; other items never move. */
  lemma ToggleTwice(items: map<int, bool>, index: int)
    ensures Toggled(Toggled(items, index), index) == items[index := IsExpanded(items, index)]
    ensures forall j :: IsExpanded(Toggled(Toggled(items, index), index), j) == IsExpanded(items, j)
  {
  }

  /** Whether the item's details are rendered (and its arrow turned). */
  predicate ContentShown(items: map<int, bool>, i: int) {
    IsExpanded(items, i)
  }

  class ExpandState {
    var expandedItems: map<int, bool>

    /** Every item starts collapsed. */
    constructor()
      ensures expandedItems == map[]
      ensures forall i :: !ContentShown(expandedItems, i)
    {
      expandedItems := map[];
    }

    /** `toggleExpand(index)`. */
    method ToggleExpand(index: int)
      modifies this
      ensures expandedItems == Toggled(old(expandedItems), index)
      ensures ContentShown(expandedItems, index) <==> !ContentShown(old(expandedItems), index)
    {
      expandedItems := expandedItems[index := !IsExpanded(expandedItems, index)];
    }
  }

  /**
   * The guarded `onUpdate`: with no path element nothing is written;
   * otherwise the path takes the banded width. `path` is the element's
   * current stroke width.
   */
  function StrokeUpdate(path: Option<string>, progress: real): (r: Option<string>)
    ensures path.None? ==> r.None?
    ensures path.Some? ==> r == Some(Signature.StrokeWidth(progress))
  {
    match path
    case None => None
    case Some(_) => Some(Signature.StrokeWidth(progress))
  }

  /** A skill bar: its `data-width` attribute and its current style width. */
  datatype Bar = Bar(dataWidth: Option<string>, width: string)

  /** Initialisation: every present bar is set to `0%`. */
  function ResetBar(bar: Option<Bar>): (r: Option<Bar>)
    ensures r.Some? <==> bar.Some?
    ensures r.Some? ==> r.value.width == "0%" && r.value.dataWidth == bar.value.dataWidth
  {
    match bar
    case Some(b) => Some(b.(width := "0%"))
    case None => None
  }

  /** The delayed reveal: a present bar with a non-empty `data-width` takes that width in percent. */
  function RevealBar(bar: Option<Bar>): (r: Option<Bar>)
    ensures r.Some? <==> bar.Some?
    ensures r.Some? ==> r.value.dataWidth == bar.value.dataWidth
    ensures r.Some? && bar.value.dataWidth.Some? && bar.value.dataWidth.value != "" ==>
      r.value.width == bar.value.dataWidth.value + "%"
    ensures r.Some? && (bar.value.dataWidth.None? || bar.value.dataWidth.value == "") ==> r == bar
  {
    match bar
    case Some(b) =>
      if b.dataWidth.Some? && b.dataWidth.value != "" then Some(b.(width := b.dataWidth.value + "%"))
      else bar
    case None => None
  }

  /** `skillBarRefs.current`: the bar elements, `None` where a ref is still null. */
  class SkillBars {
    var bars: seq<Option<Bar>>

    /** `forEach(bar => { if (bar) bar.style.width = '0%' })`. */
    method Reset()
      modifies this
      ensures |bars| == |old(bars)|
      ensures forall i :: 0 <= i < |bars| ==> bars[i] == ResetBar(old(bars)[i])
    {
      var k := 0;
      while k < |bars|
        invariant 0 <= k <= |bars| == |old(bars)|
        invariant forall i :: 0 <= i < k ==> bars[i] == ResetBar(old(bars)[i])
        invariant forall i :: k <= i < |bars| ==> bars[i] == old(bars)[i]
      {
        bars := bars[k := ResetBar(bars[k])];
        k := k + 1;
      }
    }

    /** The observer's timer callback over every bar. */
    method Reveal()
      modifies this
      ensures |bars| == |old(bars)|
      ensures forall i :: 0 <= i < |bars| ==> bars[i] == RevealBar(old(bars)[i])
    {
      var k := 0;
      while k < |bars|
        invariant 0 <= k <= |bars| == |old(bars)|
        invariant forall i :: 0 <= i < k ==> bars[i] == RevealBar(old(bars)[i])
        invariant forall i :: k <= i < |bars| ==> bars[i] == old(bars)[i]
      {
        bars := bars[k := RevealBar(bars[k])];
        k := k + 1;
      }
    }
  }

  /** A bar reset and then revealed ends at its `data-width` in percent, or stays at `0%` without one. */
  lemma ResetThenReveal(bar: Bar)
    ensures var r := RevealBar(ResetBar(Some(bar)));
      r.Some? && r.value.width == if bar.dataWidth.Some? && bar.dataWidth.value != "" then bar.dataWidth.value + "%" else "0%"
  {
  }

  /** One row of the skills card: the skill, the percentage printed beside it, and its bar's `data-width`. */
  datatype SkillRow = SkillRow(skill: string, printed: string, dataWidth: string)

  /** The width a row's bar ends at once it has been reset and revealed. */
  function FinalWidth(row: SkillRow): (w: string)
    ensures w == if row.dataWidth != "" then row.dataWidth + "%" else "0%"
  {
    ResetThenReveal(Bar(Some(row.dataWidth), "0%"));
    RevealBar(ResetBar(Some(Bar(Some(row.dataWidth), "0%")))).value.width
  }

  /** Whether a row's bar ends at the percentage printed beside it. */
  predicate BarMatchesLabel(row: SkillRow) {
    FinalWidth(row) == row.printed
  }

  /** The rows as the page writes them. */
  const PageRowsAsWritten: seq<SkillRow> := [
    SkillRow("React", "90%", "90"),
    SkillRow("JavaScript", "88%", "85"),
    SkillRow("CSS/SCSS", "95%", "88"),
    SkillRow("TypeScript", "80%", "80"),
    SkillRow("Tailwind", "95%", "75")]

  /** As written, the JavaScript, CSS/SCSS and Tailwind bars stop short of the percentages printed beside them. */
  lemma AsWrittenBarsDisagree()
    ensures FinalWidth(PageRowsAsWritten[1]) == "85%" && PageRowsAsWritten[1].printed == "88%"
    ensures FinalWidth(PageRowsAsWritten[2]) == "88%" && PageRowsAsWritten[2].printed == "95%"
    ensures FinalWidth(PageRowsAsWritten[4]) == "75%" && PageRowsAsWritten[4].printed == "95%"
    ensures !BarMatchesLabel(PageRowsAsWritten[1]) && !BarMatchesLabel(PageRowsAsWritten[2])
    ensures !BarMatchesLabel(PageRowsAsWritten[4])
    ensures BarMatchesLabel(PageRowsAsWritten[0]) && BarMatchesLabel(PageRowsAsWritten[3])
  {
  }

  /** A row whose bar is driven by the same percentage it prints. */
  function Row(skill: string, percent: string): (r: SkillRow)
    requires percent != ""
    ensures r.skill == skill && r.printed == percent + "%"
    ensures BarMatchesLabel(r)
  {
    SkillRow(skill, percent + "%", percent)
  }

  /** The rows as intended: the printed percentages, each bar driven by its own. */
  const PageRows: seq<SkillRow> := [
    Row("React", "90"), Row("JavaScript", "88"), Row("CSS/SCSS", "95"), Row("TypeScript", "80"), Row("Tailwind", "95")]

  /** Every intended row keeps the printed label and its bar ends at that label. */
  lemma PageBarsMatchLabels(i: nat)
    requires i < |PageRows|
    ensures PageRows[i].skill == PageRowsAsWritten[i].skill && PageRows[i].printed == PageRowsAsWritten[i].printed
    ensures BarMatchesLabel(PageRows[i])
  {
  }
}
