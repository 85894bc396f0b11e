/** The text annotations the chart component keeps per chart, and the list
    transformations its handlers apply to them (src/stock/chart.js). */
module Annotations {
  import opened Wrappers
  import opened Lists

  /** A data-space position: the bar ordinal given by the time scale's
      `xAccessor` and the price given by the chart's `yScale.invert`. */
  datatype Position = Position(x: int, price: real)

  /** One entry of a `textList_<chartId>`. The drawing style the entry
      carries (font, fill, stroke) is opaque to the component and left out.
      `position` is `None` for an entry built without one, and `selected`
      is false where the JavaScript object has no `selected` field. */
  datatype Annotation = Annotation(position: Option<Position>, text: string, selected: bool)

  /** The text object `handleSelection` builds for a click: the default
      text style, whose text is empty, at the clicked position. */
  function NewText(position: Position): (a: Annotation)
    ensures a.position == Some(position) && a.text == "" && !a.selected
  {
    Annotation(Some(position), "", false)
  }

  predicate Unselected(a: Annotation) {
    !a.selected
  }

  /** `list.filter(d => !d.selected)`, the DEL key's effect on one list. */
  function RemoveSelected(list: seq<Annotation>): (r: seq<Annotation>)
    ensures |r| <= |list|
    ensures forall a :: a in r <==> a in list && !a.selected
  {
    Filter(list, Unselected)
  }

  /** DEL removes every occurrence of a selected entry and keeps every
      occurrence of an unselected one. */
  lemma RemoveSelectedExactly(list: seq<Annotation>, a: Annotation)
    ensures multiset(RemoveSelected(list))[a] == if a.selected then 0 else multiset(list)[a]
  {
    FilterCount(list, Unselected, a);
  }

  /** DEL keeps the relative order of the entries it keeps. */
  lemma RemoveSelectedKeepsOrder(front: seq<Annotation>, back: seq<Annotation>)
    ensures RemoveSelected(front + back) == RemoveSelected(front) + RemoveSelected(back)
  {
    FilterConcat(front, back, Unselected);
  }

  /** DEL changes a list exactly when some entry of it is selected. */
  lemma RemoveSelectedUnchanged(list: seq<Annotation>)
    ensures RemoveSelected(list) == list <==> forall i :: 0 <= i < |list| ==> !list[i].selected
  {
    FilterUnchanged(list, Unselected);
  }

  /** A second DEL finds nothing left to delete. */
  lemma RemoveSelectedIdempotent(list: seq<Annotation>)
    ensures RemoveSelected(RemoveSelected(list)) == RemoveSelected(list)
  {
    FilterIdempotent(list, Unselected);
  }

  /** `handleTextChange`'s new list: every entry but the last as it was, and
      the last one `{...last(textList), text}`. On an empty list `last`
      yields `undefined`, so the result is one entry holding only `text`. */
  function ReplaceLastText(list: seq<Annotation>, text: string): (r: seq<Annotation>)
    ensures list == [] ==> r == [Annotation(None, text, false)]
    ensures list != [] ==> |r| == |list|
    ensures list != [] ==> forall i :: 0 <= i < |list| - 1 ==> r[i] == list[i]
    ensures list != [] ==> r[|r| - 1].text == text
    ensures list != [] ==> r[|r| - 1].position == list[|list| - 1].position
    ensures list != [] ==> r[|r| - 1].selected == list[|list| - 1].selected
  {
    if list == [] then [Annotation(None, text, false)]
    else list[..|list| - 1] + [list[|list| - 1].(text := text)]
  }

  /** Saving the dialog right after a placement gives the placed entry the
      saved text and leaves the entries before it alone. */
  lemma AppendThenReplaceLastText(list: seq<Annotation>, a: Annotation, text: string)
    ensures ReplaceLastText(list + [a], text) == list + [a.(text := text)]
  {
  }

  /** Only the latest save counts: a second save overwrites the first. */
  lemma ReplaceLastTextTwice(list: seq<Annotation>, first: string, second: string)
    ensures ReplaceLastText(ReplaceLastText(list, first), second) == ReplaceLastText(list, second)
  {
  }

  /** One drawing object as `DrawingObjectSelector` reports it: the chart it
      belongs to and its current list of text objects. */
  datatype Interactive = Interactive(chartId: int, objects: seq<Annotation>)

  /** `toObject(interactives, each => ["textList_" + each.chartId, each.objects])`:
      a reduce over the interactives from an empty object, each one setting
      its chart's key, so a later interactive for the same chart wins. */
  function ToObject(interactives: seq<Interactive>): (m: map<int, seq<Annotation>>)
    ensures forall id :: id in m <==> exists i :: 0 <= i < |interactives| && interactives[i].chartId == id
  {
    if interactives == [] then map[]
    else
      var n := |interactives| - 1;
      ToObject(interactives[..n])[interactives[n].chartId := interactives[n].objects]
  }

  /** The list `toObject` gives a chart is the objects of the last
      interactive reported for that chart. */
  lemma {:induction false} ToObjectLastWins(interactives: seq<Interactive>, i: int)
    requires 0 <= i < |interactives|
    requires forall j :: i < j < |interactives| ==> interactives[j].chartId != interactives[i].chartId
    ensures ToObject(interactives)[interactives[i].chartId] == interactives[i].objects
  {
    var n := |interactives| - 1;
    if i < n {
      var front := interactives[..n];
      assert front[i] == interactives[i];
      ToObjectLastWins(front, i);
    }
  }
}
