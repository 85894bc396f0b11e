/** The state of the `CandleStickChartWithMA` component (src/stock/chart.js)
    as a value, and one transition function per event handler. The class in
    ChartComponent updates its fields step by step and is proved to follow
    these transitions. */
module ChartStates {
  import opened Wrappers
  import opened Lists
  import opened Annotations

  /** Key codes `onKeyPress` reacts to. */
  const DEL := 46
  const ESC := 27
  const KEY_D := 68
  const KEY_E := 69

  /** The volume chart (`<Chart id={2}>`), on which no text is placed. */
  const VOLUME_CHART := 2

  /** The component state. `textLists` maps a chart id to the state key
      `textList_<chartId>`; `text` and `chartId` are `None` until the first
      placement sets them; `listening` says whether `onKeyPress` is attached
      to the document's `keyup` event. */
  datatype ChartState = ChartState(
    enableInteractiveObject: bool,
    textLists: map<int, seq<Annotation>>,
    showModal: bool,
    text: Option<string>,
    chartId: Option<int>,
    listening: bool)

  /** The constructor creates `textList_1` and `textList_3` and no handler
      removes a key, so DEL can always filter both. */
  predicate Valid(s: ChartState) {
    1 in s.textLists && 3 in s.textLists
  }

  /** The charts rendered are ids 1 and 2: the only ids the charting library
      can report under the mouse. */
  predicate RenderedCharts(currentCharts: seq<int>) {
    forall i :: 0 <= i < |currentCharts| ==> currentCharts[i] == 1 || currentCharts[i] == VOLUME_CHART
  }

  /** The state the constructor sets, before the component is mounted. */
  function Initial(): (s: ChartState)
    ensures Valid(s)
    ensures s.enableInteractiveObject && !s.showModal && !s.listening
    ensures s.textLists.Keys == {1, 3} && s.textLists[1] == [] && s.textLists[3] == []
  {
    ChartState(true, map[1 := [], 3 := []], false, None, None, false)
  }

  /** `componentDidMount` and `componentWillUnmount`: attach or detach the
      key listener; adding the same listener twice keeps one. */
  function SetListening(s: ChartState, listening: bool): (r: ChartState)
    ensures r.listening == listening
    ensures r.(listening := s.listening) == s
  {
    s.(listening := listening)
  }

  /** `handleChoosePosition`: detach the key listener, append `text` to the
      chart's list and open the editor on it. When the chart has no list the
      spread of `undefined` throws after the listener is detached. */
  function ChoosePosition(s: ChartState, text: Annotation, chartId: int): (r: ChartState)
    ensures !r.listening
    ensures r.enableInteractiveObject == s.enableInteractiveObject
    ensures r.textLists.Keys == s.textLists.Keys
    ensures forall id :: id in s.textLists && id != chartId ==> r.textLists[id] == s.textLists[id]
    ensures chartId in s.textLists ==>
      && |r.textLists[chartId]| == |s.textLists[chartId]| + 1
      && r.textLists[chartId][..|s.textLists[chartId]|] == s.textLists[chartId]
      && r.textLists[chartId][|s.textLists[chartId]|] == text
      && r.showModal && r.text == Some(text.text) && r.chartId == Some(chartId)
    ensures chartId !in s.textLists ==> r == s.(listening := false)
    ensures Valid(s) ==> Valid(r)
  {
    var s := s.(listening := false);
    if chartId !in s.textLists then s
    else
      s.(textLists := s.textLists[chartId := s.textLists[chartId] + [text]],
         showModal := true, text := Some(text.text), chartId := Some(chartId))
  }

  /** `handleTextChange`: give the last entry of the chart's list the saved
      text, close the editor, leave draw mode and re-attach the key listener.
      When the chart has no list `slice` of `undefined` throws first. */
  function TextChange(s: ChartState, text: string, chartId: int): (r: ChartState)
    ensures r.textLists.Keys == s.textLists.Keys
    ensures forall id :: id in s.textLists && id != chartId ==> r.textLists[id] == s.textLists[id]
    ensures chartId in s.textLists ==>
      && r.textLists[chartId] == ReplaceLastText(s.textLists[chartId], text)
      && !r.showModal && !r.enableInteractiveObject && r.listening
      && r.text == s.text && r.chartId == s.chartId
    ensures chartId !in s.textLists ==> r == s
    ensures Valid(s) ==> Valid(r)
  {
    if chartId !in s.textLists then s
    else
      s.(textLists := s.textLists[chartId := ReplaceLastText(s.textLists[chartId], text)],
         showModal := false, enableInteractiveObject := false, listening := true)
  }

  /** `handleDialogClose`: close the editor and re-attach the key listener;
      the entry placed before the editor opened stays in its list. */
  function DialogClose(s: ChartState): (r: ChartState)
    ensures !r.showModal && r.listening
    ensures r.textLists == s.textLists && r.enableInteractiveObject == s.enableInteractiveObject
    ensures r.text == s.text && r.chartId == s.chartId
  {
    s.(showModal := false, listening := true)
  }

  /** `onDrawComplete`: commit the dragged list of a chart wholesale and
      leave draw mode. */
  function DrawComplete(s: ChartState, textList: seq<Annotation>, chartId: int): (r: ChartState)
    ensures !r.enableInteractiveObject
    ensures r.textLists.Keys == s.textLists.Keys + {chartId}
    ensures r.textLists[chartId] == textList
    ensures forall id :: id in s.textLists && id != chartId ==> r.textLists[id] == s.textLists[id]
    ensures r.showModal == s.showModal && r.listening == s.listening
    ensures r.text == s.text && r.chartId == s.chartId
    ensures Valid(s) ==> Valid(r)
  {
    s.(enableInteractiveObject := false, textLists := s.textLists[chartId := textList])
  }

  /** `onKeyPress`: DEL deletes the selected entries of `textList_1` and
      `textList_3`, ESC leaves draw mode, D and E enter it; any other key
      does nothing. */
  function KeyPress(s: ChartState, keyCode: int): (r: ChartState)
    requires Valid(s)
    ensures Valid(r)
    ensures r.textLists.Keys == s.textLists.Keys
    ensures keyCode == DEL ==>
      && r.textLists[1] == RemoveSelected(s.textLists[1])
      && r.textLists[3] == RemoveSelected(s.textLists[3])
      && (forall id :: id in s.textLists && id != 1 && id != 3 ==> r.textLists[id] == s.textLists[id])
      && r.enableInteractiveObject == s.enableInteractiveObject
    ensures keyCode != DEL ==> r.textLists == s.textLists
    ensures keyCode == ESC ==> !r.enableInteractiveObject
    ensures keyCode == KEY_D || keyCode == KEY_E ==> r.enableInteractiveObject
    ensures keyCode !in {DEL, ESC, KEY_D, KEY_E} ==> r == s
    ensures r.showModal == s.showModal && r.listening == s.listening
    ensures r.text == s.text && r.chartId == s.chartId
  {
    if keyCode == DEL then
      s.(textLists := s.textLists[1 := RemoveSelected(s.textLists[1])]
                                 [3 := RemoveSelected(s.textLists[3])])
    else if keyCode == ESC then
      s.(enableInteractiveObject := false)
    else if keyCode == KEY_D || keyCode == KEY_E then
      s.(enableInteractiveObject := true)
    else
      s
  }

  /** A `keyup` on the document: it reaches `onKeyPress` only while the
      listener is attached. */
  function KeyUp(s: ChartState, keyCode: int): (r: ChartState)
    requires Valid(s)
    ensures Valid(r)
    ensures !s.listening ==> r == s
    ensures s.listening ==> r == KeyPress(s, keyCode)
  {
    if s.listening then KeyPress(s, keyCode) else s
  }

  /** `handleSelection`. In draw mode a click places a new text in the first
      chart under the mouse that is not the volume chart, at
      `[xAccessor(currentItem), yScale.invert(mouseY)]` of that chart; with
      only the volume chart under the mouse nothing happens. Outside draw
      mode each interactive's objects overwrite its chart's list. */
  function Selection<T>(s: ChartState, interactives: seq<Interactive>, currentCharts: seq<int>,
                        mouseY: real, currentItem: T, xAccessor: T -> int,
                        yInvert: (int, real) -> real): (r: ChartState)
    requires Valid(s) && RenderedCharts(currentCharts)
    ensures Valid(r)
  {
    if s.enableInteractiveObject then
      var independentCharts := Filter(currentCharts, id => id != VOLUME_CHART);
      if |independentCharts| > 0 then
        var first := independentCharts[0];
        var position := Position(xAccessor(currentItem), yInvert(first, mouseY));
        ChoosePosition(s, NewText(position), first)
      else
        s
    else
      s.(textLists := s.textLists + ToObject(interactives))
  }

  // Properties of the handlers taken together

  /** In draw mode a click places an empty text on chart 1, the only chart
      that is not the volume chart, and opens the editor; `textList_3` is
      not touched and draw mode stays on. */
  lemma SelectionPlacesOnPriceChart<T>(s: ChartState, interactives: seq<Interactive>,
                                       currentCharts: seq<int>, mouseY: real, currentItem: T,
                                       xAccessor: T -> int, yInvert: (int, real) -> real)
    requires Valid(s) && RenderedCharts(currentCharts) && s.enableInteractiveObject
    requires exists i :: 0 <= i < |currentCharts| && currentCharts[i] != VOLUME_CHART
    ensures
      var r := Selection(s, interactives, currentCharts, mouseY, currentItem, xAccessor, yInvert);
      && r.textLists[1] == s.textLists[1] + [NewText(Position(xAccessor(currentItem), yInvert(1, mouseY)))]
      && r.textLists[3] == s.textLists[3]
      && r.showModal && r.text == Some("") && r.chartId == Some(1) && !r.listening
      && r.enableInteractiveObject
  {
    var i :| 0 <= i < |currentCharts| && currentCharts[i] != VOLUME_CHART;
    var independentCharts := Filter(currentCharts, id => id != VOLUME_CHART);
    assert currentCharts[i] in independentCharts;
    assert independentCharts[0] in independentCharts;
    var r := Selection(s, interactives, currentCharts, mouseY, currentItem, xAccessor, yInvert);
    var old1 := s.textLists[1];
    assert r.textLists[1] == r.textLists[1][..|old1|] + [r.textLists[1][|old1|]];
  }

  /** In draw mode a click over the volume chart alone changes nothing. */
  lemma SelectionOnVolumeChartOnly<T>(s: ChartState, interactives: seq<Interactive>,
                                      currentCharts: seq<int>, mouseY: real, currentItem: T,
                                      xAccessor: T -> int, yInvert: (int, real) -> real)
    requires Valid(s) && RenderedCharts(currentCharts) && s.enableInteractiveObject
    requires forall i :: 0 <= i < |currentCharts| ==> currentCharts[i] == VOLUME_CHART
    ensures Selection(s, interactives, currentCharts, mouseY, currentItem, xAccessor, yInvert) == s
  {
    FilterNone(currentCharts, id => id != VOLUME_CHART);
  }

  /** Outside draw mode a selection overwrites the list of every chart some
      interactive reports, with the objects of the last one reported for it,
      and leaves every other list and every flag alone. */
  lemma SelectionOverwritesLists<T>(s: ChartState, interactives: seq<Interactive>,
                                    currentCharts: seq<int>, mouseY: real, currentItem: T,
                                    xAccessor: T -> int, yInvert: (int, real) -> real, i: int)
    requires Valid(s) && RenderedCharts(currentCharts) && !s.enableInteractiveObject
    requires 0 <= i < |interactives|
    requires forall j :: i < j < |interactives| ==> interactives[j].chartId != interactives[i].chartId
    ensures
      var r := Selection(s, interactives, currentCharts, mouseY, currentItem, xAccessor, yInvert);
      && r.textLists[interactives[i].chartId] == interactives[i].objects
      && r.(textLists := s.textLists) == s
    ensures
      var r := Selection(s, interactives, currentCharts, mouseY, currentItem, xAccessor, yInvert);
      forall id :: id in s.textLists && (forall j :: 0 <= j < |interactives| ==> interactives[j].chartId != id) ==>
        id in r.textLists && r.textLists[id] == s.textLists[id]
  {
    ToObjectLastWins(interactives, i);
  }

  /** Keys do nothing between choosing a position and closing the editor:
      placing detaches the listener. */
  lemma KeysIgnoredWhileEditing(s: ChartState, text: Annotation, chartId: int, keyCode: int)
    requires Valid(s)
    ensures KeyUp(ChoosePosition(s, text, chartId), keyCode) == ChoosePosition(s, text, chartId)
  {
  }

  /** Placing a text and saving the dialog appends one entry carrying the
      saved text, closes the editor, leaves draw mode and listens to keys
      again; the other lists are untouched. */
  lemma ChooseThenSave(s: ChartState, text: Annotation, chartId: int, saved: string)
    requires chartId in s.textLists
    ensures
      var r := TextChange(ChoosePosition(s, text, chartId), saved, chartId);
      && r.textLists == s.textLists[chartId := s.textLists[chartId] + [text.(text := saved)]]
      && !r.showModal && !r.enableInteractiveObject && r.listening
      && r.text == Some(text.text) && r.chartId == Some(chartId)
  {
    AppendThenReplaceLastText(s.textLists[chartId], text, saved);
  }

  /** Placing a text and closing the dialog without saving keeps the placed
      entry, with its original text, and listens to keys again. */
  lemma ChooseThenClose(s: ChartState, text: Annotation, chartId: int)
    requires chartId in s.textLists
    ensures
      var r := DialogClose(ChoosePosition(s, text, chartId));
      && r.textLists == s.textLists[chartId := s.textLists[chartId] + [text]]
      && !r.showModal && r.listening && r.enableInteractiveObject == s.enableInteractiveObject
  {
  }

  /** A second DEL changes nothing. */
  lemma DeleteIdempotent(s: ChartState)
    requires Valid(s)
    ensures KeyPress(KeyPress(s, DEL), DEL) == KeyPress(s, DEL)
  {
    RemoveSelectedIdempotent(s.textLists[1]);
    RemoveSelectedIdempotent(s.textLists[3]);
  }

  /** DEL changes the state exactly when some entry of `textList_1` or
      `textList_3` is selected. */
  lemma DeleteNoOpIffNothingSelected(s: ChartState)
    requires Valid(s)
    ensures KeyPress(s, DEL) == s <==>
      && (forall i :: 0 <= i < |s.textLists[1]| ==> !s.textLists[1][i].selected)
      && (forall i :: 0 <= i < |s.textLists[3]| ==> !s.textLists[3][i].selected)
  {
    RemoveSelectedUnchanged(s.textLists[1]);
    RemoveSelectedUnchanged(s.textLists[3]);
    var r := KeyPress(s, DEL);
    if r == s {
      assert r.textLists[1] == s.textLists[1] && r.textLists[3] == s.textLists[3];
    }
  }
}
