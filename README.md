# Annotation state machine of a candlestick chart component

This project models the logic of `CandleStickChartWithMA`, the React component
that draws a price chart (id 1) and a volume chart (id 2) and lets the user
place, edit, drag and delete text annotations on them
(`src/stock/chart.js`). The charting library draws and scales everything. The
component owns one piece of logic, a small state machine:

- a draw-mode flag (`enableInteractiveObject`);
- one list of text annotations per chart id (`textList_1`, `textList_3`);
- the editor dialog's state (`showModal`, `text`, `chartId`);
- whether its `keyup` listener is attached to the document.

Its event handlers change that state. The model has three layers:

- `Lists`, `Annotations`: the list transformations the handlers apply.
  These are appending a placed text, replacing the last entry's text,
  `filter(d => !d.selected)`, and the `toObject` overwrite. They are
  functions, with lemmas about what each keeps and changes.
- `ChartStates`: the component state as a value and one transition function
  per handler. It also holds lemmas about sequences of events. Examples:
  place then save, place then close, keys while the editor is open, and
  DEL twice.
- `ChartComponent`: the class `CandleStickChartWithMA`. Its fields are the
  component's state, and it has one method per handler. Each method updates
  the fields step by step, as the handler does with `setState`. Each one is
  proved to reach exactly the state its transition function gives.

`Display` covers what `render` computes itself: the initial visible window
(`xExtents`) and the stroke and fill colours of the price and volume bars.

Modelling choices:

- Calls into the charting library become parameters: `xAccessor`, each
  chart's `yScale.invert` and the mouse's `mouseY`.
- Prices and pixels are `real`.
- A handler that throws a JavaScript `TypeError` is modelled as leaving the
  state as it stood when it threw. The matching method returns `ok == false`.
  This happens when a handler reads the list of a chart that has none.
  `handleChoosePosition` has already detached the key listener at that
  point, and the model keeps that.
- `handleTextChange` on an empty list gives a one-entry list holding only
  the saved text, with no position and not selected. This is what
  `{...last([]), text}` evaluates to.

Points where the code differs from what a reader might expect, all followed
by the model:

- Saving the dialog edits the last entry of the chart's list. It does not
  look the entry up by identity, and there is no not-found error.
- `onDrawComplete` commits the supplied list wholesale. It does not check
  the list's length or its entries.
- Closing the dialog without saving keeps the placed entry, with the empty
  default text.
- Of the two ways to close the editor, only saving leaves draw mode; closing keeps it.
- The marks passed to the chart (price levels and dated marks) are never
  read by it.

## Model

| member | source | states |
|---|---|---|
| `Lists.Filter` | src/stock/chart.js:235-236 | keeps exactly the elements satisfying the predicate (membership both ways), never longer than the input |
| `Lists.FilterNone` | src/stock/chart.js:142-143 | a filter that no element passes yields the empty list |
| `Annotations.NewText` | src/stock/chart.js:155-158 | a clicked text has the given position, empty text and is not selected |
| `Annotations.RemoveSelected` | src/stock/chart.js:235-236 | an entry is in the result iff it was in the list and is not selected |
| `Annotations.RemoveSelectedExactly` | src/stock/chart.js:232-238 | DEL removes every occurrence of a selected entry and keeps every occurrence of an unselected one (multiset count) |
| `Annotations.RemoveSelectedKeepsOrder` | src/stock/chart.js:235-236 | filtering distributes over concatenation, so kept entries keep their relative order |
| `Annotations.RemoveSelectedUnchanged` | src/stock/chart.js:235-236 | the list is unchanged iff no entry is selected |
| `Annotations.RemoveSelectedIdempotent` | src/stock/chart.js:235-236 | deleting the selected entries twice is deleting them once |
| `Annotations.ReplaceLastText` | src/stock/chart.js:186-199 | same length, all but the last entry unchanged, the last one changes only its text; an empty list becomes one entry holding only the text |
| `Annotations.AppendThenReplaceLastText` | src/stock/chart.js:175-199 | saving right after appending gives the appended entry the saved text and leaves the rest alone |
| `Annotations.ReplaceLastTextTwice` | src/stock/chart.js:185-199 | a second save overwrites the first |
| `Annotations.ToObject` | src/stock/chart.js:162-168 | the object has a key for a chart iff some interactive reports that chart |
| `Annotations.ToObjectLastWins` | src/stock/chart.js:162-168 | a chart's value is the objects of the last interactive reported for it |
| `ChartStates.Initial` | src/stock/chart.js:130-135 | draw mode on, editor closed, lists 1 and 3 empty and no others, not listening to keys |
| `ChartStates.SetListening` | src/stock/chart.js:212-217 | attaching or detaching the key listener changes the listening flag only |
| `ChartStates.ChoosePosition` | src/stock/chart.js:171-184 | the chart's list grows by one with its prefix unchanged and the new text last; other lists untouched; the editor opens on the text's text and chart id; the key listener is detached; a chart without a list only loses the listener |
| `ChartStates.TextChange` | src/stock/chart.js:185-204 | the chart's list gets its last text replaced; other lists untouched; the editor closes, draw mode ends, keys are listened to again; a chart without a list changes nothing |
| `ChartStates.DialogClose` | src/stock/chart.js:205-210 | the editor closes and keys are listened to again; lists and draw mode unchanged |
| `ChartStates.DrawComplete` | src/stock/chart.js:218-228 | the chart's list becomes the supplied list, the other lists are untouched, draw mode ends |
| `ChartStates.KeyPress` | src/stock/chart.js:229-257 | DEL filters the selected entries from lists 1 and 3 and nothing else; ESC ends draw mode; D and E start it; other keys leave the state unchanged; the lists change only on DEL |
| `ChartStates.KeyUp` | src/stock/chart.js:212-217 | a key reaches the handler only while the listener is attached, otherwise nothing changes |
| `ChartStates.Selection` | src/stock/chart.js:140-170 | a click keeps both lists 1 and 3 present |
| `ChartStates.SelectionPlacesOnPriceChart` | src/stock/chart.js:140-160 | in draw mode, with some chart other than the volume chart under the mouse, list 1 gains an empty text at `[xAccessor(currentItem), yScale.invert(mouseY)]`, list 3 is untouched, the editor opens and draw mode stays on |
| `ChartStates.SelectionOnVolumeChartOnly` | src/stock/chart.js:141-143 | in draw mode, with only the volume chart under the mouse, nothing changes |
| `ChartStates.SelectionOverwritesLists` | src/stock/chart.js:161-168 | outside draw mode each reported chart's list becomes the objects last reported for it; every list no interactive reports is kept; flags unchanged |
| `ChartStates.KeysIgnoredWhileEditing` | src/stock/chart.js:171-172 | after a placement every key leaves the state unchanged |
| `ChartStates.ChooseThenSave` | src/stock/chart.js:171-204 | place then save appends one entry carrying the saved text, closes the editor, ends draw mode and listens again |
| `ChartStates.ChooseThenClose` | src/stock/chart.js:171-210 | place then close keeps the placed entry unedited and listens again |
| `ChartStates.DeleteIdempotent` | src/stock/chart.js:232-238 | a second DEL changes nothing |
| `ChartStates.DeleteNoOpIffNothingSelected` | src/stock/chart.js:232-238 | DEL leaves the state unchanged iff no entry of list 1 or list 3 is selected |
| `ChartComponent.CandleStickChartWithMA.constructor` | src/stock/chart.js:114-136 | the fields hold the initial state |
| `ChartComponent.CandleStickChartWithMA.ComponentDidMount` | src/stock/chart.js:212-214 | the listener is attached, nothing else changes |
| `ChartComponent.CandleStickChartWithMA.ComponentWillUnmount` | src/stock/chart.js:215-217 | the listener is detached, nothing else changes |
| `ChartComponent.CandleStickChartWithMA.HandleChoosePosition` | src/stock/chart.js:171-184 | the fields take the placement transition; `ok` iff the chart has a list |
| `ChartComponent.CandleStickChartWithMA.HandleTextChange` | src/stock/chart.js:185-204 | the fields take the save transition; `ok` iff the chart has a list |
| `ChartComponent.CandleStickChartWithMA.HandleDialogClose` | src/stock/chart.js:205-210 | the fields take the close transition |
| `ChartComponent.CandleStickChartWithMA.OnDrawComplete` | src/stock/chart.js:218-228 | the fields take the drag-commit transition |
| `ChartComponent.CandleStickChartWithMA.OnKeyPress` | src/stock/chart.js:229-257 | the fields take the key transition |
| `ChartComponent.CandleStickChartWithMA.KeyUpEvent` | src/stock/chart.js:212-214 | the fields take the key transition only while listening |
| `ChartComponent.CandleStickChartWithMA.HandleSelection` | src/stock/chart.js:140-170 | the fields take the click transition |
| `Display.VisibleWindow` | src/stock/chart.js:295-297 | none for an empty series; otherwise the start is the last ordinal, the end is never negative and not after the start, and the window holds `min(n, 150)` bars |
| `Display.XExtents` | src/stock/chart.js:295-297 | the extents are undefined exactly for an empty series |
| `Display.XExtentsOfOrdinals` | src/stock/chart.js:286-297 | with ordinal x coordinates the extents run from the last bar back over `min(n, 150)` bars, never below 0 |
| `Display.OhlcStroke` | src/stock/chart.js:327 | green iff close > open, red iff open > close, blue iff they are equal |
| `Display.VolumeFill` | src/stock/chart.js:380 | green iff close > open, otherwise red |
| `Display.VolumeFillMatchesStroke` | src/stock/chart.js:380 | the volume fill is green iff the price stroke is, and red iff the stroke is red or blue |

## Left out

- EMA and SMA indicators (`ema()`, `sma()`, src/stock/chart.js:260-285) are computed inside the charting library in floating point, which is not part of this model. Only their order of composition is visible in the component.
- The scale provider, `yScale.invert`, `xAccessor` and `getMorePropsForChart` are library calls over floats. They appear as function parameters.
- Rendering is left out: the JSX, the `Dialog` form's own text state, `fitWidth` and `TypeChooser`.
- DOM listener mechanics are left out. Attaching and detaching the `keyup` listener is one boolean.
- Floating-point behaviour is left out: NaN prices, rounding and pixel precision. Prices are reals.
- The annotations' style fields (font, fill, stroke) are opaque to the component and left out.
- React's `setState` is modelled as an immediate update, because the handlers run one at a time.
- `src/component/chartComponent.js` is left out. It only fetches data and marks asynchronously and shows a loading message until both arrive.
- Marks and support and resistance levels are left out. The chart never reads them.
- `saveInteractiveNodes` and `getInteractiveNodes` (`../utils/interactiveutils`) are not part of this model. The interactives they yield are a parameter of `HandleSelection`.
- ChartStates.Selection: its own contract states only that the lists for charts 1 and 3 stay present. Its behaviour is stated by SelectionPlacesOnPriceChart, SelectionOnVolumeChartOnly and SelectionOverwritesLists.
- ChartStates.Selection: chart ids reported under the mouse are assumed to be 1 or 2, the only charts rendered. An id with no chart would make `getMorePropsForChart` fail inside the library.
