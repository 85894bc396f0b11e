/** The `CandleStickChartWithMA` component of src/stock/chart.js: its state
    fields, updated in place by one method per event handler. Each method is
    proved to take the state to the transition ChartStates defines for it. */
module ChartComponent {
  import opened Wrappers
  import opened Lists
  import opened Annotations
  import opened ChartStates

  class CandleStickChartWithMA {
    var enableInteractiveObject: bool
    var textLists: map<int, seq<Annotation>>
    var showModal: bool
    var text: Option<string>
    var chartId: Option<int>
    /** Whether `onKeyPress` is attached to the document's `keyup` event. */
    var listening: bool

    /** The fields as one state value. */
    function State(): ChartState
      reads this
    {
      ChartState(enableInteractiveObject, textLists, showModal, text, chartId, listening)
    }

    predicate Valid()
      reads this
    {
      ChartStates.Valid(State())
    }

    /** `constructor`: draw mode on, empty lists for charts 1 and 3, editor
        closed, not yet listening to keys. */
    constructor ()
      ensures Valid()
      ensures State() == Initial()
    {
      enableInteractiveObject := true;
      textLists := map[1 := [], 3 := []];
      showModal := false;
      text := None;
      chartId := None;
      listening := false;
    }

    /** `componentDidMount`: attach the key listener. */
    method ComponentDidMount()
      requires Valid()
      modifies this
      ensures Valid()
      ensures State() == SetListening(old(State()), true)
    {
      listening := true;
    }

    /** `componentWillUnmount`: detach the key listener. */
    method ComponentWillUnmount()
      requires Valid()
      modifies this
      ensures Valid()
      ensures State() == SetListening(old(State()), false)
    {
      listening := false;
    }

    /** `handleChoosePosition`; `ok` is false where the source throws
        because the chart has no list. */
    method HandleChoosePosition(newText: Annotation, id: int) returns (ok: bool)
      requires Valid()
      modifies this
      ensures Valid()
      ensures ok <==> id in old(textLists)
      ensures State() == ChoosePosition(old(State()), newText, id)
    {
      ComponentWillUnmount();
      if id !in textLists {
        return false;
      }
      textLists := textLists[id := textLists[id] + [newText]];
      showModal := true;
      text := Some(newText.text);
      chartId := Some(id);
      ok := true;
    }

    /** `handleTextChange`, the dialog's save; `ok` is false where the
        source throws because the chart has no list. */
    method HandleTextChange(newText: string, id: int) returns (ok: bool)
      requires Valid()
      modifies this
      ensures Valid()
      ensures ok <==> id in old(textLists)
      ensures State() == TextChange(old(State()), newText, id)
    {
      if id !in textLists {
        return false;
      }
      var textList := textLists[id];
      textLists := textLists[id := ReplaceLastText(textList, newText)];
      showModal := false;
      enableInteractiveObject := false;
      ComponentDidMount();
      ok := true;
    }

    /** `handleDialogClose`. */
    method HandleDialogClose()
      requires Valid()
      modifies this
      ensures Valid()
      ensures State() == DialogClose(old(State()))
    {
      showModal := false;
      ComponentDidMount();
    }

    /** `onDrawComplete`, called when a text has been dragged. */
    method OnDrawComplete(textList: seq<Annotation>, id: int)
      requires Valid()
      modifies this
      ensures Valid()
      ensures State() == DrawComplete(old(State()), textList, id)
    {
      enableInteractiveObject := false;
      textLists := textLists[id := textList];
    }

    /** `onKeyPress`, the `keyup` listener. */
    method OnKeyPress(keyCode: int)
      requires Valid()
      modifies this
      ensures Valid()
      ensures State() == KeyPress(old(State()), keyCode)
    {
      match keyCode {
        case 46 => // DEL
          textLists := textLists[1 := RemoveSelected(textLists[1])]
                                [3 := RemoveSelected(textLists[3])];
        case 27 => // ESC
          enableInteractiveObject := false;
        case 68 => // D: draw
          enableInteractiveObject := true;
        case 69 => // E: enable
          enableInteractiveObject := true;
        case _ =>
      }
    }

    /** A `keyup` on the document, delivered to `onKeyPress` only while it
        is attached. */
    method KeyUpEvent(keyCode: int)
      requires Valid()
      modifies this
      ensures Valid()
      ensures State() == KeyUp(old(State()), keyCode)
    {
      if listening {
        OnKeyPress(keyCode);
      }
    }

    /** `handleSelection`, called by the drawing-object selector on a click.
        `currentItem`, `xAccessor`, `mouseY` and `yInvert` (each chart's
        `yScale.invert`) stand for what `getMorePropsForChart` supplies. */
    method HandleSelection<T>(interactives: seq<Interactive>, currentCharts: seq<int>,
                              mouseY: real, currentItem: T, xAccessor: T -> int,
                              yInvert: (int, real) -> real)
      requires Valid() && RenderedCharts(currentCharts)
      modifies this
      ensures Valid()
      ensures State() == Selection(old(State()), interactives, currentCharts, mouseY,
                                   currentItem, xAccessor, yInvert)
    {
      if enableInteractiveObject {
        var independentCharts := Filter(currentCharts, id => id != VOLUME_CHART);
        if |independentCharts| > 0 {
          var first := independentCharts[0];
          var position := Position(xAccessor(currentItem), yInvert(first, mouseY));
          var _ := HandleChoosePosition(NewText(position), first);
        }
      } else {
        textLists := textLists + ToObject(interactives);
      }
    }
  }
}
