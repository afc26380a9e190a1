/** Mouse clicks on the layer plot (controller/PlotClickHandler.py): a
    click picks a layer row by flooring y and a frame by rounding x, and
    depending on the playback mode records an event there or opens the
    event found there for editing. */
module PlotClick {
  import opened Wrappers
  import opened FrameMath
  import opened PyList
  import opened EventStore
  import opened LayerStore
  import LayerPlot
  import Session

  /** `match_click_to_frame`: `int(round(x))`, ties to even. */
  function MatchClickToFrame(x: real): (f: int)
    ensures -0.5 <= x - f as real <= 0.5
  {
    RoundHalfEven(x)
  }

  /** The clicked row: `math.floor(y)`. */
  function RowAt(y: real): (i: int)
    ensures i as real <= y < i as real + 1.0
  {
    Floor(y)
  }

  /** A click anywhere inside a plotted point's cell finds that point's
      layer and frame again. */
  lemma ClickFindsPlottedPoint(m: Frames, i: nat, p: (int, int), dx: real, dy: real)
    requires p in LayerPlot.PlotPoints(m, i)
    requires -0.5 < dx < 0.5 && -0.5 <= dy < 0.5
    ensures RowAt(p.1 as real / 2.0 + dy) == i
    ensures MatchClickToFrame(p.0 as real + dx) == p.0
  {
    RoundHalfEvenUnique(p.0 as real + dx, p.0);
  }

  /** `handle_record_click` on the loaded stack's layers: `layers[floor(y)]`
      is read before the bounds check, so a row past the end raises
      IndexError and a negative row counts from the end; the row's layer
      then gets `add(frame)`. */
  function RecordClick(layers: seq<Layer>, x: real, y: real): (r: Option<seq<Layer>>)
    ensures r.None? <==> ResolveIndex(RowAt(y), |layers|).None?
    ensures r.Some? ==>
              var k := ResolveIndex(RowAt(y), |layers|).value;
              var l := layers[k];
              r.value == layers[k := l.(objects := Added(l.objects, l.layerName, l.layerNumber, MatchClickToFrame(x), None, None, "event"))]
  {
    match ResolveIndex(RowAt(y), |layers|)
    case None => None
    case Some(k) =>
      var l := layers[k];
      Some(layers[k := l.(objects := Added(l.objects, l.layerName, l.layerNumber, MatchClickToFrame(x), None, None, "event"))])
  }

  /** A click just below row 0 records into the LAST layer. */
  lemma RecordBelowFirstRowHitsLastLayer(layers: seq<Layer>, x: real, y: real)
    requires |layers| > 0 && -1.0 <= y < 0.0
    ensures RecordClick(layers, x, y).Some?
    ensures var f := MatchClickToFrame(x);
            var l := layers[|layers| - 1];
            RecordClick(layers, x, y).value[|layers| - 1].objects == Added(l.objects, l.layerName, l.layerNumber, f, None, None, "event")
  {
    var row := RowAt(y);
    assert row == -1;
    assert ResolveIndex(row, |layers|) == Some(|layers| - 1);
  }

  /** A click above the top row raises instead of reaching the bounds
      check meant for it. */
  lemma RecordAboveTopRowRaises(layers: seq<Layer>, x: real, y: real)
    requires y >= |layers| as real
    ensures RecordClick(layers, x, y).None?
  {
  }

  /** What an edit click does: IndexError for a row that does not exist,
      an error dialog for a frame with no entry or a stack that is not
      loaded (the KeyError is caught), or the editor opened on the stored
      value, which may be a tombstone. */
  datatype EditResult = EditRaised(error: Exception) | NoEventAt(frame: int) | OpenEditor(slot: Slot)

  function EditClick(layers: seq<Layer>, x: real, y: real): (r: EditResult)
    ensures r.EditRaised? <==> ResolveIndex(RowAt(y), |layers|).None?
    ensures r.NoEventAt? ==> r.frame == MatchClickToFrame(x)
    ensures r.OpenEditor? ==>
              var k := ResolveIndex(RowAt(y), |layers|).value;
              MatchClickToFrame(x) in layers[k].objects && r.slot == layers[k].objects[MatchClickToFrame(x)]
  {
    match ResolveIndex(RowAt(y), |layers|)
    case None => EditRaised(IndexError)
    case Some(k) =>
      var f := MatchClickToFrame(x);
      if f in layers[k].objects then OpenEditor(layers[k].objects[f]) else NoEventAt(f)
  }

  /** What `handle_click` led to. */
  datatype ClickResult = Recorded(outcome: Outcome) | Edited(edit: EditResult) | Ignored

  class PlotClickHandler {
    const model: Session.MainModel

    constructor (model: Session.MainModel)
      ensures this.model == model
    {
      this.model := model;
    }

    /** `handle_click`: "Record" and "Edit" have handlers; "Play" and any
        other mode do nothing. */
    method HandleClick(mode: string, x: real, y: real) returns (r: ClickResult)
      modifies model.stack.objects.Values
      ensures model.stack.objects == old(model.stack.objects)
      ensures mode != "Record" ==> forall s :: s in model.stack.objects.Values ==> s.layers == old(s.layers)
      ensures forall s :: s in model.stack.objects.Values ==> s.frameQty == old(s.frameQty)
      ensures mode == "Record" <==> r.Recorded?
      ensures mode == "Edit" <==> r.Edited?
    {
      if mode == "Record" {
        var outcome := HandleRecordClick(x, y);
        return Recorded(outcome);
      }
      if mode == "Edit" {
        var edit := HandleEditClick(x, y);
        return Edited(edit);
      }
      r := Ignored;
    }

    /** `refresh_plot_data_item(layerName)` on the stack revision
        (controller/LayerController.py:152-166): it looks up the stack under
        the loaded song's name, then under the loaded song object's name,
        finds the layer's events there, and last calls
        `set_event_plot_data_item`, which model/stack/LayerModel.py does not
        define. No path ends normally; in a session whose loaded song is in
        the table under its own name, with its stack holding the layer, the
        last call raises AttributeError. */
    function RefreshPlotDataItem(layerName: string): (r: Outcome)
      reads model, model.song, model.stack, model.stack.objects.Values
      ensures r != Ok
      ensures var name := model.song.loadedSong;
              && name.Some? && name.value != "" && name.value in model.song.objects
              && model.song.objects[name.value].name == name.value
              && name.value in model.stack.objects
              && layerName in Names(model.stack.objects[name.value].layers)
              ==> r == Raised(AttributeError)
    {
      var name := model.song.loadedSong;
      if name.None? || name.value !in model.stack.objects then Raised(KeyError)
      else
        match model.LoadedSong()
        case NoSongLoaded => Raised(AttributeError)
        case MissingSong => Raised(KeyError)
        case LoadedSong(song) =>
          if song.name !in model.stack.objects then Raised(KeyError)
          else if LayerIndex(model.stack.objects[song.name].layers, layerName).None? then Raised(TypeError)
          else Raised(AttributeError)
    }

    /** `handle_record_click` on the stack revision: the row's layer gets
        `add(frame)`, then `refresh_plot_data_item` raises. */
    method HandleRecordClick(x: real, y: real) returns (outcome: Outcome)
      modifies model.stack.objects.Values
      ensures model.stack.objects == old(model.stack.objects)
      ensures model.stack.loadedStack.None? || model.stack.loadedStack.value !in model.stack.objects ==>
                outcome == Raised(KeyError)
      ensures model.stack.loadedStack.Some? && model.stack.loadedStack.value in model.stack.objects ==>
                var stack := model.stack.objects[model.stack.loadedStack.value];
                && (RecordClick(old(stack.layers), x, y).None? ==> outcome == Raised(IndexError))
                && (RecordClick(old(stack.layers), x, y).Some? ==>
                      var k := ResolveIndex(RowAt(y), |old(stack.layers)|).value;
                      && stack.layers == RecordClick(old(stack.layers), x, y).value
                      && outcome == RefreshPlotDataItem(old(stack.layers)[k].name)
                      && outcome != Ok)
      ensures !(&& model.stack.loadedStack.Some? && model.stack.loadedStack.value in model.stack.objects
                && RecordClick(old(model.stack.objects[model.stack.loadedStack.value].layers), x, y).Some?) ==>
                forall s :: s in model.stack.objects.Values ==> s.layers == old(s.layers)
      ensures model.stack.loadedStack.Some? && model.stack.loadedStack.value in model.stack.objects ==>
                forall s :: s in model.stack.objects.Values && s != model.stack.objects[model.stack.loadedStack.value] ==> s.layers == old(s.layers)
      ensures forall s :: s in model.stack.objects.Values ==> s.frameQty == old(s.frameQty)
    {
      var loadedStack := model.stack.loadedStack;
      if loadedStack.None? || loadedStack.value !in model.stack.objects {
        return Raised(KeyError);
      }
      var stack := model.stack.objects[loadedStack.value];
      var matchedLayerIndex := RowAt(y);
      var k := ResolveIndex(matchedLayerIndex, |stack.layers|);
      if k.None? {
        return Raised(IndexError);
      }
      var matchedLayerName := stack.layers[k.value].name;
      var matchedFrame := MatchClickToFrame(x);
      var layer := stack.layers[k.value];
      stack.layers := stack.layers[k.value := layer.(objects := Added(layer.objects, layer.layerName, layer.layerNumber, matchedFrame, None, None, "event"))];
      outcome := RefreshPlotDataItem(matchedLayerName);
    }

    method HandleEditClick(x: real, y: real) returns (r: EditResult)
      ensures model.stack.loadedStack.None? || model.stack.loadedStack.value !in model.stack.objects ==>
                r == NoEventAt(MatchClickToFrame(x))
      ensures model.stack.loadedStack.Some? && model.stack.loadedStack.value in model.stack.objects ==>
                r == EditClick(model.stack.objects[model.stack.loadedStack.value].layers, x, y)
    {
      var loadedStack := model.stack.loadedStack;
      if loadedStack.None? || loadedStack.value !in model.stack.objects {
        return NoEventAt(MatchClickToFrame(x));
      }
      var layers := model.stack.objects[loadedStack.value].layers;
      var k := ResolveIndex(RowAt(y), |layers|);
      if k.None? {
        return EditRaised(IndexError);
      }
      var matchedFrame := MatchClickToFrame(x);
      if matchedFrame !in layers[k.value].objects {
        return NoEventAt(matchedFrame);
      }
      r := OpenEditor(layers[k.value].objects[matchedFrame]);
    }
  }
}
