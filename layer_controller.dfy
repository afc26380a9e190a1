/** The layer plot logic of controller/LayerController.py: where each
    layer's events are drawn, how many there are, the plot's size and
    limits, and the add/remove layer commands. Plot y positions are in
    half-units, as in CustomAxis: layer i's row is at y = i + 0.5, that is
    at half-unit 2 i + 1. */
module LayerPlot {
  import opened Wrappers
  import opened EventStore
  import opened LayerStore
  import opened PyList
  import opened CustomAxis
  import Session

  /** The frames holding an event; a `None` tombstone is not an event. */
  function PresentFrames(m: Frames): (r: set<int>)
    ensures forall k :: k in r <==> k in m && m[k].Some?
  {
    set k | k in m && m[k].Some?
  }

  /** `tally_events`: how many values of the map are not None. */
  function TallyEvents(m: Frames): nat
  {
    |PresentFrames(m)|
  }

  /** The points of one layer: x is the frame, y the layer's row. */
  function PlotPoints(m: Frames, index: int): (r: set<(int, int)>)
    ensures forall k, y :: (k, y) in r <==> k in m && m[k].Some? && y == 2 * index + 1
  {
    set k | k in PresentFrames(m) :: (k, 2 * index + 1)
  }

  /** `translate_raw_data_to_plot_data`: the named layer's points; an
      unknown name subscripts the layer list with None (TypeError). */
  function PlotData(layers: seq<Layer>, name: string): (r: Option<set<(int, int)>>)
    ensures r.None? <==> name !in Names(layers)
    ensures r.Some? ==> r.value == PlotPoints(layers[LayerIndex(layers, name).value].objects, LayerIndex(layers, name).value)
  {
    match LayerIndex(layers, name)
    case None => None
    case Some(index) => Some(PlotPoints(layers[index].objects, index))
  }

  lemma {:induction false} RowImageSize(keys: set<int>, y: int)
    ensures |set k | k in keys :: (k, y)| == |keys|
    decreases keys
  {
    if keys != {} {
      if forall j :: j !in keys {
        assert false;
      }
      var k :| k in keys;
      var rest := keys - {k};
      RowImageSize(rest, y);
      assert (set j | j in keys :: (j, y)) == (set j | j in rest :: (j, y)) + {(k, y)};
    }
  }

  /** One point per event: the point count equals `tally_events`. */
  lemma PointCountIsTally(m: Frames, index: int)
    ensures |PlotPoints(m, index)| == TallyEvents(m)
  {
    var y := 2 * index + 1;
    RowImageSize(PresentFrames(m), y);
    assert PlotPoints(m, index) == set k | k in PresentFrames(m) :: (k, y);
  }

  /** Every plotted point sits on the row the axis labels with its layer's
      name. */
  lemma PointsSitOnLabelledRow(layers: seq<Layer>, i: nat, p: (int, int))
    requires i < |layers| && p in PlotPoints(layers[i].objects, i)
    ensures TickLabel(p.1, Names(layers)) == layers[i].name
  {
    LabelledTicks(p.1, Names(layers));
  }

  /** `update_layer_plot_height`: 50 pixels per layer plus 18 for the axis. */
  function PlotHeight(layerQty: nat): (h: nat)
    ensures h >= 18 && (h - 18) % 50 == 0 && (h - 18) / 50 == layerQty
  {
    layerQty * 50 + 18
  }

  /** How a name prompt ends: a name short enough, a cancelled dialog
      (QInputDialog gives None, and `len(None)` raises), or no answer yet. */
  datatype Prompt = Chosen(name: string) | Cancelled | StillPrompting

  predicate TooLong(answer: Option<string>)
  {
    answer.Some? && |answer.value| > 20
  }

  /** The re-prompt loop of `add_layer`, read off the dialog's successive
      answers: the first answer that is not more than 20 characters. */
  function FirstAcceptable(answers: seq<Option<string>>): (r: Prompt)
    ensures r.StillPrompting? <==> forall j :: 0 <= j < |answers| ==> TooLong(answers[j])
    ensures r.Chosen? ==>
              && |r.name| <= 20
              && exists i :: 0 <= i < |answers| && answers[i] == Some(r.name)
                   && forall j :: 0 <= j < i ==> TooLong(answers[j])
    ensures r.Cancelled? ==>
              exists i :: 0 <= i < |answers| && answers[i] == None
                && forall j :: 0 <= j < i ==> TooLong(answers[j])
  {
    if |answers| == 0 then StillPrompting
    else if answers[0].None? then Cancelled
    else if !TooLong(answers[0]) then Chosen(answers[0].value)
    else
      var r := FirstAcceptable(answers[1..]);
      assert forall j :: 1 <= j < |answers| ==> answers[j] == answers[1..][j - 1];
      r
  }

  /** `set_layer_plot_limits`: a key is present exactly when its argument
      is not None; xMin and yMin default to 0. */
  method SetLayerPlotLimits(xMin: Option<int> := Some(0), xMax: Option<int> := None,
                            yMin: Option<int> := Some(0), yMax: Option<int> := None)
    returns (limits: map<string, int>)
    ensures "xMin" in limits <==> xMin.Some?
    ensures "xMax" in limits <==> xMax.Some?
    ensures "yMin" in limits <==> yMin.Some?
    ensures "yMax" in limits <==> yMax.Some?
    ensures xMin.Some? ==> limits["xMin"] == xMin.value
    ensures xMax.Some? ==> limits["xMax"] == xMax.value
    ensures yMin.Some? ==> limits["yMin"] == yMin.value
    ensures yMax.Some? ==> limits["yMax"] == yMax.value
    ensures limits.Keys <= {"xMin", "xMax", "yMin", "yMax"}
  {
    limits := map[];
    if xMin.Some? {
      limits := limits["xMin" := xMin.value];
    }
    if xMax.Some? {
      limits := limits["xMax" := xMax.value];
    }
    if yMin.Some? {
      limits := limits["yMin" := yMin.value];
    }
    if yMax.Some? {
      limits := limits["yMax" := yMax.value];
    }
  }

  /** Asks for a layer name until the answer is at most 20 characters. */
  method PromptLayerName(answers: seq<Option<string>>) returns (r: Prompt)
    ensures r == FirstAcceptable(answers)
  {
    var i := 0;
    while i < |answers| && TooLong(answers[i])
      invariant 0 <= i <= |answers|
      invariant FirstAcceptable(answers[i..]) == FirstAcceptable(answers)
    {
      assert answers[i..][1..] == answers[i + 1..];
      i := i + 1;
    }
    if i == |answers| {
      return StillPrompting;
    }
    assert answers[i..][0] == answers[i];
    r := if answers[i].None? then Cancelled else Chosen(answers[i].value);
  }

  class LayerController {
    const model: Session.MainModel

    constructor (model: Session.MainModel)
      ensures this.model == model
    {
      this.model := model;
    }

    /** `add_layer`: once a short enough name is given, a layer is appended
        to the stack named after the loaded song. `add_plot_layer` then
        reads `self.model.loaded_stack`, which the main model does not
        have, so a layer that was added ends in AttributeError. While the
        dialog is still being answered nothing has changed. */
    method AddLayer(answers: seq<Option<string>>) returns (outcome: Outcome)
      modifies model.stack.objects.Values
      ensures model.stack.objects == old(model.stack.objects)
      ensures forall s :: s in model.stack.objects.Values ==> s.frameQty == old(s.frameQty)
      ensures FirstAcceptable(answers).StillPrompting? ==> outcome == Ok
      ensures FirstAcceptable(answers).Cancelled? ==> outcome == Raised(TypeError)
      ensures FirstAcceptable(answers).Chosen? && model.LoadedSong().NoSongLoaded? ==> outcome == Raised(AttributeError)
      ensures FirstAcceptable(answers).Chosen? && model.LoadedSong().MissingSong? ==> outcome == Raised(KeyError)
      ensures FirstAcceptable(answers).Chosen? && model.LoadedSong().LoadedSong? ==>
                var key := model.LoadedSong().song.name;
                && (key !in model.stack.objects ==> outcome == Raised(KeyError))
                && (key in model.stack.objects ==>
                      && outcome == Raised(AttributeError)
                      && model.stack.objects[key].layers == old(model.stack.objects[key].layers) + [NewLayer(FirstAcceptable(answers).name)]
                      && forall s :: s in model.stack.objects.Values && s != model.stack.objects[key] ==> s.layers == old(s.layers))
      ensures !(FirstAcceptable(answers).Chosen? && model.LoadedSong().LoadedSong? && model.LoadedSong().song.name in model.stack.objects) ==>
                forall s :: s in model.stack.objects.Values ==> s.layers == old(s.layers)
    {
      var prompt := PromptLayerName(answers);
      match prompt
      case Cancelled => return Raised(TypeError);
      case StillPrompting => return Ok;
      case Chosen(name) =>
        var loaded := model.LoadedSong();
        match loaded
        case NoSongLoaded => return Raised(AttributeError);
        case MissingSong => return Raised(KeyError);
        case LoadedSong(song) =>
          if song.name !in model.stack.objects {
            return Raised(KeyError);
          }
          var stack := model.stack.objects[song.name];
          stack.CreateLayer(name);
          outcome := Raised(AttributeError);
    }

    /** `remove_layer`: removes the named layer from the loaded stack, then
        `reload_layer_plot` calls `add_plot_layer` for every layer left,
        and the first such call raises AttributeError on
        `self.model.loaded_stack`, as in `add_layer`. */
    method RemoveLayer(answer: Option<string>) returns (outcome: Outcome)
      modifies model.stack.objects.Values
      ensures model.stack.objects == old(model.stack.objects)
      ensures model.stack.loadedStack.None? || model.stack.loadedStack.value !in model.stack.objects ==>
                outcome == Raised(KeyError)
      ensures model.stack.loadedStack.Some? && model.stack.loadedStack.value in model.stack.objects ==>
                var stack := model.stack.objects[model.stack.loadedStack.value];
                && (answer.None? || answer.value !in Names(old(stack.layers)) ==> outcome == Raised(TypeError))
                && (answer.Some? && answer.value in Names(old(stack.layers)) ==>
                      && stack.layers == RemoveAt(old(stack.layers), LayerIndex(old(stack.layers), answer.value).value)
                      && outcome == (if stack.layers == [] then Ok else Raised(AttributeError)))
      ensures !(&& model.stack.loadedStack.Some? && model.stack.loadedStack.value in model.stack.objects
                && answer.Some? && answer.value in Names(old(model.stack.objects[model.stack.loadedStack.value].layers))) ==>
                forall s :: s in model.stack.objects.Values ==> s.layers == old(s.layers)
      ensures model.stack.loadedStack.Some? && model.stack.loadedStack.value in model.stack.objects ==>
                forall s :: s in model.stack.objects.Values && s != model.stack.objects[model.stack.loadedStack.value] ==> s.layers == old(s.layers)
      ensures forall s :: s in model.stack.objects.Values ==> s.frameQty == old(s.frameQty)
    {
      var loadedStack := model.stack.loadedStack;
      if loadedStack.None? || loadedStack.value !in model.stack.objects {
        return Raised(KeyError);
      }
      var stack := model.stack.objects[loadedStack.value];
      if answer.None? {
        return Raised(TypeError);
      }
      outcome := stack.RemoveLayerFromModel(answer.value);
      if outcome == Ok && stack.layers != [] {
        outcome := Raised(AttributeError);
      }
    }
  }
}
