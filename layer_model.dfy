/** The per-stack ordered list of layers (model/stack/LayerModel.py). A layer
    is the stack revision's EventModel with the `name` and `index` attributes
    that LayerModel reads and writes, held here as a record. */
module LayerStore {
  import opened Wrappers
  import opened PyList
  import opened EventStore

  datatype Layer = Layer(
    name: string,
    index: Option<int>,
    layerName: Option<string>,
    layerNumber: Option<int>,
    objects: Frames)

  /** The layer `add_layer_to_model` means to create: named, unnumbered, empty. */
  function NewLayer(name: string): Layer
  {
    Layer(name, None, None, None, map[])
  }

  function Names(layers: seq<Layer>): (r: seq<string>)
    ensures |r| == |layers|
    ensures forall i :: 0 <= i < |layers| ==> r[i] == layers[i].name
  {
    seq(|layers|, i requires 0 <= i < |layers| => layers[i].name)
  }

  /** `{layer.name: index for index, layer in enumerate(layers)}`: built in
      list order, so a later layer with the same name overwrites the entry. */
  function NameIndex(layers: seq<Layer>): map<string, nat>
  {
    if |layers| == 0 then map[]
    else NameIndex(layers[..|layers| - 1])[layers[|layers| - 1].name := |layers| - 1]
  }

  /** The name table maps a name exactly to its last position. */
  lemma {:induction false} NameIndexIsLastMatch(layers: seq<Layer>, name: string)
    ensures name in NameIndex(layers) <==> name in Names(layers)
    ensures name in NameIndex(layers) ==>
              var k := NameIndex(layers)[name];
              && k < |layers| && layers[k].name == name
              && forall j :: k < j < |layers| ==> layers[j].name != name
  {
    if |layers| > 0 {
      var init := layers[..|layers| - 1];
      NameIndexIsLastMatch(init, name);
      if layers[|layers| - 1].name != name {
        assert Names(layers) == Names(init) + [layers[|layers| - 1].name];
      } else {
        assert Names(layers)[|layers| - 1] == name;
      }
    }
  }

  /** `get_layer_index`: the index of the LAST layer with that name, or None. */
  function LayerIndex(layers: seq<Layer>, name: string): (r: Option<nat>)
    ensures r.None? <==> name !in Names(layers)
    ensures r.Some? ==> r.value < |layers| && layers[r.value].name == name
    ensures r.Some? ==> forall j :: r.value < j < |layers| ==> layers[j].name != name
  {
    NameIndexIsLastMatch(layers, name);
    var table := NameIndex(layers);
    if name in table then Some(table[name]) else None
  }

  /** With a repeated name this revision's lookup (last match) and the
      earlier one in model.py (first match) pick different layers. */
  lemma RevisionsDisagreeOnDuplicates(layers: seq<Layer>, name: string, i: nat, j: nat)
    requires i < j < |layers| && layers[i].name == name && layers[j].name == name
    ensures LayerIndex(layers, name).Some? && FirstIndex(Names(layers), name).Some?
    ensures FirstIndex(Names(layers), name).value <= i < j <= LayerIndex(layers, name).value
  {
    assert Names(layers)[i] == name;
  }

  /** `update_layer_indices`: every layer's `index` becomes its position. */
  function Renumbered(layers: seq<Layer>): (r: seq<Layer>)
    ensures |r| == |layers|
    ensures forall i :: 0 <= i < |r| ==> r[i].index == Some(i)
    ensures forall i :: 0 <= i < |r| ==> r[i].(index := None) == layers[i].(index := None)
  {
    seq(|layers|, i requires 0 <= i < |layers| => layers[i].(index := Some(i)))
  }

  /** A layer with its position forgotten: what renumbering cannot change. */
  function Unindexed(layers: seq<Layer>): (r: seq<Layer>)
    ensures |r| == |layers|
    ensures forall i :: 0 <= i < |r| ==> r[i].index == None
  {
    seq(|layers|, i requires 0 <= i < |layers| => layers[i].(index := None))
  }

  lemma RenumberedOnlyRenumbers(layers: seq<Layer>)
    ensures Unindexed(Renumbered(layers)) == Unindexed(layers)
  {
  }

  /** The intended `move_layer_to_index` once layer `k` is found: take it
      out, insert it at `newIndex` (with `list.insert` clipping), renumber. */
  function Moved(layers: seq<Layer>, k: nat, newIndex: int): (r: seq<Layer>)
    requires k < |layers|
    ensures |r| == |layers|
    ensures r[InsertPosition(newIndex, |layers| - 1)].(index := None) == layers[k].(index := None)
  {
    Renumbered(InsertAt(RemoveAt(layers, k), newIndex, layers[k]))
  }

  /** Moving a layer keeps every layer, only reordered and renumbered. */
  lemma MovePermutes(layers: seq<Layer>, k: nat, newIndex: int)
    requires k < |layers|
    ensures multiset(Unindexed(Moved(layers, k, newIndex))) == multiset(Unindexed(layers))
  {
    var u := Unindexed(layers);
    var removed := RemoveAt(layers, k);
    var inserted := InsertAt(removed, newIndex, layers[k]);
    RenumberedOnlyRenumbers(inserted);
    UnindexedRemoveAt(layers, k);
    UnindexedInsertAt(removed, newIndex, layers[k]);
    RemoveInsertPermutes(u, k, newIndex);
  }

  lemma UnindexedRemoveAt(layers: seq<Layer>, k: nat)
    requires k < |layers|
    ensures Unindexed(RemoveAt(layers, k)) == RemoveAt(Unindexed(layers), k)
  {
  }

  lemma UnindexedInsertAt(layers: seq<Layer>, i: int, l: Layer)
    ensures Unindexed(InsertAt(layers, i, l)) == InsertAt(Unindexed(layers), i, l.(index := None))
  {
    var p := InsertPosition(i, |layers|);
    var a, b := Unindexed(InsertAt(layers, i, l)), InsertAt(Unindexed(layers), i, l.(index := None));
    assert forall j :: 0 <= j < |a| ==> a[j] == b[j] by {
      forall j | 0 <= j < |a|
        ensures a[j] == b[j]
      {
        if j < p {
          assert InsertAt(layers, i, l)[j] == layers[j];
        } else if j > p {
          assert InsertAt(layers, i, l)[j] == layers[j - 1];
        }
      }
    }
  }

  /** The intended `update_event` on one layer's map: the old frame is left
      as a `None` tombstone and the new frame gets `add`'s default event. */
  function Retimed(l: Layer, from: int, to: int): (r: Frames)
    requires from in l.objects
    ensures from in r && r[from] == None
    ensures to in r
    ensures r.Keys == l.objects.Keys + {to}
    ensures to != from && to !in l.objects ==>
              r[to] == Some(NewEvent(l.layerName, l.layerNumber, to, None, None))
    ensures forall k :: k in l.objects && k != from ==> r[k] == l.objects[k]
  {
    Added(l.objects[from := None], l.layerName, l.layerNumber, to, None, None, "event")
  }

  /** `move_layer_to_index` as written: its search subscripts each layer with
      `layer["layer_name"]`, which an EventModel does not support, so any
      non-empty list raises TypeError before anything moves. */
  function MoveAsWritten(layers: seq<Layer>, name: string, newIndex: int): (r: Option<seq<Layer>>)
  {
    if |layers| == 0 then Some(layers) else None
  }

  lemma MoveAsWrittenNeverMoves(layers: seq<Layer>, name: string, newIndex: int)
    requires name in Names(layers)
    ensures MoveAsWritten(layers, name, newIndex) == None
    ensures FirstIndex(Names(layers), name).Some?
  {
  }

  /** `add_layer_to_model` as written: `EventModel(layer_name)` passes an
      argument to a constructor that takes none, so it raises TypeError
      whatever the index. */
  function AddLayerAsWritten(layers: seq<Layer>, name: string, index: Option<int>): (r: Option<seq<Layer>>)
  {
    None
  }

  /** Adding a layer as written never grows the list, while the intended
      version always adds exactly the new layer. */
  lemma AddLayerAsWrittenNeverAdds(layers: seq<Layer>, name: string, index: Option<int>)
    ensures AddLayerAsWritten(layers, name, index) == None
    ensures index.Some? ==>
              var r := Renumbered(InsertAt(layers, index.value, NewLayer(name)));
              |r| == |layers| + 1 && r[InsertPosition(index.value, |layers|)].name == name
  {
  }

  class LayerModel {
    var layers: seq<Layer>
    var frameQty: Option<int>

    constructor ()
      ensures layers == [] && frameQty == None
    {
      layers := [];
      frameQty := None;
    }

    method GetLayerIndex(name: string) returns (r: Option<nat>)
      ensures r == LayerIndex(layers, name)
    {
      r := LayerIndex(layers, name);
    }

    method GetLayerQty() returns (n: nat)
      ensures n == |layers|
    {
      n := |layers|;
    }

    /** The intended `add_layer_to_model`: append without renumbering, or
        insert and renumber every layer. */
    method AddLayerToModel(name: string, index: Option<int> := None)
      modifies this
      ensures index.None? ==> layers == old(layers) + [NewLayer(name)]
      ensures index.Some? ==> layers == Renumbered(InsertAt(old(layers), index.value, NewLayer(name)))
      ensures frameQty == old(frameQty)
    {
      var layer := NewLayer(name);
      if index.None? {
        layers := layers + [layer];
      } else {
        layers := InsertAt(layers, index.value, layer);
        UpdateLayerIndices();
      }
    }

    method CreateLayer(name: string)
      modifies this
      ensures layers == old(layers) + [NewLayer(name)]
      ensures frameQty == old(frameQty)
    {
      AddLayerToModel(name);
    }

    /** Replaces the named layer's event map; an unknown name subscripts the
        list with None. */
    method SetEventData(name: string, data: Frames) returns (outcome: Outcome)
      modifies this
      ensures name !in Names(old(layers)) ==> outcome == Raised(TypeError) && layers == old(layers)
      ensures name in Names(old(layers)) ==>
                var k := LayerIndex(old(layers), name).value;
                outcome == Ok && layers == old(layers)[k := old(layers)[k].(objects := data)]
      ensures frameQty == old(frameQty)
    {
      var index := LayerIndex(layers, name);
      if index.None? {
        return Raised(TypeError);
      }
      layers := layers[index.value := layers[index.value].(objects := data)];
      outcome := Ok;
    }

    /** Deletes the named layer; the others keep their old `index` values. */
    method RemoveLayerFromModel(name: string) returns (outcome: Outcome)
      modifies this
      ensures name !in Names(old(layers)) ==> outcome == Raised(TypeError) && layers == old(layers)
      ensures name in Names(old(layers)) ==>
                outcome == Ok && layers == RemoveAt(old(layers), LayerIndex(old(layers), name).value)
      ensures frameQty == old(frameQty)
    {
      var index := LayerIndex(layers, name);
      if index.None? {
        return Raised(TypeError);
      }
      layers := RemoveAt(layers, index.value);
      outcome := Ok;
    }

    /** The intended `move_layer_to_index`: the first layer with the name is
        moved; an unknown name changes nothing. */
    method MoveLayerToIndex(name: string, newIndex: int)
      modifies this
      ensures FirstIndex(Names(old(layers)), name).None? ==> layers == old(layers)
      ensures FirstIndex(Names(old(layers)), name).Some? ==>
                layers == Moved(old(layers), FirstIndex(Names(old(layers)), name).value, newIndex)
      ensures frameQty == old(frameQty)
    {
      var found := FirstIndex(Names(layers), name);
      if found.Some? {
        var layer := layers[found.value];
        layers := RemoveAt(layers, found.value);
        layers := InsertAt(layers, newIndex, layer);
        UpdateLayerIndices();
      }
    }

    method UpdateLayerIndices()
      modifies this
      ensures layers == Renumbered(old(layers))
      ensures frameQty == old(frameQty)
    {
      var i := 0;
      while i < |layers|
        invariant 0 <= i <= |layers| == |old(layers)|
        invariant forall j :: 0 <= j < i ==> layers[j] == old(layers)[j].(index := Some(j))
        invariant forall j :: i <= j < |layers| ==> layers[j] == old(layers)[j]
        invariant frameQty == old(frameQty)
      {
        layers := layers[i := layers[i].(index := Some(i))];
        i := i + 1;
      }
    }

    method SetFrameQty(qty: Option<int>)
      modifies this
      ensures frameQty == qty && layers == old(layers)
    {
      frameQty := qty;
    }

    /** `update_event`: reads the event at `from` (KeyError when absent),
        tombstones `from`, adds a default event at `to`, and then calls
        `edit`, which EventModel does not define, so it always ends in
        AttributeError with the first two steps already done. */
    method UpdateEvent(layerIndex: int, from: int, to: int) returns (outcome: Outcome)
      modifies this
      ensures ResolveIndex(layerIndex, |old(layers)|).None? ==>
                outcome == Raised(IndexError) && layers == old(layers)
      ensures ResolveIndex(layerIndex, |old(layers)|).Some? ==>
                var k := ResolveIndex(layerIndex, |old(layers)|).value;
                && (from !in old(layers)[k].objects ==> outcome == Raised(KeyError) && layers == old(layers))
                && (from in old(layers)[k].objects ==>
                      outcome == Raised(AttributeError)
                      && layers == old(layers)[k := old(layers)[k].(objects := Retimed(old(layers)[k], from, to))])
      ensures frameQty == old(frameQty)
    {
      var k := ResolveIndex(layerIndex, |layers|);
      if k.None? {
        return Raised(IndexError);
      }
      var layer := layers[k.value];
      if from !in layer.objects {
        return Raised(KeyError);
      }
      layer := layer.(objects := layer.objects[from := None]);
      layer := layer.(objects := Added(layer.objects, layer.layerName, layer.layerNumber, to, None, None, "event"));
      layers := layers[k.value := layer];
      outcome := Raised(AttributeError);
    }
  }
}
