/** The earlier layer list and event store in model.py: a first-match name
    lookup and an `add` that always overwrites. */
module LegacyLayers {
  import opened Wrappers
  import opened PyList

  /** model.py's EventItem: a name and a colour triple. */
  datatype LegacyEventItem = LegacyEventItem(name: string, color: (int, int, int))

  /** `EventItem()` with its default arguments. */
  const DefaultItem: LegacyEventItem := LegacyEventItem("Default", (255, 255, 255))

  /** model.py's EventModel: one layer, named once at construction. */
  class LegacyEventModel {
    const name: string
    var objects: map<int, LegacyEventItem>

    constructor (name: string)
      ensures this.name == name && objects == map[]
    {
      this.name := name;
      objects := map[];
    }

    /** `add`: stores a fresh default item at the frame, replacing any
        item already there. */
    method Add(frame: int)
      modifies this
      ensures objects == old(objects)[frame := DefaultItem]
    {
      objects := objects[frame := DefaultItem];
    }
  }

  /** The layer names, in list order. */
  function NamesOf(layers: seq<LegacyEventModel>): (r: seq<string>)
    ensures |r| == |layers|
    ensures forall i :: 0 <= i < |layers| ==> r[i] == layers[i].name
  {
    seq(|layers|, i requires 0 <= i < |layers| => layers[i].name)
  }

  /** Adding twice at one frame leaves one default item there, whatever
      was stored before: this revision never refuses an occupied frame. */
  lemma AddOverwrites(m: map<int, LegacyEventItem>, frame: int, previous: LegacyEventItem)
    ensures m[frame := previous][frame := DefaultItem] == m[frame := DefaultItem]
    ensures frame in m ==> |m[frame := DefaultItem]| == |m|
  {
  }

  class LegacyLayerModel {
    var layers: seq<LegacyEventModel>

    constructor ()
      ensures layers == []
    {
      layers := [];
    }

    /** `get_layer_index`: scans from the front and returns the FIRST
        index whose layer has the name, or None. */
    method GetLayerIndex(layerName: string) returns (r: Option<nat>)
      ensures r.None? <==> layerName !in NamesOf(layers)
      ensures r.Some? ==> r.value < |layers| && layers[r.value].name == layerName
      ensures r.Some? ==> forall j :: 0 <= j < r.value ==> layers[j].name != layerName
    {
      var index := 0;
      while index < |layers|
        invariant 0 <= index <= |layers|
        invariant forall j :: 0 <= j < index ==> layers[j].name != layerName
      {
        if layers[index].name == layerName {
          return Some(index);
        }
        index := index + 1;
      }
      return None;
    }
  }

  /** The first-match scan agrees with the generic first-index search. */
  lemma FirstMatchIsFirstIndex(layers: seq<LegacyEventModel>, layerName: string, k: nat)
    requires k < |layers| && layers[k].name == layerName
    requires forall j :: 0 <= j < k ==> layers[j].name != layerName
    ensures FirstIndex(NamesOf(layers), layerName) == Some(k)
  {
    var names := NamesOf(layers);
    assert layerName !in names[..k];
  }
}
