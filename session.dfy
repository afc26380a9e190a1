/** The application model of model.py: songs keyed by name, one layer stack
    per song, and the name of the loaded song. */
module Session {
  import opened Wrappers
  import opened FrameMath
  import LayerStore

  /** SongItem with the audio decoding replaced by its measured length. */
  datatype Song = Song(name: string, path: string, lengthMs: real, frameQty: int)

  /** `build_song_object` / `SongItem(name, path)`: the frame count is the
      length in seconds times PROJECT_FPS, rounded to nearest-even. */
  function BuildSong(path: string, name: string, lengthMs: real): (s: Song)
    ensures s.name == name && s.path == path && s.lengthMs == lengthMs
    ensures -0.5 <= lengthMs * 0.03 - s.frameQty as real <= 0.5
  {
    Song(name, path, lengthMs, RoundedFrameQty(lengthMs))
  }

  /** The song dictionary as an insertion-ordered key list and a map: every
      key listed once, and every song stored under its own name. */
  ghost predicate SongTable(order: seq<string>, objects: map<string, Song>)
  {
    && (forall i, j :: 0 <= i < j < |order| ==> order[i] != order[j])
    && (forall k :: k in order <==> k in objects)
    && (forall k :: k in objects ==> objects[k].name == k)
  }

  /** `objects[song.name] = song`: a new name goes to the end of the key
      order, a known name keeps its place and its song is replaced. */
  function WithSong(order: seq<string>, objects: map<string, Song>, s: Song): (r: (seq<string>, map<string, Song>))
    ensures r.1 == objects[s.name := s]
    ensures s.name in objects ==> r.0 == order
    ensures s.name !in objects ==> r.0 == order + [s.name]
  {
    (if s.name in objects then order else order + [s.name], objects[s.name := s])
  }

  lemma WithSongKeepsTable(order: seq<string>, objects: map<string, Song>, s: Song)
    requires SongTable(order, objects)
    ensures SongTable(WithSong(order, objects, s).0, WithSong(order, objects, s).1)
    ensures |WithSong(order, objects, s).0| == |order| + (if s.name in objects then 0 else 1)
  {
  }

  class SongModel {
    var order: seq<string>
    var objects: map<string, Song>
    var loadedSong: Option<string>

    ghost predicate Valid()
      reads this
    {
      SongTable(order, objects)
    }

    constructor ()
      ensures Valid()
      ensures order == [] && objects == map[] && loadedSong == None
    {
      order := [];
      objects := map[];
      loadedSong := None;
    }

    method AddSongObjectToModel(song: Song)
      requires Valid()
      modifies this
      ensures Valid()
      ensures (order, objects) == WithSong(old(order), old(objects), song)
      ensures loadedSong == old(loadedSong)
    {
      WithSongKeepsTable(order, objects, song);
      if song.name !in objects {
        order := order + [song.name];
      }
      objects := objects[song.name := song];
    }

    method SetLoadedSong(name: Option<string>)
      modifies this
      ensures loadedSong == name && order == old(order) && objects == old(objects)
    {
      loadedSong := name;
    }
  }

  class StackModel {
    var objects: map<string, LayerStore.LayerModel>
    var loadedStack: Option<string>

    constructor ()
      ensures objects == map[] && loadedStack == None
    {
      objects := map[];
      loadedStack := None;
    }

    /** `create_stack`: a fresh, empty layer list under the name, replacing
        any stack already there. */
    method CreateStack(name: string)
      modifies this
      ensures name in objects && fresh(objects[name])
      ensures objects[name].layers == [] && objects[name].frameQty == None
      ensures objects == old(objects)[name := objects[name]]
      ensures loadedStack == old(loadedStack)
    {
      var stack := new LayerStore.LayerModel();
      objects := objects[name := stack];
    }

    /** `set_frame_qty`: only that stack's frame count changes; an unknown
        name raises KeyError. */
    method SetFrameQty(name: string, frameQty: int) returns (outcome: Outcome)
      modifies if name in objects then {objects[name]} else {}
      ensures name !in objects ==> outcome == Raised(KeyError)
      ensures name in objects ==> outcome == Ok && objects[name].frameQty == Some(frameQty)
                                  && objects[name].layers == old(objects[name].layers)
    {
      if name !in objects {
        return Raised(KeyError);
      }
      objects[name].SetFrameQty(Some(frameQty));
      outcome := Ok;
    }

    method SetLoadedStack(name: Option<string>)
      modifies this
      ensures loadedStack == name && objects == old(objects)
    {
      loadedStack := name;
    }
  }

  /** What reading `MainModel.loaded_song` gives: nothing when no name is
      loaded (None or the empty string), the song, or KeyError. */
  datatype SongLookup = NoSongLoaded | LoadedSong(song: Song) | MissingSong

  function LookupLoadedSong(objects: map<string, Song>, loaded: Option<string>): (r: SongLookup)
    ensures r.NoSongLoaded? <==> loaded.None? || loaded.value == ""
    ensures r.LoadedSong? ==> loaded.Some? && loaded.value in objects && r.song == objects[loaded.value]
    ensures r.MissingSong? ==> loaded.Some? && loaded.value !in objects
  {
    if loaded.None? || loaded.value == "" then NoSongLoaded
    else if loaded.value in objects then LoadedSong(objects[loaded.value])
    else MissingSong
  }

  /** In a valid song table the loaded song carries the loaded name. */
  lemma LoadedSongHasLoadedName(order: seq<string>, objects: map<string, Song>, loaded: Option<string>)
    requires SongTable(order, objects)
    requires LookupLoadedSong(objects, loaded).LoadedSong?
    ensures LookupLoadedSong(objects, loaded).song.name == loaded.value
  {
  }

  class MainModel {
    var projectName: Option<string>
    const song: SongModel
    const stack: StackModel

    constructor ()
      ensures fresh(song) && fresh(stack) && song.Valid()
      ensures song.objects == map[] && song.loadedSong == None
      ensures stack.objects == map[] && stack.loadedStack == None
      ensures projectName == None
    {
      projectName := None;
      song := new SongModel();
      stack := new StackModel();
    }

    /** The `loaded_song` property. */
    function LoadedSong(): (r: SongLookup)
      reads song
      ensures r == LookupLoadedSong(song.objects, song.loadedSong)
    {
      LookupLoadedSong(song.objects, song.loadedSong)
    }
  }
}
