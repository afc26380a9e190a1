/** Song intake (controller/SongController.py) and the song selector
    (controller/SongSelectController.py): the song-name check, the
    automatic loading of the first song, and the order of the selector's
    entries. File and name dialogs are parameters; the audio decoding that
    measures a song is its `lengthMs` argument. */
module SongIntake {
  import opened Wrappers
  import opened Session
  import LayerStore

  /** A character the name pattern `[a-zA-Z0-9_ -]` admits. */
  predicate NameChar(c: char)
  {
    || ('a' <= c <= 'z')
    || ('A' <= c <= 'Z')
    || ('0' <= c <= '9')
    || c == '_' || c == ' ' || c == '-'
  }

  predicate AllNameChars(s: string)
  {
    forall i :: 0 <= i < |s| ==> NameChar(s[i])
  }

  /** `re.match("^[a-zA-Z0-9_ -]+$", name)`: one or more name characters,
      and Python's `$` also matches just before one final newline. */
  predicate ValidSongName(s: string)
  {
    || (|s| > 0 && AllNameChars(s))
    || (|s| > 1 && s[|s| - 1] == '\n' && AllNameChars(s[..|s| - 1]))
  }

  /** The pattern as a scanner: state 0 has read nothing, state 1 has read
      at least one name character, state 2 has read the newline after them. */
  function Scan(s: string, state: nat): (accepted: bool)
    requires state <= 2
    decreases |s|
  {
    if |s| == 0 then state >= 1
    else if state == 2 then false
    else if NameChar(s[0]) then Scan(s[1..], 1)
    else if s[0] == '\n' && state == 1 then Scan(s[1..], 2)
    else false
  }

  lemma {:induction false} ScanInBody(s: string)
    ensures Scan(s, 1) <==> AllNameChars(s) || (|s| > 0 && s[|s| - 1] == '\n' && AllNameChars(s[..|s| - 1]))
    decreases |s|
  {
    if |s| > 0 {
      ScanInBody(s[1..]);
      if |s| > 1 {
        assert s[1..][..|s[1..]| - 1] == s[..|s| - 1][1..];
      }
      if NameChar(s[0]) {
        if AllNameChars(s[1..]) {
          assert AllNameChars(s) by {
            forall i | 0 <= i < |s| ensures NameChar(s[i]) {
              if i > 0 { assert s[i] == s[1..][i - 1]; }
            }
          }
        }
        if |s| > 1 && s[|s| - 1] == '\n' && AllNameChars(s[1..][..|s| - 2]) {
          var init, tail := s[..|s| - 1], s[1..][..|s| - 2];
          assert AllNameChars(init) by {
            forall i | 0 <= i < |init| ensures NameChar(init[i]) {
              if i > 0 { assert init[i] == tail[i - 1]; }
            }
          }
        }
        if AllNameChars(s) {
          assert AllNameChars(s[1..]) by {
            forall i | 0 <= i < |s| - 1 ensures NameChar(s[1..][i]) {
              assert s[1..][i] == s[i + 1];
            }
          }
        }
        if |s| > 1 && AllNameChars(s[..|s| - 1]) {
          var init, tail := s[..|s| - 1], s[1..][..|s| - 2];
          assert AllNameChars(tail) by {
            forall i | 0 <= i < |tail| ensures NameChar(tail[i]) {
              assert tail[i] == init[i + 1];
            }
          }
        }
      } else {
        assert !NameChar(s[0]);
        if |s| > 1 {
          assert s[..|s| - 1][0] == s[0];
        }
        if s[0] == '\n' {
          if |s[1..]| > 0 {
            assert !Scan(s[1..], 2);
          }
        }
      }
    }
  }

  /** The name check agrees with the pattern read character by character. */
  lemma ValidSongNameIsPattern(s: string)
    ensures ValidSongName(s) <==> Scan(s, 0)
  {
    if |s| > 0 {
      ScanInBody(s[1..]);
      ScanInBody(s);
      if |s| == 1 && s[0] == '\n' {
        assert !AllNameChars(s) by { assert !NameChar(s[0]); }
      }
    }
  }

  /** Names the check admits, and ones it refuses. */
  lemma NameExamples()
    ensures ValidSongName("My Song-2_b")
    ensures ValidSongName("track\n")
    ensures !ValidSongName("")
    ensures !ValidSongName("\n")
    ensures !ValidSongName("bad/name")
  {
    assert !NameChar("bad/name"[3]);
    assert "bad/name"[..7][3] == '/';
    assert !NameChar("\n"[0]);
  }

  /** Every song name in model order, except the loaded one. */
  function Without(order: seq<string>, loaded: Option<string>): (r: seq<string>)
    ensures |r| <= |order|
    ensures forall x :: x in r <==> x in order && (loaded.None? || x != loaded.value)
    decreases |order|
  {
    if |order| == 0 then []
    else
      var last := order[|order| - 1];
      Without(order[..|order| - 1], loaded)
      + (if loaded.None? || last != loaded.value then [last] else [])
  }

  /** The selector's entries after `generate_dropdown_items`: the loaded
      song's name first when it is a non-empty name, then every other song
      name once, in model order. */
  function DropdownEntries(loaded: Option<string>, order: seq<string>): seq<string>
  {
    (if loaded.Some? && loaded.value != "" then [loaded.value] else []) + Without(order, loaded)
  }

  /** The `generate_dropdown_items` of project.py: no first-call flag, and
      the loaded name is listed first whenever it is not None, even when it
      is empty. */
  function ProjectDropdownEntries(loaded: Option<string>, order: seq<string>): (r: seq<string>)
    ensures loaded.Some? ==> |r| > 0 && r[0] == loaded.value
    ensures loaded.None? ==> r == order
  {
    WithoutNothing(order);
    (if loaded.Some? then [loaded.value] else []) + Without(order, loaded)
  }

  lemma {:induction false} WithoutNothing(order: seq<string>)
    ensures Without(order, None) == order
    decreases |order|
  {
    if |order| > 0 {
      WithoutNothing(order[..|order| - 1]);
      assert order[..|order| - 1] + [order[|order| - 1]] == order;
    }
  }

  /** The two revisions list the same entries except when the loaded name
      is the empty string, which only the earlier one puts first. */
  lemma DropdownRevisionsDifferOnlyOnEmptyName(loaded: Option<string>, order: seq<string>)
    ensures loaded != Some("") ==> ProjectDropdownEntries(loaded, order) == DropdownEntries(loaded, order)
    ensures ProjectDropdownEntries(Some(""), order) == [""] + DropdownEntries(Some(""), order)
  {
  }

  predicate Distinct(s: seq<string>)
  {
    forall i, j :: 0 <= i < j < |s| ==> s[i] != s[j]
  }

  lemma {:induction false} WithoutKeepsDistinct(order: seq<string>, loaded: Option<string>)
    requires Distinct(order)
    ensures Distinct(Without(order, loaded))
    decreases |order|
  {
    if |order| > 0 {
      var init := order[..|order| - 1];
      var last := order[|order| - 1];
      assert Distinct(init);
      WithoutKeepsDistinct(init, loaded);
      assert last !in init;
    }
  }

  /** With the loaded name in the song table, the selector lists it first
      and lists every song exactly once. */
  lemma DropdownListsEachSongOnce(order: seq<string>, objects: map<string, Song>, loaded: string)
    requires SongTable(order, objects) && loaded in objects && loaded != ""
    ensures DropdownEntries(Some(loaded), order)[0] == loaded
    ensures forall x :: x in DropdownEntries(Some(loaded), order) <==> x in objects
    ensures Distinct(DropdownEntries(Some(loaded), order))
    ensures |DropdownEntries(Some(loaded), order)| == |order|
  {
    var rest := Without(order, Some(loaded));
    WithoutKeepsDistinct(order, Some(loaded));
    assert Distinct(order);
    DistinctCount(order, rest, loaded);
  }

  /** A distinct list that loses exactly one of its members is one shorter. */
  lemma {:induction false} DistinctCount(order: seq<string>, rest: seq<string>, loaded: string)
    requires Distinct(order) && rest == Without(order, Some(loaded)) && loaded in order
    ensures |rest| == |order| - 1
    decreases |order|
  {
    var init := order[..|order| - 1];
    var last := order[|order| - 1];
    if last == loaded {
      assert loaded !in init;
      WithoutAbsent(init, loaded);
    } else {
      assert loaded in init;
      DistinctCount(init, Without(init, Some(loaded)), loaded);
    }
  }

  lemma {:induction false} WithoutAbsent(order: seq<string>, loaded: string)
    requires loaded !in order
    ensures Without(order, Some(loaded)) == order
    decreases |order|
  {
    if |order| > 0 {
      var init, last := order[..|order| - 1], order[|order| - 1];
      assert last != loaded;
      WithoutAbsent(init, loaded);
      calc {
        Without(order, Some(loaded));
        Without(init, Some(loaded)) + [last];
        init + [last];
        { assert init + [last] == order; }
        order;
      }
    }
  }

  /** Qt's `itemText`: the empty string for an index with no item. */
  function ItemText(items: seq<string>, index: int): (t: string)
    ensures 0 <= index < |items| ==> t == items[index]
    ensures !(0 <= index < |items|) ==> t == ""
  {
    if 0 <= index < |items| then items[index] else ""
  }

  /** The name `generate_dropdown_items` puts first: the loaded song's name
      when the song resolves, nothing when none is loaded. */
  function LoadedName(lookup: SongLookup): Option<string>
  {
    if lookup.LoadedSong? then Some(lookup.song.name) else None
  }

  /** What a selection in the drop-down asks for. */
  datatype Selection = NoSelection | AlreadyLoaded | LoadRequested(name: string) | SelectionRaised(error: Exception)

  class SongSelectController {
    const model: MainModel
    var initialized: bool
    /** The entries of the drop-down selector, in order. */
    var items: seq<string>

    /** The constructor's own call to `generate_dropdown_items` only sets
        the flag. */
    constructor (model: MainModel)
      ensures this.model == model && initialized && items == []
    {
      this.model := model;
      initialized := false;
      items := [];
      initialized := true;
    }

    method GenerateDropdownItems() returns (outcome: Outcome)
      modifies this
      ensures !old(initialized) ==> initialized && items == old(items) && outcome == Ok
      ensures old(initialized) && model.LoadedSong().MissingSong? ==>
                initialized && items == old(items) && outcome == Raised(KeyError)
      ensures old(initialized) && !model.LoadedSong().MissingSong? ==>
                && initialized && outcome == Ok
                && items == old(items) + DropdownEntries(LoadedName(model.LoadedSong()), model.song.order)
    {
      if !initialized {
        initialized := true;
        return Ok;
      }
      var lookup := model.LoadedSong();
      if lookup.MissingSong? {
        return Raised(KeyError);
      }
      var loadedSongName := LoadedName(lookup);
      if loadedSongName.Some? && loadedSongName.value != "" {
        items := items + [loadedSongName.value];
      }
      ghost var head := items;
      var order := model.song.order;
      for i := 0 to |order|
        invariant initialized
        invariant items == head + Without(order[..i], loadedSongName)
      {
        assert order[..i + 1][..i] == order[..i];
        if loadedSongName.None? || order[i] != loadedSongName.value {
          items := items + [order[i]];
        }
      }
      assert order[..|order|] == order;
      outcome := Ok;
    }

    /** `refresh`: clear, then regenerate; entries never accumulate. */
    method Refresh() returns (outcome: Outcome)
      requires initialized
      modifies this
      ensures initialized
      ensures model.LoadedSong().MissingSong? ==> items == [] && outcome == Raised(KeyError)
      ensures !model.LoadedSong().MissingSong? ==>
                items == DropdownEntries(LoadedName(model.LoadedSong()), model.song.order) && outcome == Ok
    {
      items := [];
      outcome := GenerateDropdownItems();
    }

    /** `on_song_selected`: index -1 (an emptied selector) and the loaded
        song are ignored; with no song loaded the name lookup raises. */
    method OnSongSelected(index: int) returns (r: Selection)
      ensures index == -1 ==> r == NoSelection
      ensures index != -1 && model.LoadedSong().NoSongLoaded? ==> r == SelectionRaised(AttributeError)
      ensures index != -1 && model.LoadedSong().MissingSong? ==> r == SelectionRaised(KeyError)
      ensures index != -1 && model.LoadedSong().LoadedSong? ==>
                if ItemText(items, index) == model.LoadedSong().song.name then r == AlreadyLoaded
                else r == LoadRequested(ItemText(items, index))
    {
      if index == -1 {
        return NoSelection;
      }
      var selectedSong := ItemText(items, index);
      var lookup := model.LoadedSong();
      match lookup
      case NoSongLoaded => r := SelectionRaised(AttributeError);
      case MissingSong => r := SelectionRaised(KeyError);
      case LoadedSong(song) =>
        if selectedSong == song.name {
          r := AlreadyLoaded;
        } else {
          r := LoadRequested(selectedSong);
        }
    }
  }

  /** The steps of `load_song`, in order (controller/SongController.py:60-67). */
  datatype LoadStep =
    | ClearPlotWaveforms  // song_overview_controller.clear_plot_waveforms()
    | ClearPlotEvents     // event_controller.clear_plot_events()
    | SetLoadedNames      // loaded_song and loaded_stack := the name
    | OverviewRefresh     // song_overview_controller.refresh()
    | LayerRefresh        // layer_controller.refresh()
    | AudioRefresh        // audio_playback_controller.refresh()
    | SelectorRefresh     // song_select_controller.refresh()

  const LoadSongSteps: seq<LoadStep> :=
    [ClearPlotWaveforms, ClearPlotEvents, SetLoadedNames, OverviewRefresh, LayerRefresh, AudioRefresh, SelectorRefresh]

  /** Whether a step can run: the two assignments, and a method the
      controller wired in by controller/MainController.py defines.
      SongOverviewController defines neither `clear_plot_waveforms` nor
      `refresh`, EventController has no `clear_plot_events`, and neither
      LayerController nor AudioPlaybackController has `refresh`; only
      SongSelectController.refresh exists. */
  predicate Runs(step: LoadStep)
  {
    step == SetLoadedNames || step == SelectorRefresh
  }

  /** Runs steps in order until one calls a method that does not exist,
      which raises AttributeError: the steps that ran and the outcome. */
  function RunSteps(steps: seq<LoadStep>): (r: (seq<LoadStep>, Outcome))
    ensures |r.0| <= |steps| && r.0 == steps[..|r.0|]
    ensures forall i :: 0 <= i < |r.0| ==> Runs(r.0[i])
    ensures r.1 == Ok <==> r.0 == steps
    ensures r.1 != Ok ==> r.1 == Raised(AttributeError) && !Runs(steps[|r.0|])
  {
    if steps == [] then ([], Ok)
    else if !Runs(steps[0]) then ([], Raised(AttributeError))
    else
      var rest := RunSteps(steps[1..]);
      ([steps[0]] + rest.0, rest.1)
  }

  /** `load_song` as written raises AttributeError at its first call, before
      it sets the loaded song or stack and before it refreshes the selector;
      with the undefined calls dropped, the two assignments and the refresh
      all run. */
  lemma LoadSongAsWrittenNeverLoads()
    ensures RunSteps(LoadSongSteps) == ([], Raised(AttributeError))
    ensures SetLoadedNames !in RunSteps(LoadSongSteps).0 && SelectorRefresh !in RunSteps(LoadSongSteps).0
    ensures RunSteps([SetLoadedNames, SelectorRefresh]) == ([SetLoadedNames, SelectorRefresh], Ok)
  {
  }

  /** What `add_song` did. A song that was added may still end in the
      exception the selector's refresh raises, recorded in `refreshed`. */
  datatype Intake = NoFileSelected | InvalidName | SongAdded(autoloaded: bool, refreshed: Outcome) | IntakeRaised(error: Exception)

  class SongController {
    const model: MainModel
    const selector: SongSelectController

    ghost predicate Valid()
      reads this, model, model.song, selector
    {
      && selector.model == model
      && selector.initialized
      && model.song.Valid()
    }

    constructor (model: MainModel, selector: SongSelectController)
      requires selector.model == model && selector.initialized
      ensures this.model == model && this.selector == selector
    {
      this.model := model;
      this.selector := selector;
    }

    /** `load_song` as intended: the loaded song and stack names both become
        the name, then the selector is refreshed. The calls it makes to
        plot and audio controllers that lack those methods are dropped
        (see LoadSongAsWrittenNeverLoads). */
    method LoadSong(name: string) returns (outcome: Outcome)
      requires Valid()
      modifies model.song, model.stack, selector
      ensures Valid()
      ensures model.song.loadedSong == Some(name) && model.stack.loadedStack == Some(name)
      ensures model.song.order == old(model.song.order) && model.song.objects == old(model.song.objects)
      ensures model.stack.objects == old(model.stack.objects)
      ensures model.LoadedSong().MissingSong? ==> outcome == Raised(KeyError)
      ensures model.LoadedSong().MissingSong? <==> name != "" && name !in model.song.objects
      ensures !model.LoadedSong().MissingSong? ==>
                && outcome == Ok
                && selector.items == DropdownEntries(if name == "" then None else Some(name), model.song.order)
    {
      model.song.SetLoadedSong(Some(name));
      model.stack.SetLoadedStack(Some(name));
      outcome := selector.Refresh();
      if model.LoadedSong().LoadedSong? {
        LoadedSongHasLoadedName(model.song.order, model.song.objects, Some(name));
      }
    }

    /** The selector's signal wired to the controller: a requested song is
        loaded. */
    method SelectSong(index: int) returns (r: Selection, outcome: Outcome)
      requires Valid()
      modifies model.song, model.stack, selector
      ensures Valid()
      ensures r.LoadRequested? ==> outcome == Ok || outcome == Raised(KeyError)
      ensures r.LoadRequested? ==> model.song.loadedSong == Some(r.name) && model.stack.loadedStack == Some(r.name)
      ensures !r.LoadRequested? ==> model.song.loadedSong == old(model.song.loadedSong) && model.stack.loadedStack == old(model.stack.loadedStack)
      ensures r.SelectionRaised? ==> outcome == Raised(r.error)
    {
      r := selector.OnSongSelected(index);
      outcome := Ok;
      match r
      case LoadRequested(name) => outcome := LoadSong(name);
      case SelectionRaised(e) => outcome := Raised(e);
      case _ =>
    }

    /** `add_song` with the dialog answers as arguments: a missing file or
        a refused name change nothing; an accepted name adds the song and a
        stack of the same name holding its frame count, and the first song
        is loaded. */
    method AddSong(filePath: string, songName: Option<string>, lengthMs: real) returns (r: Intake)
      requires Valid()
      modifies model.song, model.stack, selector
      ensures Valid()
      ensures filePath == "" ==> r == NoFileSelected
      ensures filePath != "" && songName.None? ==> r == IntakeRaised(TypeError)
      ensures filePath != "" && songName.Some? && !ValidSongName(songName.value) ==> r == InvalidName
      ensures !r.SongAdded? ==>
                && model.song.order == old(model.song.order) && model.song.objects == old(model.song.objects)
                && model.song.loadedSong == old(model.song.loadedSong)
                && model.stack.objects == old(model.stack.objects) && model.stack.loadedStack == old(model.stack.loadedStack)
                && selector.items == old(selector.items)
      ensures filePath != "" && songName.Some? && ValidSongName(songName.value) ==>
                var name := songName.value;
                && r.SongAdded?
                && (model.song.order, model.song.objects) == WithSong(old(model.song.order), old(model.song.objects), BuildSong(filePath, name, lengthMs))
                && name in model.stack.objects && fresh(model.stack.objects[name])
                && model.stack.objects == old(model.stack.objects)[name := model.stack.objects[name]]
                && model.stack.objects[name].layers == []
                && model.stack.objects[name].frameQty == Some(model.song.objects[name].frameQty)
                && (r.autoloaded <==> old(model.song.loadedSong).None?)
                && (r.autoloaded ==> model.song.loadedSong == Some(name) && model.stack.loadedStack == Some(name)
                                     && r.refreshed == Ok
                                     && selector.items == DropdownEntries(Some(name), model.song.order))
                && (!r.autoloaded ==> model.song.loadedSong == old(model.song.loadedSong)
                                      && model.stack.loadedStack == old(model.stack.loadedStack))
                && (!r.autoloaded && model.LoadedSong().MissingSong? ==>
                      r.refreshed == Raised(KeyError) && selector.items == [])
                && (!r.autoloaded && !model.LoadedSong().MissingSong? ==>
                      r.refreshed == Ok
                      && selector.items == DropdownEntries(LoadedName(model.LoadedSong()), model.song.order))
    {
      if filePath == "" {
        return NoFileSelected;
      }
      if songName.None? {
        return IntakeRaised(TypeError);
      }
      var name := songName.value;
      if !ValidSongName(name) {
        return InvalidName;
      }
      var song := BuildSong(filePath, name, lengthMs);
      model.song.AddSongObjectToModel(song);
      model.stack.CreateStack(name);
      var stored := model.stack.SetFrameQty(name, model.song.objects[name].frameQty);
      if model.song.loadedSong == None {
        var loaded := LoadSong(name);
        r := SongAdded(true, loaded);
      } else {
        var refreshed := selector.Refresh();
        r := SongAdded(false, refreshed);
      }
    }
  }
}
