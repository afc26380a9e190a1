/** The per-layer event store: a dictionary from frame number to event
    record (model/stack/EventModel.py), with the record of one event
    (model/stack/EventItem.py folded in). */
module EventStore {
  import opened Wrappers

  /** An event colour: an RGB triple or a hex string. */
  datatype Color = Rgb(r: int, g: int, b: int) | Hex(code: string)

  /** Python truthiness of a colour argument: a 3-tuple is always true,
      a string only when non-empty. */
  predicate ColorTruthy(c: Color)
  {
    c.Rgb? || c.code != ""
  }

  /** EventItem defaults. */
  const DefaultName: string := "Default"
  const DefaultColor: Color := Rgb(255, 255, 255)

  datatype Event = Event(
    name: string,
    color: Color,
    parentLayerName: Option<string>,
    parentLayerNumber: Option<int>,
    frameNumber: int)

  /** A dictionary value: `None` is the tombstone that LayerModel.update_event
      writes; the store itself only ever writes events. */
  type Slot = Option<Event>

  type Frames = map<int, Slot>

  /** Every stored event carries the frame number it is keyed by. */
  predicate Stamped(m: Frames)
  {
    forall k :: k in m && m[k].Some? ==> m[k].value.frameNumber == k
  }

  /** The event `add` builds: defaults, the layer's back-reference, the frame,
      and the colour and name only when those arguments are truthy. */
  function NewEvent(layerName: Option<string>, layerNumber: Option<int>, frame: int,
                    color: Option<Color>, name: Option<string>): Event
  {
    Event(
      if name.Some? && name.value != "" then name.value else DefaultName,
      if color.Some? && ColorTruthy(color.value) then color.value else DefaultColor,
      layerName, layerNumber, frame)
  }

  /** `get_event`: the stored value, or None when the frame is absent. */
  function Lookup(m: Frames, frame: int): (r: Slot)
    ensures frame in m ==> r == m[frame]
    ensures frame !in m ==> r == None
    ensures Stamped(m) && r.Some? ==> r.value.frameNumber == frame
  {
    if frame in m then m[frame] else None
  }

  /** `add`: refuses an occupied frame (a tombstone counts as occupied) and
      ignores any `type` other than "event". */
  function Added(m: Frames, layerName: Option<string>, layerNumber: Option<int>, frame: int,
                 color: Option<Color>, name: Option<string>, kind: string): (r: Frames)
    ensures kind != "event" || frame in m ==> r == m
    ensures kind == "event" && frame !in m ==>
              && r.Keys == m.Keys + {frame}
              && |r| == |m| + 1
              && r[frame] == Some(NewEvent(layerName, layerNumber, frame, color, name))
              && forall k :: k in m ==> r[k] == m[k]
    ensures Stamped(m) ==> Stamped(r)
  {
    if kind == "event" && frame !in m then
      m[frame := Some(NewEvent(layerName, layerNumber, frame, color, name))]
    else
      m
  }

  /** `delete`: removes the key when present, otherwise a no-op. */
  function Deleted(m: Frames, frame: int): (r: Frames)
    ensures r.Keys == m.Keys - {frame}
    ensures forall k :: k in r ==> r[k] == m[k]
    ensures frame in m ==> |r| == |m| - 1
    ensures frame !in m ==> r == m
    ensures Stamped(m) ==> Stamped(r)
  {
    m - {frame}
  }

  /** `nudge_event`: the event moves to frame + amount with its frame number
      restamped; whatever was at the target is overwritten. */
  function Nudged(m: Frames, frame: int, amount: int): (r: Frames)
    requires frame in m && m[frame].Some?
    ensures frame + amount in r && r[frame + amount] == Some(m[frame].value.(frameNumber := frame + amount))
    ensures r.Keys == m.Keys - {frame} + {frame + amount}
    ensures amount != 0 ==> frame !in r
    ensures forall k :: k in m && k != frame && k != frame + amount ==> r[k] == m[k]
    ensures amount != 0 && frame + amount in m ==> |r| == |m| - 1
    ensures amount != 0 && frame + amount !in m ==> |r| == |m|
    ensures Stamped(m) ==> Stamped(r)
  {
    (m - {frame})[frame + amount := Some(m[frame].value.(frameNumber := frame + amount))]
  }

  /** Nudging by zero changes nothing in a stamped store. */
  lemma NudgeByZeroIsNoop(m: Frames, frame: int)
    requires Stamped(m) && frame in m && m[frame].Some?
    ensures Nudged(m, frame, 0) == m
  {
    assert m[frame].value.(frameNumber := frame) == m[frame].value;
  }

  /** A nudge onto an occupied frame destroys the event that was there: the
      store loses one entry although nothing was deleted. */
  lemma NudgeOntoOccupiedFrameOverwrites(m: Frames, frame: int, amount: int)
    requires frame in m && m[frame].Some? && amount != 0 && frame + amount in m
    ensures |Nudged(m, frame, amount)| == |m| - 1
  {
  }

  /** Every path of `nudge_event`: an absent frame raises KeyError before
      anything changes; a tombstone is deleted and `add` runs at the target,
      then setting the frame number of None raises AttributeError; an event
      is moved as `Nudged` says. */
  function NudgeAttempt(m: Frames, layerName: Option<string>, layerNumber: Option<int>,
                        frame: int, amount: int): (r: (Outcome, Frames))
    ensures frame !in m ==> r == (Raised(KeyError), m)
    ensures frame in m && m[frame].None? ==>
              r == (Raised(AttributeError), Added(Deleted(m, frame), layerName, layerNumber, frame + amount, None, None, "event"))
    ensures frame in m && m[frame].Some? ==> r == (Ok, Nudged(m, frame, amount))
    ensures Stamped(m) ==> Stamped(r.1)
  {
    if frame !in m then (Raised(KeyError), m)
    else if m[frame].None? then
      (Raised(AttributeError), Added(Deleted(m, frame), layerName, layerNumber, frame + amount, None, None, "event"))
    else (Ok, Nudged(m, frame, amount))
  }

  /** Nudging a tombstone onto a free frame drops the tombstone and leaves a
      default event at the target, although the call fails. */
  lemma NudgeTombstoneLeavesDefaultEvent(m: Frames, layerName: Option<string>, layerNumber: Option<int>,
                                         frame: int, amount: int)
    requires frame in m && m[frame].None? && amount != 0 && frame + amount !in m
    ensures var r := NudgeAttempt(m, layerName, layerNumber, frame, amount);
            && r.0 == Raised(AttributeError)
            && frame !in r.1
            && r.1[frame + amount] == Some(NewEvent(layerName, layerNumber, frame + amount, None, None))
            && |r.1| == |m|
  {
    var d := Deleted(m, frame);
    assert frame + amount !in d;
    assert |d| == |m| - 1;
  }

  /** `update_data`: an absent frame is a no-op; a present one is replaced by
      the given event, restamped with the key. */
  function UpdatedData(m: Frames, frame: int, data: Event): (r: Frames)
    ensures frame !in m ==> r == m
    ensures frame in m ==> r.Keys == m.Keys && r[frame] == Some(data.(frameNumber := frame))
    ensures forall k :: k in m && k != frame ==> r[k] == m[k]
    ensures Stamped(m) ==> Stamped(r)
  {
    if frame in m then m[frame := Some(data.(frameNumber := frame))] else m
  }

  /** What `add` does as written in model/stack/EventModel.py: on a free frame
      it calls `set_parent_layer_name`, which EventItem does not define, so it
      raises before storing anything. `None` stands for that exception. */
  function AddAsWritten(m: Frames, frame: int, kind: string): Option<Frames>
  {
    if kind != "event" || frame in m then Some(m) else None
  }

  lemma AddAsWrittenNeverStores(m: Frames, frame: int)
    requires frame !in m
    ensures AddAsWritten(m, frame, "event") == None
    ensures Added(m, None, None, frame, None, None, "event") != m
  {
    assert frame in Added(m, None, None, frame, None, None, "event");
  }

  /** What `nudge_event` does as written (model/stack/EventModel.py:32-40):
      once the frame is deleted, both paths raise AttributeError: the
      written `add` (AddAsWritten) raises on a free target, and on an
      occupied one `add` returns and the next lines raise, on a tombstone's
      `frame_number` or on `plot_data_item`, which the event item does not
      have. Either way the original frame is gone and nothing is stored. */
  function NudgeAsWritten(m: Frames, frame: int, amount: int): (r: (Outcome, Frames))
    ensures frame !in m ==> r == (Raised(KeyError), m)
    ensures frame in m ==> r.0 == Raised(AttributeError) && r.1.Keys == m.Keys - {frame}
    ensures forall k :: k in r.1 ==> k in m && r.1[k] == m[k]
  {
    if frame !in m then (Raised(KeyError), m)
    else
      (Raised(AttributeError), Deleted(m, frame))
  }

  /** On every stored event the written nudge fails and loses the event,
      while the intended one succeeds and keeps it at the target. */
  lemma NudgeAsWrittenLosesEvent(m: Frames, layerName: Option<string>, layerNumber: Option<int>,
                                 frame: int, amount: int)
    requires frame in m && m[frame].Some?
    ensures NudgeAsWritten(m, frame, amount).0 == Raised(AttributeError)
    ensures NudgeAttempt(m, layerName, layerNumber, frame, amount).0 == Ok
    ensures |NudgeAsWritten(m, frame, amount).1| == |m| - 1
    ensures frame + amount !in m ==> frame + amount !in NudgeAsWritten(m, frame, amount).1
    ensures NudgeAttempt(m, layerName, layerNumber, frame, amount).1[frame + amount]
            == Some(m[frame].value.(frameNumber := frame + amount))
  {
    var r := NudgeAsWritten(m, frame, amount);
    assert r.1 == Deleted(m, frame);
  }

  /** Storing at a key hides whether `add` had put a placeholder there. */
  lemma OverwriteHidesAdd(base: Frames, added: Frames, k: int, v: Slot)
    requires added.Keys <= base.Keys + {k}
    requires forall j :: j in base ==> j in added && added[j] == base[j]
    ensures added[k := v] == base[k := v]
  {
    var l, r := added[k := v], base[k := v];
    forall j | j in l
      ensures j in r && l[j] == r[j]
    {
    }
    forall j | j in r
      ensures j in l
    {
    }
    assert l.Keys == r.Keys;
  }

  /** One layer's event dictionary and its back-reference fields. */
  class EventModel {
    var objects: Frames
    var layerName: Option<string>
    var layerNumber: Option<int>

    ghost predicate Valid()
      reads this
    {
      Stamped(objects)
    }

    constructor ()
      ensures Valid()
      ensures objects == map[] && layerName == None && layerNumber == None
    {
      objects := map[];
      layerName := None;
      layerNumber := None;
    }

    method GetEvent(frameNumber: int) returns (r: Slot)
      requires Valid()
      ensures frameNumber in objects ==> r == objects[frameNumber]
      ensures frameNumber !in objects ==> r == None
      ensures r.Some? ==> r.value.frameNumber == frameNumber
    {
      if frameNumber in objects {
        r := objects[frameNumber];
      } else {
        r := None;
      }
    }

    method SetLayerName(name: Option<string>)
      modifies this
      ensures layerName == name
      ensures objects == old(objects) && layerNumber == old(layerNumber)
    {
      layerName := name;
    }

    method SetLayerNumber(number: Option<int>)
      modifies this
      ensures layerNumber == number
      ensures objects == old(objects) && layerName == old(layerName)
    {
      layerNumber := number;
    }

    method Delete(frameNumber: int)
      requires Valid()
      modifies this
      ensures Valid()
      ensures objects == Deleted(old(objects), frameNumber)
      ensures layerName == old(layerName) && layerNumber == old(layerNumber)
    {
      if frameNumber in objects {
        objects := objects - {frameNumber};
      }
    }

    method Add(frameNumber: int, color: Option<Color> := None, name: Option<string> := None,
               kind: string := "event")
      requires Valid()
      modifies this
      ensures Valid()
      ensures objects == Added(old(objects), layerName, layerNumber, frameNumber, color, name, kind)
      ensures layerName == old(layerName) && layerNumber == old(layerNumber)
    {
      if kind == "event" {
        if frameNumber in objects {
          return;
        }
        var event := Event(DefaultName, DefaultColor, None, None, 0);
        event := event.(parentLayerName := layerName);
        event := event.(parentLayerNumber := layerNumber);
        event := event.(frameNumber := frameNumber);
        if color.Some? && ColorTruthy(color.value) {
          event := event.(color := color.value);
        }
        if name.Some? && name.value != "" {
          event := event.(name := name.value);
        }
        objects := objects[frameNumber := Some(event)];
      }
    }

    /** Look up the event, delete it, re-add at the target (a placeholder
        that is then overwritten), and store the same event restamped at the
        target. */
    method NudgeEvent(originalFrame: int, amount: int) returns (outcome: Outcome)
      requires Valid()
      modifies this
      ensures Valid()
      ensures (outcome, objects) == NudgeAttempt(old(objects), layerName, layerNumber, originalFrame, amount)
      ensures layerName == old(layerName) && layerNumber == old(layerNumber)
    {
      if originalFrame !in objects {
        return Raised(KeyError);
      }
      var slot := objects[originalFrame];
      var newFrame := originalFrame + amount;
      Delete(originalFrame);
      ghost var deleted := objects;
      Add(newFrame);
      if slot.None? {
        return Raised(AttributeError);
      }
      var event := slot.value.(frameNumber := newFrame);
      OverwriteHidesAdd(deleted, objects, newFrame, Some(event));
      objects := objects[newFrame := Some(event)];
      outcome := Ok;
    }

    method UpdateData(frameNumber: int, data: Event)
      requires Valid()
      modifies this
      ensures Valid()
      ensures objects == UpdatedData(old(objects), frameNumber, data)
      ensures layerName == old(layerName) && layerNumber == old(layerNumber)
    {
      if frameNumber !in objects {
        return;
      }
      objects := objects[frameNumber := Some(data)];
      objects := objects[frameNumber := Some(objects[frameNumber].value.(frameNumber := frameNumber))];
    }
  }
}
