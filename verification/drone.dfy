/** Drone.py: a drone is one note per entry of an octave list, every note
    sharing the same name, volume, duration and delay. The octave entries
    are absolute octaves, not offsets from a root. */
module Drones {
  import opened Outcomes
  import opened PitchTables
  import opened Notes

  /** The octaves of the default drone. */
  const DefaultDroneOctaves: seq<int> := [-6, -4, -2, 0, 2, 4]

  datatype Drone = Drone(notes: seq<Note>)

  /** The list comprehension of `Drone.__init__`: the first note that fails
      to construct raises; with an empty octave list no note is built. */
  function DroneNotes(name: string, octaves: seq<int>, volume: real, duration: real, delay: real): (r: Result<seq<Note>>)
    ensures r.Ok? <==> |octaves| == 0 || IsNoteName(name)
    ensures r.Err? ==> r.error == InvalidNote(name)
    ensures r.Ok? ==> |r.value| == |octaves|
    ensures r.Ok? ==> forall k :: 0 <= k < |octaves| ==>
      && WellFormed(r.value[k])
      && r.value[k].name == name
      && r.value[k].octave == octaves[k]
      && r.value[k].volume == volume
      && r.value[k].duration == duration
      && r.value[k].delay == delay
  {
    if |octaves| == 0 then Ok([])
    else
      match MakeNote(name, octaves[0], volume, duration, delay)
      case Err(e) => Err(e)
      case Ok(first) =>
        match DroneNotes(name, octaves[1..], volume, duration, delay)
        case Err(e) => Err(e)
        case Ok(rest) => Ok([first] + rest)
  }

  /** `Drone(note, drone_octaves, volume, duration, delay)`. */
  function MakeDrone(name: string, octaves: seq<int>, volume: real, duration: real, delay: real): (r: Result<Drone>)
    ensures r.Ok? <==> |octaves| == 0 || IsNoteName(name)
    ensures r.Err? ==> r.error == InvalidNote(name)
    ensures r.Ok? ==> |r.value.notes| == |octaves|
    ensures r.Ok? ==> forall k :: 0 <= k < |octaves| ==>
      && WellFormed(r.value.notes[k])
      && r.value.notes[k].name == name
      && r.value.notes[k].octave == octaves[k]
      && r.value.notes[k].volume == volume
      && r.value.notes[k].duration == duration
      && r.value.notes[k].delay == delay
  {
    var notes :- DroneNotes(name, octaves, volume, duration, delay);
    Ok(Drone(notes))
  }

  /** The default drone `Drone()`: six C notes at octaves -6, -4, -2, 0, 2
      and 4, each a quarter of the frequency of the next. */
  lemma DefaultDrone()
    ensures MakeDrone("C", DefaultDroneOctaves, 0.5, 5.0, 0.0).Ok?
    ensures var d := MakeDrone("C", DefaultDroneOctaves, 0.5, 5.0, 0.0).value;
      && |d.notes| == 6
      && (forall k :: 0 <= k < 6 ==> d.notes[k].name == "C" && d.notes[k].octave == DefaultDroneOctaves[k])
      && (forall k :: 0 <= k < 5 ==> d.notes[k + 1].frequency == 4.0 * d.notes[k].frequency)
  {
    assert "C" == NoteOrder[0];
    var d := MakeDrone("C", DefaultDroneOctaves, 0.5, 5.0, 0.0).value;
    forall k | 0 <= k < 5
      ensures d.notes[k + 1].frequency == 4.0 * d.notes[k].frequency
    {
      var o := d.notes[k].octave;
      assert d.notes[k + 1].octave == o + 2;
      OctaveDoubling("C", o);
      OctaveDoubling("C", o + 1);
    }
  }

  /** An unknown name fails the drone as soon as one note is built. */
  lemma InvalidDroneName(octaves: seq<int>)
    requires |octaves| > 0
    ensures MakeDrone("H", octaves, 0.5, 5.0, 0.0) == Err(InvalidNote("H"))
  {
  }
}
