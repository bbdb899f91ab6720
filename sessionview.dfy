/** The session view (src/components/SessionView.tsx): eight fixed tracks,
    a grid of clip slots keyed by track and scene, the selected clip and
    track, and the global play and record flags. Each handler is a pure
    transition on a snapshot of this state; the `SessionView` class holds
    the state and applies them. */
module SessionView {
  import opened Options
  import opened Text
  import Transport

  datatype TrackType = Audio | Midi

  datatype Color = Orange | Blue | Green | Red | Yellow | Purple | Pink | Cyan

  datatype Clip = Clip(
    id: string,
    name: string,
    clipType: TrackType,
    color: Color,
    isPlaying: bool,
    isRecording: bool)

  datatype Track = Track(
    id: string,
    name: string,
    trackType: TrackType,
    volume: int,
    pan: int,
    mute: bool,
    solo: bool,
    arm: bool)

  const TrackCount: nat := 8

  /** `track-${i}`: the fixed prefix followed by the decimal index. */
  function TrackId(i: nat): (id: string)
    ensures |id| > 6 && id[..6] == "track-" && id[6..] == Show(i)
  {
    "track-" + Show(i)
  }

  /** The track table built once at start-up: four MIDI tracks followed by
      four audio tracks, each numbered from 1 within its kind. */
  function InitialTracks(): (ts: seq<Track>)
    ensures |ts| == TrackCount
  {
    seq(TrackCount, i requires 0 <= i < TrackCount =>
      Track(TrackId(i),
            if i < 4 then "MIDI " + Show(i + 1) else "Audio " + Show(i - 3),
            if i < 4 then Midi else Audio,
            75, 0, false, false, false))
  }

  /** Every track has its own id, tracks 0..3 are MIDI 1..4 and tracks 4..7
      are Audio 1..4, all at volume 75, centred, with no flag set. */
  lemma InitialTracksShape()
    ensures forall i :: 0 <= i < TrackCount ==> InitialTracks()[i].id == TrackId(i)
    ensures forall i, j :: 0 <= i < j < TrackCount ==> InitialTracks()[i].id != InitialTracks()[j].id
    ensures forall i :: 0 <= i < 4 ==>
              InitialTracks()[i].trackType == Midi && InitialTracks()[i].name == "MIDI " + Show(i + 1)
    ensures forall i :: 4 <= i < TrackCount ==>
              InitialTracks()[i].trackType == Audio && InitialTracks()[i].name == "Audio " + Show(i - 3)
    ensures forall t :: t in InitialTracks() ==>
              t.volume == 75 && t.pan == 0 && !t.mute && !t.solo && !t.arm
  {
    forall i, j | 0 <= i < j < TrackCount
      ensures InitialTracks()[i].id != InitialTracks()[j].id
    {
      ShowInjective(i, j);
    }
  }

  /** `tracks.find(t => t.id === id)`: the first track with that id. */
  function FindTrack(ts: seq<Track>, id: string): (r: Option<Track>)
    ensures r.Some? ==>
              && r.value.id == id
              && exists i :: 0 <= i < |ts| && ts[i] == r.value && forall j :: 0 <= j < i ==> ts[j].id != id
    ensures r.None? <==> forall t :: t in ts ==> t.id != id
  {
    if ts == [] then None
    else if ts[0].id == id then Some(ts[0])
    else FindTrack(ts[1..], id)
  }

  /** With distinct ids, looking a track up by its id finds that track. */
  lemma {:induction false} FindTrackAt(ts: seq<Track>, i: nat)
    requires i < |ts|
    requires forall a, b :: 0 <= a < b < |ts| ==> ts[a].id != ts[b].id
    ensures FindTrack(ts, ts[i].id) == Some(ts[i])
  {
    if i > 0 {
      FindTrackAt(ts[1..], i - 1);
    }
  }

  /** The key of the slot at a track and scene: `${trackId}-${sceneIndex}`. */
  function ClipId(trackId: string, scene: nat): (key: string)
    ensures |key| > |trackId| + 1 && key[..|trackId|] == trackId && key[|trackId|] == '-'
    ensures key[|trackId| + 1..] == Show(scene)
  {
    trackId + "-" + Show(scene)
  }

  /** Splitting at the first '-' after a run of digits is unambiguous. */
  lemma {:induction false} SplitAtDash(a: string, b: string, a': string, b': string)
    requires AllDigits(a) && AllDigits(a')
    requires a + "-" + b == a' + "-" + b'
    ensures a == a' && b == b'
  {
    var s := a + "-" + b;
    if |a| < |a'| {
      DashBeforeDigit(a, b, a', b');
      assert false;
    } else if |a'| < |a| {
      DashBeforeDigit(a', b', a, b);
      assert false;
    }
    assert a == s[..|a|] == a';
    assert b == s[|a| + 1..] == b';
  }

  lemma DashBeforeDigit(a: string, b: string, a': string, b': string)
    requires AllDigits(a') && |a| < |a'|
    ensures a + "-" + b != a' + "-" + b'
  {
    var s, s' := a + "-" + b, a' + "-" + b';
    assert s[|a|] == '-';
    assert s'[|a|] == a'[|a|];
  }

  /** Every slot of the grid has its own key, so a click on one slot never
      touches the clip of another. */
  lemma SlotKeysDistinct(i: nat, j: nat, i': nat, j': nat)
    requires ClipId(TrackId(i), j) == ClipId(TrackId(i'), j')
    ensures i == i' && j == j'
  {
    var s, s' := ClipId(TrackId(i), j), ClipId(TrackId(i'), j');
    assert s[6..] == Show(i) + "-" + Show(j);
    assert s'[6..] == Show(i') + "-" + Show(j');
    SplitAtDash(Show(i), Show(j), Show(i'), Show(j'));
    ShowInjective(i, i');
    ShowInjective(j, j');
  }

  /** The clip a click on an empty slot creates; `color` stands for the
      colour the source draws at random. */
  function NewClip(t: Track, scene: nat, color: Color): (c: Clip)
    ensures c.id == ClipId(t.id, scene) && c.clipType == t.trackType && c.color == color
    ensures c.name == t.name + " Clip " + Show(scene + 1)
    ensures !c.isPlaying && !c.isRecording
  {
    Clip(ClipId(t.id, scene), t.name + " Clip " + Show(scene + 1), t.trackType, color, false, false)
  }

  /** A snapshot of the view's state. */
  datatype Session = Session(
    clips: map<string, Clip>,
    selectedClip: Option<string>,
    selectedTrack: Option<string>,
    isPlaying: bool,
    isRecording: bool,
    tempo: real)

  const InitialSession: Session := Session(map[], None, None, false, false, 120.0)

  /** Flips one clip's play flag and nothing else. */
  function TogglePlaying(clips: map<string, Clip>, id: string): (r: map<string, Clip>)
    requires id in clips
    ensures r.Keys == clips.Keys
    ensures r[id].isPlaying == !clips[id].isPlaying
    ensures r[id].(isPlaying := clips[id].isPlaying) == clips[id]
    ensures forall k :: k in clips && k != id ==> r[k] == clips[k]
  {
    clips[id := clips[id].(isPlaying := !clips[id].isPlaying)]
  }

  /** `handleClipClick`: on an existing clip, toggles its playback; on an
      empty slot of a known track, creates the clip and selects it; on an
      empty slot of an unknown track, does nothing. */
  function ClickClip(s: Session, tracks: seq<Track>, trackId: string, scene: nat, color: Color): (r: Session)
    ensures s.clips.Keys <= r.clips.Keys <= s.clips.Keys + {ClipId(trackId, scene)}
    ensures forall k :: k in s.clips && k != ClipId(trackId, scene) ==> r.clips[k] == s.clips[k]
    ensures r.(clips := s.clips, selectedClip := s.selectedClip) == s
    ensures ClipId(trackId, scene) in s.clips ==>
              r.selectedClip == s.selectedClip && r.clips == TogglePlaying(s.clips, ClipId(trackId, scene))
    ensures ClipId(trackId, scene) !in s.clips && FindTrack(tracks, trackId).Some? ==>
              ClipId(trackId, scene) in r.clips &&
              var c := r.clips[ClipId(trackId, scene)];
              && c == NewClip(FindTrack(tracks, trackId).value, scene, color)
              && c.id == ClipId(trackId, scene) && c.clipType == FindTrack(tracks, trackId).value.trackType
              && !c.isPlaying && r.selectedClip == Some(ClipId(trackId, scene))
    ensures ClipId(trackId, scene) !in s.clips && FindTrack(tracks, trackId).None? ==> r == s
  {
    var id := ClipId(trackId, scene);
    if id in s.clips then
      s.(clips := TogglePlaying(s.clips, id))
    else
      match FindTrack(tracks, trackId)
      case None => s
      case Some(t) => s.(clips := s.clips[id := NewClip(t, scene, color)], selectedClip := Some(id))
  }

  /** Two clicks on an existing clip restore the session. */
  lemma ClickClipTwice(s: Session, tracks: seq<Track>, trackId: string, scene: nat, c1: Color, c2: Color)
    requires ClipId(trackId, scene) in s.clips
    ensures ClickClip(ClickClip(s, tracks, trackId, scene, c1), tracks, trackId, scene, c2) == s
  {
    var id := ClipId(trackId, scene);
    var r := ClickClip(ClickClip(s, tracks, trackId, scene, c1), tracks, trackId, scene, c2);
    assert r.clips == s.clips;
  }

  /** A click on one slot of the grid leaves every other slot's clip as it was. */
  lemma ClickLeavesOtherSlots(s: Session, tracks: seq<Track>, i: nat, j: nat, i': nat, j': nat, color: Color)
    requires (i, j) != (i', j') && ClipId(TrackId(i'), j') in s.clips
    ensures var r := ClickClip(s, tracks, TrackId(i), j, color);
            ClipId(TrackId(i'), j') in r.clips && r.clips[ClipId(TrackId(i'), j')] == s.clips[ClipId(TrackId(i'), j')]
  {
    if ClipId(TrackId(i), j) == ClipId(TrackId(i'), j') {
      SlotKeysDistinct(i, j, i', j');
    }
  }

  /** A first click on an empty slot of one of the start-up MIDI tracks
      creates a clip that the piano roll then shows; on an audio track the
      piano roll stays hidden. */
  lemma NewClipOpensPianoRoll(s: Session, i: nat, scene: nat, color: Color)
    requires i < TrackCount && ClipId(TrackId(i), scene) !in s.clips
    ensures PianoRollVisible(ClickClip(s, InitialTracks(), TrackId(i), scene, color)) <==> i < 4
  {
    InitialTracksShape();
    FindTrackAt(InitialTracks(), i);
  }

  /** `handleTrackSelect`: selecting the selected track clears the
      selection; any other track becomes the selection. */
  function SelectTrack(s: Session, trackId: string): (r: Session)
    ensures r.selectedTrack == (if s.selectedTrack == Some(trackId) then None else Some(trackId))
    ensures r.(selectedTrack := s.selectedTrack) == s
  {
    s.(selectedTrack := if s.selectedTrack == Some(trackId) then None else Some(trackId))
  }

  /** Selecting a track twice from nothing selected, or from that track,
      returns to where it started. */
  lemma SelectTrackTwice(s: Session, trackId: string)
    requires s.selectedTrack == None || s.selectedTrack == Some(trackId)
    ensures SelectTrack(SelectTrack(s, trackId), trackId) == s
  {
  }

  /** `handlePlay`. */
  function Play(s: Session): (r: Session)
    ensures r.isPlaying != s.isPlaying && r.(isPlaying := s.isPlaying) == s
  {
    s.(isPlaying := !s.isPlaying)
  }

  /** `handleRecord`. */
  function Record(s: Session): (r: Session)
    ensures r.isRecording != s.isRecording && r.(isRecording := s.isRecording) == s
  {
    s.(isRecording := !s.isRecording)
  }

  /** Every clip with its play flag cleared, and nothing else changed. */
  function StopAll(clips: map<string, Clip>): (r: map<string, Clip>)
    ensures r.Keys == clips.Keys
    ensures forall k :: k in r ==> !r[k].isPlaying && r[k].(isPlaying := clips[k].isPlaying) == clips[k]
  {
    map k | k in clips :: clips[k].(isPlaying := false)
  }

  /** `handleStop`: clears the global play flag and every clip's. */
  function Stop(s: Session): (r: Session)
    ensures !r.isPlaying && r.clips == StopAll(s.clips)
    ensures r.(isPlaying := s.isPlaying, clips := s.clips) == s
  {
    s.(isPlaying := false, clips := StopAll(s.clips))
  }

  /** Stopping twice is stopping once. */
  lemma StopIdempotent(s: Session)
    ensures Stop(Stop(s)) == Stop(s)
  {
    assert StopAll(StopAll(s.clips)) == StopAll(s.clips);
  }

  /** The tempo field's change handler. */
  function SetTempo(s: Session, input: real): (r: Session)
    ensures r.tempo == Transport.ClampTempo(input)
    ensures Transport.MinTempo <= r.tempo <= Transport.MaxTempo
    ensures r.(tempo := s.tempo) == s
  {
    s.(tempo := Transport.ClampTempo(input))
  }

  /** The piano roll's close button. */
  function ClosePianoRoll(s: Session): (r: Session)
    ensures r.selectedClip == None && !PianoRollVisible(r)
    ensures r.(selectedClip := s.selectedClip) == s
  {
    s.(selectedClip := None)
  }

  /** The piano roll is drawn only for a selected clip that exists and is MIDI. */
  predicate PianoRollVisible(s: Session)
  {
    s.selectedClip.Some? && s.selectedClip.value in s.clips && s.clips[s.selectedClip.value].clipType == Midi
  }

  /** The device rack is drawn whenever a track is selected. */
  predicate DeviceRackVisible(s: Session)
  {
    s.selectedTrack.Some?
  }

  /** Clicking a track header shows the device rack, unless that track was
      already selected, in which case the rack goes away. */
  lemma SelectTrackShowsRack(s: Session, trackId: string)
    ensures DeviceRackVisible(SelectTrack(s, trackId)) <==> s.selectedTrack != Some(trackId)
    ensures DeviceRackVisible(SelectTrack(s, trackId)) ==> SelectTrack(s, trackId).selectedTrack == Some(trackId)
  {
  }

  /** The component state. The track table never changes after start-up. */
  class SessionView {
    const tracks: seq<Track>
    var clips: map<string, Clip>
    var selectedClip: Option<string>
    var selectedTrack: Option<string>
    var isPlaying: bool
    var isRecording: bool
    var tempo: real

    function State(): Session
      reads this
    {
      Session(clips, selectedClip, selectedTrack, isPlaying, isRecording, tempo)
    }

    constructor ()
      ensures tracks == InitialTracks() && State() == InitialSession
    {
      tracks := InitialTracks();
      clips := map[];
      selectedClip, selectedTrack := None, None;
      isPlaying, isRecording := false, false;
      tempo := 120.0;
    }

    method HandleClipClick(trackId: string, scene: nat, color: Color)
      modifies this
      ensures State() == ClickClip(old(State()), tracks, trackId, scene, color)
    {
      var clipId := ClipId(trackId, scene);
      if clipId in clips {
        clips := clips[clipId := clips[clipId].(isPlaying := !clips[clipId].isPlaying)];
      } else {
        var track := FindTrack(tracks, trackId);
        if track.Some? {
          clips := clips[clipId := NewClip(track.value, scene, color)];
          selectedClip := Some(clipId);
        }
      }
    }

    method HandleTrackSelect(trackId: string)
      modifies this
      ensures State() == SelectTrack(old(State()), trackId)
    {
      selectedTrack := if selectedTrack == Some(trackId) then None else Some(trackId);
    }

    method HandlePlay()
      modifies this
      ensures State() == Play(old(State()))
    {
      isPlaying := !isPlaying;
    }

    method HandleStop()
      modifies this
      ensures State() == Stop(old(State()))
    {
      isPlaying := false;
      clips := map id | id in clips :: clips[id].(isPlaying := false);
    }

    method HandleRecord()
      modifies this
      ensures State() == Record(old(State()))
    {
      isRecording := !isRecording;
    }

    method HandleTempoChange(input: real)
      modifies this
      ensures State() == SetTempo(old(State()), input)
    {
      tempo := Transport.ClampTempo(input);
    }

    method HandlePianoRollClose()
      modifies this
      ensures State() == ClosePianoRoll(old(State()))
    {
      selectedClip := None;
    }
  }
}
