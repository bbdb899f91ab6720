/** One cell of the session grid (src/components/ClipSlot.tsx): what a slot
    shows for its clip, or for no clip, given the global play flag. */
module ClipSlot {
  import opened Options
  import opened SessionView
  import TrackHeader

  /** The clip the grid passes for a slot key: `clips[key]`, possibly absent. */
  function SlotClip(clips: map<string, Clip>, key: string): (c: Option<Clip>)
    ensures c.Some? <==> key in clips
    ensures c.Some? ==> c.value == clips[key]
  {
    if key in clips then Some(clips[key]) else None
  }

  predicate IsEmpty(clip: Option<Clip>)
  {
    clip.None?
  }

  /** `clip?.isPlaying && isGlobalPlaying`. */
  predicate ShowsPlaying(clip: Option<Clip>, globalPlaying: bool)
  {
    clip.Some? && clip.value.isPlaying && globalPlaying
  }

  /** `clip?.isRecording`. */
  predicate ShowsRecording(clip: Option<Clip>)
  {
    clip.Some? && clip.value.isRecording
  }

  datatype Icon = PlayIcon | StopIcon

  /** What a slot draws: a dot for an empty slot, or the clip's name, its
      upper-cased type, an optional recording dot and the play/stop icon,
      pulsing while it shows as playing. */
  datatype Face =
    | EmptyDot
    | ClipFace(name: string, badge: string, recordingDot: bool, icon: Icon, pulsing: bool)

  function FaceOf(clip: Option<Clip>, globalPlaying: bool): (f: Face)
    ensures f == EmptyDot <==> IsEmpty(clip)
    ensures f.ClipFace? ==>
              && f.name == clip.value.name
              && f.badge == TrackHeader.TypeBadge(clip.value.clipType)
              && (f.recordingDot <==> ShowsRecording(clip))
              && (f.icon == StopIcon <==> clip.value.isPlaying && globalPlaying)
              && (f.pulsing <==> f.icon == StopIcon)
  {
    if clip.None? then EmptyDot
    else
      var playing := ShowsPlaying(clip, globalPlaying);
      ClipFace(clip.value.name, TrackHeader.TypeBadge(clip.value.clipType),
               ShowsRecording(clip), if playing then StopIcon else PlayIcon, playing)
  }

  /** An empty slot never shows as playing, whatever the transport does. */
  lemma EmptySlotNeverPlays(globalPlaying: bool)
    ensures !ShowsPlaying(None, globalPlaying)
    ensures FaceOf(None, globalPlaying) == EmptyDot
  {
  }

  /** After Stop, no slot of the grid shows as playing, and none does
      until play is pressed again. */
  lemma NothingPlaysAfterStop(s: Session, key: string)
    ensures !ShowsPlaying(SlotClip(Stop(s).clips, key), Stop(s).isPlaying)
    ensures !ShowsPlaying(SlotClip(Stop(s).clips, key), Play(Stop(s)).isPlaying)
  {
  }
}
