/** The track header strip (src/components/TrackHeader.tsx): the type badge,
    the volume fader and the pan readout. */
module TrackHeader {
  import opened Text
  import opened SessionView

  /** The track type as the source spells it: lower-case letters only. */
  function TypeName(t: TrackType): (name: string)
    ensures |name| > 0 && forall i :: 0 <= i < |name| ==> IsLower(name[i])
  {
    match t
    case Midi => "midi"
    case Audio => "audio"
  }

  /** `track.type.toUpperCase()`. */
  function TypeBadge(t: TrackType): (badge: string)
    ensures badge == (if t == Midi then "MIDI" else "AUDIO")
  {
    var b := Upper(TypeName(t));
    assert |b| == |TypeName(t)|;
    assert b == if t == Midi then "MIDI" else "AUDIO" by {
      if t == Midi {
        assert b[0] == UpperChar('m') && b[1] == UpperChar('i') && b[2] == UpperChar('d') && b[3] == UpperChar('i');
      } else {
        assert b[0] == UpperChar('a') && b[1] == UpperChar('u') && b[2] == UpperChar('d');
        assert b[3] == UpperChar('i') && b[4] == UpperChar('o');
      }
    }
    b
  }

  /** The pan readout: "C" when centred, otherwise "R" or "L" followed by
      the distance from centre in decimal. */
  function PanLabel(pan: int): (readout: string)
    ensures readout == "C" <==> pan == 0
    ensures pan > 0 ==> readout == "R" + Show(pan)
    ensures pan < 0 ==> readout == "L" + Show(-pan)
    ensures pan > 0 ==> |readout| > 1 && readout[0] == 'R' && AllDigits(readout[1..]) && Parse(readout[1..]) == pan
    ensures pan < 0 ==> |readout| > 1 && readout[0] == 'L' && AllDigits(readout[1..]) && Parse(readout[1..]) == -pan
  {
    if pan > 0 then
      assert ("R" + Show(pan))[1..] == Show(pan);
      ParseShow(pan);
      "R" + Show(pan)
    else if pan < 0 then
      assert ("L" + Show(-pan))[1..] == Show(-pan);
      ParseShow(-pan);
      "L" + Show(-pan)
    else
      "C"
  }

  /** Pans the same distance left and right read the same but for the side letter. */
  lemma PanLabelMirror(pan: int)
    requires pan != 0
    ensures PanLabel(pan)[1..] == PanLabel(-pan)[1..]
    ensures PanLabel(pan)[0] != PanLabel(-pan)[0]
  {
    var n := if pan > 0 then pan else -pan;
    assert ("R" + Show(n))[1..] == Show(n) && ("L" + Show(n))[1..] == Show(n);
  }

  /** Different pans never share a readout. */
  lemma PanLabelInjective(p: int, q: int)
    requires PanLabel(p) == PanLabel(q)
    ensures p == q
  {
  }

  /** The fader: a fill from the bottom and a handle, both placed by percent. */
  datatype FaderStyle = FaderStyle(fillHeightPct: int, handleBottomPct: int)

  /** The fill rises to `volume` percent and the handle sits on its top edge. */
  function Fader(volume: int): (f: FaderStyle)
    ensures f.handleBottomPct == f.fillHeightPct == volume
    ensures 0 <= volume <= 100 ==> 0 <= f.fillHeightPct <= 100
  {
    FaderStyle(volume, volume)
  }
}
