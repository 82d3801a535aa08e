/**
 * The M5Dial probing scene (M5Dial_Scenes/src/ProbingScene.cpp): five probe settings the
 * operator edits with the touch screen and the encoder, and two buttons whose meaning
 * depends on the controller state. Pressing a button yields the one command the scene
 * would send; the settings live in a class whose handlers update them in place.
 *
 * Settings are whole numbers: travel, rate and retract start integral and only change by
 * the integer encoder delta, and the offset is kept in hundredths of a unit.
 */
module Probing {
  import opened FluidNC

  /** The probe settings: offset (in hundredths), travel, rate, retract and the axis number. */
  datatype Prefs = Prefs(offset: int, travel: int, rate: int, retract: int, axis: int)

  /** Offset 0.00, travel -20, rate 80, retract 20, axis 2 (Z). */
  const InitialPrefs: Prefs := Prefs(0, -20, 80, 20, 2)

  /** The settings a feed rate and a retract distance need to make sense. */
  predicate PrefsValid(p: Prefs) {
    p.rate >= 1 && p.retract >= 0 && 0 <= p.axis <= 2
  }

  /** The scene's editable state: which setting the encoder edits, whether prefs are unsaved, the prefs. */
  datatype SceneState = SceneState(selection: int, prefsChanged: bool, prefs: Prefs)

  const InitialScene: SceneState := SceneState(0, false, InitialPrefs)

  predicate SceneValid(s: SceneState) {
    0 <= s.selection <= 4 && PrefsValid(s.prefs)
  }

  /**
   * rotateNumberLoop(value, 1, lo, hi), which lives in Scene.h and is not part of this
   * model: taken to be an increment by one that wraps around within lo..hi.
   */
  function RotateNumberLoop(value: int, lo: int, hi: int): (r: int)
    requires lo <= hi
    ensures lo <= value <= hi ==> lo <= r <= hi && r == lo + (value - lo + 1) % (hi - lo + 1)
  {
    var v := value + 1;
    if v > hi then lo else if v < lo then hi else v
  }

  /** onTouchRelease: move the selection on to the next setting. */
  function Touched(s: SceneState): (r: SceneState)
    ensures r.prefs == s.prefs && r.prefsChanged == s.prefsChanged
    ensures 0 <= s.selection <= 4 ==> r.selection == (s.selection + 1) % 5
  {
    s.(selection := RotateNumberLoop(s.selection, 0, 4))
  }

  /** The prefs after one encoder step of a nonzero delta on the selected setting. */
  function EncoderStep(p: Prefs, selection: int, delta: int): (r: Prefs)
    ensures selection != 0 ==> r.offset == p.offset
    ensures selection != 1 ==> r.travel == p.travel
    ensures selection != 2 ==> r.rate == p.rate
    ensures selection != 3 ==> r.retract == p.retract
    ensures selection != 4 ==> r.axis == p.axis
    ensures PrefsValid(p) ==> PrefsValid(r)
    ensures selection == 2 ==> r.rate >= 1
    ensures selection == 3 ==> r.retract >= 0
  {
    if selection == 0 then p.(offset := p.offset + delta)
    else if selection == 1 then p.(travel := p.travel + delta)
    else if selection == 2 then p.(rate := if p.rate + delta < 1 then 1 else p.rate + delta)
    else if selection == 3 then p.(retract := if p.retract + delta < 0 then 0 else p.retract + delta)
    else if selection == 4 then p.(axis := RotateNumberLoop(p.axis, 0, 2))
    else p
  }

  /** onEncoder: a zero delta does nothing; any other edits the selected setting and marks prefs unsaved. */
  function Encoded(s: SceneState, delta: int): (r: SceneState)
    ensures r.selection == s.selection
    ensures delta == 0 ==> r == s
    ensures delta != 0 ==> r.prefsChanged
    ensures SceneValid(s) ==> SceneValid(r)
  {
    if delta == 0 then s
    else s.(prefs := EncoderStep(s.prefs, s.selection, delta), prefsChanged := true)
  }

  /** savePrefs: the prefs count as saved. */
  function Saved(s: SceneState): (r: SceneState)
    ensures !r.prefsChanged
    ensures r.selection == s.selection && r.prefs == s.prefs
  {
    s.(prefsChanged := false)
  }

  /** The probe cycle G38.2G91 F<rate> <axis><travel> P<offset>, the offset with two decimals. */
  function ProbeLine(p: Prefs): seq<Piece> {
    [Text("G38.2G91"), Text("F"), FloatText(100 * p.rate, 0), AxisText(p.axis), FloatText(100 * p.travel, 0),
     Text("P"), FloatText(p.offset, 2)]
  }

  /** The sign of a retract move: opposite to the direction of probe travel. */
  function RetractSign(p: Prefs): string {
    if p.travel < 0 then "+" else "-"
  }

  /** The retract jog $J=G91F1000 <axis><sign><retract>. */
  function RetractLine(p: Prefs): seq<Piece> {
    [Text("$J=G91F1000"), AxisText(p.axis), Text(RetractSign(p)), FloatText(100 * p.retract, 0)]
  }

  /** onGreenButtonPress: probe when idle, hold a running cycle, resume a held one. */
  function GreenButton(state: State, p: Prefs): (c: Command)
    ensures c.SendLine? <==> state == Idle
    ensures c.SendLine? ==> c.line == ProbeLine(p) && c.timeoutMs == DefaultLineTimeoutMs
    ensures c.SendRealtime? <==> state == Cycle || state == Hold
    ensures c.SendRealtime? ==> c.code == (if state == Cycle then FeedHold else CycleStart)
  {
    if state == Idle then SendLine(ProbeLine(p))
    else if state == Cycle then SendRealtime(FeedHold)
    else if state == Hold then SendRealtime(CycleStart)
    else NoCommand
  }

  /** onRedButtonPress: reset a running cycle, retract when idle; nothing otherwise, Hold included. */
  function RedButton(state: State, p: Prefs): (c: Command)
    ensures c.SendLine? <==> state == Idle
    ensures c.SendLine? ==> c.line == RetractLine(p) && c.timeoutMs == DefaultLineTimeoutMs
    ensures c.SendRealtime? <==> state == Cycle
    ensures c.SendRealtime? ==> c.code == Reset
  {
    if state == Cycle then SendRealtime(Reset)
    else if state == Idle then SendLine(RetractLine(p))
    else NoCommand
  }

  /** The legends display() draws over the green and the red button. */
  datatype Legends = Legends(green: string, red: string)

  function ButtonLegends(state: State): (l: Legends)
    ensures l.green == "" <==> state !in {Idle, Cycle, Hold}
    ensures l.red == "" <==> state !in {Idle, Cycle, Hold}
  {
    match state
    case Idle => Legends("Probe", "Retract")
    case Cycle => Legends("Hold", "Reset")
    case Hold => Legends("Resume", "Reset")
    case _ => Legends("", "")
  }

  /** The legend that names a command the scene can send with prefs p. */
  function CommandLegend(c: Command, p: Prefs): string {
    match c
    case NoCommand => ""
    case SendLine(line, _) => if line == ProbeLine(p) then "Probe" else if line == RetractLine(p) then "Retract" else ""
    case SendRealtime(code) => match code
      case FeedHold => "Hold"
      case CycleStart => "Resume"
      case Reset => "Reset"
  }

  /** The input events that reach the scene's state-changing handlers. */
  datatype Event = Touch | Turn(delta: int) | Save

  function Step(s: SceneState, e: Event): SceneState {
    match e
    case Touch => Touched(s)
    case Turn(d) => Encoded(s, d)
    case Save => Saved(s)
  }

  /** The scene after handling a sequence of events in order. */
  function Run(s: SceneState, events: seq<Event>): SceneState
    decreases |events|
  {
    if events == [] then s else Run(Step(s, events[0]), events[1..])
  }

  // ---- Properties -------------------------------------------------------------------

  /** The selection walks 0, 1, 2, 3, 4 and back to 0. */
  lemma TouchCyclesSelection(s: SceneState)
    requires 0 <= s.selection <= 4
    ensures Touched(s).selection == (s.selection + 1) % 5
    ensures Touched(s).prefs == s.prefs && Touched(s).prefsChanged == s.prefsChanged
  {
  }

  /** A zero delta changes nothing, not even the unsaved flag. */
  lemma ZeroDeltaChangesNothing(s: SceneState)
    ensures Encoded(s, 0) == s
  {
  }

  /** A nonzero delta edits only the selected setting and marks prefs unsaved. */
  lemma NonzeroDeltaEditsSelection(s: SceneState, delta: int)
    requires delta != 0
    ensures Encoded(s, delta).prefsChanged
    ensures Encoded(s, delta).selection == s.selection
    ensures s.selection == 0 ==> Encoded(s, delta).prefs == s.prefs.(offset := s.prefs.offset + delta)
    ensures s.selection == 1 ==> Encoded(s, delta).prefs == s.prefs.(travel := s.prefs.travel + delta)
    ensures s.selection == 2 ==> Encoded(s, delta).prefs.rate == (if s.prefs.rate + delta < 1 then 1 else s.prefs.rate + delta)
    ensures s.selection == 3 ==> Encoded(s, delta).prefs.retract == (if s.prefs.retract + delta < 0 then 0 else s.prefs.retract + delta)
    ensures !(0 <= s.selection <= 4) ==> Encoded(s, delta).prefs == s.prefs
  {
  }

  /** Turning the encoder on the axis setting steps the axis by one, whatever the delta. */
  lemma AxisStepIgnoresDelta(s: SceneState, d1: int, d2: int)
    requires s.selection == 4 && 0 <= s.prefs.axis <= 2
    requires d1 != 0 && d2 != 0
    ensures Encoded(s, d1) == Encoded(s, d2)
    ensures Encoded(s, d1).prefs.axis == (s.prefs.axis + 1) % 3
  {
  }

  /** Only savePrefs clears the unsaved flag, and saving twice is saving once. */
  lemma OnlySaveClearsPrefsChanged(s: SceneState, e: Event)
    ensures s.prefsChanged && e != Save ==> Step(s, e).prefsChanged
    ensures !Saved(s).prefsChanged && Saved(Saved(s)) == Saved(s)
    ensures Saved(s).prefs == s.prefs && Saved(s).selection == s.selection
  {
  }

  /** Every handler keeps the selection in 0..4, the axis in 0..2, rate >= 1 and retract >= 0. */
  lemma StepPreservesValid(s: SceneState, e: Event)
    requires SceneValid(s)
    ensures SceneValid(Step(s, e))
  {
  }

  /** The invariant holds of the initial scene and of every scene the handlers lead to. */
  lemma {:induction false} RunPreservesValid(s: SceneState, events: seq<Event>)
    requires SceneValid(s)
    ensures SceneValid(Run(s, events))
    decreases |events|
  {
    if events != [] {
      StepPreservesValid(s, events[0]);
      RunPreservesValid(Step(s, events[0]), events[1..]);
    }
  }

  lemma InitialSceneValid()
    ensures SceneValid(InitialScene)
  {
  }

  /** The probe line is one line whose text is exactly the six parts in order. */
  lemma ProbeLineText(p: Prefs, f: (int, nat) -> string, x: int -> string)
    ensures Render(GreenButton(Idle, p).line, f, x) ==
              "G38.2G91" + ("F" + (f(100 * p.rate, 0) + (x(p.axis) + (f(100 * p.travel, 0) + ("P" + f(p.offset, 2))))))
  {
    var t0: seq<Piece> := [];
    var t1 := [FloatText(p.offset, 2)] + t0;
    var t2 := [Text("P")] + t1;
    var t3 := [FloatText(100 * p.travel, 0)] + t2;
    var t4 := [AxisText(p.axis)] + t3;
    var t5 := [FloatText(100 * p.rate, 0)] + t4;
    var t6 := [Text("F")] + t5;
    var t7 := [Text("G38.2G91")] + t6;
    RenderCons(FloatText(p.offset, 2), t0, f, x);
    assert Render(t1, f, x) == f(p.offset, 2);
    RenderCons(Text("P"), t1, f, x);
    RenderCons(FloatText(100 * p.travel, 0), t2, f, x);
    RenderCons(AxisText(p.axis), t3, f, x);
    RenderCons(FloatText(100 * p.rate, 0), t4, f, x);
    RenderCons(Text("F"), t5, f, x);
    RenderCons(Text("G38.2G91"), t6, f, x);
    assert ProbeLine(p) == t7 by {
      assert |ProbeLine(p)| == |t7| == 7;
    }
  }

  /** The retract line moves the probe axis back against the probe travel, by the retract distance. */
  lemma RetractLineText(p: Prefs, f: (int, nat) -> string, x: int -> string)
    ensures Render(RedButton(Idle, p).line, f, x) == "$J=G91F1000" + (x(p.axis) + (RetractSign(p) + f(100 * p.retract, 0)))
    ensures RetractSign(p) == "+" <==> p.travel < 0
  {
    var t0: seq<Piece> := [];
    var t1 := [FloatText(100 * p.retract, 0)] + t0;
    var t2 := [Text(RetractSign(p))] + t1;
    var t3 := [AxisText(p.axis)] + t2;
    var t4 := [Text("$J=G91F1000")] + t3;
    RenderCons(FloatText(100 * p.retract, 0), t0, f, x);
    assert Render(t1, f, x) == f(100 * p.retract, 0);
    RenderCons(Text(RetractSign(p)), t1, f, x);
    RenderCons(AxisText(p.axis), t2, f, x);
    RenderCons(Text("$J=G91F1000"), t3, f, x);
    assert RetractLine(p) == t4;
  }

  /** The green legend always names what the green button does, and is blank exactly when it does nothing. */
  lemma GreenLegendNamesAction(state: State, p: Prefs)
    ensures ButtonLegends(state).green == CommandLegend(GreenButton(state, p), p)
    ensures ButtonLegends(state).green == "" <==> GreenButton(state, p) == NoCommand
  {
  }

  /** The red legend names what the red button does in every state but Hold. */
  lemma RedLegendNamesActionOutsideHold(state: State, p: Prefs)
    requires state != Hold
    ensures ButtonLegends(state).red == CommandLegend(RedButton(state, p), p)
    ensures ButtonLegends(state).red == "" <==> RedButton(state, p) == NoCommand
  {
  }

  /** In Hold the red button is labelled "Reset" but sends nothing. */
  lemma RedButtonInHoldDoesNothing(p: Prefs)
    ensures ButtonLegends(Hold).red == "Reset"
    ensures RedButton(Hold, p) == NoCommand
  {
  }

  /** A button sends a line only under a line legend, and neither button sends anything outside Idle, Cycle and Hold. */
  lemma LinesOnlyUnderLineLegends(state: State, p: Prefs)
    ensures GreenButton(state, p).SendLine? ==> ButtonLegends(state).green == "Probe"
    ensures RedButton(state, p).SendLine? ==> ButtonLegends(state).red == "Retract"
    ensures state !in {Idle, Cycle, Hold} ==> GreenButton(state, p) == NoCommand && RedButton(state, p) == NoCommand
  {
  }

  /** The scene object: the fields the handlers update in place. */
  class ProbingScene {
    var selection: int
    var prefsChanged: bool
    var probeOffset: int    // hundredths
    var probeTravel: int
    var probeRate: int
    var probeRetract: int
    var probeAxis: int

    function Current(): SceneState
      reads this
    {
      SceneState(selection, prefsChanged, Prefs(probeOffset, probeTravel, probeRate, probeRetract, probeAxis))
    }

    ghost predicate Valid()
      reads this
    {
      SceneValid(Current())
    }

    constructor ()
      ensures Current() == InitialScene && Valid()
    {
      selection, prefsChanged := 0, false;
      probeOffset, probeTravel, probeRate, probeRetract, probeAxis := 0, -20, 80, 20, 2;
    }

    method OnTouchRelease()
      modifies this
      ensures Current() == Touched(old(Current()))
      ensures old(Valid()) ==> Valid()
    {
      var next := selection + 1;
      if next > 4 {
        next := 0;
      } else if next < 0 {
        next := 4;
      }
      selection := next;
    }

    method OnEncoder(delta: int)
      modifies this
      ensures Current() == Encoded(old(Current()), delta)
      ensures old(Valid()) ==> Valid()
    {
      if delta != 0 {  // abs(delta) > 0
        if selection == 0 {
          probeOffset := probeOffset + delta;
        } else if selection == 1 {
          probeTravel := probeTravel + delta;
        } else if selection == 2 {
          probeRate := probeRate + delta;
          if probeRate < 1 {
            probeRate := 1;
          }
        } else if selection == 3 {
          probeRetract := probeRetract + delta;
          if probeRetract < 0 {
            probeRetract := 0;
          }
        } else if selection == 4 {
          var next := probeAxis + 1;
          if next > 2 {
            next := 0;
          } else if next < 0 {
            next := 2;
          }
          probeAxis := next;
        }
        prefsChanged := true;
      }
    }

    method SavePrefs()
      modifies this
      ensures Current() == Saved(old(Current()))
      ensures old(Valid()) ==> Valid()
    {
      if prefsChanged {
        prefsChanged := false;
      }
    }
  }
}
