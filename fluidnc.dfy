/** A conventional optional value. */
module Wrappers {
  datatype Option<+T> = None | Some(value: T)
}

/**
 * The pendant's model of the FluidNC controller (Pico_MKS_TS35_R/src/FluidNCModel.h):
 * the controller state enum, the shape of the mirrored machine snapshot, and the two
 * kinds of outbound command a pendant can issue (a G-code line and a realtime byte).
 */
module FluidNC {
  import opened Wrappers

  /** The controller states, in declared order: the FluidNC states plus Disconnected. */
  datatype State =
    | Idle          // must be zero
    | Alarm
    | CheckMode
    | Homing
    | Cycle
    | Hold
    | Jog
    | SafetyDoor
    | Sleep
    | ConfigAlarm
    | Critical
    | Disconnected  // synthesized by the pendant: the controller cannot be reached

  const StateCount: nat := 12

  /** Every state, listed in the order the enum declares them. */
  const AllStates: seq<State> :=
    [Idle, Alarm, CheckMode, Homing, Cycle, Hold, Jog, SafetyDoor, Sleep, ConfigAlarm, Critical, Disconnected]

  /** The numeric value C++ gives each enumerator. */
  function Ordinal(s: State): (n: nat)
    ensures n < StateCount
    ensures AllStates[n] == s
  {
    match s
    case Idle => 0
    case Alarm => 1
    case CheckMode => 2
    case Homing => 3
    case Cycle => 4
    case Hold => 5
    case Jog => 6
    case SafetyDoor => 7
    case Sleep => 8
    case ConfigAlarm => 9
    case Critical => 10
    case Disconnected => 11
  }

  /** The state with a given numeric value, if the enum has one. */
  function FromOrdinal(n: int): (r: Option<State>)
    ensures r.Some? <==> 0 <= n < StateCount
    ensures r.Some? ==> Ordinal(r.value) == n
  {
    if 0 <= n < |AllStates| then Some(AllStates[n]) else None
  }

  /** True of the states FluidNC itself reports; the last one is the pendant's own. */
  predicate MirroredFromFluidNC(s: State) {
    Ordinal(s) < StateCount - 1
  }

  lemma IdleIsZero()
    ensures Ordinal(Idle) == 0 && FromOrdinal(0) == Some(Idle)
  {
  }

  /** The enum has exactly twelve states, numbered 0..11 in declared order, with no two alike. */
  lemma {:induction false} OrdinalsAreDeclaredOrder()
    ensures |AllStates| == StateCount
    ensures forall i :: 0 <= i < |AllStates| ==> Ordinal(AllStates[i]) == i
    ensures forall s, t :: Ordinal(s) == Ordinal(t) ==> s == t
  {
    forall s, t | Ordinal(s) == Ordinal(t) ensures s == t {
      assert AllStates[Ordinal(s)] == s && AllStates[Ordinal(t)] == t;
    }
  }

  lemma OrdinalRoundTrip(s: State)
    ensures FromOrdinal(Ordinal(s)) == Some(s)
  {
  }

  /** Disconnected is the last state and the only one FluidNC does not report. */
  lemma DisconnectedIsOnlyLocalState(s: State)
    ensures Ordinal(s) <= Ordinal(Disconnected) == StateCount - 1
    ensures !MirroredFromFluidNC(s) <==> s == Disconnected
  {
  }

  /** The timeout both send_line overloads use when the caller gives none. */
  const DefaultLineTimeoutMs: int := 2000

  /** The realtime command bytes the pendant scenes send; their byte values are not modelled. */
  datatype Realtime = FeedHold | CycleStart | Reset

  /**
   * One piece of an outbound line: literal text, the text floatToString gives for a value
   * (carried in hundredths) with a number of digits after the decimal point, or the text
   * axisNumToString gives for an axis number.
   */
  datatype Piece =
    | Text(text: string)
    | FloatText(hundredths: int, afterDecimal: nat)
    | AxisText(axis: int)

  /** What a button handler hands to the link: a line, a realtime byte, or nothing. */
  datatype Command =
    | NoCommand
    | SendLine(line: seq<Piece>, timeoutMs: int := DefaultLineTimeoutMs)
    | SendRealtime(code: Realtime)

  /** The text of one piece, given the two formatters, which are not part of this model. */
  function PieceText(piece: Piece, floatToString: (int, nat) -> string, axisNumToString: int -> string): string {
    match piece
    case Text(t) => t
    case FloatText(v, d) => floatToString(v, d)
    case AxisText(a) => axisNumToString(a)
  }

  /** The text of a line: the texts of its pieces, in order. */
  function Render(line: seq<Piece>, floatToString: (int, nat) -> string, axisNumToString: int -> string): string {
    if line == [] then []
    else PieceText(line[0], floatToString, axisNumToString) + Render(line[1..], floatToString, axisNumToString)
  }

  lemma RenderCons(piece: Piece, rest: seq<Piece>, f: (int, nat) -> string, x: int -> string)
    ensures Render([piece] + rest, f, x) == PieceText(piece, f, x) + Render(rest, f, x)
  {
    assert ([piece] + rest)[1..] == rest;
  }

  const AxisCount: nat := 6

  /**
   * The mirrored machine snapshot: the state, one position per axis (the position type
   * is declared elsewhere and kept abstract as an int), a limit switch per axis and the
   * probe switch.
   */
  datatype Machine = Machine(state: State, axes: seq<int>, limitSwitches: seq<bool>, probeSwitch: bool)

  predicate WellShaped(m: Machine) {
    |m.axes| == AxisCount && |m.limitSwitches| == AxisCount
  }
}
