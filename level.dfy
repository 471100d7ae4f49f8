/*
 * The level stage (src/amp/stages/level.rs): a plain gain, settable only
 * within [0, 2].
 */
module Level {
  import opened Common

  class LevelStage {
    var gain: real

    /** new: the gain is taken as given, without clamping. */
    constructor (gain: real)
      ensures this.gain == gain
    {
      this.gain := gain;
    }

    /** process: the input scaled by the gain; with a gain in range the output is at most twice as loud. */
    method Process(input: real) returns (output: real)
      ensures output == input * gain
      ensures 0.0 <= gain <= 2.0 ==> Abs(output) <= 2.0 * Abs(input)
    {
      output := input * gain;
      if 0.0 <= gain <= 2.0 {
        MulMono(gain, 2.0, Abs(input));
        AbsScale(gain, input);
        assert output == gain * input;
        assert Abs(output) == gain * Abs(input);
        assert gain * Abs(input) <= 2.0 * Abs(input);
      }
    }

    /** set_parameter: "gain" in [0, 2] is stored; anything else is an error and changes nothing. */
    method SetParameter(name: string, value: real) returns (r: Result<Unit>)
      modifies this
      ensures r.Ok? <==> name == "gain" && 0.0 <= value <= 2.0
      ensures r.Ok? ==> gain == value && GetParameter("gain") == Ok(value)
      ensures r.Err? ==> gain == old(gain)
      ensures name == "gain" && !(0.0 <= value <= 2.0) ==> r == Err("Gain must be between 0.0 and 2.0")
      ensures name != "gain" ==> r == Err("Unknown parameter")
    {
      if name == "gain" {
        if 0.0 <= value <= 2.0 {
          gain := value;
          r := Ok(Unit);
        } else {
          r := Err("Gain must be between 0.0 and 2.0");
        }
      } else {
        r := Err("Unknown parameter");
      }
    }

    /** get_parameter: only "gain" is known; its error message differs from the setter's. */
    function GetParameter(name: string): (r: Result<real>)
      reads this
      ensures r.Ok? <==> name == "gain"
      ensures r.Ok? ==> r.value == gain
      ensures r.Err? ==> r.error == "Unknown parameter name"
    {
      if name == "gain" then Ok(gain) else Err("Unknown parameter name")
    }
  }
}
