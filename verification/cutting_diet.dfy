/** The deficit variant: a deficit of 10, 20, 30 or 40 percent of TDEE, cast to int. */
module Cutting {
  import opened Wrappers
  import opened Numbers

  /** The deficit a new cutting plan starts with. */
  const DefaultPercentage: real := 0.20

  /** The percentage a menu option selects; any other option is not valid. */
  function Percentage(option: int): (r: Option<real>)
    ensures r.Some? <==> 1 <= option <= 4
    ensures r.Some? ==> r.value * 10.0 == option as real
  {
    match option
    case 1 => Some(0.10)
    case 2 => Some(0.20)
    case 3 => Some(0.30)
    case 4 => Some(0.40)
    case _ => None
  }

  /** The deficit for a percentage of TDEE: the product cast to int. */
  function Deficit(tdee: real, percentage: real): int {
    Trunc(tdee * percentage)
  }

  /** Every deficit a cutting plan can hold. */
  function Choices(tdee: real): set<int> {
    {Deficit(tdee, 0.10), Deficit(tdee, 0.20), Deficit(tdee, 0.30), Deficit(tdee, 0.40)}
  }

  /** Option 2 is the constructor's default. */
  lemma DefaultIsOption2(tdee: real)
    ensures Percentage(2) == Some(DefaultPercentage)
    ensures Deficit(tdee, DefaultPercentage) in Choices(tdee)
  {
  }

  /** A deficit has the sign of TDEE and at most 40% of its size: for a non-negative TDEE
      it lies in [0, 0.4 * tdee], for a negative one in [0.4 * tdee, 0]. */
  lemma DeficitBounds(tdee: real, deficit: int)
    requires deficit in Choices(tdee)
    ensures tdee >= 0.0 ==> 0 <= deficit && deficit as real <= 0.4 * tdee
    ensures tdee < 0.0 ==> deficit <= 0 && 0.4 * tdee <= deficit as real
  {
    var p :| p in {0.10, 0.20, 0.30, 0.40} && deficit == Deficit(tdee, p);
    if tdee >= 0.0 {
      assert tdee * p <= 0.4 * tdee;
    } else {
      assert 0.4 * tdee <= tdee * p;
    }
  }

  /** Every option yields a positive deficit once TDEE reaches 10 calories. */
  lemma DeficitPositive(tdee: real, deficit: int)
    requires deficit in Choices(tdee) && tdee >= 10.0
    ensures deficit > 0
  {
    var p :| p in {0.10, 0.20, 0.30, 0.40} && deficit == Deficit(tdee, p);
    assert tdee * p >= 1.0;
  }

  /** How the menu describes the pace of each option. */
  function Pace(option: int): string
    requires 1 <= option <= 4
  {
    match option
    case 1 => "slow"
    case 2 => "recommended"
    case 3 => "aggressive"
    case _ => "very aggressive"
  }

  /** A menu line: the option's number and the percentage it selects, cast to int. */
  function OptionLine(option: int): string
    requires 1 <= option <= 4
  {
    "(" + IntToString(option) + ") " + IntToString(Trunc(Percentage(option).value * 100.0)) + "% (" + Pace(option) + ")"
  }

  /** A menu line, given the text of its two numbers and their join. */
  lemma LineText(option: int, percent: nat, os: string, ps: string, text: string)
    requires 1 <= option <= 4
    requires Trunc(Percentage(option).value * 100.0) == percent
    requires NatToString(option) == os && NatToString(percent) == ps
    requires "(" + os + ") " + ps + "% (" + Pace(option) + ")" == text
    ensures OptionLine(option) == text
  {
    assert IntToString(option) == os;
    assert IntToString(percent) == ps;
  }

  /** The first two menu lines as printed. */
  lemma SlowerLines()
    ensures OptionLine(1) == "(1) 10% (slow)"
    ensures OptionLine(2) == "(2) 20% (recommended)"
  {
    assert "(" + "1" + ") " + "10" + "% (" + "slow" + ")" == "(1) 10% (slow)";
    assert "(" + "2" + ") " + "20" + "% (" + "recommended" + ")" == "(2) 20% (recommended)";
    assert NatToString(10) == "10" by { assert NatToString(1) == "1"; }
    assert NatToString(20) == "20" by { assert NatToString(2) == "2"; }
    LineText(1, 10, "1", "10", "(1) 10% (slow)");
    LineText(2, 20, "2", "20", "(2) 20% (recommended)");
  }

  /** The last two menu lines as printed. */
  lemma FasterLines()
    ensures OptionLine(3) == "(3) 30% (aggressive)"
    ensures OptionLine(4) == "(4) 40% (very aggressive)"
  {
    assert "(" + "3" + ") " + "30" + "% (" + "aggressive" + ")" == "(3) 30% (aggressive)";
    assert "(" + "4" + ") " + "40" + "% (" + "very aggressive" + ")" == "(4) 40% (very aggressive)";
    assert NatToString(30) == "30" by { assert NatToString(3) == "3"; }
    assert NatToString(40) == "40" by { assert NatToString(4) == "4"; }
    LineText(3, 30, "3", "30", "(3) 30% (aggressive)");
    LineText(4, 40, "4", "40", "(4) 40% (very aggressive)");
  }

  /** The menu changeCalorieOffset returns: every line names the percentage its option
      selects. */
  function Menu(): (s: string)
    ensures s == "Choose preferred calorie deficit percentage" + NewLine
                 + OptionLine(1) + NewLine + OptionLine(2) + NewLine
                 + OptionLine(3) + NewLine + OptionLine(4) + " !Caution"
  {
    SlowerLines();
    FasterLines();
    "Choose preferred calorie deficit percentage" + NewLine
    + "(1) 10% (slow)" + NewLine
    + "(2) 20% (recommended)" + NewLine
    + "(3) 30% (aggressive)" + NewLine
    + "(4) 40% (very aggressive)" + " !Caution"
  }
}
