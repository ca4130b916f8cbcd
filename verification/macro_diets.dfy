/** The fixed table of macronutrient profiles: each names the fraction of daily calories
    taken from carbohydrate, protein and fat. */
module MacroDiets {
  import opened Numbers

  datatype MacroDiet = Paleo | Atkins | Default | Keto {

    function Name(): (s: string)
      ensures |s| > 0
    {
      match this
      case Paleo => "Paleo"
      case Atkins => "Atkins"
      case Default => "Default"
      case Keto => "Keto"
    }

    function Carbs(): (r: real)
      ensures 0.0 <= r <= 1.0
    {
      match this
      case Paleo => 0.30
      case Atkins => 0.10
      case Default => 0.45
      case Keto => 0.05
    }

    function Protein(): (r: real)
      ensures 0.0 <= r <= 1.0
    {
      match this
      case Paleo => 0.25
      case Atkins => 0.30
      case Default => 0.25
      case Keto => 0.20
    }

    function Fat(): (r: real)
      ensures 0.0 <= r <= 1.0
    {
      match this
      case Paleo => 0.50
      case Atkins => 0.60
      case Default => 0.30
      case Keto => 0.75
    }

    /** "Carbs C% Protein P% Fat F%", each number the fraction times 100 cast to int. */
    function DisplayMacroPercentages(): (s: string)
      ensures |s| > 6 && s[..6] == "Carbs " && s[|s| - 1] == '%'
      ensures '-' !in s
    {
      PercentagesLine(Carbs(), Protein(), Fat())
    }
  }

  /** The line displayMacroPercentages prints for three fractions of daily calories. */
  function PercentagesLine(carbs: real, protein: real, fat: real): (s: string)
    requires carbs >= 0.0 && protein >= 0.0 && fat >= 0.0
    ensures |s| > 6 && s[..6] == "Carbs " && s[|s| - 1] == '%'
    ensures '-' !in s
  {
    "Carbs " + IntToString(Trunc(carbs * 100.0))
    + "% Protein " + IntToString(Trunc(protein * 100.0))
    + "% Fat " + IntToString(Trunc(fat * 100.0)) + "%"
  }

  /** The four profiles are all there is, with their carbohydrate/protein/fat fractions. */
  lemma Profiles(m: MacroDiet)
    ensures m == Paleo <==> (m.Carbs(), m.Protein(), m.Fat()) == (0.30, 0.25, 0.50)
    ensures m == Atkins <==> (m.Carbs(), m.Protein(), m.Fat()) == (0.10, 0.30, 0.60)
    ensures m == Default <==> (m.Carbs(), m.Protein(), m.Fat()) == (0.45, 0.25, 0.30)
    ensures m == Keto <==> (m.Carbs(), m.Protein(), m.Fat()) == (0.05, 0.20, 0.75)
  {
  }

  /** Three profiles split the calories exactly; Paleo's fractions add up to 105%. */
  lemma FractionSums(m: MacroDiet)
    ensures m.Carbs() + m.Protein() + m.Fat() == (if m == Paleo then 1.05 else 1.0)
  {
  }

  /** The text of a fraction that is a whole number of percent. */
  lemma PercentText(fraction: real, n: nat, ns: string)
    requires fraction * 100.0 == n as real && NatToString(n) == ns
    ensures IntToString(Trunc(fraction * 100.0)) == ns
  {
    assert Trunc(n as real) == n;
  }

  /** The line for three fractions that are whole numbers of percent, given the text of
      each number and their join. */
  lemma PercentagesText(carbs: real, protein: real, fat: real, c: nat, p: nat, f: nat,
                        cs: string, ps: string, fs: string, text: string)
    requires carbs * 100.0 == c as real && protein * 100.0 == p as real && fat * 100.0 == f as real
    requires NatToString(c) == cs && NatToString(p) == ps && NatToString(f) == fs
    requires "Carbs " + cs + "% Protein " + ps + "% Fat " + fs + "%" == text
    ensures PercentagesLine(carbs, protein, fat) == text
  {
    PercentText(carbs, c, cs);
    PercentText(protein, p, ps);
    PercentText(fat, f, fs);
  }

  /** The percentage text of each profile; Default, the profile every new plan starts
      with, reads "Carbs 45% Protein 25% Fat 30%". */
  lemma DefaultPercentages()
    ensures Default.DisplayMacroPercentages() == "Carbs 45% Protein 25% Fat 30%"
  {
    assert "Carbs " + "45" + "% Protein " + "25" + "% Fat " + "30" + "%" == "Carbs 45% Protein 25% Fat 30%";
    assert NatToString(45) == "45" by { TwoDigitText(45); }
    assert NatToString(25) == "25" by { TwoDigitText(25); }
    assert NatToString(30) == "30" by { TwoDigitText(30); }
    PercentagesText(Default.Carbs(), Default.Protein(), Default.Fat(),
                    45, 25, 30, "45", "25", "30", "Carbs 45% Protein 25% Fat 30%");
  }

  lemma PaleoPercentages()
    ensures Paleo.DisplayMacroPercentages() == "Carbs 30% Protein 25% Fat 50%"
  {
    assert "Carbs " + "30" + "% Protein " + "25" + "% Fat " + "50" + "%" == "Carbs 30% Protein 25% Fat 50%";
    assert NatToString(30) == "30" by { TwoDigitText(30); }
    assert NatToString(25) == "25" by { TwoDigitText(25); }
    assert NatToString(50) == "50" by { TwoDigitText(50); }
    PercentagesText(Paleo.Carbs(), Paleo.Protein(), Paleo.Fat(),
                    30, 25, 50, "30", "25", "50", "Carbs 30% Protein 25% Fat 50%");
  }

  lemma AtkinsPercentages()
    ensures Atkins.DisplayMacroPercentages() == "Carbs 10% Protein 30% Fat 60%"
  {
    assert "Carbs " + "10" + "% Protein " + "30" + "% Fat " + "60" + "%" == "Carbs 10% Protein 30% Fat 60%";
    assert NatToString(10) == "10" by { TwoDigitText(10); }
    assert NatToString(30) == "30" by { TwoDigitText(30); }
    assert NatToString(60) == "60" by { TwoDigitText(60); }
    PercentagesText(Atkins.Carbs(), Atkins.Protein(), Atkins.Fat(),
                    10, 30, 60, "10", "30", "60", "Carbs 10% Protein 30% Fat 60%");
  }

  lemma KetoPercentages()
    ensures Keto.DisplayMacroPercentages() == "Carbs 5% Protein 20% Fat 75%"
  {
    assert "Carbs " + "5" + "% Protein " + "20" + "% Fat " + "75" + "%" == "Carbs 5% Protein 20% Fat 75%";
    assert NatToString(5) == "5";
    assert NatToString(20) == "20" by { TwoDigitText(20); }
    assert NatToString(75) == "75" by { TwoDigitText(75); }
    PercentagesText(Keto.Carbs(), Keto.Protein(), Keto.Fat(),
                    5, 20, 75, "5", "20", "75", "Carbs 5% Protein 20% Fat 75%");
  }
}
