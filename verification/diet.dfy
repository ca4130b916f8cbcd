/** A diet plan: TDEE and BMI fixed at creation, a replaceable macro profile, and the
    offset of its variant — a calorie surplus (bulking) or a deficit (cutting). */
module Diets {
  import opened Wrappers
  import opened Numbers
  import opened MacroDiets
  import DietBase
  import Bulking
  import Cutting

  /** The variant-specific part of a plan. */
  datatype Plan = Surplus(lean: bool) | Deficit(deficit: int)

  /** The abstract value of a plan object. */
  datatype DietState = DietState(tdee: real, bmi: real, macro: MacroDiet, plan: Plan)

  predicate IsBulking(s: DietState) {
    s.plan.Surplus?
  }

  /** A cutting plan's deficit is one of its four percentages of TDEE. */
  predicate WellFormed(s: DietState) {
    s.plan.Deficit? ==> s.plan.deficit in Cutting.Choices(s.tdee)
  }

  /** The offset expectedProgress passes on: the surplus or the deficit. */
  function Offset(s: DietState): int {
    match s.plan
    case Surplus(lean) => Bulking.Surplus(lean)
    case Deficit(d) => d
  }

  /** getDailyCalories: TDEE plus the surplus, or TDEE minus the deficit. */
  function DailyCalories(s: DietState): real {
    if IsBulking(s) then s.tdee + Offset(s) as real else s.tdee - Offset(s) as real
  }

  /** A new bulking plan: a regular surplus of 500. */
  function NewBulking(tdee: real, bmi: real, macro: MacroDiet): (s: DietState)
    ensures IsBulking(s) && WellFormed(s) && !s.plan.lean
    ensures s.tdee == tdee && s.bmi == bmi && s.macro == macro
    ensures DailyCalories(s) == tdee + 500.0
  {
    DietState(tdee, bmi, macro, Surplus(false))
  }

  /** A new cutting plan: a deficit of 20% of TDEE, cast to int. */
  function NewCutting(tdee: real, bmi: real, macro: MacroDiet): (s: DietState)
    ensures !IsBulking(s) && WellFormed(s)
    ensures s.tdee == tdee && s.bmi == bmi && s.macro == macro
    ensures s.plan.deficit == Trunc(0.2 * tdee)
    ensures tdee >= 0.0 ==> 0.8 * tdee <= DailyCalories(s) <= tdee
  {
    Cutting.DefaultIsOption2(tdee);
    var s := DietState(tdee, bmi, macro, Deficit(Cutting.Deficit(tdee, Cutting.DefaultPercentage)));
    assert tdee >= 0.0 ==> 0.0 <= tdee * 0.20 < Offset(s) as real + 1.0;
    s
  }

  /** changeCalorieIntake, whichever variant the plan is: TDEE, BMI, macro profile and
      variant never change, and a well-formed plan stays well-formed. */
  function AfterIntakeChange(s: DietState, option: int): (r: DietState)
    ensures r.tdee == s.tdee && r.bmi == s.bmi && r.macro == s.macro && IsBulking(r) == IsBulking(s)
    ensures WellFormed(s) ==> WellFormed(r)
    ensures IsBulking(s) ==> (r != s <==> option == 1)
    ensures IsBulking(s) ==> r.plan.lean == (if option == 1 then !s.plan.lean else s.plan.lean)
    ensures !IsBulking(s) && Cutting.Percentage(option).None? ==> r == s
    ensures !IsBulking(s) && 1 <= option <= 4 ==> r.plan == Deficit(Cutting.Deficit(s.tdee, option as real / 10.0))
  {
    if IsBulking(s) then AfterSurplusChange(s, option) else AfterDeficitChange(s, option)
  }

  /** BulkingDiet's changeCalorieIntake: option 1 switches between lean and regular
      surplus, every other option leaves the plan as it was. */
  function AfterSurplusChange(s: DietState, option: int): (r: DietState)
    requires IsBulking(s)
    ensures r.tdee == s.tdee && r.bmi == s.bmi && r.macro == s.macro && IsBulking(r)
    ensures r != s <==> option == 1
    ensures r.plan.lean == (if option == 1 then !s.plan.lean else s.plan.lean)
  {
    s.(plan := Surplus(Bulking.LeanAfter(s.plan.lean, option)))
  }

  /** CuttingDiet's changeCalorieIntake: options 1 to 4 set the deficit to that many
      tenths of TDEE, cast to int; every other option leaves the plan as it was. */
  function AfterDeficitChange(s: DietState, option: int): (r: DietState)
    requires !IsBulking(s)
    ensures r.tdee == s.tdee && r.bmi == s.bmi && r.macro == s.macro && !IsBulking(r)
    ensures WellFormed(s) || 1 <= option <= 4 ==> WellFormed(r)
    ensures Cutting.Percentage(option).None? ==> r == s
    ensures 1 <= option <= 4 ==> r.plan == Deficit(Cutting.Deficit(s.tdee, option as real / 10.0))
  {
    match Cutting.Percentage(option)
    case None => s
    case Some(p) =>
      assert p == option as real / 10.0;
      s.(plan := Deficit(Cutting.Deficit(s.tdee, p)))
  }

  /** changeMacroDiet: options 1 to 4 select a profile; any other option changes nothing;
      only the profile is ever touched. */
  function AfterMacroChange(s: DietState, option: int): (r: DietState)
    ensures r.tdee == s.tdee && r.bmi == s.bmi && r.plan == s.plan
    ensures 1 <= option <= 4 ==> r.macro == DietBase.MacroForOption(option).value
    ensures !(1 <= option <= 4) ==> r == s
  {
    match DietBase.MacroForOption(option)
    case Some(m) => s.(macro := m)
    case None => s
  }

  /** changeDietPlan: a new plan of the other variant, at that variant's defaults, with
      the same TDEE, BMI and macro profile. */
  function Switched(s: DietState): (r: DietState)
    ensures IsBulking(r) == !IsBulking(s) && WellFormed(r)
    ensures r.tdee == s.tdee && r.bmi == s.bmi && r.macro == s.macro
    ensures IsBulking(r) ==> !r.plan.lean
    ensures !IsBulking(r) ==> r.plan.deficit == Trunc(0.2 * r.tdee)
  {
    if IsBulking(s) then NewCutting(s.tdee, s.bmi, s.macro) else NewBulking(s.tdee, s.bmi, s.macro)
  }

  /** expectedProgress of a plan. */
  function ProgressOf(s: DietState): Result<DietBase.Progress> {
    DietBase.ExpectedProgress(Offset(s))
  }

  /** The daily target keeps the TDEE relation of each variant: exactly 250 or 500 above
      for bulking; for cutting with a non-negative TDEE, between 60% and 100% of it. */
  lemma DailyCaloriesInvariant(s: DietState)
    requires WellFormed(s)
    ensures IsBulking(s) ==> DailyCalories(s) - s.tdee == 250.0 || DailyCalories(s) - s.tdee == 500.0
    ensures !IsBulking(s) && s.tdee >= 0.0 ==> 0.6 * s.tdee <= DailyCalories(s) <= s.tdee
  {
    if !IsBulking(s) {
      Cutting.DeficitBounds(s.tdee, s.plan.deficit);
    }
  }

  /** Choosing the lean/regular option twice restores a bulking plan. */
  lemma LeanToggleTwice(s: DietState)
    requires IsBulking(s)
    ensures AfterIntakeChange(AfterIntakeChange(s, 1), 1) == s
  {
    Bulking.ToggleTwice(s.plan.lean);
  }

  /** Option 2 of a new cutting plan keeps its default deficit. */
  lemma CuttingOption2IsDefault(tdee: real, bmi: real, macro: MacroDiet)
    ensures AfterIntakeChange(NewCutting(tdee, bmi, macro), 2) == NewCutting(tdee, bmi, macro)
  {
    Cutting.DefaultIsOption2(tdee);
  }

  /** Switching twice gives the original variant at its defaults, with the same TDEE,
      BMI and profile; a plan already at its defaults comes back unchanged. */
  lemma SwitchTwice(s: DietState)
    ensures Switched(Switched(s))
         == (if IsBulking(s) then NewBulking(s.tdee, s.bmi, s.macro) else NewCutting(s.tdee, s.bmi, s.macro))
    ensures s == NewBulking(s.tdee, s.bmi, s.macro) || s == NewCutting(s.tdee, s.bmi, s.macro)
            ==> Switched(Switched(s)) == s
  {
  }

  /** A bulking plan's projection never fails; a cutting plan's fails exactly when its
      deficit is not positive, which a TDEE of at least 10 rules out and a negative TDEE
      forces. */
  lemma ProgressOutcome(s: DietState)
    requires WellFormed(s)
    ensures IsBulking(s) ==> ProgressOf(s).Ok?
    ensures !IsBulking(s) ==> (ProgressOf(s).Ok? <==> s.plan.deficit > 0)
    ensures !IsBulking(s) && s.tdee >= 10.0 ==> ProgressOf(s).Ok?
    ensures !IsBulking(s) && s.tdee < 0.0 ==> ProgressOf(s).Err?
  {
    if !IsBulking(s) {
      Cutting.DeficitBounds(s.tdee, s.plan.deficit);
      if s.tdee >= 10.0 {
        Cutting.DeficitPositive(s.tdee, s.plan.deficit);
      }
    }
  }

  /** The plan object. Java's abstract Diet and its subclasses BulkingDiet and
      CuttingDiet are one class here, tagged by isBulking; each variant uses its own
      fields. */
  class Diet {
    const tdee: real
    const bmi: real
    const isBulking: bool
    var diets: MacroDiet
    // BulkingDiet
    var leanBulking: bool
    var increasedCalories: real
    var surplusCalories: int
    // CuttingDiet
    var reducedCalories: real
    var deficitCalories: int

    /** The class invariant: the stored daily calories are TDEE plus the surplus or minus
        the deficit, the surplus matches the lean flag, and the deficit is one of the four
        percentages. */
    ghost predicate Valid()
      reads this
    {
      if isBulking then
        surplusCalories == Bulking.Surplus(leanBulking) && increasedCalories == tdee + surplusCalories as real
      else
        deficitCalories in Cutting.Choices(tdee) && reducedCalories == tdee - deficitCalories as real
    }

    ghost function State(): (s: DietState)
      reads this
      requires Valid()
      ensures WellFormed(s) && IsBulking(s) == isBulking
    {
      DietState(tdee, bmi, diets, if isBulking then Surplus(leanBulking) else Deficit(deficitCalories))
    }

    constructor BulkingDiet(tdee: real, bmi: real, diet: MacroDiet)
      ensures Valid() && State() == NewBulking(tdee, bmi, diet)
    {
      this.tdee := tdee;
      this.bmi := bmi;
      this.isBulking := true;
      this.diets := diet;
      this.surplusCalories := Bulking.RegularSurplus;
      this.increasedCalories := tdee + Bulking.RegularSurplus as real;
      this.leanBulking := false;
      this.reducedCalories := 0.0;
      this.deficitCalories := 0;
    }

    constructor CuttingDiet(tdee: real, bmi: real, diet: MacroDiet)
      ensures Valid() && State() == NewCutting(tdee, bmi, diet)
    {
      this.tdee := tdee;
      this.bmi := bmi;
      this.isBulking := false;
      this.diets := diet;
      this.deficitCalories := Trunc(tdee * Cutting.DefaultPercentage);
      this.reducedCalories := tdee - Trunc(tdee * Cutting.DefaultPercentage) as real;
      this.leanBulking := false;
      this.increasedCalories := 0.0;
      this.surplusCalories := 0;
      Cutting.DefaultIsOption2(tdee);
    }

    function GetDailyCalories(): (r: real)
      reads this
      ensures Valid() ==> r == DailyCalories(State())
    {
      if isBulking then increasedCalories else reducedCalories
    }

    /** The offset expectedProgress hands to calculateWeightChange. */
    function CalorieOffset(): (r: int)
      reads this
      ensures Valid() ==> r == Offset(State())
    {
      if isBulking then surplusCalories else deficitCalories
    }

    function ExpectedProgress(): (r: Result<DietBase.Progress>)
      reads this
      ensures Valid() ==> r == ProgressOf(State())
    {
      DietBase.ExpectedProgress(CalorieOffset())
    }

    function DisplayBmi(): (r: string)
      reads this
      ensures Valid() ==> r == DietBase.DisplayBmi(State().bmi)
    {
      DietBase.DisplayBmi(bmi)
    }

    /** The grams displayDietdetails shows for the current profile and daily calories. */
    function MacroGrams(): (g: DietBase.MacroGrams)
      reads this
      ensures Valid() ==> g == DietBase.MacroGramsFor(State().macro, DailyCalories(State()))
    {
      DietBase.MacroGramsFor(diets, GetDailyCalories())
    }

    /** changeCalorieOffset: the menu of the plan's variant. */
    function ChangeCalorieOffset(): (r: string)
      reads this
      ensures Valid() ==> r == (match State().plan
                                case Surplus(lean) => Bulking.Menu(lean)
                                case Deficit(_) => Cutting.Menu())
    {
      if isBulking then Bulking.Menu(leanBulking) else Cutting.Menu()
    }

    method ChangeMacroDiet(dietOption: int)
      requires Valid()
      modifies this`diets
      ensures Valid() && State() == AfterMacroChange(old(State()), dietOption)
    {
      match dietOption {
        case 1 => diets := Paleo;
        case 2 => diets := Keto;
        case 3 => diets := Atkins;
        case 4 => diets := Default;
        case _ =>
      }
    }

    /** changeCalorieIntake, dispatched to the variant as the subclasses override it. */
    method ChangeCalorieIntake(option: int)
      requires Valid()
      modifies this
      ensures Valid() && State() == AfterIntakeChange(old(State()), option)
      ensures diets == old(diets)
    {
      if isBulking {
        ChangeSurplus(option);
      } else {
        ChangeDeficit(option);
      }
    }

    /** BulkingDiet.changeCalorieIntake: option 1 toggles lean bulking, any other option
        keeps the surplus; the daily calories are recomputed either way. */
    method ChangeSurplus(option: int)
      requires Valid() && isBulking
      modifies this`leanBulking, this`surplusCalories, this`increasedCalories
      ensures Valid() && State() == AfterIntakeChange(old(State()), option)
    {
      match option {
        case 1 =>
          if !leanBulking {
            surplusCalories := Bulking.LeanSurplus;
            leanBulking := true;
          } else {
            surplusCalories := Bulking.RegularSurplus;
            leanBulking := false;
          }
        case 2 =>
        case _ =>
      }
      increasedCalories := tdee + surplusCalories as real;
    }

    /** CuttingDiet.changeCalorieIntake: options 1 to 4 set the deficit to 10, 20, 30 or
        40 percent of TDEE; any other option returns without a change. */
    method ChangeDeficit(option: int)
      requires Valid() && !isBulking
      modifies this`deficitCalories, this`reducedCalories
      ensures Valid() && State() == AfterIntakeChange(old(State()), option)
    {
      ghost var before := State();
      var percentage: real;
      match option {
        case 1 => percentage := 0.10;
        case 2 => percentage := 0.20;
        case 3 => percentage := 0.30;
        case 4 => percentage := 0.40;
        case _ =>
          assert Cutting.Percentage(option).None?;
          return;
      }
      assert Cutting.Percentage(option) == Some(percentage);
      deficitCalories := Trunc(tdee * percentage);
      reducedCalories := tdee - deficitCalories as real;
      assert State() == before.(plan := Deficit(Cutting.Deficit(tdee, percentage)));
    }
  }
}
