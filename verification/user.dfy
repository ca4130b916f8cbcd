/** A user: a username and a person fixed at construction, and a replaceable diet plan. */
module Users {
  import opened Persons
  import opened Diets

  class User {
    const userName: string
    const person: Person
    var diet: Diet

    constructor(userName: string, person: Person, diet: Diet)
      ensures this.userName == userName && this.person == person && this.diet == diet
    {
      this.userName := userName;
      this.person := person;
      this.diet := diet;
    }

    function GetDiet(): (d: Diet)
      reads this
      ensures d == diet
    {
      diet
    }

    /** changeDietPlan: replaces the plan by a new one of the other variant, at that
        variant's defaults, carrying over TDEE, BMI and macro profile. The old plan object
        is left as it was. */
    method ChangeDietPlan()
      requires diet.Valid()
      modifies this
      ensures fresh(diet) && diet.Valid()
      ensures diet.State() == Switched(old(diet.State()))
      ensures old(diet).State() == old(diet.State())
    {
      var tdee := diet.tdee;
      var bmi := diet.bmi;
      if diet.isBulking {
        var next := new Diet.CuttingDiet(tdee, bmi, diet.diets);
        SetDiet(next);
      } else {
        var next := new Diet.BulkingDiet(tdee, bmi, diet.diets);
        SetDiet(next);
      }
    }

    method SetDiet(diet: Diet)
      modifies this`diet
      ensures this.diet == diet
    {
      this.diet := diet;
    }
  }

  /** The switch test: to bulking, to lean bulking, back to cutting at 30%. The plan ends
      as a cutting plan with the same TDEE and a 30% deficit. */
  method ChangingCaloriesScenario(user: User)
    requires user.diet.Valid() && !user.diet.isBulking
    modifies user
    ensures user.diet.Valid() && !user.diet.isBulking && user.diet.tdee == old(user.diet.tdee)
    ensures user.diet.deficitCalories == Numbers.Trunc(user.diet.tdee * 0.30)
  {
    user.ChangeDietPlan();
    assert user.diet.GetDailyCalories() == user.diet.tdee + 500.0;
    user.diet.ChangeCalorieIntake(1);
    assert user.diet.GetDailyCalories() == user.diet.tdee + 250.0;
    user.ChangeDietPlan();
    user.diet.ChangeCalorieIntake(3);
  }
}
