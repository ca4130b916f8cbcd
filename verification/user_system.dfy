/** The validated store of users, keyed by username, with the formulas that seed each
    user's plan: TDEE by the Mifflin-St Jeor BMR and BMI. */
module UserSystems {
  import opened Wrappers
  import opened Numbers
  import opened MacroDiets
  import opened Persons
  import opened Diets
  import opened Users

  const TallestPerson: int := 251
  const OldestPerson: int := 122
  const HeaviestPerson: int := 605
  /** One foot, the shortest accepted height in centimetres. */
  const ShortestHeight: real := 30.48
  const UserNameLimit: int := 10
  const NameLimit: int := 25

  const NullMessage: string := "Inputs cannot be null"
  const NotFoundMessage: string := "Username does not exist"

  /** Character.toLowerCase on the ASCII letters (no other character lower-cases to 'm' or 'f'). */
  function ToLower(c: char): (l: char)
    ensures 'A' <= c <= 'Z' ==> l as int == c as int + 32
    ensures !('A' <= c <= 'Z') ==> l == c
  {
    if 'A' <= c <= 'Z' then (c as int + 32) as char else c
  }

  // ---------------------------------------------------------------- validation

  /** The rules isValid checks, in the order it checks them. */
  datatype Rule = GenderRule | AgeRule | HeightRule | WeightRule | LengthRule | ActivityRule | GoalRule

  const AllRules: seq<Rule> := [GenderRule, AgeRule, HeightRule, WeightRule, LengthRule, ActivityRule, GoalRule]

  function Rank(r: Rule): nat {
    match r
    case GenderRule => 0
    case AgeRule => 1
    case HeightRule => 2
    case WeightRule => 3
    case LengthRule => 4
    case ActivityRule => 5
    case GoalRule => 6
  }

  function RuleMessage(r: Rule): string {
    match r
    case GenderRule => "Not a valid gender"
    case AgeRule => "Not a valid age"
    case HeightRule => "Not a valid height"
    case WeightRule => "Not a valid weight"
    case LengthRule => "Username/name have exceeded character limit"
    case ActivityRule => "Not a valid activity level"
    case GoalRule => "Not a valid fitness goal"
  }

  // The condition of each rule, as isValid tests it.

  predicate BadGender(p: Person) {
    ToLower(p.gender) != 'm' && ToLower(p.gender) != 'f'
  }

  predicate BadAge(p: Person) {
    p.age < 0 || p.age > OldestPerson
  }

  predicate BadHeight(p: Person) {
    p.height < ShortestHeight || p.height > TallestPerson as real
  }

  predicate BadWeight(p: Person) {
    p.weight < 0.0 || p.weight > HeaviestPerson as real
  }

  /** A username over the limit breaks the length rule whether or not the name is null,
      since the name is then never looked at. */
  predicate TooLong(userName: string, p: Person) {
    |userName| > UserNameLimit || (p.name.Some? && |p.name.value| > NameLimit)
  }

  predicate BadActivity(activity: real) {
    activity < 1.2 || activity > 1.725
  }

  predicate BadGoal(goal: int) {
    goal != 1 && goal != 2
  }

  /** Whether the input breaks a rule. */
  predicate Breaks(r: Rule, userName: string, p: Person, goal: int, activity: real) {
    match r
    case GenderRule => BadGender(p)
    case AgeRule => BadAge(p)
    case HeightRule => BadHeight(p)
    case WeightRule => BadWeight(p)
    case LengthRule => TooLong(userName, p)
    case ActivityRule => BadActivity(activity)
    case GoalRule => BadGoal(goal)
  }

  /** The line a rule contributes to the error text: its message and a line separator
      if it is broken, otherwise nothing. */
  function Line(r: Rule, broken: bool): string {
    if broken then RuleMessage(r) + NewLine else ""
  }

  /** The error text of a non-null input: from empty, the line of each rule in checking
      order. */
  function ErrorText(userName: string, p: Person, goal: int, activity: real): string {
    ""
    + Line(GenderRule, BadGender(p))
    + Line(AgeRule, BadAge(p))
    + Line(HeightRule, BadHeight(p))
    + Line(WeightRule, BadWeight(p))
    + Line(LengthRule, TooLong(userName, p))
    + Line(ActivityRule, BadActivity(activity))
    + Line(GoalRule, BadGoal(goal))
  }

  /** The error text holds the line of every rule, each as Breaks states it. */
  lemma ErrorTextByRule(userName: string, p: Person, goal: int, activity: real)
    ensures ErrorText(userName, p, goal, activity)
         == ""
            + Line(GenderRule, Breaks(GenderRule, userName, p, goal, activity))
            + Line(AgeRule, Breaks(AgeRule, userName, p, goal, activity))
            + Line(HeightRule, Breaks(HeightRule, userName, p, goal, activity))
            + Line(WeightRule, Breaks(WeightRule, userName, p, goal, activity))
            + Line(LengthRule, Breaks(LengthRule, userName, p, goal, activity))
            + Line(ActivityRule, Breaks(ActivityRule, userName, p, goal, activity))
            + Line(GoalRule, Breaks(GoalRule, userName, p, goal, activity))
  {
    assert Line(GenderRule, BadGender(p)) == Line(GenderRule, Breaks(GenderRule, userName, p, goal, activity));
    assert Line(AgeRule, BadAge(p)) == Line(AgeRule, Breaks(AgeRule, userName, p, goal, activity));
    assert Line(HeightRule, BadHeight(p)) == Line(HeightRule, Breaks(HeightRule, userName, p, goal, activity));
    assert Line(WeightRule, BadWeight(p)) == Line(WeightRule, Breaks(WeightRule, userName, p, goal, activity));
    assert Line(LengthRule, TooLong(userName, p)) == Line(LengthRule, Breaks(LengthRule, userName, p, goal, activity));
    assert Line(ActivityRule, BadActivity(activity)) == Line(ActivityRule, Breaks(ActivityRule, userName, p, goal, activity));
    assert Line(GoalRule, BadGoal(goal)) == Line(GoalRule, Breaks(GoalRule, userName, p, goal, activity));
  }

  /** Where isValid dereferences null: the person at once, the username at the length
      check, and the name only when the username is within its limit. */
  predicate NullInput(userName: Option<string>, person: Option<Person>) {
    person.None? || userName.None? || (|userName.value| <= UserNameLimit && person.value.name.None?)
  }

  /** The exception isValid throws, if any: one error for a null input that hides every
      other violation, otherwise one error carrying the whole error text. */
  function ValidationError(userName: Option<string>, person: Option<Person>, goal: int, activity: real): Option<Error> {
    if NullInput(userName, person) then Some(InvalidInput(NullMessage))
    else
      var text := ErrorText(userName.value, person.value, goal, activity);
      if text == "" then None else Some(InvalidInput(text))
  }

  /** Validation accepts exactly the non-null inputs that keep every rule. */
  lemma ValidationAccepts(userName: Option<string>, person: Option<Person>, goal: int, activity: real)
    ensures ValidationError(userName, person, goal, activity).None? <==>
      && userName.Some? && person.Some? && person.value.name.Some?
      && (ToLower(person.value.gender) == 'm' || ToLower(person.value.gender) == 'f')
      && 0 <= person.value.age <= OldestPerson
      && ShortestHeight <= person.value.height <= TallestPerson as real
      && 0.0 <= person.value.weight <= HeaviestPerson as real
      && |userName.value| <= UserNameLimit && |person.value.name.value| <= NameLimit
      && 1.2 <= activity <= 1.725
      && (goal == 1 || goal == 2)
  {
    if !NullInput(userName, person) {
      var u, p := userName.value, person.value;
      ErrorTextByRule(u, p, goal, activity);
      assert |ErrorText(u, p, goal, activity)|
          == |Line(GenderRule, Breaks(GenderRule, u, p, goal, activity))| + |Line(AgeRule, Breaks(AgeRule, u, p, goal, activity))|
             + |Line(HeightRule, Breaks(HeightRule, u, p, goal, activity))| + |Line(WeightRule, Breaks(WeightRule, u, p, goal, activity))|
             + |Line(LengthRule, Breaks(LengthRule, u, p, goal, activity))| + |Line(ActivityRule, Breaks(ActivityRule, u, p, goal, activity))|
             + |Line(GoalRule, Breaks(GoalRule, u, p, goal, activity))|;
    }
  }

  // The error text as a list of broken rules.

  /** The rules of a list that the input breaks, in list order. */
  function Violations(rules: seq<Rule>, userName: string, p: Person, goal: int, activity: real): seq<Rule> {
    if rules == [] then []
    else
      var last := rules[|rules| - 1];
      Violations(rules[..|rules| - 1], userName, p, goal, activity)
      + (if Breaks(last, userName, p, goal, activity) then [last] else [])
  }

  /** One line per rule. */
  function Render(rules: seq<Rule>): string {
    if rules == [] then ""
    else Render(rules[..|rules| - 1]) + RuleMessage(rules[|rules| - 1]) + NewLine
  }

  /** A rule is listed exactly when it is in the list and broken. */
  lemma {:induction false} ViolationsExactly(rules: seq<Rule>, userName: string, p: Person, goal: int, activity: real, r: Rule)
    ensures r in Violations(rules, userName, p, goal, activity) <==> r in rules && Breaks(r, userName, p, goal, activity)
  {
    if rules != [] {
      var init := rules[..|rules| - 1];
      ViolationsExactly(init, userName, p, goal, activity, r);
      assert rules == init + [rules[|rules| - 1]];
    }
  }

  /** Violations keep the order of the rule list. */
  lemma {:induction false} ViolationsOrdered(rules: seq<Rule>, userName: string, p: Person, goal: int, activity: real)
    requires forall i, j :: 0 <= i < j < |rules| ==> Rank(rules[i]) < Rank(rules[j])
    ensures var v := Violations(rules, userName, p, goal, activity);
            forall i, j :: 0 <= i < j < |v| ==> Rank(v[i]) < Rank(v[j])
  {
    if rules != [] {
      var init := rules[..|rules| - 1];
      var last := rules[|rules| - 1];
      ViolationsOrdered(init, userName, p, goal, activity);
      var w := Violations(init, userName, p, goal, activity);
      forall k | 0 <= k < |w|
        ensures Rank(w[k]) < Rank(last)
      {
        ViolationsExactly(init, userName, p, goal, activity, w[k]);
      }
    }
  }

  /** The error text is empty exactly when no rule is listed. */
  lemma RenderEmpty(rules: seq<Rule>)
    ensures Render(rules) == "" <==> rules == []
  {
  }

  /** Every rule is checked, at the position of its rank. */
  lemma AllRulesComplete(r: Rule)
    ensures r in AllRules && AllRules[Rank(r)] == r
  {
  }

  /** The rules are checked in rank order. */
  lemma AllRulesOrdered()
    ensures forall i, j :: 0 <= i < j < |AllRules| ==> Rank(AllRules[i]) < Rank(AllRules[j])
  {
    forall i | 0 <= i < |AllRules|
      ensures Rank(AllRules[i]) == i
    {
    }
  }

  /** Checking one more rule adds its line to the rendered violations. */
  lemma RenderSnoc(rules: seq<Rule>, r: Rule, userName: string, p: Person, goal: int, activity: real)
    ensures Render(Violations(rules + [r], userName, p, goal, activity))
         == Render(Violations(rules, userName, p, goal, activity)) + Line(r, Breaks(r, userName, p, goal, activity))
  {
    assert (rules + [r])[..|rules|] == rules;
    var w := Violations(rules, userName, p, goal, activity);
    if Breaks(r, userName, p, goal, activity) {
      assert (w + [r])[..|w|] == w;
      assert Render(w) + RuleMessage(r) + NewLine == Render(w) + (RuleMessage(r) + NewLine);
    } else {
      assert w + [] == w;
      assert Render(w) + "" == Render(w);
    }
  }

  /** The error text lists the broken rules of the rule list, one line each. */
  lemma ErrorTextRendersViolations(userName: string, p: Person, goal: int, activity: real)
    ensures ErrorText(userName, p, goal, activity) == Render(Violations(AllRules, userName, p, goal, activity))
  {
    var r1 := [GenderRule];
    var r2 := r1 + [AgeRule];
    var r3 := r2 + [HeightRule];
    var r4 := r3 + [WeightRule];
    var r5 := r4 + [LengthRule];
    var r6 := r5 + [ActivityRule];
    assert AllRules == r6 + [GoalRule];
    assert [] + [GenderRule] == r1;
    ErrorTextByRule(userName, p, goal, activity);
    RenderSnoc([], GenderRule, userName, p, goal, activity);
    RenderSnoc(r1, AgeRule, userName, p, goal, activity);
    RenderSnoc(r2, HeightRule, userName, p, goal, activity);
    RenderSnoc(r3, WeightRule, userName, p, goal, activity);
    RenderSnoc(r4, LengthRule, userName, p, goal, activity);
    RenderSnoc(r5, ActivityRule, userName, p, goal, activity);
    RenderSnoc(r6, GoalRule, userName, p, goal, activity);
  }

  /** The error of a non-null input is the rendering of its broken rules, and none when
      no rule is broken. */
  lemma ValidationRendersViolations(userName: string, p: Person, goal: int, activity: real)
    requires p.name.Some? || |userName| > UserNameLimit
    ensures var v := Violations(AllRules, userName, p, goal, activity);
            ValidationError(Some(userName), Some(p), goal, activity)
            == (if v == [] then None else Some(InvalidInput(Render(v))))
  {
    ErrorTextRendersViolations(userName, p, goal, activity);
    RenderEmpty(Violations(AllRules, userName, p, goal, activity));
  }

  /** Every broken rule is listed, and only those. */
  lemma ViolationsAreBroken(userName: string, p: Person, goal: int, activity: real)
    ensures var v := Violations(AllRules, userName, p, goal, activity);
            forall r :: r in v <==> Breaks(r, userName, p, goal, activity)
  {
    forall r
      ensures r in Violations(AllRules, userName, p, goal, activity) <==> Breaks(r, userName, p, goal, activity)
    {
      ViolationsExactly(AllRules, userName, p, goal, activity, r);
      AllRulesComplete(r);
    }
  }

  /** The listed rules appear in the order isValid checks them. */
  lemma ViolationsInCheckOrder(userName: string, p: Person, goal: int, activity: real)
    ensures var v := Violations(AllRules, userName, p, goal, activity);
            forall i, j :: 0 <= i < j < |v| ==> Rank(v[i]) < Rank(v[j])
  {
    AllRulesOrdered();
    ViolationsOrdered(AllRules, userName, p, goal, activity);
  }

  /** The error of a non-null input lists exactly the broken rules, each once, in the
      order isValid checks them. */
  lemma ValidationListsEveryRule(userName: string, p: Person, goal: int, activity: real)
    requires p.name.Some? || |userName| > UserNameLimit
    ensures var v := Violations(AllRules, userName, p, goal, activity);
            && ValidationError(Some(userName), Some(p), goal, activity)
               == (if v == [] then None else Some(InvalidInput(Render(v))))
            && (forall r :: r in v <==> Breaks(r, userName, p, goal, activity))
            && (forall i, j :: 0 <= i < j < |v| ==> Rank(v[i]) < Rank(v[j]))
  {
    ValidationRendersViolations(userName, p, goal, activity);
    ViolationsAreBroken(userName, p, goal, activity);
    ViolationsInCheckOrder(userName, p, goal, activity);
  }

  /** When exactly one rule is broken, a rule list in rank order lists that rule alone, if
      it holds it at all. */
  lemma {:induction false} ViolationsOfOne(rules: seq<Rule>, userName: string, p: Person, goal: int, activity: real, broken: Rule)
    requires forall r :: Breaks(r, userName, p, goal, activity) <==> r == broken
    requires forall i, j :: 0 <= i < j < |rules| ==> Rank(rules[i]) < Rank(rules[j])
    ensures Violations(rules, userName, p, goal, activity) == if broken in rules then [broken] else []
  {
    if rules != [] {
      var init := rules[..|rules| - 1];
      var last := rules[|rules| - 1];
      ViolationsOfOne(init, userName, p, goal, activity, broken);
      assert rules == init + [last];
      if last == broken {
        forall k | 0 <= k < |init|
          ensures init[k] != broken
        {
          assert Rank(rules[k]) < Rank(last);
        }
      }
    }
  }

  /** An input that breaks exactly one rule gets an error of that rule's line alone. */
  lemma SingleViolation(userName: string, p: Person, goal: int, activity: real, broken: Rule)
    requires p.name.Some? || |userName| > UserNameLimit
    requires forall r :: Breaks(r, userName, p, goal, activity) <==> r == broken
    ensures ValidationError(Some(userName), Some(p), goal, activity) == Some(InvalidInput(RuleMessage(broken) + NewLine))
  {
    AllRulesOrdered();
    AllRulesComplete(broken);
    ViolationsOfOne(AllRules, userName, p, goal, activity, broken);
    SingleLine(userName, p, goal, activity, broken);
  }

  /** When the rules list one violation, the error is that rule's line. */
  lemma SingleLine(userName: string, p: Person, goal: int, activity: real, broken: Rule)
    requires p.name.Some? || |userName| > UserNameLimit
    requires Violations(AllRules, userName, p, goal, activity) == [broken]
    ensures ValidationError(Some(userName), Some(p), goal, activity) == Some(InvalidInput(RuleMessage(broken) + NewLine))
  {
    ValidationRendersViolations(userName, p, goal, activity);
    RenderOne(broken);
  }

  lemma RenderOne(r: Rule)
    ensures Render([r]) == RuleMessage(r) + NewLine
  {
    assert [r][..0] == [];
  }

  /** The invalid inputs the tests set out to reject, each beside otherwise valid values
      (username "Alejandro", goal 2, activity 1.2): a null name, a gender of 'i', a username
      over 10 characters and a null username. */
  lemma ValidationExamples()
    ensures ValidationError(Some("Alejandro"), Some(Person(None, 'm', 180.34, 74.46, 23)), 2, 1.2)
            == Some(InvalidInput(NullMessage))
    ensures ValidationError(Some("Alejandro"), Some(Person(Some("Jose"), 'i', 180.34, 74.46, 23)), 2, 1.2)
            == Some(InvalidInput("Not a valid gender" + NewLine))
    ensures ValidationError(Some("very long username"), Some(Person(Some("Jose"), 'm', 180.34, 73.46, 23)), 2, 1.2)
            == Some(InvalidInput("Username/name have exceeded character limit" + NewLine))
    ensures ValidationError(None, Some(Person(Some("Jose"), 'm', 180.34, 73.46, 23)), 2, 1.2)
            == Some(InvalidInput(NullMessage))
  {
    var gender := Person(Some("Jose"), 'i', 180.34, 74.46, 23);
    forall r
      ensures Breaks(r, "Alejandro", gender, 2, 1.2) <==> r == GenderRule
    {
      match r {
        case GenderRule =>
        case AgeRule =>
        case HeightRule =>
        case WeightRule =>
        case LengthRule =>
        case ActivityRule =>
        case GoalRule =>
      }
    }
    SingleViolation("Alejandro", gender, 2, 1.2, GenderRule);
    var long := Person(Some("Jose"), 'm', 180.34, 73.46, 23);
    assert |"very long username"| > UserNameLimit;
    forall r
      ensures Breaks(r, "very long username", long, 2, 1.2) <==> r == LengthRule
    {
      match r {
        case GenderRule =>
        case AgeRule =>
        case HeightRule =>
        case WeightRule =>
        case LengthRule =>
        case ActivityRule =>
        case GoalRule =>
      }
    }
    SingleViolation("very long username", long, 2, 1.2, LengthRule);
  }

  /** The invalid-input tests as they run: their values come from a test object whose
      setup never runs, so the username and person are null, the goal 0 and the activity
      0.0, and every call fails on the null check before any rule is reached. */
  lemma InvalidInputTestCalls()
    ensures forall person <- [Person(None, 'm', 180.34, 74.46, 23), Person(Some("Jose"), 'i', 180.34, 74.46, 23),
                              Person(Some("Jose"), 'm', 700.0, 74.46, 23), Person(Some("Jose"), 'm', 180.34, -1.0, 23),
                              Person(Some("Jose"), 'm', 180.34, 74.46, -1)] ::
              ValidationError(None, Some(person), 0, 0.0) == Some(InvalidInput(NullMessage))
    ensures ValidationError(Some("very long username"), None, 0, 0.0) == Some(InvalidInput(NullMessage))
    ensures ValidationError(None, None, 0, 0.0) == Some(InvalidInput(NullMessage))
    ensures ValidationError(None, None, -1, 0.0) == Some(InvalidInput(NullMessage))
    ensures ValidationError(None, None, 3, 0.0) == Some(InvalidInput(NullMessage))
    ensures ValidationError(None, None, 0, 5.0) == Some(InvalidInput(NullMessage))
    ensures ValidationError(None, None, 0, -1.0) == Some(InvalidInput(NullMessage))
  {
  }

  /** One check of isValid: the rule's message and a line separator are appended to the
      error text when the input breaks the rule. */
  method AppendIfBroken(errors: string, broken: bool, r: Rule) returns (e: string)
    ensures e == errors + Line(r, broken)
  {
    e := errors;
    if broken {
      e := e + (RuleMessage(r) + NewLine);
    }
  }

  /** isValid: builds the error text rule by rule, as the source appends to its
      StringBuilder, and throws the error if any rule was broken; a null reference met on
      the way discards the text and throws the null-input error instead. */
  method IsValid(userName: Option<string>, person: Option<Person>, fitnessGoal: int, activityLevel: real)
    returns (r: Result<bool>)
    ensures r.Ok? <==> ValidationError(userName, person, fitnessGoal, activityLevel).None?
    ensures r.Ok? ==> r.value
    ensures r.Err? ==> r.error == ValidationError(userName, person, fitnessGoal, activityLevel).value
  {
    if person.None? {
      return Err(InvalidInput(NullMessage));
    }
    var p := person.value;
    var errors := "";
    errors := AppendIfBroken(errors, BadGender(p), GenderRule);
    errors := AppendIfBroken(errors, BadAge(p), AgeRule);
    errors := AppendIfBroken(errors, BadHeight(p), HeightRule);
    errors := AppendIfBroken(errors, BadWeight(p), WeightRule);
    // userName.length() dereferences the username, and the name is dereferenced only
    // when the username is within its limit
    if userName.None? || (|userName.value| <= UserNameLimit && p.name.None?) {
      return Err(InvalidInput(NullMessage));
    }
    errors := AppendIfBroken(errors, TooLong(userName.value, p), LengthRule);
    errors := AppendIfBroken(errors, BadActivity(activityLevel), ActivityRule);
    errors := AppendIfBroken(errors, BadGoal(fitnessGoal), GoalRule);
    if |errors| != 0 {
      return Err(InvalidInput(errors));
    }
    return Ok(true);
  }

  // ---------------------------------------------------------------- formulas

  /** TDEE: the activity level times the Mifflin-St Jeor BMR, +5 for a gender that
      lower-cases to 'm' and -161 otherwise. */
  function CalculateTdee(gender: char, age: int, height: real, weight: real, activityLevel: real): (r: real)
    ensures ToLower(gender) == 'm' ==> r == activityLevel * (10.0 * weight + 6.25 * height - 5.0 * age as real + 5.0)
    ensures ToLower(gender) != 'm' ==> r == activityLevel * (10.0 * weight + 6.25 * height - 5.0 * age as real - 161.0)
  {
    var bmr := 10.0 * weight + 6.25 * height - 5.0 * age as real;
    if ToLower(gender) == 'm' then activityLevel * (bmr + 5.0) else activityLevel * (bmr - 161.0)
  }

  /** Men and women of the same build and activity differ by 166 times the activity
      level; every gender other than 'm'/'M' gets the female formula. */
  lemma TdeeGenderGap(age: int, height: real, weight: real, activityLevel: real, other: char)
    requires ToLower(other) != 'm'
    ensures CalculateTdee('m', age, height, weight, activityLevel) - CalculateTdee(other, age, height, weight, activityLevel)
            == 166.0 * activityLevel
    ensures CalculateTdee('M', age, height, weight, activityLevel) == CalculateTdee('m', age, height, weight, activityLevel)
    ensures CalculateTdee(other, age, height, weight, activityLevel) == CalculateTdee('f', age, height, weight, activityLevel)
  {
  }

  /** With a positive activity level, TDEE rises with weight and height and falls with age. */
  lemma TdeeMonotone(gender: char, age: int, height: real, weight: real, activityLevel: real, age': int, height': real, weight': real)
    requires activityLevel > 0.0
    requires weight <= weight' && height <= height' && age' <= age
    ensures CalculateTdee(gender, age, height, weight, activityLevel) <= CalculateTdee(gender, age', height', weight', activityLevel)
  {
    var bmr := 10.0 * weight + 6.25 * height - 5.0 * age as real;
    var bmr' := 10.0 * weight' + 6.25 * height' - 5.0 * age' as real;
    assert bmr <= bmr';
    assert activityLevel * (bmr + 5.0) <= activityLevel * (bmr' + 5.0);
    assert activityLevel * (bmr - 161.0) <= activityLevel * (bmr' - 161.0);
  }

  lemma SquarePositive(x: real)
    requires x != 0.0
    ensures x * x > 0.0
  {
  }

  /** A non-zero square can be divided by and multiplied back. */
  lemma SquareQuotient(x: real, w: real)
    requires x != 0.0
    ensures x * x != 0.0
    ensures w / (x * x) * (x * x) == w
  {
    SquarePositive(x);
  }

  /** BMI: weight over the square of the height in metres. Only heights that passed
      validation (at least 30.48 cm) reach it. */
  function CalculateBmi(height: real, weight: real): (bmi: real)
    requires height != 0.0
    ensures bmi * (height / 100.0) * (height / 100.0) == weight
  {
    var cmToMeters := height / 100.0;
    SquareQuotient(cmToMeters, weight);
    weight / (cmToMeters * cmToMeters)
  }

  /** A person the validation accepts whose TDEE is negative: weight 0, the lowest height,
      the highest age. Their cutting plan has a negative deficit, so its projection fails. */
  lemma NegativeTdeeAccepted()
    ensures var p := Person(Some("a"), 'f', ShortestHeight, 0.0, OldestPerson);
            && ValidationError(Some("a"), Some(p), 2, 1.2).None?
            && CalculateTdee(p.gender, p.age, p.height, p.weight, 1.2) < 0.0
            && ProgressOf(NewCutting(CalculateTdee(p.gender, p.age, p.height, p.weight, 1.2), 0.0, Default)).Err?
  {
    var p := Person(Some("a"), 'f', ShortestHeight, 0.0, OldestPerson);
    ValidationAccepts(Some("a"), Some(p), 2, 1.2);
    var tdee := CalculateTdee(p.gender, p.age, p.height, p.weight, 1.2);
    ProgressOutcome(NewCutting(tdee, 0.0, Default));
  }

  /** createDiet: TDEE and BMI from the person, a bulking plan for goal 1 and a cutting
      plan for goal 2, both on the Default profile. */
  function DietFor(person: Person, activityLevel: real, fitnessGoal: int): (r: Result<DietState>)
    requires person.height != 0.0
    ensures r.Ok? <==> fitnessGoal == 1 || fitnessGoal == 2
    ensures r.Err? ==> r.error == InvalidInput("Not a valid fitness goal")
    ensures r.Ok? ==> && IsBulking(r.value) == (fitnessGoal == 1) && r.value.macro == Default
                      && WellFormed(r.value)
                      && r.value.tdee == CalculateTdee(person.gender, person.age, person.height, person.weight, activityLevel)
                      && r.value.bmi == CalculateBmi(person.height, person.weight)
    ensures r.Ok? ==> var tdee := CalculateTdee(person.gender, person.age, person.height, person.weight, activityLevel);
                      var bmi := CalculateBmi(person.height, person.weight);
                      r.value == (if fitnessGoal == 1 then NewBulking(tdee, bmi, Default) else NewCutting(tdee, bmi, Default))
  {
    var tdee := CalculateTdee(person.gender, person.age, person.height, person.weight, activityLevel);
    var bmi := CalculateBmi(person.height, person.weight);
    match fitnessGoal
    case 1 => Ok(NewBulking(tdee, bmi, Default))
    case 2 => Ok(NewCutting(tdee, bmi, Default))
    case _ => Err(InvalidInput("Not a valid fitness goal"))
  }

  method CreateDiet(person: Person, activityLevel: real, fitnessGoal: int) returns (r: Result<Diet>)
    requires person.height != 0.0
    ensures r.Ok? <==> DietFor(person, activityLevel, fitnessGoal).Ok?
    ensures r.Err? ==> r.error == DietFor(person, activityLevel, fitnessGoal).error
    ensures r.Ok? ==> fresh(r.value) && r.value.Valid() && r.value.State() == DietFor(person, activityLevel, fitnessGoal).value
  {
    var tdee := CalculateTdee(person.gender, person.age, person.height, person.weight, activityLevel);
    var bmi := CalculateBmi(person.height, person.weight);
    if fitnessGoal == 1 {
      var d := new Diet.BulkingDiet(tdee, bmi, Default);
      return Ok(d);
    } else if fitnessGoal == 2 {
      var d := new Diet.CuttingDiet(tdee, bmi, Default);
      return Ok(d);
    }
    return Err(InvalidInput("Not a valid fitness goal"));
  }

  // ---------------------------------------------------------------- strings

  /** checkCharLimit: null becomes ""; a string over the limit is cut to its first limit
      characters (a negative limit makes substring throw); others come back unchanged. */
  function CheckCharLimit(checkString: Option<string>, charLimit: int): (r: Result<string>)
    ensures r.Err? <==> checkString.Some? && charLimit < 0
    ensures r.Err? ==> r.error == IndexOutOfBounds
    ensures checkString.None? ==> r == Ok("")
    ensures r.Ok? && checkString.Some? ==>
              && |r.value| <= charLimit && r.value <= checkString.value
              && (|checkString.value| <= charLimit ==> r.value == checkString.value)
              && (|checkString.value| > charLimit ==> |r.value| == charLimit)
  {
    match checkString
    case None => Ok("")
    case Some(s) =>
      if |s| > charLimit then
        if charLimit < 0 then Err(IndexOutOfBounds) else Ok(s[..charLimit])
      else Ok(s)
  }

  /** Checking a string that already passed the check returns it unchanged. */
  lemma CheckCharLimitIdempotent(checkString: Option<string>, charLimit: int)
    requires checkString.Some? && CheckCharLimit(checkString, charLimit).Ok?
    ensures var s := CheckCharLimit(checkString, charLimit).value;
            CheckCharLimit(Some(s), charLimit) == Ok(s)
  {
  }

  /** The character-limit tests. */
  lemma CheckCharLimitExamples()
    ensures CheckCharLimit(Some("very very long username"), 3) == Ok("ver")
    ensures CheckCharLimit(Some("very very long username"), 25) == Ok("very very long username")
    ensures CheckCharLimit(None, 0) == Ok("") && CheckCharLimit(Some(""), 0) == Ok("")
  {
    assert "very very long username"[..3] == "ver";
  }

  // ---------------------------------------------------------------- the store

  /** Every user is stored under its own username. */
  ghost predicate KeyedByName(m: map<string, User>) {
    forall k :: k in m ==> m[k].userName == k
  }

  /** The store after loadUsers puts each decoded user under its username, in order;
      a later user replaces an earlier one with the same name. */
  ghost function InsertAll(m: map<string, User>, decoded: seq<User>): map<string, User> {
    if decoded == [] then m
    else
      var last := decoded[|decoded| - 1];
      InsertAll(m, decoded[..|decoded| - 1])[last.userName := last]
  }

  /** Loading keeps every user under its own name and adds exactly the decoded names. */
  lemma {:induction false} InsertAllKeyed(m: map<string, User>, decoded: seq<User>)
    requires KeyedByName(m)
    ensures KeyedByName(InsertAll(m, decoded))
    ensures forall k :: k in InsertAll(m, decoded) <==> k in m || exists i :: 0 <= i < |decoded| && decoded[i].userName == k
  {
    if decoded != [] {
      var init := decoded[..|decoded| - 1];
      InsertAllKeyed(m, init);
      forall k
        ensures k in InsertAll(m, decoded) <==> k in m || exists i :: 0 <= i < |decoded| && decoded[i].userName == k
      {
        if exists i :: 0 <= i < |init| && init[i].userName == k {
          var i :| 0 <= i < |init| && init[i].userName == k;
          assert decoded[i].userName == k;
        }
        if exists i :: 0 <= i < |decoded| && decoded[i].userName == k {
          var i :| 0 <= i < |decoded| && decoded[i].userName == k;
          if i < |init| {
            assert init[i].userName == k;
          }
        }
      }
    }
  }

  class UserSystem {
    var users: map<string, User>

    ghost predicate Valid()
      reads this
    {
      KeyedByName(users)
    }

    constructor()
      ensures Valid() && users == map[]
    {
      users := map[];
    }

    /** addUser: on valid input stores a new user under its username (replacing any user
        already there) and returns it; on invalid input throws the validation error and
        leaves the store alone. */
    method AddUser(userName: Option<string>, person: Option<Person>, fitnessGoal: int, activityLevel: real)
      returns (r: Result<User>)
      requires Valid()
      modifies this
      ensures Valid()
      ensures r.Ok? <==> ValidationError(userName, person, fitnessGoal, activityLevel).None?
      ensures r.Err? ==> r.error == ValidationError(userName, person, fitnessGoal, activityLevel).value
      ensures r.Err? ==> users == old(users)
      ensures r.Ok? ==> && userName.Some? && person.Some? && person.value.height != 0.0
                        && users == old(users)[userName.value := r.value]
                        && fresh(r.value) && fresh(r.value.diet)
                        && r.value.userName == userName.value && r.value.person == person.value
                        && r.value.diet.Valid()
                        && DietFor(person.value, activityLevel, fitnessGoal) == Ok(r.value.diet.State())
    {
      var valid := IsValid(userName, person, fitnessGoal, activityLevel);
      if valid.Err? {
        return Err(valid.error);
      }
      ValidationAccepts(userName, person, fitnessGoal, activityLevel);
      var created := CreateDiet(person.value, activityLevel, fitnessGoal);
      var diet := created.value;
      var user := new User(userName.value, person.value, diet);
      users := users[userName.value := user];
      return Ok(users[userName.value]);
    }

    /** validateUsername: whether a user is stored under the name. */
    function ValidateUsername(userName: string): (b: bool)
      reads this
      ensures b <==> userName in users
    {
      userName in users
    }

    /** retrieveUser: the stored user, or the not-found error. */
    function RetrieveUser(userName: string): (r: Result<User>)
      reads this
      ensures r.Ok? <==> ValidateUsername(userName)
      ensures r.Ok? ==> r.value == users[userName]
      ensures r.Err? ==> r.error == InvalidInput(NotFoundMessage)
    {
      if userName in users then Ok(users[userName]) else Err(InvalidInput(NotFoundMessage))
    }

    /** deleteUser: removes the user and returns true, or throws the not-found error and
        leaves the store alone. */
    method DeleteUser(userName: string) returns (r: Result<bool>)
      requires Valid()
      modifies this
      ensures Valid()
      ensures r.Ok? <==> userName in old(users)
      ensures r.Ok? ==> r.value && users == old(users) - {userName}
      ensures r.Err? ==> r.error == InvalidInput(NotFoundMessage) && users == old(users)
    {
      if userName in users {
        users := users - {userName};
        return Ok(true);
      }
      return Err(InvalidInput(NotFoundMessage));
    }

    /** loadUsers after the file has been read: the users decoded before the end of the
        stream (or before a decoding failure, which keeps what was read so far) are put
        into the store one by one under their usernames. */
    method LoadUsers(decoded: seq<User>)
      requires Valid()
      modifies this
      ensures Valid()
      ensures users == InsertAll(old(users), decoded)
    {
      var i := 0;
      while i < |decoded|
        invariant 0 <= i <= |decoded|
        invariant users == InsertAll(old(users), decoded[..i])
        invariant Valid()
      {
        var user := decoded[i];
        assert decoded[..i + 1][..i] == decoded[..i];
        users := users[user.userName := user];
        i := i + 1;
      }
      assert decoded[..i] == decoded;
    }
  }

  /** The add/retrieve/delete round: the test set-up adds a user with goal 2 (cutting) and
      activity 1.2; the user can then be retrieved, and once deleted, retrieving or deleting
      the name again fails with "Username does not exist", while the other users stay. */
  method StoreScenario(store: UserSystem, userName: string, person: Person)
    returns (retrieved: Result<User>, retrievedAgain: Result<User>, deletedAgain: Result<bool>)
    requires store.Valid()
    requires ValidationError(Some(userName), Some(person), 2, 1.2).None?
    modifies store
    ensures retrieved.Ok? && !retrieved.value.diet.isBulking && retrieved.value.person == person
    ensures retrievedAgain == Err(InvalidInput(NotFoundMessage))
    ensures deletedAgain == Err(InvalidInput(NotFoundMessage))
    ensures store.Valid() && store.users == old(store.users) - {userName}
  {
    var added := store.AddUser(Some(userName), Some(person), 2, 1.2);
    retrieved := store.RetrieveUser(userName);
    assert retrieved == Ok(added.value);
    assert !added.value.diet.isBulking;
    var deleted := store.DeleteUser(userName);
    assert deleted == Ok(true);
    retrievedAgain := store.RetrieveUser(userName);
    deletedAgain := store.DeleteUser(userName);
  }

}
