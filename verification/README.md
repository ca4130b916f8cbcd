# Fitness diet planner: a Dafny model

This project models the diet-plan engine of the Fitness Diet Planner (a Java console
application) and the validated user store that owns it. It covers:

- **the macro table**: four fixed carbohydrate/protein/fat profiles and their percentage text;
- **a diet plan**:
  - TDEE and BMI, fixed when the plan is created;
  - a replaceable macro profile;
  - either a calorie surplus (bulking: a regular 500 or a lean 250) or a deficit (cutting:
    10, 20, 30 or 40 percent of TDEE, cast to int);
- **the shared plan arithmetic**: BMI classification and display, the projected weight change
  for a daily offset, and grams of each macronutrient;
- **a user**: a username and a person, fixed at construction, and a plan that
  `changeDietPlan` replaces by the other variant;
- **the user store**: a map from username to user, with these operations:
  - `addUser`, which validates every rule and reports all broken rules in one error;
  - TDEE by the Mifflin-St Jeor BMR, and BMI;
  - `checkCharLimit`;
  - lookup, retrieval and deletion by username;
  - loading a sequence of already decoded users;
- **the guarded unit conversions**.

## How the model is built

- **Numbers.**
  - Java `double` is `real`.
  - The `(int)` cast is `Numbers.Trunc`, which truncates toward zero.
  - Java `int` division is `Numbers.JavaDiv`.
  - `Integer.toString` is `Numbers.IntToString`.
  - `String.format("%.2f", x)` is `Numbers.FormatFixed2`, which rounds half up.
- **Exceptions and nulls.**
  - Exceptions become `Wrappers.Result` with the error kinds `InvalidInput(message)`, `Arithmetic(message)` and `IndexOutOfBounds`.
  - A nullable username, person or name is a `Wrappers.Option`.
- **Plans and the user store.**
  - `Diets.Diet` is a class holding the fields of the abstract `Diet` and of both subclasses, tagged by the constant `isBulking`.
  - Its abstract value is the datatype `Diets.DietState`.
  - Each state-changing method is specified against a function on `DietState`: `AfterIntakeChange`, `AfterMacroChange` and `Switched`.
  - `tdee`, `bmi` and `isBulking` are `const` fields, so no method can change them. The same holds for a user's `userName` and `person`.
- **Validation.**
  - `UserSystems.IsValid` builds the error text one rule at a time, as the source's `StringBuilder` does.
  - It is proved equal to the function `UserSystems.ValidationError`.
  - That function is then characterised twice: by `ValidationAccepts` (accepted exactly when every rule holds) and by `ValidationListsEveryRule` (the error lists exactly the broken rules, once each, in checking order).

Behaviour of the code that is easy to misread:

- **A null name is not always a null input.** A null name counts as a null input only when the username is within its 10-character limit. A longer username short-circuits the length check, so the name is never dereferenced and the input gets the ordinary length error.
- **A null reference hides every other violation.** Once `isValid` dereferences a null reference, the rule lines already collected are discarded and the only error is "Inputs cannot be null".
- **`feetAndInchesToCm` throws `InvalidInputException`**, not an arithmetic error. `poundsToKilograms` also rejects zero.
- **None of the invalid-input tests reaches the rule it is named for.** They take the username, person, goal and activity from a `UserSystemTest` whose setup never runs, so every call passes a null username or person (with goal 0 and activity 0.0) and fails with "Inputs cannot be null" (`UserSystems.InvalidInputTestCalls`).
- **`loadUsers` leaves the store as it was when no file exists.** It does not start from an empty store.
- **A validated person can still have a negative TDEE.** With weight 0, height 30.48 and age 122, the TDEE is negative. The person's cutting plan then has a non-positive deficit, and its progress projection fails with the negative-offset error (`UserSystems.NegativeTdeeAccepted`).

## Model

| member | source | states |
|---|---|---|
| MacroDiets.MacroDiet.Name | src/main/java/com/example/codesample/MacroDiets.java:55-57 | every profile has a non-empty name |
| MacroDiets.MacroDiet.Carbs | src/main/java/com/example/codesample/MacroDiets.java:59-62 | the carbohydrate fraction lies in [0, 1] |
| MacroDiets.MacroDiet.Protein | src/main/java/com/example/codesample/MacroDiets.java:64-67 | the protein fraction lies in [0, 1] |
| MacroDiets.MacroDiet.Fat | src/main/java/com/example/codesample/MacroDiets.java:69-72 | the fat fraction lies in [0, 1] |
| MacroDiets.MacroDiet.DisplayMacroPercentages | src/main/java/com/example/codesample/MacroDiets.java:78-82 | the text starts with "Carbs ", ends with '%' and holds no minus sign, since every percentage is non-negative; the exact text of each profile is fixed by the four lemmas below |
| MacroDiets.Profiles | src/main/java/com/example/codesample/MacroDiets.java:15-27 | each of the four profiles is identified by exactly its (carbs, protein, fat) triple |
| MacroDiets.FractionSums | src/main/java/com/example/codesample/MacroDiets.java:15-27 | Atkins, Default and Keto fractions sum to 1; Paleo's sum to 1.05 |
| MacroDiets.PercentagesLine | src/main/java/com/example/codesample/MacroDiets.java:78-82 | for non-negative fractions the line starts with "Carbs ", ends with '%' and holds no minus sign |
| MacroDiets.PercentText | src/main/java/com/example/codesample/MacroDiets.java:79-81 | a fraction that is n percent prints as the decimal digits of n |
| MacroDiets.PercentagesText | src/main/java/com/example/codesample/MacroDiets.java:78-82 | for whole percentages the line is "Carbs C% Protein P% Fat F%" with the decimal digits of each |
| MacroDiets.DefaultPercentages | src/main/java/com/example/codesample/MacroDiets.java:78-82 | Default reads "Carbs 45% Protein 25% Fat 30%" |
| MacroDiets.PaleoPercentages | src/main/java/com/example/codesample/MacroDiets.java:78-82 | Paleo reads "Carbs 30% Protein 25% Fat 50%" |
| MacroDiets.AtkinsPercentages | src/main/java/com/example/codesample/MacroDiets.java:78-82 | Atkins reads "Carbs 10% Protein 30% Fat 60%" |
| MacroDiets.KetoPercentages | src/main/java/com/example/codesample/MacroDiets.java:78-82 | Keto reads "Carbs 5% Protein 20% Fat 75%" (the cast keeps a single digit) |
| Numbers.Trunc | src/main/java/com/example/codesample/CuttingDiet.java:26 | the (int) cast: the integer between 0 and x nearest to x, within 1 of it, for either sign |
| Numbers.JavaDiv | src/main/java/com/example/codesample/Diet.java:96-98 | int division rounds toward zero: the quotient and remainder bounds for both signs of the dividend |
| Numbers.NatToString | src/main/java/com/example/codesample/MacroDiets.java:79-81 | the decimal text is a non-empty digit string without a leading zero |
| Numbers.IntToString | src/main/java/com/example/codesample/MacroDiets.java:79-81 | Integer.toString: the decimal digits of the value for a non-negative one, a '-' before the digits of the magnitude for a negative one |
| Numbers.ParseNatToString | src/main/java/com/example/codesample/MacroDiets.java:79-81 | reading the printed digits back gives the number (round trip) |
| Numbers.HundredthsHalfUp | src/main/java/com/example/codesample/Diet.java:89 | the rounded hundredths lie within half a unit of 100 x |
| Numbers.Fixed2NonNegative | src/main/java/com/example/codesample/Diet.java:89 | "%.2f" text: digits, a dot and two digits that read back as the rounded hundredths, with no leading zero in the whole part other than a lone "0" |
| Numbers.Decimals | src/main/java/com/example/codesample/Diet.java:89 | the two decimals of "%.2f" for a value below 100: two digits, a leading zero kept, that read back as the value |
| Numbers.TwoDigitText | src/main/java/com/example/codesample/MacroDiets.java:79-81 | from 10 to 99 Integer.toString prints the same two digits as the decimals of "%.2f" |
| Numbers.FormatFixed2 | src/main/java/com/example/codesample/Diet.java:89 | a minus sign exactly for negative values, then digits, a dot and two digits that read back as the magnitude's hundredths rounded half up; the whole part has no leading zero other than a lone "0" |
| Conversions.FeetAndInchesToCm | src/main/java/com/example/codesample/Conversions.java:13-21 | fails with "Not a valid feet/inches input" iff feet <= 0 or inches outside 0..11; otherwise the centimetres over 2.54 are exactly 12 feet + inches, and at least 30.48 cm |
| Conversions.PoundsToKilograms | src/main/java/com/example/codesample/Conversions.java:23-28 | fails iff weight <= 0; otherwise a positive value that times 2.205 gives the weight |
| Conversions.KilogramsToPounds | src/main/java/com/example/codesample/Conversions.java:30-35 | fails iff weight < 0 (zero accepted); otherwise a non-negative value that over 2.205 gives the weight |
| Conversions.CmToInches | src/main/java/com/example/codesample/Conversions.java:37-42 | fails iff height <= 0; otherwise the whole number of inches n with 2.54 n <= height < 2.54 (n + 1) |
| Conversions.PoundsRoundTrip | src/main/java/com/example/codesample/Conversions.java:23-35 | kilogramsToPounds(poundsToKilograms(w)) = w for every w > 0 |
| Conversions.FeetAndInchesRoundTrip | src/main/java/com/example/codesample/Conversions.java:13-42 | over the reals, cmToinches(feetAndInchesToCm(f, i)) = 12 f + i for every valid f, i |
| Conversions.Examples | src/test/java/com/example/codesample/ConversionsTest.java:27-91 | (5, 10) is 177.8 cm, (0, 13) and (1, -1) fail, 177.8 cm is 70 inches, 0 lb fails and 0 kg is 0 lb |
| Persons.DisplayPersonDetails | Person.java:68-71 | fails iff weight < 0 or height <= 0, with the conversion's error; otherwise 12 feet + inches is cmToinches(height) with 0 <= inches < 12, and the weight in pounds is weight times 2.205 |
| DietBase.ClassifyBmi | src/main/java/com/example/codesample/Diet.java:79-87 | each category holds exactly on its range; the gaps (24.9, 25) and (29.9, 30) are obese |
| DietBase.ClassifyBoundaries | src/main/java/com/example/codesample/Diet.java:79-87 | 18.49 underweight, 18.5 and 24.9 healthy, 24.95 obese, 25 and 29.9 overweight, 29.95 and 30 obese |
| DietBase.DisplayBmi | src/main/java/com/example/codesample/Diet.java:76-90 | the two-decimal BMI followed by "(underweight)" below 18.5, "(healthy)" on [18.5, 24.9], "(overweight)" on [25, 29.9] and "(obese)" everywhere else |
| DietBase.DisplayText | src/main/java/com/example/codesample/Diet.java:76-90 | a BMI from 10.00 to 99.99 in whole hundredths displays as its whole part, '.', its two decimals and its category label |
| DietBase.DisplayUnderweightExample | src/test/java/com/example/codesample/UserSystemTest.java:185-193 | a BMI of 18.24 displays as "18.24(underweight)" |
| DietBase.DisplayHealthyExample | src/test/java/com/example/codesample/UserSystemTest.java:185-194 | a BMI of 23.00 displays as "23.00(healthy)" |
| DietBase.DisplayOverweightExample | src/test/java/com/example/codesample/UserSystemTest.java:185-195 | a BMI of 25.92 displays as "25.92(overweight)" |
| DietBase.DisplayObeseExample | src/test/java/com/example/codesample/UserSystemTest.java:185-196 | a BMI of 39.82 displays as "39.82(obese)" |
| DietBase.CalculateWeightChange | src/main/java/com/example/codesample/Diet.java:148-161 | fails with "parameter cannot be less than 0" iff the offset is negative; otherwise week is 7 offset / 3500, month is 4.345 weeks and year is 12 months, so 0 <= week <= month <= year |
| DietBase.WeightChangeMonotone | src/main/java/com/example/codesample/Diet.java:153-160 | a larger non-negative offset never projects a smaller week, month or year |
| DietBase.WeightChangeExamples | src/test/java/com/example/codesample/UserSystemTest.java:73-74 | offset 0 gives (0, 0, 0), 500 gives (1, 4.345, 52.14), -1 fails |
| DietBase.ExpectedProgress | BulkingDiet.java:42-54 | succeeds iff the offset is positive; a negative offset gets the weight-change error and zero the conversion error; the week, month and year in kilograms are the pounds over 2.205 |
| DietBase.Grams | src/main/java/com/example/codesample/Diet.java:96-98 | the cast-then-divide grams g satisfy k g <= calories < k (g + 1) for non-negative calories, and g <= 0 with k (g - 1) < calories <= k g for negative ones: the quotient truncated toward zero |
| DietBase.MacroGramsBounds | src/main/java/com/example/codesample/Diet.java:96-98 | the carbohydrate, protein and fat grams are each the profile's share of the daily calories over 4, 4 and 9 calories per gram, truncated toward zero |
| DietBase.MacroForOption | src/main/java/com/example/codesample/Diet.java:117-139 | a profile is selected exactly for options 1 to 4 |
| DietBase.MacroOptionsDistinct | src/main/java/com/example/codesample/Diet.java:117-139 | different options select different profiles |
| Bulking.Surplus | BulkingDiet.java:31 | the surplus is 250 or 500, and 250 exactly when lean |
| Bulking.LeanAfter | BulkingDiet.java:62-80 | option 1 changes the surplus; every other option keeps it |
| Bulking.ToggleTwice | BulkingDiet.java:64-73 | option 1 twice restores the lean flag |
| Bulking.SurplusText | BulkingDiet.java:89-99 | the two surpluses print as "250" and "500" |
| Bulking.MenuOffersToggle | BulkingDiet.java:89-99 | the menu's option 1 names exactly the surplus and kind that option 1 switches to |
| Bulking.Menu | BulkingDiet.java:89-94 | the menu text: header, option (1) offering the surplus and kind (Lean or Regular) that option 1 switches to, and "(2) No Action" |
| Cutting.Percentage | src/main/java/com/example/codesample/CuttingDiet.java:54-76 | options 1 to 4 select the fraction option/10 (10% to 40%); any other option selects nothing |
| Cutting.LineText | src/main/java/com/example/codesample/CuttingDiet.java:86-93 | a menu line is "(", the option's digits, ") ", the digits of the percentage it selects, "% (", its pace and ")" |
| Cutting.SlowerLines | src/main/java/com/example/codesample/CuttingDiet.java:89-90 | the lines of options 1 and 2, built from the option and the percentage it selects, are the printed "(1) 10% (slow)" and "(2) 20% (recommended)" |
| Cutting.FasterLines | src/main/java/com/example/codesample/CuttingDiet.java:91-92 | the lines of options 3 and 4 are the printed "(3) 30% (aggressive)" and "(4) 40% (very aggressive)" |
| Cutting.Menu | src/main/java/com/example/codesample/CuttingDiet.java:86-93 | the menu is the header and then, for each option 1 to 4, a line naming the percentage that option selects |
| Cutting.DefaultIsOption2 | src/main/java/com/example/codesample/CuttingDiet.java:26 | option 2 is the constructor's 20% and its deficit is one of the choices |
| Cutting.DeficitBounds | src/main/java/com/example/codesample/CuttingDiet.java:77 | a deficit has the sign of TDEE and at most 40% of its size |
| Cutting.DeficitPositive | src/main/java/com/example/codesample/CuttingDiet.java:77 | from a TDEE of 10 every option gives a positive deficit |
| Diets.NewBulking | BulkingDiet.java:29-33 | a new well-formed bulking plan: regular (not lean) surplus, daily calories TDEE + 500 |
| Diets.NewCutting | src/main/java/com/example/codesample/CuttingDiet.java:24-27 | a new cutting plan whose deficit is 0.2 TDEE cast to int; for TDEE >= 0 the daily calories lie in [0.8 TDEE, TDEE] |
| Diets.AfterIntakeChange | src/main/java/com/example/codesample/Diet.java:52 | for either variant: TDEE, BMI, profile and variant are kept and well-formedness is preserved; bulking changes the lean flag exactly on option 1, cutting options 1 to 4 set the deficit to TDEE times option/10 cast to int and other options keep the plan |
| Diets.AfterSurplusChange | BulkingDiet.java:62-82 | option 1 flips the lean flag, and the plan changes exactly on option 1; TDEE, BMI and profile are kept |
| Diets.AfterDeficitChange | src/main/java/com/example/codesample/CuttingDiet.java:54-79 | options 1 to 4 set the deficit to TDEE times option/10 cast to int, which is well-formed; any other option leaves the plan as it was; TDEE, BMI and profile are kept |
| Diets.AfterMacroChange | src/main/java/com/example/codesample/Diet.java:117-139 | options 1 to 4 set the profile of that option; every other option changes nothing; only the profile is touched |
| Diets.Switched | User.java:58-69 | the other variant, well-formed, with the same TDEE, BMI and profile, starting at its default: a regular surplus, or the deficit 0.2 TDEE cast to int |
| Diets.DailyCaloriesInvariant | BulkingDiet.java:101-104 | bulking daily calories are TDEE + 250 or + 500; cutting ones lie in [0.6 TDEE, TDEE] for TDEE >= 0 |
| Diets.LeanToggleTwice | BulkingDiet.java:64-73 | option 1 twice restores a bulking plan |
| Diets.CuttingOption2IsDefault | src/main/java/com/example/codesample/CuttingDiet.java:61-64 | option 2 on a new cutting plan changes nothing |
| Diets.SwitchTwice | User.java:58-69 | switching twice gives the original variant at its defaults with the same TDEE, BMI and profile |
| Diets.ProgressOutcome | src/main/java/com/example/codesample/CuttingDiet.java:36-46 | bulking progress never fails; cutting progress succeeds iff the deficit is positive, so it succeeds from TDEE 10 and fails for a negative TDEE |
| Diets.Diet.State | src/main/java/com/example/codesample/Diet.java:24-46 | the abstract value of a valid plan is well-formed and of the object's variant |
| Diets.Diet.BulkingDiet | BulkingDiet.java:29-36 | the constructed object is valid and its value is NewBulking |
| Diets.Diet.CuttingDiet | src/main/java/com/example/codesample/CuttingDiet.java:24-30 | the constructed object is valid and its value is NewCutting |
| Diets.Diet.GetDailyCalories | src/main/java/com/example/codesample/CuttingDiet.java:95-98 | the stored daily calories are DailyCalories of the plan's value |
| Diets.Diet.CalorieOffset | BulkingDiet.java:43 | the offset passed to the projection is the surplus or the deficit |
| Diets.Diet.ExpectedProgress | src/main/java/com/example/codesample/CuttingDiet.java:36-46 | the projection is ProgressOf the plan's value |
| Diets.Diet.DisplayBmi | src/main/java/com/example/codesample/Diet.java:76-90 | the display of the plan's BMI |
| Diets.Diet.ChangeCalorieOffset | src/main/java/com/example/codesample/CuttingDiet.java:86-93 | the surplus menu for the plan's lean flag, or the deficit menu |
| Diets.Diet.MacroGrams | src/main/java/com/example/codesample/Diet.java:96-98 | the grams are those of the current profile at the daily calories |
| Diets.Diet.ChangeMacroDiet | src/main/java/com/example/codesample/Diet.java:117-139 | only the profile field may change, and the new value is AfterMacroChange |
| Diets.Diet.ChangeCalorieIntake | BulkingDiet.java:62-82 | the object stays valid, its new value is AfterIntakeChange, the profile is kept |
| Diets.Diet.ChangeSurplus | BulkingDiet.java:62-82 | only lean flag, surplus and daily calories may change; the new value is AfterIntakeChange |
| Diets.Diet.ChangeDeficit | src/main/java/com/example/codesample/CuttingDiet.java:54-79 | only deficit and daily calories may change; the new value is AfterIntakeChange |
| Users.User.constructor | User.java:31-35 | the user holds the given username, person and plan |
| Users.User.GetDiet | User.java:41-44 | returns the current plan |
| Users.User.ChangeDietPlan | User.java:58-69 | a fresh valid plan whose value is Switched of the old one; the old plan object is untouched |
| Users.User.SetDiet | User.java:71-73 | only the plan reference changes |
| Users.ChangingCaloriesScenario | src/test/java/com/example/codesample/UserSystemTest.java:98-117 | cutting, then bulking, then lean, then cutting at option 3 ends as a cutting plan with the same TDEE and a 30% deficit |
| UserSystems.ToLower | UserSystem.java:106 | lower-cases exactly the ASCII capitals |
| UserSystems.ErrorTextByRule | UserSystem.java:106-127 | the error text is, in checking order, the line of each rule according to whether the input breaks it |
| UserSystems.ValidationAccepts | UserSystem.java:100-138 | validation accepts iff nothing is null and every one of the seven rules holds |
| UserSystems.ViolationsExactly | UserSystem.java:106-127 | a rule is listed iff it is in the rule list and broken |
| UserSystems.ViolationsOrdered | UserSystem.java:106-127 | listed rules keep the order of the rule list |
| UserSystems.RenderEmpty | UserSystem.java:129 | the error text is empty iff no rule is listed |
| UserSystems.AllRulesComplete | UserSystem.java:106-127 | every rule is checked, at the position of its rank |
| UserSystems.AllRulesOrdered | UserSystem.java:106-127 | the rules are checked in rank order |
| UserSystems.RenderSnoc | UserSystem.java:106-127 | checking one more rule appends its line |
| UserSystems.ErrorTextRendersViolations | UserSystem.java:106-127 | the error text is the rendering of the broken rules |
| UserSystems.ValidationRendersViolations | UserSystem.java:129-131 | the error of a non-null input is the rendering of its broken rules, none when none is broken |
| UserSystems.ViolationsAreBroken | UserSystem.java:106-127 | every broken rule is listed, and only those |
| UserSystems.ViolationsInCheckOrder | UserSystem.java:106-127 | the listed rules are in checking order |
| UserSystems.ValidationListsEveryRule | UserSystem.java:100-138 | one error listing exactly the broken rules, once each, in checking order |
| UserSystems.ViolationsOfOne | UserSystem.java:106-127 | with exactly one broken rule, an ordered rule list lists that rule alone |
| UserSystems.SingleViolation | UserSystem.java:129-131 | an input breaking exactly one rule gets that rule's line alone |
| UserSystems.ValidationExamples | src/test/java/com/example/codesample/UserSystemInvalidInputTest.java:123-124 | beside the valid values of UserSystemTest's setup, a null name and a null username give the null error, gender 'i' gives "Not a valid gender" and "very long username" gives the length error |
| UserSystems.InvalidInputTestCalls | src/test/java/com/example/codesample/UserSystemInvalidInputTest.java:46-91 | each addUser call of the invalid-input tests, with the null username or person, goal 0 and activity 0.0 its unset test object supplies, gets only "Inputs cannot be null" |
| UserSystems.AppendIfBroken | UserSystem.java:106-108 | one check appends the rule's line exactly when it is broken |
| UserSystems.IsValid | UserSystem.java:100-138 | returns true exactly when ValidationError is none, and otherwise that error |
| UserSystems.CalculateTdee | UserSystem.java:158-167 | the activity level times the Mifflin-St Jeor BMR 10 w + 6.25 h - 5 a, plus 5 for a gender that lower-cases to 'm' and minus 161 for any other |
| UserSystems.TdeeGenderGap | UserSystem.java:158-167 | 'm' and 'M' get +5, any other gender the -161 formula: a gap of 166 times the activity level |
| UserSystems.TdeeMonotone | UserSystem.java:163-166 | with positive activity TDEE rises with weight and height and falls with age |
| UserSystems.CalculateBmi | UserSystem.java:169-173 | BMI times the height in metres squared is the weight |
| UserSystems.NegativeTdeeAccepted | UserSystem.java:100-167 | an accepted input with a negative TDEE exists and its cutting projection fails |
| UserSystems.DietFor | UserSystem.java:140-156 | a plan iff the goal is 1 or 2, otherwise "Not a valid fitness goal"; the plan is a new bulking plan for 1 and a new cutting plan for 2, each with the Default profile and the TDEE and BMI computed from the inputs |
| UserSystems.CreateDiet | UserSystem.java:140-156 | a fresh valid plan whose value is DietFor, or DietFor's error |
| UserSystems.CheckCharLimit | UserSystem.java:75-87 | null gives ""; otherwise a prefix of at most limit characters, the string itself when within the limit; a negative limit on a string fails |
| UserSystems.CheckCharLimitIdempotent | UserSystem.java:75-87 | checking a checked string again returns it unchanged |
| UserSystems.CheckCharLimitExamples | src/test/java/com/example/codesample/UserSystemTest.java:128-155 | "very very long username" cut to 3 is "ver"; within 25 it is unchanged; null and "" give "" |
| UserSystems.InsertAllKeyed | UserSystem.java:218-225 | loading keeps every user under its own name and adds exactly the loaded names |
| UserSystems.UserSystem.constructor | UserSystem.java:37-40 | the store starts empty |
| UserSystems.UserSystem.AddUser | UserSystem.java:53-66 | on valid input the store maps the username to a fresh user with the given person and the plan of DietFor, nothing else changes, and that user is returned; otherwise the validation error and an unchanged store |
| UserSystems.UserSystem.ValidateUsername | UserSystem.java:95-98 | true iff the username is stored |
| UserSystems.UserSystem.RetrieveUser | UserSystem.java:182-188 | the stored user iff present, otherwise "Username does not exist" |
| UserSystems.UserSystem.DeleteUser | UserSystem.java:197-203 | removes only that key and returns true if present; otherwise "Username does not exist" and an unchanged store |
| UserSystems.UserSystem.LoadUsers | UserSystem.java:209-232 | the store becomes InsertAll of the old store and the loaded users, keeping every user under its name |
| UserSystems.StoreScenario | src/test/java/com/example/codesample/UserSystemInvalidInputTest.java:94-112 | a user added as in the test set-up (goal 2, activity 1.2) is retrieved with a cutting plan and the given person, then deleted; retrieving or deleting a name no longer stored then fails with "Username does not exist", and the other users stay |

## Left out

- Console output: every `System.out` message, the `printf` layout of `displayDietdetails`, `expectedProgress` and `displayPersonDetails`, and the Scanner-driven menus of `Main.java`. Main.java is not part of this model; the values these methods compute are modelled.
- `saveUsers` and the reading side of `loadUsers`: file access and Java serialisation. `LoadUsers` takes the users already decoded from the file, in stream order. It gets an empty sequence when the file is missing, and the prefix read so far when decoding fails. The save/load round trip is not modelled.
- Floating point: `double` is modelled as `real`, so IEEE-754 rounding is not captured. The test tolerances (such as 52.12 within 0.1) are not reproduced. The model gives the exact 52.14.
- `Math.pow(cmToMeters, 2)` is modelled as the product `cmToMeters * cmToMeters`.
- Integer overflow of Java `int` is not modelled. This concerns `calorieOffset * 7`, `feet * 12` and the saturation of `(int)` casts of very large doubles.
- `System.lineSeparator()` is fixed to "\n".
- `Character.toLowerCase` is modelled on ASCII letters only. No other character lower-cases to 'm' or 'f'.
- A null username passed to `retrieveUser`, `deleteUser` or `validateUsername` is not modelled. The Java map simply reports no such key; the model takes a plain string.
- The class hierarchy `Diet` / `BulkingDiet` / `CuttingDiet` is one class, `Diets.Diet`, tagged by `isBulking`. Dynamic dispatch is a branch on that tag. Each variant's fields are present but unused in the other variant.
- UserSystems.CalculateBmi: requires a non-zero height. Java would return an infinity or NaN for zero; the model does not represent those values. Only heights that passed validation (at least 30.48) reach it.
- UserSystems.CheckCharLimit: counts characters (Unicode scalar values), while Java's `length()` and `substring` count UTF-16 code units. The two differ on characters outside the Basic Multilingual Plane: six emoji are 12 units in Java and 6 characters here. The same holds for the 10-character username limit of `isValid` (`UserSystems.TooLong`, UserSystem.java:119-121).
- Numbers.FormatFixed2: models "%.2f" with '.' as the decimal separator. Java's `String.format` uses the default locale, which prints a comma in some locales.
- Conversions.FeetAndInchesRoundTrip: holds over the reals only. Under IEEE doubles, 5 ft 2 in (also 2 ft 7 in, 4 ft 3 in, 4 ft 7 in and 8 ft 6 in) reads back one inch short: 157.48 / 2.54 evaluates to 61.99999999999999 and the cast truncates it to 61.
- Persons.DisplayPersonDetails: inherits that gap, so for such heights Java prints one inch fewer than the feet and inches of the model.
- `InvalidInputException.java` and `Serializable` are not part of this model beyond the `InvalidInput` error kind.
