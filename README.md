# NutriGuide core, modelled in Dafny

NutriGuide is a React Native diet-coaching app. This project models the
logic underneath its screens, one Dafny module per source file:

- **BmiCalculator**: the profile analyzer. It covers BMI, the four BMI bands, the Mifflin-St Jeor BMR, the activity multiplier and ±500 kcal goal adjustment, `Math.round`, the macro table and the combined analysis.
- **MealPlanner**: the vegetarian catalog keyed by goal, one random pick per slot, the five-band progress tip and the motivation picker.
- **Storage**: the key-value store as a `Store` class. It holds the profile, one daily-progress record per date and the append-only weight history. `AddFoodLog` is proved to keep each record's consumed calories equal to the sum of its logs.
- **ProgressScreen**: the newest-first seven-sample window, the weight trend, the BMI colour, and the weight update check with its state changes.
- **FoodTracking**: the calorie text filter, the food-log check and construction, loading today's record, the guarded percentage and bar width, and the meal icons.
- **Onboarding**: the form's field handlers, the `parseInt(text) || 0` age rule and the submit check.
- **AppNavigator**: the start-up height migration from metres to centimetres and the onboarded flag.
- **Theme**: the light/dark state machine, with loading, setting and toggling, a storage write that can fail, and the `useTheme` guard.
- **GeminiService**: the pure parts of the AI service. These are the quick suggestions, the chat prompt built line by line, the weekly weight change, the defaults filled into a food analysis, and the fixed fallback replies.
- **Types** and **NumberText** hold the shared record shapes and JavaScript's `parseInt`, `parseFloat`, `trim` emptiness and integer-to-text, with NaN as `None`.

Conventions:

- JavaScript numbers are Dafny `real`; calories, ages and macro percentages are `int`.
- `Math.round(x)` is `floor(x + 0.5)`.
- Each `Math.random()` draw is a parameter `r` with `0 <= r < 1`.
- Today's date, log ids, timestamps and the replies of the remote model are parameters.
- Screen state is a class per screen, and every handler is a method whose `ensures` states the new state in full.

Behaviour of the code that the model states as proved facts:

- **A food log for a day with no record creates one with a calorie goal of 0.** Once it exists, the food screen reloads that goal, so its percentage reads 0 from then on. See `FoodTracking.FoodTrackingScreen.HandleAddFood`.
- **A worked profile.** For a male, 30 years, 175 cm, 70 kg, moderate activity, the code's formula gives BMR 1648.75 and TDEE 2555.5625, that is 2556 kcal to maintain and 2056 to lose (`BmiCalculator.WorkedExample`).
- **A height between 0 and 1 is multiplied by 100 at every launch** until it reaches 100. A height of at least 1 settles after one launch.
- **The calorie field keeps decimal points, but `parseInt` stops at them.** So "12.7" logs 12 calories, and "0.5" and ".5" are refused.

## Model

| member | source | states |
|---|---|---|
| Types.TotalCaloriesConcat | src/services/storage.ts:60-61 | the calorie sum of appended logs is the sum of the earlier logs plus the sum of the new ones |
| Types.TotalCalories | src/services/storage.ts:60-65 | the sum of the logs' calories; no contract of its own, its behaviour is stated by TotalCaloriesConcat and Storage.WithFoodLogKeepsBalance |
| Types.LastUpTo | src/screens/ProgressScreen.tsx:36 | `slice(-n)` keeps min(n, length) elements, namely the last ones in order |
| Types.ReverseAt | src/screens/ProgressScreen.tsx:36 | `reverse` keeps the length and puts element k at position length-1-k |
| Types.ReverseLength | src/screens/ProgressScreen.tsx:36 | `reverse` keeps the length |
| NumberText.SkipSpaces | src/screens/FoodTrackingScreen.tsx:69 | skipping leading white space, Unicode space separators included, drops a blank prefix and stops at a non-space |
| NumberText.IsBlank | src/screens/FoodTrackingScreen.tsx:64 | `text.trim()` is empty; a predicate, used by ValidateFood and UnicodeSpaceNameRefused |
| NumberText.LeadingDigits | src/screens/FoodTrackingScreen.tsx:69 | the longest run of digits at the front: all digits, followed by a non-digit or the end |
| NumberText.ParseInt | src/screens/FoodTrackingScreen.tsx:69 | `parseInt` gives a number exactly when digits follow the spaces and sign |
| NumberText.ParseIntOfDigits | src/screens/FoodTrackingScreen.tsx:69 | a string of digits reads as its decimal value |
| NumberText.ParseIntStopsAtPoint | src/screens/FoodTrackingScreen.tsx:69 | digits, a point and any tail read as the digits alone |
| NumberText.ParseIntOfLeadingPoint | src/screens/FoodTrackingScreen.tsx:69-70 | text starting with a point is NaN for `parseInt` |
| NumberText.ParseOfBlank | src/screens/ProgressScreen.tsx:58-59 | white space alone is NaN for both `parseInt` and `parseFloat` |
| NumberText.SkipSpacesOfBlankPrefix | src/screens/FoodTrackingScreen.tsx:69 | any white-space prefix is skipped up to the first other character |
| NumberText.ParseIntAfterSpaces | src/screens/FoodTrackingScreen.tsx:69 | `parseInt` ignores leading white space |
| NumberText.ParseIntOfSpacedDigits | src/screens/FoodTrackingScreen.tsx:69 | digits after any white space read as their value |
| NumberText.ParseFloatOfDigits | src/screens/ProgressScreen.tsx:58 | a string of digits reads as its value with `parseFloat` |
| NumberText.ParseFloatOfDecimal | src/screens/OnboardingScreen.tsx:133 | digits, a point and fraction digits read with `parseFloat` as the whole value plus the fraction |
| NumberText.ParseFloat | src/screens/ProgressScreen.tsx:58 | `parseFloat` in decimal notation; no contract of its own, see ParseFloatOfDigits, ParseFloatOfDecimal and ParseOfBlank |
| NumberText.IntTextRoundTrip | src/screens/OnboardingScreen.tsx:116-118 | the age's own text reads back as the age |
| NumberText.IntText | src/services/geminiService.ts:32 | an integer's text in a template literal; no contract of its own, see IntTextRoundTrip, NatText and NatTextValue |
| NumberText.NatText | src/services/geminiService.ts:32 | an integer's decimal text is non-empty, made of digits, and starts with a zero only when it is "0" itself, as `String(n)` gives it |
| NumberText.NatTextValue | src/services/geminiService.ts:32 | the decimal text of n has value n |
| BmiCalculator.CalculateBmi | src/utils/bmiCalculator.ts:3-7 | BMI times height in metres squared is the weight; positive weight gives a positive BMI |
| BmiCalculator.BmiCategoryOf | src/utils/bmiCalculator.ts:9-14 | each band holds exactly for its half-open range; a boundary value belongs to the higher band |
| BmiCalculator.CategoryMonotone | src/utils/bmiCalculator.ts:9-14 | a larger BMI never falls into a lighter category |
| BmiCalculator.MaleBmrExceedsOthersBy166 | src/utils/bmiCalculator.ts:24-28 | male BMR is 166 above the others'; female and other share one formula |
| BmiCalculator.Bmr | src/utils/bmiCalculator.ts:22-28 | the Mifflin-St Jeor BMR; no contract of its own, see MaleBmrExceedsOthersBy166 and WorkedExample |
| BmiCalculator.ActivityMultiplier | src/utils/bmiCalculator.ts:31-35 | the multiplier lies between 1.2 and 1.9 |
| BmiCalculator.GoalAdjustment | src/utils/bmiCalculator.ts:39-44 | 0 exactly for maintain, -500 exactly for lose, +500 exactly for gain |
| BmiCalculator.Round | src/utils/bmiCalculator.ts:46 | the result is within half a unit below and above x |
| BmiCalculator.RoundUnique | src/utils/bmiCalculator.ts:46 | the rounding is the only integer within that half unit |
| BmiCalculator.CalculateDailyCalories | src/utils/bmiCalculator.ts:16-47 | the goal is the adjusted TDEE rounded to the nearest integer |
| BmiCalculator.AdjustedTdee | src/utils/bmiCalculator.ts:37-44 | the BMR times the activity multiplier plus the goal adjustment; no contract of its own, see GoalShiftsCaloriesBy500 and WorkedExample |
| BmiCalculator.DailyCaloriesIgnoreBmi | src/utils/bmiCalculator.ts:16-19 | the goal does not depend on the BMI argument |
| BmiCalculator.GoalShiftsCaloriesBy500 | src/utils/bmiCalculator.ts:40-46 | changing only the goal moves the rounded calories by exactly 500 |
| BmiCalculator.WorkedExample | src/utils/bmiCalculator.ts:24-46 | the worked profile gives BMR 1648.75, TDEE 2555.5625, 2556 kcal to maintain and 2056 to lose |
| BmiCalculator.GetMacroRatios | src/utils/bmiCalculator.ts:49-60 | every row of the table is positive and sums to 100 |
| BmiCalculator.MacroRatiosDistinct | src/utils/bmiCalculator.ts:49-60 | different goals get different splits |
| BmiCalculator.AnalyzeBmi | src/utils/bmiCalculator.ts:62-74 | the parts agree: the BMI fits the height and weight, the category is the BMI's band, the calories are the rounded TDEE and the macros are the goal's |
| MealPlanner.VegetarianMeals | src/utils/mealPlanner.ts:12-91 | each goal and slot has four candidates |
| MealPlanner.CatalogText | src/utils/mealPlanner.ts:12-91 | the catalog's verbatim texts; no contract of its own, VegetarianMeals states the four candidates per goal and slot |
| MealPlanner.PickIndex | src/utils/mealPlanner.ts:100-101 | floor(r * len) is a valid index for a draw in [0,1) |
| MealPlanner.PickIndexExactly | src/utils/mealPlanner.ts:100-101 | index k is picked exactly by the draws in [k/len, (k+1)/len) |
| MealPlanner.PickMeal | src/utils/mealPlanner.ts:100-101 | the picked meal is in the list |
| MealPlanner.PlanFrom | src/utils/mealPlanner.ts:103-108 | each slot of the plan comes from its own list |
| MealPlanner.GenerateMealPlan | src/utils/mealPlanner.ts:93-109 | each slot is a member of that slot's list for the profile's goal |
| MealPlanner.PlanDependsOnlyOnGoal | src/utils/mealPlanner.ts:93-97 | profiles with the same goal get the same plan from the same draws, whatever the calories and diet |
| MealPlanner.PickMealAt | src/utils/mealPlanner.ts:100-101 | the draw k/len picks candidate k |
| MealPlanner.EveryCombinationReachable | src/utils/mealPlanner.ts:103-108 | every combination of one candidate per slot is produced by some valid draws |
| MealPlanner.Percentage | src/utils/mealPlanner.ts:116 | the percentage times the goal is 100 times the calories consumed |
| MealPlanner.ProgressTip | src/utils/mealPlanner.ts:116-128 | the five bands partition the percentages; the light meal is dinner iff the goal is lose; an overage is the rounded percentage minus 100, at least 10; the shown percent is the rounded percentage |
| MealPlanner.TipText | src/utils/mealPlanner.ts:118-127 | the message of each band with its figure; no contract of its own, the band and the figures are stated on ProgressTip |
| MealPlanner.GetProgressTips | src/utils/mealPlanner.ts:110-128 | the tip message for a day; no contract of its own, it is TipText of ProgressTip |
| MealPlanner.TipBandBoundaries | src/utils/mealPlanner.ts:118-127 | 50% and 75% are in the second band, 80% in the third, 100% is met and 110% is 10% over |
| MealPlanner.MentionsBetween | src/utils/mealPlanner.ts:133-140 | a name placed between two texts occurs in the result |
| MealPlanner.Motivations | src/utils/mealPlanner.ts:132-141 | there are eight templates and each one names the user |
| MealPlanner.GetMotivation | src/utils/mealPlanner.ts:131-144 | the message is one of the user's eight templates and names the user |
| Storage.Lookup | src/services/storage.ts:39-48 | a record comes back exactly when one is saved under the date, and it is that record |
| Storage.WithFoodLog | src/services/storage.ts:57-68 | the log goes at the end and its calories are added; a new record has the date, goal 0 and no weight; an existing one keeps its date, goal and weight |
| Storage.WithFoodLogKeepsBalance | src/services/storage.ts:50-75 | if consumed calories equal the log sum before adding, they still do after |
| Storage.AfterLogsFromAbsent | src/services/storage.ts:63-68 | N adds to an absent date leave exactly those N logs in order, balanced, with goal 0 and that date |
| Storage.AfterLogsExtends | src/services/storage.ts:57-62 | adds to an existing record keep its logs as a prefix, add the new calories and keep date, goal and weight |
| Storage.Store.constructor | src/services/storage.ts:19-27 | a fresh store holds no profile, no records and an empty history |
| Storage.Store.SaveUserProfile | src/services/storage.ts:10-17 | the profile is replaced and nothing else changes |
| Storage.Store.GetUserProfile | src/services/storage.ts:19-27 | returns the saved profile or none |
| Storage.Store.SaveDailyProgress | src/services/storage.ts:29-37 | the record is stored under its own date, replacing only that key |
| Storage.Store.GetDailyProgress | src/services/storage.ts:39-48 | returns the record under the date, or none |
| Storage.Store.AddFoodLog | src/services/storage.ts:50-75 | the updated record replaces the one under its date; in a keyed store no other date changes; a balanced store stays balanced |
| Storage.Store.SaveWeight | src/services/storage.ts:77-92 | exactly one sample is appended at the end, earlier samples unchanged |
| Storage.Store.GetWeightHistory | src/services/storage.ts:94-102 | returns the whole history, empty when nothing was saved |
| ProgressScreen.HistoryWindowNewestFirst | src/screens/ProgressScreen.tsx:36 | the window has min(7, n) samples and entry i is the i-th newest |
| ProgressScreen.HistoryWindow | src/screens/ProgressScreen.tsx:36 | `slice(-7).reverse()`; no contract of its own, see HistoryWindowNewestFirst and HistoryWindowAt |
| ProgressScreen.HistoryWindowAt | src/screens/ProgressScreen.tsx:36 | entry i of the window is the i-th newest sample of the history |
| ProgressScreen.WeightTrend | src/screens/ProgressScreen.tsx:78-91 | none iff fewer than two samples; the direction follows the sign of newest minus previous; the magnitude is that difference's absolute value; up is shown red, down green and stable grey, in the source's colours |
| ProgressScreen.TrendOfHistory | src/screens/ProgressScreen.tsx:78-91 | over the window, the trend compares the two newest samples of the history |
| ProgressScreen.BmiColorMatchesCategory | src/screens/ProgressScreen.tsx:93-98 | the colour is the colour of the BMI's category, and categories have distinct colours |
| ProgressScreen.BmiColor | src/screens/ProgressScreen.tsx:93-98 | the colour of a BMI; no contract of its own, see BmiColorMatchesCategory |
| ProgressScreen.CategoryColor | src/screens/ProgressScreen.tsx:93-98 | the colour of each category; no contract of its own, see BmiColorMatchesCategory |
| ProgressScreen.CheckWeightUpdate | src/screens/ProgressScreen.tsx:53-62 | accepted iff the text is non-empty, a profile is loaded and the text reads as a positive number, which is the weight |
| ProgressScreen.WeightUpdateCases | src/screens/ProgressScreen.tsx:53-62 | empty or blank text and a missing profile are refused; positive digits are accepted as their value |
| ProgressScreen.ProgressScreen.constructor | src/screens/ProgressScreen.tsx:20-22 | no profile, empty text and an empty window |
| ProgressScreen.ProgressScreen.LoadData | src/screens/ProgressScreen.tsx:27-36 | keeps the stored profile if any and shows the window of the stored history |
| ProgressScreen.ProgressScreen.OnWeightTextChange | src/screens/ProgressScreen.tsx:21 | only the entered text changes |
| ProgressScreen.ProgressScreen.HandleUpdateWeight | src/screens/ProgressScreen.tsx:52-76 | a refusal changes nothing; acceptance appends one sample, saves the profile with only its weight changed, clears the text and reloads |
| FoodTracking.CleanCalorieText | src/screens/FoodTrackingScreen.tsx:244 | keeps only digits and points and never grows the text |
| FoodTracking.CleanCalorieTextConcat | src/screens/FoodTrackingScreen.tsx:244 | filtering a concatenation filters each part, so kept characters stay in order |
| FoodTracking.CleanCalorieTextKeepsClean | src/screens/FoodTrackingScreen.tsx:244 | text of digits and points passes unchanged |
| FoodTracking.CleanCalorieTextIdempotent | src/screens/FoodTrackingScreen.tsx:244 | filtering twice is filtering once |
| FoodTracking.CleanCalorieTextOfChar | src/screens/FoodTrackingScreen.tsx:244 | a single character is kept exactly when it is a digit or a point |
| FoodTracking.ValidateFood | src/screens/FoodTrackingScreen.tsx:63-81 | accepted iff the name is not blank, the text is non-empty and it parses to a positive integer; the log carries exactly the name, calories, time and meal type; each refusal has its message |
| FoodTracking.UnicodeSpaceNameRefused | src/screens/FoodTrackingScreen.tsx:64-66 | a name made of an ideographic space is blank for `trim` and refused with the missing-field message |
| FoodTracking.FractionalCalories | src/screens/FoodTrackingScreen.tsx:69-73 | "d.f" logs the whole part when it is positive; text starting with a point is refused |
| FoodTracking.DisplayPercentage | src/screens/FoodTrackingScreen.tsx:166 | 0 without a positive goal, otherwise total over goal times 100 |
| FoodTracking.BarWidth | src/screens/FoodTrackingScreen.tsx:186 | the width is the percentage cut off at 100 |
| FoodTracking.BarFullIffGoalReached | src/screens/FoodTrackingScreen.tsx:166-186 | with a positive goal the bar is full exactly when the total reaches the goal |
| FoodTracking.MealIconsDistinct | src/screens/FoodTrackingScreen.tsx:153-164 | every meal type has an icon and no two share one |
| FoodTracking.MealIcon | src/screens/FoodTrackingScreen.tsx:153-164 | the icon of each meal type; no contract of its own, see MealIconsDistinct |
| FoodTracking.FoodTrackingScreen.constructor | src/screens/FoodTrackingScreen.tsx:21-29 | empty fields, breakfast, no logs, zero totals and no profile |
| FoodTracking.FoodTrackingScreen.LoadTodayData | src/screens/FoodTrackingScreen.tsx:33-49 | shows today's record if any; otherwise takes the goal from the saved profile and keeps the logs |
| FoodTracking.FoodTrackingScreen.OnFoodNameChange | src/screens/FoodTrackingScreen.tsx:21 | only the name changes; the other form fields, today's logs and totals, the goal and the profile are unchanged |
| FoodTracking.FoodTrackingScreen.OnCaloriesTextChange | src/screens/FoodTrackingScreen.tsx:242-246 | the calorie field becomes the filtered text; every other screen field is unchanged |
| FoodTracking.FoodTrackingScreen.OnMealTypeChange | src/screens/FoodTrackingScreen.tsx:23 | only the meal type changes; the other form fields, today's logs and totals, the goal and the profile are unchanged |
| FoodTracking.FoodTrackingScreen.HandleAddFood | src/screens/FoodTrackingScreen.tsx:63-94 | the result is the check's; a refusal changes nothing; acceptance adds the log to today's record, clears the fields and reloads, keeping the screen's profile; a first log of the day leaves goal 0 and percentage 0 |
| Onboarding.InitialProfile | src/screens/OnboardingScreen.tsx:27-36 | empty name, zero age, height and weight, with the default choices |
| Onboarding.SubmitCheckCases | src/screens/OnboardingScreen.tsx:41-49 | the initial profile is refused, a name of spaces passes and the empty name is refused |
| Onboarding.CanSubmit | src/screens/OnboardingScreen.tsx:41-46 | a non-empty name and a positive age, height and weight; a predicate, see SubmitCheckCases and SubmittedProfileAnalyzable |
| Onboarding.SubmittedProfileAnalyzable | src/screens/OnboardingScreen.tsx:41-49 | an accepted profile has a non-zero height and a positive BMI |
| Onboarding.AgeFromText | src/screens/OnboardingScreen.tsx:117-118 | non-numeric text gives 0, a number gives its value |
| Onboarding.AgeFromTextRoundTrip | src/screens/OnboardingScreen.tsx:116-118 | the age's own text gives the age back |
| Onboarding.DecimalFieldValue | src/screens/OnboardingScreen.tsx:131-137 | the parsed number, or the previous value when the text is NaN |
| Onboarding.OnboardingScreen.constructor | src/screens/OnboardingScreen.tsx:27-38 | the initial profile and empty height and weight texts |
| Onboarding.OnboardingScreen.OnNameChange | src/screens/OnboardingScreen.tsx:105 | only the name field changes |
| Onboarding.OnboardingScreen.OnAgeChange | src/screens/OnboardingScreen.tsx:117-119 | only the age changes, to the age read from the text |
| Onboarding.OnboardingScreen.OnHeightChange | src/screens/OnboardingScreen.tsx:131-137 | the text is kept; the height changes only when the text is a number |
| Onboarding.OnboardingScreen.OnWeightChange | src/screens/OnboardingScreen.tsx:149-155 | the text is kept; the weight changes only when the text is a number |
| Onboarding.OnboardingScreen.OnGenderChange | src/screens/OnboardingScreen.tsx:169-171 | only the gender changes |
| Onboarding.OnboardingScreen.OnActivityChange | src/screens/OnboardingScreen.tsx:200-204 | only the activity level changes |
| Onboarding.OnboardingScreen.OnGoalChange | src/screens/OnboardingScreen.tsx:234-236 | only the goal changes |
| Onboarding.OnboardingScreen.OnDietChange | src/screens/OnboardingScreen.tsx:265-270 | only the dietary preference changes |
| Onboarding.OnboardingScreen.HandleSubmit | src/screens/OnboardingScreen.tsx:40-57 | accepted iff the check passes, and then the profile is saved and onboarding completes; a refusal changes nothing |
| AppNavigator.MigrateHeight | src/navigation/AppNavigator.tsx:70-77 | a height below 100 is multiplied by 100, every other field unchanged; 100 or more is left alone |
| AppNavigator.MigrationSettles | src/navigation/AppNavigator.tsx:70-74 | from at least 1, one migration reaches 100 or more and a second changes nothing |
| AppNavigator.SmallHeightsMigrateTwice | src/navigation/AppNavigator.tsx:70-74 | a height in (0, 1) is still below 100 after one launch and is multiplied by 10000 over two |
| AppNavigator.Navigator.constructor | src/navigation/AppNavigator.tsx:60 | the flag starts unknown |
| AppNavigator.Navigator.CheckOnboarding | src/navigation/AppNavigator.tsx:66-80 | onboarded iff a profile was found; a found profile is saved migrated; nothing else changes |
| AppNavigator.Navigator.OnComplete | src/navigation/AppNavigator.tsx:94 | sets the flag to onboarded |
| Theme.ThemeFor | src/context/ThemeContext.tsx:48-116 | the theme of a mode is labelled with that mode |
| Theme.LightColors | src/context/ThemeContext.tsx:48-82 | the light palette, verbatim; no contract of its own |
| Theme.DarkColors | src/context/ThemeContext.tsx:83-117 | the dark palette, verbatim; no contract of its own |
| Theme.ModeFromStored | src/context/ThemeContext.tsx:139-143 | a stored value is applied exactly when it is "dark" or "light" |
| Theme.ModeRoundTrip | src/context/ThemeContext.tsx:140-151 | a saved mode reads back as itself |
| Theme.ModeName | src/context/ThemeContext.tsx:140-151 | the stored name of a mode; no contract of its own, see ModeRoundTrip |
| Theme.Opposite | src/context/ThemeContext.tsx:160 | the toggled mode differs from the current one |
| Theme.OppositeInvolution | src/context/ThemeContext.tsx:159-162 | toggling twice gives the original mode |
| Theme.UseTheme | src/context/ThemeContext.tsx:171-177 | outside a provider the hook fails with its message; inside, it returns the context |
| Theme.ThemeProvider.constructor | src/context/ThemeContext.tsx:130-131 | starts light with the light theme |
| Theme.ThemeProvider.LoadTheme | src/context/ThemeContext.tsx:137-147 | applies a valid stored mode; a failed read or any other value changes nothing |
| Theme.ThemeProvider.SetThemeMode | src/context/ThemeContext.tsx:149-157 | on a successful write the mode is saved and applied; a failed write changes nothing |
| Theme.ThemeProvider.ToggleTheme | src/context/ThemeContext.tsx:159-162 | switches to the opposite mode and saves it; when the write fails, the mode, theme and saved value are unchanged |
| Theme.ToggleTwiceRestores | src/context/ThemeContext.tsx:159-162 | two toggles with working storage restore the mode, which is also the saved one |
| GeminiService.GetQuickSuggestions | src/services/geminiService.ts:125-141 | the five base items in order, plus the weight-loss item for lose or the high-calorie item for gain; length 6 then, 5 otherwise |
| GeminiService.HistoryLinesConcat | src/services/geminiService.ts:49-51 | the history lines of a concatenation are the lines of each part |
| GeminiService.HistoryLinesSingle | src/services/geminiService.ts:50 | one message gives exactly its "role: text" line |
| GeminiService.ProfileLinesOf | src/services/geminiService.ts:28-45 | the profile block is present iff both a profile and an analysis are |
| GeminiService.ProfileLines | src/services/geminiService.ts:29-45 | the profile block, field by field as in the template literal; no contract of its own, see ProfileLinesOf |
| GeminiService.ContextFrom | src/services/geminiService.ts:17-45 | the base text is always the prefix; the context is the base alone iff there is no profile block, and otherwise continues with a line break and the block |
| GeminiService.SystemContext | src/services/geminiService.ts:17-45 | the context sent to the model; no contract of its own, it is ContextFrom of the base text and ProfileLinesOf |
| GeminiService.BuildConversationText | src/services/geminiService.ts:47-52 | the loop builds the context, a blank line, one line per earlier message in order, then the user's message and the assistant cue |
| GeminiService.PromptExtends | src/services/geminiService.ts:48-52 | a longer history only adds its new lines before the user's message |
| GeminiService.Prompt | src/services/geminiService.ts:48-52 | the whole prompt text, the definition BuildConversationText is proved equal to; see also PromptExtends |
| GeminiService.ChatReply | src/services/geminiService.ts:54-60 | a failed call is an error with the fixed message; otherwise the reply text |
| GeminiService.OrFallback | src/services/geminiService.ts:161-163 | the reply when there is one, the fixed fallback otherwise (motivation, meal list, progress, alternatives) |
| GeminiService.ProgressReply | src/services/geminiService.ts:195-220 | the analysis or the fixed encouragement; no contract of its own, it is OrFallback |
| GeminiService.MotivationReply | src/services/geminiService.ts:143-163 | the motivation or the fixed message; no contract of its own, it is OrFallback |
| GeminiService.MealSuggestionsReply | src/services/geminiService.ts:166-192 | the parsed list or the three fixed meals; no contract of its own, it is OrFallback |
| GeminiService.AlternativesReply | src/services/geminiService.ts:223-245 | the parsed list or the empty list; no contract of its own, it is OrFallback |
| GeminiService.WeightChange | src/services/geminiService.ts:203-206 | 0 with fewer than two samples; otherwise the newest weight minus the oldest of the last seven |
| GeminiService.WeightChangeOverWindow | src/services/geminiService.ts:203-206 | the change equals the progress window's first entry minus its last |
| GeminiService.WeightChangeMatchesTrendOnTwo | src/services/geminiService.ts:203-206 | with two samples the change is positive iff the trend is up and negative iff it is down |
| GeminiService.FoodAnalysisOf | src/services/geminiService.ts:111-115 | a missing or empty name becomes "Unknown Food", missing calories 0 and a missing description ""; present values are kept |
| GeminiService.FoodAnalysisDefaultsSettle | src/services/geminiService.ts:111-115 | filling in defaults twice is filling them in once |
| GeminiService.AnalyzeFoodReply | src/services/geminiService.ts:105-122 | a reply without JSON, or a failed call, is the fixed error; otherwise the defaulted analysis |

## Left out

- The remote model calls, the image fetch and base64 reading, and `JSON.parse` of replies are left out. A reply is a parameter, with `None` for a failure or a missing match.
- The prompts of the motivation, meal-suggestion, progress-analysis and alternatives calls are not modelled, because they are only sent to the remote model. Their fallbacks are modelled.
- AsyncStorage durability, asynchronous interleaving, and thrown storage errors are left out for the profile, progress and weight store. The theme's read and write failures are modelled as flags.
- In `toggleTheme`, the read of a stale `themeMode` between overlapping async calls is left out; calls are sequential.
- IEEE-754 floating point, `toFixed`, `toLocaleDateString` and JavaScript's decimal text of non-integral numbers are left out. The prompt takes the text of a height, a weight and a one-decimal BMI as function parameters.
- `parseInt` and `parseFloat` cover decimal digits with an optional sign, leading white space and, for `parseFloat`, one decimal point. Hexadecimal prefixes, exponents and "Infinity" are not modelled.
- Math.random, `Date.now()` ids and today's date are parameters.
- BmiCalculator.CalculateBmi: requires a non-zero height. JavaScript would give Infinity or NaN for a zero height. Submitted profiles always have a positive height (Onboarding.SubmittedProfileAnalyzable).
- BmiCalculator.AnalyzeBmi: requires a non-zero height, for the same reason.
- MealPlanner.Percentage: requires a non-zero goal. `getProgressTips` divides by it unguarded and would produce Infinity or NaN.
- MealPlanner.ProgressTip: requires a non-zero goal, for the same reason.
- MealPlanner.VegetarianMeals: proves four candidates per slot, but not that each text is non-empty. One lemma over all 48 literals exceeds the solver's resource limit, and a lemma per goal and slot needs up to three quarters of it, too close to the limit to hold on every solver seed.
- MealPlanner.GetProgressTips: the message text of each band is defined but not given its own contract. The band, the light meal and the figures are proved on ProgressTip.
- ProgressScreen: the current BMI and the AI progress analysis triggered in `loadData` are left out. They only feed the display and the remote call.
- FoodTracking: the AI food alternatives, the camera and gallery pickers and the image analysis flow are left out. They are UI around the remote call; its defaults are in GeminiService.
- Theme.ThemeFor: states the mode label only; the palettes are written out as in the source.
- HomeScreen, AboutScreen, AIChatScreen, the themed-styles hook and all rendering and navigation containers are not part of this model.
