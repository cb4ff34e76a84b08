/** The text built around the generative-model calls: the quick-suggestion
    list, the chat prompt, the weight change sent for progress analysis, the
    defaults filled into a food analysis, and the fixed replies used when a
    call fails. The calls themselves are not modelled: a reply arrives as a
    parameter, None standing for a failed call or a reply with no JSON in
    it. */
module GeminiService {
  import opened Types
  import opened NumberText
  import ProgressScreen

  // ---------------------------------------------------------------- suggestions

  function BaseSuggestions(): seq<string>
  {
    ["💡 Give me meal ideas for today",
     "🍎 What healthy snacks can I have?",
     "🏃 How much exercise should I do?",
     "💧 How much water should I drink?",
     "😴 Tips for better sleep?"]
  }

  function WeightLossSuggestion(): string { "⚖️ Best foods for weight loss?" }

  function HighCalorieSuggestion(): string { "💪 High-calorie healthy foods?" }

  /** The five base suggestions in order, then one more for a user who wants
      to lose or to gain weight. */
  method GetQuickSuggestions(profile: Option<UserProfile>) returns (suggestions: seq<string>)
    ensures |suggestions| == if profile.Some? && profile.value.goal != Maintain then 6 else 5
    ensures suggestions[..5] == BaseSuggestions()
    ensures profile.Some? && profile.value.goal == Lose ==> suggestions[5] == WeightLossSuggestion()
    ensures profile.Some? && profile.value.goal == Gain ==> suggestions[5] == HighCalorieSuggestion()
  {
    suggestions := BaseSuggestions();
    assert |suggestions| == 5;
    if profile.Some? && profile.value.goal == Lose {
      suggestions := suggestions + [WeightLossSuggestion()];
    } else if profile.Some? && profile.value.goal == Gain {
      suggestions := suggestions + [HighCalorieSuggestion()];
    }
  }

  // ---------------------------------------------------------------- chat prompt

  /** One earlier message of the conversation. */
  datatype ChatMessage = ChatMessage(role: string, text: string)

  /** The line a message contributes to the prompt. */
  function MessageLine(m: ChatMessage): string
  {
    m.role + ": " + m.text + "\n"
  }

  /** The lines of the earlier messages, in order. */
  function HistoryLines(history: seq<ChatMessage>): string
  {
    if history == [] then ""
    else HistoryLines(history[..|history| - 1]) + MessageLine(history[|history| - 1])
  }

  /** The lines of a longer history extend those of a shorter one: a message
      added later never changes the text of earlier ones. */
  lemma {:induction false} HistoryLinesConcat(a: seq<ChatMessage>, b: seq<ChatMessage>)
    ensures HistoryLines(a + b) == HistoryLines(a) + HistoryLines(b)
    decreases |b|
  {
    if b == [] {
      assert a + b == a;
    } else {
      var b', m := b[..|b| - 1], b[|b| - 1];
      assert (a + b)[..|a + b| - 1] == a + b' && (a + b)[|a + b| - 1] == m;
      assert HistoryLines(a + b) == HistoryLines(a + b') + MessageLine(m);
      HistoryLinesConcat(a, b');
      AppendAssociates(HistoryLines(a), HistoryLines(b'), MessageLine(m));
    }
  }

  lemma AppendAssociates(x: string, y: string, z: string)
    ensures (x + y) + z == x + (y + z)
  {
  }

  /** One message gives exactly its own line. */
  lemma HistoryLinesSingle(m: ChatMessage)
    ensures HistoryLines([m]) == MessageLine(m)
  {
    assert [m][..0] == [];
  }

  function BaseContext(): string
  {
    "You are NutriGuide — an expert AI diet coach and nutrition advisor.\n\nYour role:\n"
    + "- Help users maintain a healthy body weight based on their BMI.\n"
    + "- Provide daily diet guidance, calorie goals, and food intake tracking.\n"
    + "- Motivate users to stay consistent and teach them about healthy eating habits.\n"
    + "- Be friendly, encouraging, and conversational.\n"
    + "- Avoid medical claims or strict prescriptions.\n"
    + "- Always promote balance, moderation, and positivity.\n"
  }

  /** The lines describing the user, given a profile and its analysis.
      JavaScript's text for a height or weight and the one-decimal BMI come
      in as `numberText` and `fixed1`. */
  function ProfileLines(p: UserProfile, b: BmiResult, numberText: real -> string, fixed1: real -> string): string
  {
    "\nCurrent User Profile:\n- Name: " + p.name
    + "\n- Age: " + IntText(p.age) + " years"
    + "\n- Height: " + numberText(p.height) + " cm"
    + "\n- Weight: " + numberText(p.weight) + " kg"
    + "\n- Gender: " + GenderText(p.gender)
    + "\n- Activity Level: " + ActivityText(p.activityLevel)
    + "\n- Goal: " + GoalText(p.goal) + " weight"
    + "\n- Dietary Preference: " + DietText(p.dietaryPreference)
    + "\n- BMI: " + fixed1(b.bmi) + " (" + CategoryText(b.category) + ")"
    + "\n- Daily Calorie Goal: " + IntText(b.dailyCalorieGoal) + " cal"
    + "\n- Macros: Carbs " + IntText(b.macros.carbs) + "%, Protein " + IntText(b.macros.protein)
    + "%, Fats " + IntText(b.macros.fats) + "%\n\nPersonalize your responses using this information.\n"
  }

  /** The profile lines, present only when both a profile and an analysis
      are. */
  function ProfileLinesOf(profile: Option<UserProfile>, bmiResult: Option<BmiResult>,
                          numberText: real -> string, fixed1: real -> string): (lines: Option<string>)
    ensures lines.Some? <==> profile.Some? && bmiResult.Some?
  {
    if profile.Some? && bmiResult.Some? then Some(ProfileLines(profile.value, bmiResult.value, numberText, fixed1))
    else None
  }

  /** A context over a base text: the base alone, or the base, a line break
      and the profile lines. The base is kept as the prefix either way, and
      the context is the base alone exactly when there are no lines. */
  function ContextFrom(base: string, lines: Option<string>): (c: string)
    ensures |c| >= |base| && c[..|base|] == base
    ensures c == base <==> lines.None?
    ensures lines.Some? ==> c[|base|..] == "\n" + lines.value
  {
    match lines
    case Some(text) => base + "\n" + text
    case None => base
  }

  /** The context the service sends. */
  function SystemContext(profile: Option<UserProfile>, bmiResult: Option<BmiResult>,
                         numberText: real -> string, fixed1: real -> string): string
  {
    ContextFrom(BaseContext(), ProfileLinesOf(profile, bmiResult, numberText, fixed1))
  }

  /** The whole prompt: the context, a blank line, the earlier messages one
      per line, then the user's message and the assistant cue. */
  function Prompt(context: string, history: seq<ChatMessage>, userMessage: string): string
  {
    context + "\n\n" + HistoryLines(history) + "User: " + userMessage + "\nAssistant:"
  }

  /** Builds the prompt the way the service does, one history line at a
      time. */
  method BuildConversationText(context: string, history: seq<ChatMessage>, userMessage: string)
    returns (conversationText: string)
    ensures conversationText == Prompt(context, history, userMessage)
  {
    conversationText := context + "\n\n";
    var i := 0;
    while i < |history|
      invariant 0 <= i <= |history|
      invariant conversationText == context + "\n\n" + HistoryLines(history[..i])
    {
      assert history[..i + 1][..i] == history[..i];
      conversationText := conversationText + MessageLine(history[i]);
      i := i + 1;
    }
    assert history[..i] == history;
    conversationText := conversationText + "User: " + userMessage + "\nAssistant:";
  }

  /** Continuing a conversation only appends to the prompt's history part:
      the prompt for history + more is the prompt's prefix for history, then
      the lines of the new messages. */
  lemma PromptExtends(context: string, history: seq<ChatMessage>, more: seq<ChatMessage>, userMessage: string)
    ensures Prompt(context, history + more, userMessage)
         == context + "\n\n" + HistoryLines(history) + HistoryLines(more) + "User: " + userMessage + "\nAssistant:"
  {
    HistoryLinesConcat(history, more);
  }

  /** A failed chat call is reported with one fixed message. */
  function ChatReply(reply: Option<string>): (r: Result<string>)
    ensures r.Ok? <==> reply.Some?
    ensures r.Ok? ==> r.value == reply.value
    ensures r.Err? ==> r.message == "Failed to get response from AI. Please try again."
  {
    match reply
    case Some(text) => Ok(text)
    case None => Err("Failed to get response from AI. Please try again.")
  }

  /** What a call that never throws returns: the reply when there is one,
      its fixed fallback otherwise. */
  function OrFallback<T>(reply: Option<T>, fallback: T): (r: T)
    ensures reply.Some? ==> r == reply.value
    ensures reply.None? ==> r == fallback
  {
    match reply
    case Some(value) => value
    case None => fallback
  }

  // ---------------------------------------------------------------- progress

  /** The weight change sent for analysis: over the last seven samples at
      most, the newest weight minus the oldest; 0 with fewer than two. */
  function WeightChange(history: seq<WeightSample>): (change: real)
    ensures |history| < 2 ==> change == 0.0
    ensures |history| >= 2 ==> change == history[|history| - 1].weight - history[if |history| > 7 then |history| - 7 else 0].weight
  {
    var recent := LastUpTo(history, 7);
    if |recent| > 1 then recent[|recent| - 1].weight - recent[0].weight else 0.0
  }

  /** The change runs oldest to newest over the same window the progress
      screen shows newest first: it is the screen's first entry minus its
      last. */
  lemma {:induction false} WeightChangeOverWindow(history: seq<WeightSample>)
    requires |history| >= 2
    ensures var w := ProgressScreen.HistoryWindow(history);
      |w| >= 2 && WeightChange(history) == w[0].weight - w[|w| - 1].weight
  {
    var recent := LastUpTo(history, 7);
    var m := |recent|;
    ReverseAt(recent, 0);
    ReverseAt(recent, m - 1);
  }

  /** With exactly two samples the change is the screen's trend, signed: up
      means a positive change and down a negative one. */
  lemma WeightChangeMatchesTrendOnTwo(history: seq<WeightSample>)
    requires |history| == 2
    ensures var t := ProgressScreen.WeightTrend(ProgressScreen.HistoryWindow(history));
      && t.Some?
      && (t.value.direction == ProgressScreen.Up <==> WeightChange(history) > 0.0)
      && (t.value.direction == ProgressScreen.Down <==> WeightChange(history) < 0.0)
  {
    ProgressScreen.HistoryWindowNewestFirst(history);
  }

  function ProgressFallback(): string
  {
    "Keep tracking your progress consistently. Small, sustainable changes lead to lasting results! 💪"
  }

  /** The analysis text, or the fixed encouragement when the call fails. */
  function ProgressReply(reply: Option<string>): string
  {
    OrFallback(reply, ProgressFallback())
  }

  // ---------------------------------------------------------------- food analysis

  /** The fields read from a reply's JSON; None stands for a missing, null
      or otherwise falsy value (NaN among them for the calories). */
  datatype ParsedFood = ParsedFood(foodName: Option<string>, calories: Option<real>, description: Option<string>)

  datatype FoodAnalysis = FoodAnalysis(foodName: string, calories: real, description: string)

  /** Each missing or falsy field takes its default: "Unknown Food", 0 and
      the empty description. */
  function FoodAnalysisOf(parsed: ParsedFood): (a: FoodAnalysis)
    ensures a.foodName != ""
    ensures parsed.foodName.Some? && parsed.foodName.value != "" ==> a.foodName == parsed.foodName.value
    ensures parsed.foodName.None? || parsed.foodName.value == "" ==> a.foodName == "Unknown Food"
    ensures parsed.calories.Some? ==> a.calories == parsed.calories.value
    ensures parsed.calories.None? ==> a.calories == 0.0
    ensures parsed.description.Some? ==> a.description == parsed.description.value
    ensures parsed.description.None? ==> a.description == ""
  {
    FoodAnalysis(
      if parsed.foodName.Some? && parsed.foodName.value != "" then parsed.foodName.value else "Unknown Food",
      if parsed.calories.Some? then parsed.calories.value else 0.0,
      if parsed.description.Some? then parsed.description.value else "")
  }

  /** Filling in defaults twice is filling them in once. */
  lemma FoodAnalysisDefaultsSettle(parsed: ParsedFood)
    ensures var a := FoodAnalysisOf(parsed);
      FoodAnalysisOf(ParsedFood(Some(a.foodName), Some(a.calories), Some(a.description))) == a
  {
  }

  /** A reply without JSON, or a failed call, is reported as one error. */
  function AnalyzeFoodReply(reply: Option<ParsedFood>): (r: Result<FoodAnalysis>)
    ensures r.Ok? <==> reply.Some?
    ensures r.Ok? ==> r.value == FoodAnalysisOf(reply.value)
    ensures r.Err? ==> r.message == "Failed to analyze food image"
  {
    match reply
    case Some(parsed) => Ok(FoodAnalysisOf(parsed))
    case None => Err("Failed to analyze food image")
  }

  // ---------------------------------------------------------------- fallbacks

  function MotivationFallback(): string
  {
    "🌟 Keep pushing forward! Every healthy choice counts toward your goals."
  }

  /** The coach's message, or the fixed encouragement when the call fails. */
  function MotivationReply(reply: Option<string>): string
  {
    OrFallback(reply, MotivationFallback())
  }

  function MealSuggestionsFallback(): seq<string>
  {
    ["Oatmeal with fruits", "Greek yogurt parfait", "Veggie omelet"]
  }

  /** The parsed list, or three fixed meals when the call fails or the reply
      holds no list. */
  function MealSuggestionsReply(reply: Option<seq<string>>): seq<string>
  {
    OrFallback(reply, MealSuggestionsFallback())
  }

  /** The parsed list, or none at all when the call fails or the reply holds
      no list. */
  function AlternativesReply(reply: Option<seq<string>>): seq<string>
  {
    OrFallback(reply, [])
  }
}
