/**
 * The mock smart-fridge plugin: tool functions with no state that return
 * fixed texts, or fixed texts around their arguments.
 */
module FridgePlugin {
  import opened Wrappers
  import opened Text

  // ---------------------------------------------------------------------------
  // The parameterless tools. Each returns a fixed text; the contracts state
  // what the tool's description promises the text covers. The texts are
  // written around the phrases that show it.

  // `GetCalendarEvents`: the events of today and of tomorrow, each under its heading.
  const CalendarHead: string := "\U{1F4C5} "
  const CalendarMiddle: string := "\n- 8:00 AM: Kids school drop-off\n- 10:00 AM: Team standup (Dad - remote)\n- 3:30 PM: Soccer practice pickup\n- 6:00 PM: Family dinner\n\n\U{1F4C5} "
  const CalendarTail: string := "\n- 9:00 AM: Dentist appointment (Mom)\n- 12:00 PM: Lunch with Grandma\n- 4:00 PM: Piano lesson (Emma)"

  function GetCalendarEvents(): (r: string)
    ensures Contains(r, "Today's Events:") && Contains(r, "Tomorrow's Events:")
  {
    ContainsBoth(CalendarHead, "Today's Events:", CalendarMiddle, "Tomorrow's Events:", CalendarTail);
    CalendarHead + "Today's Events:" + CalendarMiddle + "Tomorrow's Events:" + CalendarTail
  }

  // `GetFridgeInventory`: the items with their expiry, and the items running low.
  const InventoryHead: string := "\U{1F96C} Fresh Produce:\n- Milk (1 gallon) - "
  const InventoryMiddle: string := " in 3 days\n- Eggs (8 remaining) - expires in 5 days\n- Spinach - expires tomorrow \U{26A0}\U{FE0F}\n- Carrots (1 bag) - fresh\n- Apples (4) - fresh\n\n\U{1F969} Proteins:\n- Chicken breast (2 lbs) - frozen\n- Ground beef (1 lb) - expires in 2 days\n- Salmon fillet - expires tomorrow \U{26A0}\U{FE0F}\n\n\U{1F9C0} Dairy:\n- Cheddar cheese - fresh\n- Yogurt (3 cups) - expires in 4 days\n- Butter - fresh\n\n\U{1F964} Beverages:\n- Orange juice (half full)\n- Sparkling water (6 cans)\n\n\U{26A0}\U{FE0F} "
  const InventoryTail: string := " Milk, Eggs"

  function GetFridgeInventory(): (r: string)
    ensures Contains(r, "expires") && Contains(r, "Low stock:")
  {
    ContainsBoth(InventoryHead, "expires", InventoryMiddle, "Low stock:", InventoryTail);
    InventoryHead + "expires" + InventoryMiddle + "Low stock:" + InventoryTail
  }

  // `GetWeather`: the current weather, then the forecast.
  const WeatherHead: string := "\U{1F324}\U{FE0F} "
  const WeatherMiddle: string := " Seoul, South Korea\nTemperature: 12\U{B0}C (54\U{B0}F)\nCondition: Partly Cloudy\nHumidity: 65%\n\n\U{1F4C5} Today's "
  const WeatherTail: string := "\n- Morning: 10\U{B0}C, Cloudy\n- Afternoon: 15\U{B0}C, Partly Sunny\n- Evening: 11\U{B0}C, Clear\n\n\U{1F4C5} Tomorrow:\n- High: 17\U{B0}C | Low: 8\U{B0}C\n- Condition: Sunny\n\n\U{1F455} Recommendation: Light jacket for morning, comfortable by afternoon."

  function GetWeather(): (r: string)
    ensures Contains(r, "Current Weather:") && Contains(r, "Forecast:")
  {
    ContainsBoth(WeatherHead, "Current Weather:", WeatherMiddle, "Forecast:", WeatherTail);
    WeatherHead + "Current Weather:" + WeatherMiddle + "Forecast:" + WeatherTail
  }

  // `GetFridgeStatus`: the temperatures, then the alerts.
  const StatusHead: string := "\U{1F9CA} Smart Fridge Status\n\n"
  const StatusMiddle: string := "\n- Fridge: 3\U{B0}C (optimal: 1-4\U{B0}C) \U{2705}\n- Freezer: -18\U{B0}C (optimal: -18\U{B0}C) \U{2705}\n\nDoor Status: Closed \U{2705}\n\n\U{26A0}\U{FE0F} "
  const StatusTail: string := "\n- 2 items expiring soon (spinach, salmon)\n- Milk running low (reorder suggested)\n\nEnergy Mode: Eco Mode Active\nLast Filter Change: 45 days ago (change in 45 days)"

  function GetFridgeStatus(): (r: string)
    ensures Contains(r, "Temperature:") && Contains(r, "Alerts:")
  {
    ContainsBoth(StatusHead, "Temperature:", StatusMiddle, "Alerts:", StatusTail);
    StatusHead + "Temperature:" + StatusMiddle + "Alerts:" + StatusTail
  }

  // ---------------------------------------------------------------------------
  // suggest_recipes

  /** The recipe list every call returns. */
  const BaseRecipes: string :=
    RecipesIntro + RecipeOmelette + RecipeStirFry + RecipeSalmon + RecipeTacos + RecipesTip
  const RecipesIntro: string := "Based on your fridge inventory, here are some recipe suggestions:\n\n"
  const RecipeOmelette: string := "\U{1F373} Quick & Easy (under 30 min):\n1. Spinach & Cheese Omelette - Use the spinach before it expires!\n   Ingredients: eggs, spinach, cheddar cheese, butter\n\n"
  const RecipeStirFry: string := "2. Chicken Stir-fry with Carrots\n   Ingredients: chicken breast, carrots, soy sauce (pantry)\n\n"
  const RecipeSalmon: string := "\U{1F37D}\U{FE0F} Family Dinners:\n3. Baked Salmon with Roasted Vegetables - Use salmon today!\n   Ingredients: salmon fillet, carrots, olive oil (pantry)\n\n"
  const RecipeTacos: string := "4. Beef Tacos\n   Ingredients: ground beef, cheddar cheese, tortillas (pantry)\n\n"
  const RecipesTip: string := "\U{1F4A1} Tip: The spinach and salmon expire tomorrow - consider using them today!"

  const FilterLabel: string := "Filtering for: "

  /**
   * `SuggestRecipes`: the base list, preceded by a "Filtering for" line and a
   * blank line when a non-empty preference is given. The answer always ends
   * with the base list; it is the base list alone exactly when the preference
   * is null or empty; otherwise the preference can be read back between the
   * label and the blank line.
   */
  function SuggestRecipes(preference: Option<string>): (r: string)
    ensures |r| >= |BaseRecipes| && r[|r| - |BaseRecipes|..] == BaseRecipes
    ensures r == BaseRecipes <==> IsNullOrEmpty(preference)
    ensures !IsNullOrEmpty(preference) ==>
      && |r| == |FilterLabel| + |preference.value| + 2 + |BaseRecipes|
      && r[..|FilterLabel|] == FilterLabel
      && r[|FilterLabel|..|FilterLabel| + |preference.value|] == preference.value
      && r[|FilterLabel| + |preference.value|..|FilterLabel| + |preference.value| + 2] == "\n\n"
  {
    if !IsNullOrEmpty(preference) then
      FilteredParts(FilterLabel, preference.value, "\n\n", BaseRecipes);
      FilterLabel + preference.value + "\n\n" + BaseRecipes
    else BaseRecipes
  }

  /** Where each part of a filtered answer sits, for any fixed parts. */
  lemma FilteredParts(lead: string, p: string, sep: string, base: string)
    ensures var r := lead + p + sep + base;
      && |r| == |lead| + |p| + |sep| + |base|
      && r[..|lead|] == lead
      && r[|lead|..|lead| + |p|] == p
      && r[|lead| + |p|..|lead| + |p| + |sep|] == sep
      && r[|r| - |base|..] == base
  {
    var r := lead + p + sep + base;
    assert r == (lead + p + sep) + base;
    assert lead + p + sep == lead + (p + sep);
  }

  /** Different non-empty preferences give different answers. */
  lemma SuggestRecipesInjective(p: string, q: string)
    requires p != "" && q != ""
    requires SuggestRecipes(Some(p)) == SuggestRecipes(Some(q))
    ensures p == q
  {
    var r := SuggestRecipes(Some(p));
    assert |p| == |q|;
    assert p == r[|FilterLabel|..|FilterLabel| + |p|] == q;
  }

  // ---------------------------------------------------------------------------
  // add_to_shopping_list

  /** `quantityStr`: nothing for a null or empty quantity, " (quantity)" otherwise. */
  function QuantitySuffix(quantity: Option<string>): (r: string)
    ensures r == "" <==> IsNullOrEmpty(quantity)
    ensures !IsNullOrEmpty(quantity) ==>
      && |r| == |quantity.value| + 3
      && r[..2] == " (" && r[2..|r| - 1] == quantity.value && r[|r| - 1] == ')'
  {
    if IsNullOrEmpty(quantity) then "" else " (" + quantity.value + ")"
  }

  /** The list entry for the item: its name, then the quantity suffix. */
  function Entry(item: string, quantity: Option<string>): string {
    item + QuantitySuffix(quantity)
  }

  /** An empty quantity is the same as none. */
  lemma EmptyQuantityIsNoQuantity(item: string)
    ensures Entry(item, Some("")) == Entry(item, None) == item
  {
  }

  // The fixed parts of the shopping-list answer.
  const ShoppingHead: string := "\U{2705} Added to Shopping List:\n\U{2022} "
  const ShoppingMiddle: string :=
    "\n\n\U{1F4DD} Current Shopping List:\n\U{2022} Milk (1 gallon)\n\U{2022} Bread\n\U{2022} Eggs (1 dozen)\n\U{2022} "
  const NewMark: string := " \U{2190} New"
  const ShoppingTail: string := "\n\n\U{1F4A1} Tip: Say \"show shopping list\" to see all items."

  /**
   * `AddToShoppingList`: the answer names the entry twice, once on the
   * "Added" line and once as the last item of the list, marked new.
   */
  function AddToShoppingList(item: string, quantity: Option<string>): (r: string)
    ensures var e := Entry(item, quantity);
      && |r| == |ShoppingHead| + |e| + |ShoppingMiddle| + |e| + |NewMark| + |ShoppingTail|
      && r[..|ShoppingHead|] == ShoppingHead
      && r[|ShoppingHead|..|ShoppingHead| + |e|] == e
      && r[|ShoppingHead| + |e| + |ShoppingMiddle|..][..|e| + |NewMark|] == e + NewMark
      && r[|r| - |ShoppingTail|..] == ShoppingTail
  {
    var e := Entry(item, quantity);
    ShoppingParts(ShoppingHead, e, ShoppingMiddle, NewMark, ShoppingTail);
    ShoppingHead + e + ShoppingMiddle + e + NewMark + ShoppingTail
  }

  /** Where each part of the shopping-list answer sits, for any fixed parts. */
  lemma ShoppingParts(head: string, e: string, middle: string, mark: string, tail: string)
    ensures var r := head + e + middle + e + mark + tail;
      && |r| == |head| + |e| + |middle| + |e| + |mark| + |tail|
      && r[..|head|] == head
      && r[|head|..|head| + |e|] == e
      && r[|head| + |e| + |middle|..][..|e| + |mark|] == e + mark
      && r[|r| - |tail|..] == tail
  {
    var r := head + e + middle + e + mark + tail;
    assert r == (head + e + middle) + (e + mark) + tail;
  }

  /** The answer determines the entry that was added. */
  lemma AddToShoppingListDeterminesEntry(item1: string, q1: Option<string>, item2: string, q2: Option<string>)
    requires AddToShoppingList(item1, q1) == AddToShoppingList(item2, q2)
    ensures Entry(item1, q1) == Entry(item2, q2)
  {
    var r := AddToShoppingList(item1, q1);
    var e1, e2 := Entry(item1, q1), Entry(item2, q2);
    assert |e1| == |e2|;
    assert e1 == r[|ShoppingHead|..|ShoppingHead| + |e1|] == e2;
  }

  /**
   * The entry alone does not determine the arguments: a quantity written
   * into the item's name reads the same as a separate quantity.
   */
  lemma EntryIsAmbiguous(item: string, quantity: string)
    requires quantity != ""
    ensures Entry(item + " (" + quantity + ")", None) == Entry(item, Some(quantity))
    ensures item + " (" + quantity + ")" != item
  {
  }

  // ---------------------------------------------------------------------------
  // set_timer

  // The fixed parts of the timer answer.
  const TimerHead: string := "\U{23F1}\U{FE0F} Timer Set!\nName: "
  const TimerMiddle: string := "\nDuration: "
  const TimerTail: string :=
    " minutes\n\nI'll alert you when the timer is done.\nSay \"check timers\" to see active timers."

  /**
   * `SetTimer`: the name and the minutes are embedded without any check, so
   * every `int`, zero and negative ones included, gives an answer, and the
   * minutes read back from it are exactly the minutes given.
   */
  function SetTimer(timerName: string, minutes: int32): (r: string)
    ensures |TimerHead| + |timerName| + |TimerMiddle| + |TimerTail| < |r|
    ensures r[..|TimerHead|] == TimerHead
    ensures r[|TimerHead|..|TimerHead| + |timerName|] == timerName
    ensures r[|r| - |TimerTail|..] == TimerTail
    ensures var digits := r[|TimerHead| + |timerName| + |TimerMiddle|..|r| - |TimerTail|];
      && (forall i :: 0 < i < |digits| ==> IsDigit(digits[i]))
      && (digits[0] == '-' || IsDigit(digits[0]))
      && ParseInt(digits) == minutes as int
      && (digits[0] == '0' ==> digits == "0")
      && (digits[0] == '-' ==> |digits| > 1 && digits[1] != '0')
  {
    var m := IntToString(minutes);
    IntToStringRoundTrip(minutes);
    TimerParts(TimerHead, timerName, TimerMiddle, m, TimerTail);
    TimerHead + timerName + TimerMiddle + m + TimerTail
  }

  /** Where each part of the timer answer sits, for any fixed parts. */
  lemma TimerParts(a: string, b: string, c: string, d: string, e: string)
    ensures var r := a + b + c + d + e;
      && r[..|a|] == a
      && r[|a|..|a| + |b|] == b
      && r[|a| + |b| + |c|..|r| - |e|] == d
      && r[|r| - |e|..] == e
  {
  }

  /** A negative duration is accepted and shown with its minus sign. */
  lemma NegativeMinutesAccepted(timerName: string, minutes: int32)
    requires minutes < 0
    ensures SetTimer(timerName, minutes)[|TimerHead| + |timerName| + |TimerMiddle|] == '-'
  {
    var r := SetTimer(timerName, minutes);
    assert r[|TimerHead| + |timerName| + |TimerMiddle|..|r| - |TimerTail|] == IntToString(minutes);
  }
}
