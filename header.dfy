/** The `Header` component's greeting for the local hour (`new Date().getHours()` is the
    parameter). */
module Header {

  const MORNING: string := "Good morning"
  const AFTERNOON: string := "Good afternoon"
  const EVENING: string := "Good evening"

  function Greeting(hour: int): (r: string)
    ensures r == MORNING <==> 5 <= hour < 12
    ensures r == AFTERNOON <==> 12 <= hour < 18
    ensures r == EVENING <==> !(5 <= hour < 18)
  {
    if 5 <= hour < 12 then MORNING
    else if 12 <= hour < 18 then AFTERNOON
    else EVENING
  }

  /** Over a day the greeting changes exactly when the clock reaches 5, 12 and 18 o'clock. */
  lemma GreetingChangesAt(hour: int)
    requires 0 <= hour < 24
    ensures Greeting(hour) != Greeting((hour + 1) % 24) <==> (hour + 1) % 24 in {5, 12, 18}
  {
  }
}
