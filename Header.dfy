/** The greeting of the header (src/components/Header.tsx), chosen by the
    local hour of the day. */
module Header {

  /** `getGreeting()` for an hour `0..23` of `Date.getHours()`. */
  function Greeting(hour: nat): string
    requires hour < 24
  {
    if hour < 12 then "Good Morning"
    else if hour < 17 then "Good Afternoon"
    else "Good Evening"
  }

  /** Mornings run from midnight to 11, afternoons from 12 to 16, evenings from
      17 to 23, and each greeting is one of the three. */
  lemma GreetingRanges(hour: nat)
    requires hour < 24
    ensures Greeting(hour) == "Good Morning" <==> hour < 12
    ensures Greeting(hour) == "Good Afternoon" <==> 12 <= hour < 17
    ensures Greeting(hour) == "Good Evening" <==> 17 <= hour
  {
  }

  /** The position of a greeting in the day. */
  function Rank(greeting: string): nat
  {
    if greeting == "Good Morning" then 0 else if greeting == "Good Afternoon" then 1 else 2
  }

  /** Through the day the greeting only moves forward. */
  lemma GreetingMonotone(h1: nat, h2: nat)
    requires h1 <= h2 < 24
    ensures Rank(Greeting(h1)) <= Rank(Greeting(h2))
  {
  }
}
