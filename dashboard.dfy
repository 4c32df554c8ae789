/** The dashboard page (Dashboard.jsx): the greeting and the user name. */
module Dashboard {
  import opened Text
  import opened Clock

  const MORNING := "Good Morning"
  const AFTERNOON := "Good Afternoon"
  const EVENING := "Good Evening"

  /** getGreeting (Dashboard.jsx:20-25) for the local hour of "now". */
  function Greeting(hour: Hour): (g: string)
    ensures g == MORNING <==> hour < 12
    ensures g == AFTERNOON <==> 12 <= hour < 18
    ensures g == EVENING <==> 18 <= hour
  {
    if hour < 12 then MORNING
    else if hour < 18 then AFTERNOON
    else EVENING
  }

  /** The position of a greeting in the day. */
  function Part(greeting: string): nat
  {
    if greeting == MORNING then 0 else if greeting == AFTERNOON then 1 else 2
  }

  /** Every hour gets exactly one of the three greetings, and through the
      day they only move forward: morning, afternoon, evening. */
  lemma GreetingThroughTheDay(h1: Hour, h2: Hour)
    ensures Greeting(h1) in {MORNING, AFTERNOON, EVENING}
    ensures h1 <= h2 ==> Part(Greeting(h1)) <= Part(Greeting(h2))
    ensures Greeting(0) == MORNING && Greeting(23) == EVENING
  {
  }

  const FALLBACK_NAME := "User"

  /** The user-name effect (Dashboard.jsx:11-18): the part of the e-mail
      before the first `@`, or "User" without an e-mail. */
  function UserName(email: string): (name: string)
    ensures email == "" ==> name == FALLBACK_NAME
    ensures email != "" ==> name <= email && '@' !in name
    ensures email != "" && '@' !in email ==> name == email
    ensures email != "" && '@' in email ==> |name| < |email| && email[|name|] == '@'
  {
    BeforeFirstCharacterised(email, '@');
    if email != "" then BeforeFirst(email, '@') else FALLBACK_NAME
  }
}
