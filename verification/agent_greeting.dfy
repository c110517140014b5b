/** The chat page's greeting (`AgentGreeting`): a salutation chosen by the
    hour of the local clock, followed by ", Ready to hire?". The hour is a
    parameter.
 */
module AgentGreeting {
  import Strings

  const Morning := "Good Morning"
  const Afternoon := "Good Afternoon"
  const Evening := "Good Evening"

  /** The fallback the heading would use for an empty greeting. */
  const Fallback := "Greetings, "

  /** `getTimeBasedGreeting`: morning before 12, afternoon before 17,
      evening from 17 on. */
  function Greeting(hour: int): (g: string)
    ensures |g| > 0
    ensures g == Morning <==> hour < 12
    ensures g == Afternoon <==> 12 <= hour < 17
    ensures g == Evening <==> 17 <= hour
  {
    if hour < 12 then Morning
    else if hour < 17 then Afternoon
    else Evening
  }

  /** The heading: the greeting, or the fallback when it is empty. Every
      greeting is non-empty, so the fallback never shows. */
  function Heading(hour: int): (h: string)
    ensures h == Greeting(hour) + ", Ready to hire?"
    ensures !(Fallback <= h)
  {
    var h := (if Strings.Truthy(Greeting(hour)) then Greeting(hour) else Fallback) + ", Ready to hire?";
    assert h[1] == Greeting(hour)[1] == 'o' != Fallback[1];
    h
  }
}
