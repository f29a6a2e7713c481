/** Player actions (src/models/action.py) and their text values. */
module Actions {
  import opened Wrappers

  datatype Action = Hit | Stand | Double | Split | Surrender

  /** `Action.value`. */
  function ActionText(a: Action): string {
    match a
    case Hit => "hit"
    case Stand => "stand"
    case Double => "double"
    case Split => "split"
    case Surrender => "surrender"
  }

  /** `Action(text)`: the action whose value is `text`, if any. */
  function ActionFromText(text: string): (r: Option<Action>)
    ensures r.Some? ==> ActionText(r.value) == text
  {
    if text == "hit" then Some(Hit)
    else if text == "stand" then Some(Stand)
    else if text == "double" then Some(Double)
    else if text == "split" then Some(Split)
    else if text == "surrender" then Some(Surrender)
    else None
  }

  lemma ActionTextRoundTrip(a: Action)
    ensures ActionFromText(ActionText(a)) == Some(a)
  {
  }
}
