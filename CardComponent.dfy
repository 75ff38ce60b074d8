/** The card component of src/components/Card.tsx: its props and the click
    guard that decides whether the store's `flipCard` is called. */
module CardComponent {
  import opened GameTypes

  datatype CardProps = CardProps(
    id: string,
    text: string,
    isFlipped: bool,
    isMatched: bool,
    isDisabled: bool,
    playerId: Option<string>)

  /** The card id a click passes to `flipCard`, or `None` when the click
      issues no call. */
  function ClickTarget(p: CardProps): (r: Option<string>)
    ensures r.Some? <==> !p.isDisabled && !p.isFlipped && !p.isMatched
    ensures r.Some? ==> r.value == p.id
  {
    if !p.isDisabled && !p.isFlipped && !p.isMatched then Some(p.id) else None
  }
}
