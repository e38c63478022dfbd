/**
 What the four stateful processors have in common: each reads one key of the state store,
 and from what it finds decides what to do with that key and what to send.
 */
module Processing {
  import opened Events
  import opened StateStore

  datatype Action = Keep | Put(msg: Message) | Erase

  datatype Decision = Decision(action: Action, emitted: seq<Event>)

  /** The store after an action; every processor sets its entries for one hour. */
  function Act(s: States, key: string, now: int, action: Action): States {
    match action
    case Keep => s
    case Put(msg) => s[key := Entry(msg, now + HOUR)]
    case Erase => s - {key}
  }
}
