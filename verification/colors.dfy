/** The display colours of `getStatusColor` and `getPriorityColor`
    (frontend/src/app/app.ts): total lookups from any string to a CSS
    colour, with a grey fallback for strings outside the literal unions. */
module Colors {
  import opened TaskModel

  const Green := "#28a745"
  const Blue := "#007bff"
  const Amber := "#ffc107"
  const Red := "#dc3545"
  const Orange := "#fd7e14"
  const Gray := "#6c757d"

  /** The colour of each status, as a table over the enum. */
  function StatusPalette(st: Status): string {
    match st
    case Completed => Green
    case InProgress => Blue
    case Pending => Amber
  }

  /** The colour of each priority, as a table over the enum. */
  function PriorityPalette(p: Priority): string {
    match p
    case High => Red
    case Medium => Orange
    case Low => Green
  }

  /** `getStatusColor(status)`: the switch over the raw string. A status
      literal gets its palette colour; every other string gets grey. */
  function StatusColor(status: string): (c: string)
    ensures ParseStatus(status).Some? ==> c == StatusPalette(ParseStatus(status).value)
    ensures ParseStatus(status).None? ==> c == Gray
  {
    if status == "completed" then Green
    else if status == "in-progress" then Blue
    else if status == "pending" then Amber
    else Gray
  }

  /** `getPriorityColor(priority)`: a priority literal gets its palette
      colour; every other string gets grey. */
  function PriorityColor(priority: string): (c: string)
    ensures ParsePriority(priority).Some? ==> c == PriorityPalette(ParsePriority(priority).value)
    ensures ParsePriority(priority).None? ==> c == Gray
  {
    if priority == "high" then Red
    else if priority == "medium" then Orange
    else if priority == "low" then Green
    else Gray
  }

  /** Grey marks exactly the strings that are not a status; the three status
      colours are pairwise distinct, so the colour identifies the status. */
  lemma StatusColorsSeparate(s: string, a: Status, b: Status)
    ensures StatusColor(s) == Gray <==> ParseStatus(s).None?
    ensures StatusColor(StatusName(a)) == StatusColor(StatusName(b)) ==> a == b
  {
    StatusNameRoundTrip(a);
    StatusNameRoundTrip(b);
  }

  /** Grey marks exactly the strings that are not a priority; the three
      priority colours are pairwise distinct. */
  lemma PriorityColorsSeparate(s: string, a: Priority, b: Priority)
    ensures PriorityColor(s) == Gray <==> ParsePriority(s).None?
    ensures PriorityColor(PriorityName(a)) == PriorityColor(PriorityName(b)) ==> a == b
  {
    PriorityNameRoundTrip(a);
    PriorityNameRoundTrip(b);
  }
}
