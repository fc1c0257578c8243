/** The history drawer: relative-time labels for each entry and the choice
    between nothing, the empty state and the list of cards. */
module HistoryPanel {
  import opened Types
  import opened Text

  const MINUTE_MS: int := 60000
  const HOUR_MS: int := 3600000
  const DAY_MS: int := 86400000

  /** How long ago an entry was made, as `formatDate` buckets it. */
  datatype Age = JustNow | MinutesAgo(m: nat) | HoursAgo(h: nat) | DaysAgo(d: nat) | OnDate

  /** The bucket for a difference of `diffMs` milliseconds. `Math.floor` of a
      quotient by a positive constant is Dafny's division, negative
      differences included. */
  function Bucket(diffMs: int): Age {
    var diffMins := diffMs / MINUTE_MS;
    var diffHours := diffMs / HOUR_MS;
    var diffDays := diffMs / DAY_MS;
    if diffMins < 1 then JustNow
    else if diffMins < 60 then MinutesAgo(diffMins)
    else if diffHours < 24 then HoursAgo(diffHours)
    else if diffDays < 7 then DaysAgo(diffDays)
    else OnDate
  }

  /** The buckets in milliseconds: under a minute (including a timestamp in
      the future), whole minutes below an hour, whole hours below a day,
      whole days below a week, and the calendar date from a week on. */
  lemma BucketRanges(diffMs: int)
    ensures Bucket(diffMs) == JustNow <==> diffMs < MINUTE_MS
    ensures Bucket(diffMs).MinutesAgo? <==> MINUTE_MS <= diffMs < HOUR_MS
    ensures Bucket(diffMs).HoursAgo? <==> HOUR_MS <= diffMs < DAY_MS
    ensures Bucket(diffMs).DaysAgo? <==> DAY_MS <= diffMs < 7 * DAY_MS
    ensures Bucket(diffMs) == OnDate <==> 7 * DAY_MS <= diffMs
    ensures Bucket(diffMs).MinutesAgo? ==> 1 <= Bucket(diffMs).m <= 59 && Bucket(diffMs).m * MINUTE_MS <= diffMs
    ensures Bucket(diffMs).HoursAgo? ==> 1 <= Bucket(diffMs).h <= 23 && Bucket(diffMs).h * HOUR_MS <= diffMs
    ensures Bucket(diffMs).DaysAgo? ==> 1 <= Bucket(diffMs).d <= 6 && Bucket(diffMs).d * DAY_MS <= diffMs
  {
  }

  /** The text shown; `localeDate` is `date.toLocaleDateString()`. */
  function AgeLabel(age: Age, localeDate: string): string {
    match age
    case JustNow => "Just now"
    case MinutesAgo(m) => NatToString(m) + "m ago"
    case HoursAgo(h) => NatToString(h) + "h ago"
    case DaysAgo(d) => NatToString(d) + "d ago"
    case OnDate => localeDate
  }

  /** `formatDate(timestamp)` at wall-clock time `now`. */
  function FormatDate(now: int, timestamp: int, localeDate: string): string {
    AgeLabel(Bucket(now - timestamp), localeDate)
  }

  /** A relative label names its unit in the fifth character from the end
      and its count, which reads back, before that. */
  lemma RelativeLabelReadsBack(age: Age, localeDate: string, n: nat, unit: char)
    requires age == MinutesAgo(n) || age == HoursAgo(n) || age == DaysAgo(n)
    requires unit == (if age.MinutesAgo? then 'm' else if age.HoursAgo? then 'h' else 'd')
    ensures var s := AgeLabel(age, localeDate);
      && |s| >= 6 && s[|s| - 5..] == [unit] + " ago"
      && AllDigits(s[..|s| - 5]) && ParseNat(s[..|s| - 5]) == n
  {
    var s := AgeLabel(age, localeDate);
    assert s == NatToString(n) + ([unit] + " ago");
    assert s[..|s| - 5] == NatToString(n);
    ParseNatToString(n);
  }

  /** Entries a minute to an hour old show whole minutes. */
  lemma MinutesLabel(now: int, timestamp: int, localeDate: string)
    requires MINUTE_MS <= now - timestamp < HOUR_MS
    ensures FormatDate(now, timestamp, localeDate) == NatToString((now - timestamp) / MINUTE_MS) + "m ago"
  {
    BucketRanges(now - timestamp);
  }

  /** One card of the list. The prompt line shows only for a non-empty prompt. */
  datatype Card = Card(id: string, imageUrl: string, date: string, prompt: Option<string>, story: string)

  datatype PanelView = Closed | EmptyState | Cards(cards: seq<Card>)

  function CardFor(item: HistoryEntry, now: int, localeDate: int -> string): Card {
    Card(item.id, item.imageUrl, FormatDate(now, item.timestamp, localeDate(item.timestamp)),
         if item.prompt != "" then Some(item.prompt) else None, item.story)
  }

  /** What the panel renders: nothing when closed, the empty state for an
      empty history, otherwise one card per entry in the history's order. */
  function Render(history: seq<HistoryEntry>, isOpen: bool, now: int, localeDate: int -> string): (v: PanelView)
    ensures v == Closed <==> !isOpen
    ensures v == EmptyState <==> isOpen && history == []
    ensures v.Cards? ==> |v.cards| == |history| > 0
    ensures v.Cards? ==> forall i | 0 <= i < |history| ::
      v.cards[i].id == history[i].id && v.cards[i].story == history[i].story
      && v.cards[i].imageUrl == history[i].imageUrl
      && v.cards[i].date == FormatDate(now, history[i].timestamp, localeDate(history[i].timestamp))
      && (v.cards[i].prompt.Some? <==> history[i].prompt != "")
      && (v.cards[i].prompt.Some? ==> v.cards[i].prompt.value == history[i].prompt)
  {
    if !isOpen then Closed
    else if |history| == 0 then EmptyState
    else Cards(seq(|history|, i requires 0 <= i < |history| => CardFor(history[i], now, localeDate)))
  }
}
