/**
 * The chat list's derived view: the search filter followed by the
 * newest-first sort (the `filteredChats` memo), and the three-bucket
 * timestamp label shown beside each chat (`formatTime`).
 */
module ChatList {
  import opened Records
  import opened Text
  import Seqs
  import Recency

  /**
   * Whether a chat survives the search box. An empty term keeps every
   * chat; otherwise the lower-cased term must occur in the lower-cased
   * name, last-message content or phone, and an absent field never matches.
   */
  function Matches(chat: Chat, term: string): (r: bool)
    ensures term == [] ==> r
    ensures term != [] ==> (r <==>
      || IsSubstring(Lower(term), Lower(chat.name))
      || (chat.lastMessage.Some? && IsSubstring(Lower(term), Lower(chat.lastMessage.value.content)))
      || (chat.phone.Some? && IsSubstring(Lower(term), Lower(chat.phone.value))))
  {
    if term == [] then true
    else
      var t := Lower(term);
      || Found(Lower(chat.name), t)
      || (chat.lastMessage.Some? && Found(Lower(chat.lastMessage.value.content), t))
      || (chat.phone.Some? && Found(Lower(chat.phone.value), t))
  }

  /** `field.includes(t)`: the search test on one field. */
  function Found(field: string, t: string): (r: bool)
    ensures r <==> IsSubstring(t, field)
  {
    ContainsIff(field, t);
    Contains(field, t)
  }

  function MatchesTerm(term: string): Chat -> bool {
    (c: Chat) => Matches(c, term)
  }

  /** The memoised list: null while chats are unknown, else the matching chats newest first. */
  function FilteredChats(chats: Option<seq<Chat>>, term: string): (r: Option<seq<Chat>>)
    ensures r.None? <==> chats.None?
    ensures r.Some? ==> Recency.NewestFirst(r.value)
    ensures r.Some? ==> |r.value| <= |chats.value|
    ensures r.Some? ==> forall c :: c in r.value ==> c in chats.value && Matches(c, term)
  {
    match chats
    case None => None
    case Some(cs) =>
      var kept := Seqs.Filter(cs, MatchesTerm(term));
      var sorted := Recency.SortByRecency(kept);
      assert forall c :: c in sorted ==> c in kept by {
        forall c | c in sorted ensures c in kept {
          assert c in multiset(sorted);
        }
      }
      Some(sorted)
  }

  /**
   * The filter keeps a chat exactly when it matches, with its multiplicity:
   * the result is a reordering of the matching chats of the input.
   */
  lemma FilteredKeepsExactlyMatches(chats: seq<Chat>, term: string)
    ensures forall c :: multiset(FilteredChats(Some(chats), term).value)[c]
                     == if Matches(c, term) then multiset(chats)[c] else 0
  {
    Seqs.FilterCount(chats, MatchesTerm(term));
  }

  /** An empty search term only reorders the list. */
  lemma EmptyTermOnlyReorders(chats: seq<Chat>)
    ensures multiset(FilteredChats(Some(chats), "").value) == multiset(chats)
  {
    FilteredKeepsExactlyMatches(chats, "");
  }

  /** Chats with equal `updated_at` keep their relative order in the view. */
  lemma FilteredTiesKeepInputOrder(chats: seq<Chat>, term: string, t: Millis)
    ensures Seqs.Filter(FilteredChats(Some(chats), term).value, Recency.HasStamp(t))
         == Seqs.Filter(Seqs.Filter(chats, MatchesTerm(term)), Recency.HasStamp(t))
  {
    Recency.SortStable(Seqs.Filter(chats, MatchesTerm(term)), t);
  }

  /** 24 hours and 48 hours in milliseconds: the bucket limits of `diffInHours`. */
  const DayMs: int := 86_400_000
  const TwoDaysMs: int := 172_800_000

  /** What `formatTime` renders; the locale formatting itself is not modelled. */
  datatype TimeLabel =
    | Blank                           // ""
    | TimeOfDay(at: Millis)           // toLocaleTimeString, hour and minute
    | Yesterday                       // the literal "Yesterday"
    | CalendarDate(date: Option<Millis>) // toLocaleDateString; None renders "Invalid Date"

  function Abs(x: int): nat {
    if x < 0 then -x else x
  }

  /**
   * `formatTime(dateString)` at clock time `now`. `parsed` is what
   * `new Date(dateString)` yields for the text: None for an unparsable date.
   */
  function FormatTime(dateString: Option<string>, parsed: Option<Millis>, now: Millis): (r: TimeLabel)
    ensures (dateString.None? || dateString.value == []) <==> r.Blank?
    ensures dateString == Some("Yesterday") ==> r.Yesterday?
    ensures r.TimeOfDay? <==>
      dateString.Some? && dateString.value !in {"", "Yesterday"} && parsed.Some? && Abs(now - parsed.value) < DayMs
    ensures r.Yesterday? && dateString != Some("Yesterday") <==>
      dateString.Some? && dateString.value !in {"", "Yesterday"} && parsed.Some? && DayMs <= Abs(now - parsed.value) < TwoDaysMs
    ensures r.CalendarDate? <==>
      dateString.Some? && dateString.value !in {"", "Yesterday"} && (parsed.None? || TwoDaysMs <= Abs(now - parsed.value))
    ensures r.TimeOfDay? ==> r.at == parsed.value
    ensures r.CalendarDate? ==> r.date == parsed
  {
    if dateString.None? || dateString.value == [] then Blank
    else if dateString.value == "Yesterday" then Yesterday
    else match parsed
      case None => CalendarDate(None)
      case Some(t) =>
        var age := Abs(now - t);
        if age < DayMs then TimeOfDay(t)
        else if age < TwoDaysMs then Yesterday
        else CalendarDate(Some(t))
  }

  /** A timestamp `d` milliseconds in the future gets the same bucket as one `d` milliseconds in the past. */
  lemma FutureLikePast(dateString: string, now: Millis, d: int)
    requires dateString != [] && dateString != "Yesterday"
    ensures FormatTime(Some(dateString), Some(now + d), now).TimeOfDay?
        == FormatTime(Some(dateString), Some(now - d), now).TimeOfDay?
    ensures FormatTime(Some(dateString), Some(now + d), now).Yesterday?
        == FormatTime(Some(dateString), Some(now - d), now).Yesterday?
    ensures FormatTime(Some(dateString), Some(now + d), now).CalendarDate?
        == FormatTime(Some(dateString), Some(now - d), now).CalendarDate?
  {
  }

  /** The boundary cases: 23h59m, 24h01m, 47h59m and 48h01m before `now`. */
  lemma BucketBoundaries(dateString: string, now: Millis)
    requires dateString != [] && dateString != "Yesterday"
    ensures FormatTime(Some(dateString), Some(now - (DayMs - 60_000)), now).TimeOfDay?
    ensures FormatTime(Some(dateString), Some(now - DayMs), now).Yesterday?
    ensures FormatTime(Some(dateString), Some(now - (DayMs + 60_000)), now).Yesterday?
    ensures FormatTime(Some(dateString), Some(now - (TwoDaysMs - 60_000)), now).Yesterday?
    ensures FormatTime(Some(dateString), Some(now - TwoDaysMs), now).CalendarDate?
    ensures FormatTime(Some(dateString), Some(now - (TwoDaysMs + 60_000)), now).CalendarDate?
  {
  }
}
