/**
 * `print_game_summary`: the lines the script prints for a scoreboard response.
 * Printing a line is modelled as appending it to the output. The notice, the
 * banner with the season and week, and one six-line block per event that has
 * a first competition with at least two competitors. Every field is read
 * with a default, so a missing field prints a placeholder and never fails.
 */
module GameSummary {
  import opened Wrappers
  import opened PyJson
  import opened PyText

  // ------------------------------------------------------------- fixed text

  const NoGamesNotice: string := "\U{26A0}\U{FE0F}  No games found in response"
  const ScheduleTitle: string := "\U{1F4C5} NFL SCHEDULE"
  const NoGamesThisWeek: string := "No games found for this week."

  /** The defaults the script passes to `get` for printed fields */
  const UnknownText: Json := JStr("Unknown")
  const UnknownDate: Json := JStr("Unknown date")

  // ------------------------------------------------------- the date rewrite

  /** `s.replace('Z', '+00:00')` */
  function ReplaceZ(s: string): (r: string)
    ensures 'Z' !in r
    ensures 'Z' !in s ==> r == s
  {
    if s == [] then "" else (if s[0] == 'Z' then "+00:00" else [s[0]]) + ReplaceZ(s[1..])
  }

  lemma {:induction false} ReplaceZAppend(a: string, b: string)
    ensures ReplaceZ(a + b) == ReplaceZ(a) + ReplaceZ(b)
  {
    if a != [] {
      assert (a + b)[1..] == a[1..] + b;
      ReplaceZAppend(a[1..], b);
    } else {
      assert a + b == b;
    }
  }

  /** Every `Z` is rewritten, wherever it stands, not only a trailing UTC marker */
  lemma ReplaceZEvery(a: string, b: string)
    ensures ReplaceZ(a + "Z" + b) == ReplaceZ(a) + "+00:00" + ReplaceZ(b)
  {
    ReplaceZAppend(a + "Z", b);
    ReplaceZAppend(a, "Z");
  }

  /**
   * The text after `Date:`. `parse` stands for `datetime.fromisoformat`
   * followed by `strftime('%Y-%m-%d %I:%M %p')`, and is None when either raises.
   * A date that is not a str raises already at `replace`; the bare `except`
   * catches that too, and the value is printed as it is.
   */
  function DateText(date: Json, parse: string -> Option<string>): string {
    match date
    case JStr(s) => parse(ReplaceZ(s)).GetOr(s)
    case _ => Str(date)
  }

  /** A date with a trailing `Z` is parsed with an explicit `+00:00` offset; on failure the raw text is printed */
  lemma DateTextUtc(p: string, parse: string -> Option<string>)
    requires 'Z' !in p
    ensures parse(p + "+00:00").Some? ==> DateText(JStr(p + "Z"), parse) == parse(p + "+00:00").value
    ensures parse(p + "+00:00").None? ==> DateText(JStr(p + "Z"), parse) == p + "Z"
  {
    ReplaceZEvery(p, "");
    assert p + "Z" + "" == p + "Z";
    assert ReplaceZ(p) + "+00:00" + ReplaceZ("") == p + "+00:00";
  }

  // --------------------------------------------------- shape of the response

  /** `o.get(key, {})` is a dict, so that a further `.get` on it does not raise */
  predicate DictOrAbsent(o: Json, key: string)
    requires o.JObj?
  {
    Get(o, key, EmptyObj).JObj?
  }

  /**
   * `len(competitors)` is defined, and when it is at least 2 the two `next`
   * searches can `.get` every competitor and its `team`.
   */
  predicate CompetitorsShaped(cps: Json) {
    && Len(cps).Some?
    && (Len(cps).value >= 2 ==>
          cps.JArr? && forall c :: c in cps.items ==> c.JObj? && DictOrAbsent(c, "team"))
  }

  /** `competitions` is false, or a list whose first element is a dict */
  predicate CompetitionsShaped(cs: Json) {
    Truthy(cs) ==>
      cs.JArr? && cs.items[0].JObj? && CompetitorsShaped(Get(cs.items[0], "competitors", EmptyArr))
  }

  /** Every lookup the loop body makes on one event succeeds */
  predicate EventShaped(event: Json) {
    && event.JObj?
    && DictOrAbsent(event, "status")
    && DictOrAbsent(Get(event, "status", EmptyObj), "type")
    && CompetitionsShaped(Get(event, "competitions", EmptyArr))
  }

  predicate AllEventsShaped(events: seq<Json>) {
    forall i :: 0 <= i < |events| ==> EventShaped(events[i])
  }

  /**
   * The responses on which `print_game_summary` raises nothing. A falsy
   * response, and a truthy dict, list or str without `events` in it, only
   * print the notice; a truthy value of another type makes `in` raise. A
   * response that has `events` is a dict whose `season` and `week` are dicts
   * if present, and whose non-empty `events` is a list of events of the shape above.
   */
  predicate SummaryShaped(data: Json) {
    && (Truthy(data) ==> data.JObj? || data.JArr? || data.JStr?)
    && (data.JObj? ==> DistinctKeys(data.fields))
    && (Truthy(data) && Contains(data, "events") ==>
          && data.JObj?
          && DictOrAbsent(data, "season")
          && DictOrAbsent(data, "week")
          && (var events := Get(data, "events", EmptyArr);
              Truthy(events) ==> events.JArr? && AllEventsShaped(events.items)))
  }

  /** `not data or 'events' not in data`: the response is reported as holding no games */
  predicate NoEvents(data: Json)
    requires Truthy(data) ==> data.JObj? || data.JArr? || data.JStr?
  {
    !Truthy(data) || !Contains(data, "events")
  }

  // ---------------------------------------------------------- one event

  /** `event.get('status', {}).get('type', {}).get('description', 'Unknown')` */
  function StatusOf(event: Json): Json
    requires EventShaped(event)
  {
    Get(Get(Get(event, "status", EmptyObj), "type", EmptyObj), "description", UnknownText)
  }

  /** The event shows a matchup: `competitions` is non-empty and its first has at least two competitors */
  predicate Qualifies(event: Json)
    requires EventShaped(event)
  {
    var cs := Get(event, "competitions", EmptyArr);
    Truthy(cs) && Len(Get(cs.items[0], "competitors", EmptyArr)).value >= 2
  }

  /** The competitors of the first competition of an event that shows a matchup */
  function Competitors(event: Json): (cps: seq<Json>)
    requires EventShaped(event) && Qualifies(event)
    ensures |cps| >= 2
    ensures forall c :: c in cps ==> c.JObj? && DictOrAbsent(c, "team")
  {
    Get(Get(event, "competitions", EmptyArr).items[0], "competitors", EmptyArr).items
  }

  /** `c.get('homeAway') == side` */
  predicate OnSide(c: Json, side: string)
    requires c.JObj?
  {
    Get(c, "homeAway", JNull) == JStr(side)
  }

  /** The position of the first competitor on `side`, if there is one */
  function FirstOnSide(cps: seq<Json>, side: string): (r: Option<nat>)
    requires forall c :: c in cps ==> c.JObj?
    ensures r.Some? ==> r.value < |cps| && OnSide(cps[r.value], side)
    ensures r.Some? ==> forall j :: 0 <= j < r.value ==> !OnSide(cps[j], side)
    ensures r.None? ==> forall j :: 0 <= j < |cps| ==> !OnSide(cps[j], side)
  {
    if cps == [] then None
    else if OnSide(cps[0], side) then Some(0)
    else match FirstOnSide(cps[1..], side)
      case Some(i) => Some(i + 1)
      case None => None
  }

  /** `next((c for c in cps if c.get('homeAway') == side), {})` */
  function Side(cps: seq<Json>, side: string): (c: Json)
    requires forall c :: c in cps ==> c.JObj? && DictOrAbsent(c, "team")
    ensures c.JObj? && DictOrAbsent(c, "team")
  {
    match FirstOnSide(cps, side)
    case Some(i) => cps[i]
    case None => EmptyObj
  }

  /** `c.get('team', {}).get('displayName', 'Unknown')`, as printed */
  function TeamName(c: Json): string
    requires c.JObj? && DictOrAbsent(c, "team")
  {
    Str(Get(Get(c, "team", EmptyObj), "displayName", UnknownText))
  }

  /** What one printed block shows */
  datatype Game = Game(number: nat, id: string, away: string, home: string, date: string, status: string)

  /** `event.get('id', 'Unknown')`, as printed */
  function IdText(event: Json): string
    requires event.JObj?
  {
    Str(Get(event, "id", UnknownText))
  }

  /** The status description, as printed */
  function StatusText(event: Json): string
    requires EventShaped(event)
  {
    Str(StatusOf(event))
  }

  /** `event.get('date', 'Unknown date')`, reformatted */
  function EventDate(event: Json, parse: string -> Option<string>): string
    requires event.JObj?
  {
    DateText(Get(event, "date", UnknownDate), parse)
  }

  /** The display name of the team on `side` */
  function SideName(event: Json, side: string): string
    requires EventShaped(event) && Qualifies(event)
  {
    TeamName(Side(Competitors(event), side))
  }

  /** The block event number `number` prints, or None when it prints nothing */
  function GameOf(event: Json, number: nat, parse: string -> Option<string>): (g: Option<Game>)
    requires EventShaped(event)
    ensures g.Some? <==> Qualifies(event)
    ensures g.Some? ==> g.value.number == number
  {
    if !Qualifies(event) then None
    else Some(Game(number, IdText(event), SideName(event, "away"), SideName(event, "home"),
                   EventDate(event, parse), StatusText(event)))
  }

  /** A missing `id` prints `Unknown`; a present one prints its value */
  lemma IdDefault(event: Json)
    requires event.JObj?
    ensures !HasKey(event, "id") ==> IdText(event) == "Unknown"
    ensures HasKey(event, "id") ==> exists v :: Field("id", v) in event.fields && IdText(event) == Str(v)
  {
    GetSpec(event, "id", UnknownText);
  }

  /** The status is `Unknown` when any hop of `status.type.description` is missing */
  lemma StatusDefault(event: Json)
    requires EventShaped(event)
    ensures var status := Get(event, "status", EmptyObj);
      var ty := Get(status, "type", EmptyObj);
      (!HasKey(event, "status") || !HasKey(status, "type") || !HasKey(ty, "description"))
        ==> StatusText(event) == "Unknown"
  {
    var status := Get(event, "status", EmptyObj);
    GetSpec(event, "status", EmptyObj);
    GetSpec(status, "type", EmptyObj);
    GetSpec(Get(status, "type", EmptyObj), "description", UnknownText);
  }

  /** A missing date prints `Unknown date`, which no ISO-8601 parser accepts */
  lemma DateDefault(event: Json, parse: string -> Option<string>)
    requires event.JObj?
    requires parse("Unknown date").None?
    ensures !HasKey(event, "date") ==> EventDate(event, parse) == "Unknown date"
  {
    if !HasKey(event, "date") {
      GetSpec(event, "date", UnknownDate);
      UnknownDateKept();
    }
  }

  /** The placeholder date has no `Z` to replace */
  lemma UnknownDateKept()
    ensures UnknownDate.JStr? && ReplaceZ(UnknownDate.s) == UnknownDate.s
  {
    assert 'Z' !in UnknownDate.s;
  }

  /**
   * Home is the first competitor marked home, away the first marked away; a
   * side nobody is on is `Unknown`.
   */
  lemma MatchupSides(event: Json, side: string)
    requires EventShaped(event) && Qualifies(event)
    ensures var cps := Competitors(event);
      && ((forall i :: 0 <= i < |cps| ==> !OnSide(cps[i], side)) ==> SideName(event, side) == "Unknown")
      && (forall i :: 0 <= i < |cps| && OnSide(cps[i], side) && (forall j :: 0 <= j < i ==> !OnSide(cps[j], side))
            ==> SideName(event, side) == TeamName(cps[i]))
  {
    var cps := Competitors(event);
    var r := FirstOnSide(cps, side);
    forall i | 0 <= i < |cps| && OnSide(cps[i], side) && (forall j :: 0 <= j < i ==> !OnSide(cps[j], side))
      ensures r == Some(i)
    {
      assert r.Some?;
      assert r.value >= i;
      assert r.value <= i;
    }
  }

  /** A team name is `Unknown` when the competitor has no team, or the team no display name */
  lemma TeamNameDefault(c: Json)
    requires c.JObj? && DictOrAbsent(c, "team")
    ensures !HasKey(c, "team") || !HasKey(Get(c, "team", EmptyObj), "displayName") ==> TeamName(c) == "Unknown"
  {
    GetSpec(c, "team", EmptyObj);
    GetSpec(Get(c, "team", EmptyObj), "displayName", UnknownText);
  }

  // ------------------------------------------------------- the event loop

  /**
   * What each event prints, by position: event i of
   * `enumerate(events, start)` is number start + i, and prints a block or nothing.
   */
  function Slots(events: seq<Json>, start: nat, parse: string -> Option<string>): seq<Option<Game>>
    requires AllEventsShaped(events)
  {
    seq(|events|, i requires 0 <= i < |events| => GameOf(events[i], start + i, parse))
  }

  function OptionToSeq(g: Option<Game>): seq<Game> {
    if g.Some? then [g.value] else []
  }

  /** The blocks actually printed: those of the slots that hold one, in order */
  function Printed(slots: seq<Option<Game>>): (gs: seq<Game>)
    ensures |gs| <= |slots|
  {
    if slots == [] then [] else OptionToSeq(slots[0]) + Printed(slots[1..])
  }

  /** The blocks the loop prints for `events`, numbering from `start` */
  function Games(events: seq<Json>, start: nat, parse: string -> Option<string>): seq<Game>
    requires AllEventsShaped(events)
  {
    Printed(Slots(events, start, parse))
  }

  /** One more slot adds its own block, or nothing */
  lemma {:induction false} PrintedSnoc(slots: seq<Option<Game>>, x: Option<Game>)
    ensures Printed(slots + [x]) == Printed(slots) + OptionToSeq(x)
  {
    if slots == [] {
      assert slots + [x] == [x];
      assert [x][1..] == [];
    } else {
      assert (slots + [x])[0] == slots[0];
      assert (slots + [x])[1..] == slots[1..] + [x];
      PrintedSnoc(slots[1..], x);
    }
  }

  /** Block numbers rise strictly */
  predicate Ascending(gs: seq<Game>) {
    forall j, k :: 0 <= j < k < |gs| ==> gs[j].number < gs[k].number
  }

  /** Slot i holds, if anything, the block numbered start + i */
  predicate NumberedFrom(slots: seq<Option<Game>>, start: nat) {
    forall i :: 0 <= i < |slots| && slots[i].Some? ==> slots[i].value.number == start + i
  }

  /** Each block comes from the slot its number names, counting slots from `start` */
  predicate FromSlots(gs: seq<Game>, slots: seq<Option<Game>>, start: nat) {
    forall j :: 0 <= j < |gs| ==>
      start <= gs[j].number < start + |slots| && slots[gs[j].number - start] == Some(gs[j])
  }

  /** Every printed block comes from the slot its number names, and the numbers rise strictly */
  lemma {:induction false} PrintedSound(slots: seq<Option<Game>>, start: nat)
    requires NumberedFrom(slots, start)
    ensures FromSlots(Printed(slots), slots, start)
    ensures Ascending(Printed(slots))
  {
    if slots != [] {
      var rest := slots[1..];
      forall i | 0 <= i < |rest| && rest[i].Some?
        ensures rest[i].value.number == start + 1 + i
      {
        assert rest[i] == slots[i + 1];
      }
      PrintedSound(rest, start + 1);
      assert slots == [slots[0]] + rest;
      SoundCons(slots[0], rest, start, Printed(rest));
    }
  }

  /** A slot put in front of others keeps the blocks sound and ascending */
  lemma SoundCons(first: Option<Game>, rest: seq<Option<Game>>, start: nat, tail: seq<Game>)
    requires first.Some? ==> first.value.number == start
    requires FromSlots(tail, rest, start + 1) && Ascending(tail)
    ensures FromSlots(OptionToSeq(first) + tail, [first] + rest, start)
    ensures Ascending(OptionToSeq(first) + tail)
  {
    var head := OptionToSeq(first);
    var gs := head + tail;
    var slots := [first] + rest;
    forall j | 0 <= j < |gs|
      ensures start <= gs[j].number < start + |slots| && slots[gs[j].number - start] == Some(gs[j])
    {
      if j >= |head| {
        assert gs[j] == tail[j - |head|];
        assert slots[gs[j].number - start] == rest[gs[j].number - (start + 1)];
      }
    }
    forall j, k | 0 <= j < k < |gs|
      ensures gs[j].number < gs[k].number
    {
      assert gs[k] == tail[k - |head|];
      if j >= |head| {
        assert gs[j] == tail[j - |head|];
      }
    }
  }

  /** Every slot that holds a block has it printed */
  lemma {:induction false} PrintedComplete(slots: seq<Option<Game>>)
    ensures forall i :: 0 <= i < |slots| && slots[i].Some? ==> slots[i].value in Printed(slots)
  {
    if slots != [] {
      PrintedComplete(slots[1..]);
      assert Printed(slots) == OptionToSeq(slots[0]) + Printed(slots[1..]);
      forall i | 0 <= i < |slots| && slots[i].Some?
        ensures slots[i].value in Printed(slots)
      {
        if i > 0 {
          assert slots[i] == slots[1..][i - 1];
        }
      }
    }
  }

  /**
   * Every block comes from the event at the position its number names, and
   * that event shows a matchup; the numbers rise strictly, so blocks appear in
   * response order, and an event that prints nothing still uses up its number.
   */
  lemma GamesSound(events: seq<Json>, start: nat, parse: string -> Option<string>)
    requires AllEventsShaped(events)
    ensures FromEvents(Games(events, start, parse), events, start, parse)
  {
    var slots := Slots(events, start, parse);
    assert NumberedFrom(slots, start);
    PrintedSound(slots, start);
    var gs := Printed(slots);
    forall j | 0 <= j < |gs|
      ensures start <= gs[j].number < start + |events|
      ensures GameOf(events[gs[j].number - start], gs[j].number, parse) == Some(gs[j])
      ensures Qualifies(events[gs[j].number - start])
    {
      BlockFromEvent(events, start, parse, slots, gs, j);
    }
    assert FromEvents(gs, events, start, parse);
  }

  /** A block held by the slot its number names is the block of that event */
  lemma BlockFromEvent(events: seq<Json>, start: nat, parse: string -> Option<string>,
                       slots: seq<Option<Game>>, gs: seq<Game>, j: nat)
    requires AllEventsShaped(events) && slots == Slots(events, start, parse)
    requires FromSlots(gs, slots, start) && j < |gs|
    ensures start <= gs[j].number < start + |events|
    ensures GameOf(events[gs[j].number - start], gs[j].number, parse) == Some(gs[j])
    ensures Qualifies(events[gs[j].number - start])
  {
    var i := gs[j].number - start;
    assert slots[i] == Some(gs[j]);
    assert slots[i] == GameOf(events[i], start + i, parse);
  }

  /** The blocks appear in response order: their numbers rise strictly */
  lemma GamesAscending(events: seq<Json>, start: nat, parse: string -> Option<string>)
    requires AllEventsShaped(events)
    ensures Ascending(Games(events, start, parse))
  {
    var slots := Slots(events, start, parse);
    assert NumberedFrom(slots, start);
    PrintedSound(slots, start);
  }

  /**
   * Each block comes from the event at the position its number names,
   * counting from `start`, and that event shows a matchup.
   */
  predicate FromEvents(gs: seq<Game>, events: seq<Json>, start: nat, parse: string -> Option<string>)
    requires AllEventsShaped(events)
  {
    forall j :: 0 <= j < |gs| ==>
      && start <= gs[j].number < start + |events|
      && GameOf(events[gs[j].number - start], gs[j].number, parse) == Some(gs[j])
      && Qualifies(events[gs[j].number - start])
  }

  /** Every event that shows a matchup has its block, numbered by its position */
  lemma GamesComplete(events: seq<Json>, start: nat, parse: string -> Option<string>)
    requires AllEventsShaped(events)
    ensures var gs := Games(events, start, parse);
      forall i :: 0 <= i < |events| && Qualifies(events[i]) ==>
        exists j :: 0 <= j < |gs| && gs[j].number == start + i
  {
    var slots := Slots(events, start, parse);
    var gs := Games(events, start, parse);
    PrintedComplete(slots);
    forall i | 0 <= i < |events| && Qualifies(events[i])
      ensures exists j :: 0 <= j < |gs| && gs[j].number == start + i
    {
      var j :| 0 <= j < |gs| && gs[j] == slots[i].value;
    }
  }

  // ------------------------------------------------------------- rendering

  /** The six lines of one block */
  function GameLines(g: Game): (lines: seq<string>) {
    [ "Game " + NatToDecimal(g.number) + ":",
      "  ID: " + g.id,
      "  Matchup: " + g.away + " @ " + g.home,
      "  Date: " + g.date,
      "  Status: " + g.status,
      "" ]
  }

  function GamesLines(gs: seq<Game>): (lines: seq<string>)
    ensures |lines| == 6 * |gs|
  {
    if gs == [] then [] else GameLines(gs[0]) + GamesLines(gs[1..])
  }

  lemma OneGameLines(g: Game)
    ensures GamesLines([g]) == GameLines(g)
  {
    assert [g][1..] == [];
  }

  lemma {:induction false} GamesLinesAppend(a: seq<Game>, b: seq<Game>)
    ensures GamesLines(a + b) == GamesLines(a) + GamesLines(b)
  {
    if a != [] {
      assert (a + b)[1..] == a[1..] + b;
      GamesLinesAppend(a[1..], b);
    } else {
      assert a + b == b;
    }
  }

  /** Block j occupies lines 6j to 6j+5 */
  lemma {:induction false} GamesLinesBlock(gs: seq<Game>, j: nat)
    requires j < |gs|
    ensures GamesLines(gs)[6 * j .. 6 * j + 6] == GameLines(gs[j])
  {
    if j > 0 {
      GamesLinesBlock(gs[1..], j - 1);
      assert GamesLines(gs)[6 * j .. 6 * j + 6] == GamesLines(gs[1..])[6 * (j - 1) .. 6 * (j - 1) + 6];
    }
  }

  /** No printed block line begins like the notice: each is empty or begins with `G` or a space */
  lemma {:induction false} GamesLinesShape(gs: seq<Game>)
    ensures forall l :: l in GamesLines(gs) ==> l == "" || l[0] == 'G' || l[0] == ' '
  {
    if gs != [] {
      GamesLinesShape(gs[1..]);
      assert GamesLines(gs) == GameLines(gs[0]) + GamesLines(gs[1..]);
    }
  }

  /** The banner: the season year and the week number, each `Unknown` when missing */
  function Banner(season: Json, week: Json): seq<string>
    requires season.JObj? && week.JObj?
  {
    [ Rule,
      ScheduleTitle,
      "   Season: " + Str(Get(season, "year", UnknownText)),
      "   Week: " + Str(Get(week, "number", UnknownText)),
      Rule,
      "" ]
  }

  // ------------------------------------------------------ the whole summary

  /** Everything `print_game_summary(data)` prints */
  function SummaryLines(data: Json, parse: string -> Option<string>): seq<string>
    requires SummaryShaped(data)
  {
    if NoEvents(data) then [NoGamesNotice]
    else
      var events := Get(data, "events", EmptyArr);
      Banner(Get(data, "season", EmptyObj), Get(data, "week", EmptyObj)) + EventsLines(events, parse)
  }

  /** What follows the banner: the notice for an empty week, or one block per game shown */
  function EventsLines(events: Json, parse: string -> Option<string>): seq<string>
    requires Truthy(events) ==> events.JArr? && AllEventsShaped(events.items)
  {
    if !Truthy(events) then [NoGamesThisWeek] else GamesLines(Games(events.items, 1, parse))
  }

  lemma EventsLinesNotNotice(events: Json, parse: string -> Option<string>)
    requires Truthy(events) ==> events.JArr? && AllEventsShaped(events.items)
    ensures forall l :: l in EventsLines(events, parse) ==> NotNotice(l)
  {
    if Truthy(events) {
      GamesLinesShape(Games(events.items, 1, parse));
    } else {
      assert NoGamesThisWeek[0] == 'N';
    }
  }

  /** A line that cannot be the notice: it is empty or does not begin with the warning sign */
  predicate NotNotice(line: string) {
    line == "" || line[0] != '\U{26A0}'
  }

  lemma BannerNotNotice(season: Json, week: Json)
    requires season.JObj? && week.JObj?
    ensures forall l :: l in Banner(season, week) ==> NotNotice(l)
  {
    var yearLine := "   Season: " + Str(Get(season, "year", UnknownText));
    var weekLine := "   Week: " + Str(Get(week, "number", UnknownText));
    assert yearLine[0] == ' ' && weekLine[0] == ' ';
    assert Rule[0] == '=';
    assert ScheduleTitle[0] == '\U{1F4C5}';
    assert Banner(season, week) == [Rule, ScheduleTitle, yearLine, weekLine, Rule, ""];
  }

  lemma NoticeAbsent(banner: seq<string>, rest: seq<string>)
    requires forall l :: l in banner ==> NotNotice(l)
    requires forall l :: l in rest ==> NotNotice(l)
    ensures NoGamesNotice !in banner + rest
  {
    assert !NotNotice(NoGamesNotice);
    assert forall l :: l in banner + rest ==> l in banner || l in rest;
  }

  /**
   * The notice is printed exactly when the response is falsy or has no
   * `events` in it, and then it is the only line.
   */
  lemma NoGamesNoticeIff(data: Json, parse: string -> Option<string>)
    requires SummaryShaped(data)
    ensures var lines := SummaryLines(data, parse);
      NoGamesNotice in lines <==> NoEvents(data)
    ensures NoEvents(data) ==> SummaryLines(data, parse) == [NoGamesNotice]
  {
    if !NoEvents(data) {
      var events := Get(data, "events", EmptyArr);
      var banner := Banner(Get(data, "season", EmptyObj), Get(data, "week", EmptyObj));
      BannerNotNotice(Get(data, "season", EmptyObj), Get(data, "week", EmptyObj));
      EventsLinesNotNotice(events, parse);
      NoticeAbsent(banner, EventsLines(events, parse));
    }
  }

  /** A response that is not a dict, such as a list or a str, never gets past the notice */
  lemma NonDictNotice(data: Json, parse: string -> Option<string>)
    requires SummaryShaped(data) && !data.JObj?
    ensures SummaryLines(data, parse) == [NoGamesNotice]
  {
  }

  /** The banner shows the season's `year` and the week's `number`, each `Unknown` when missing */
  lemma BannerFields(season: Json, week: Json)
    requires season.JObj? && week.JObj?
    ensures var lines := Banner(season, week);
      && |lines| == 6 && lines[0] == lines[4] == Rule && lines[1] == ScheduleTitle && lines[5] == ""
      && (!HasKey(season, "year") ==> lines[2] == "   Season: Unknown")
      && (HasKey(season, "year") ==>
            exists v :: Field("year", v) in season.fields && lines[2] == "   Season: " + Str(v))
      && (!HasKey(week, "number") ==> lines[3] == "   Week: Unknown")
      && (HasKey(week, "number") ==>
            exists v :: Field("number", v) in week.fields && lines[3] == "   Week: " + Str(v))
  {
    GetSpec(season, "year", UnknownText);
    GetSpec(week, "number", UnknownText);
  }

  /** An empty `events` list prints the banner and the one-line notice for the week, and nothing more */
  lemma EmptyWeek(data: Json, parse: string -> Option<string>)
    requires SummaryShaped(data)
    requires !NoEvents(data) && !Truthy(Get(data, "events", EmptyArr))
    ensures SummaryLines(data, parse)
      == Banner(Get(data, "season", EmptyObj), Get(data, "week", EmptyObj)) + [NoGamesThisWeek]
  {
  }

  /**
   * With a non-empty `events` list, after the six banner lines block j is
   * the j-th block the loop prints.
   */
  lemma SummaryBlocks(data: Json, parse: string -> Option<string>, j: nat)
    requires SummaryShaped(data)
    requires !NoEvents(data) && Truthy(Get(data, "events", EmptyArr))
    requires j < |Games(Get(data, "events", EmptyArr).items, 1, parse)|
    ensures var gs := Games(Get(data, "events", EmptyArr).items, 1, parse);
      && |SummaryLines(data, parse)| == 6 + 6 * |gs|
      && SummaryLines(data, parse)[6 + 6 * j .. 12 + 6 * j] == GameLines(gs[j])
  {
    var events := Get(data, "events", EmptyArr);
    var gs := Games(events.items, 1, parse);
    var banner := Banner(Get(data, "season", EmptyObj), Get(data, "week", EmptyObj));
    GamesLinesBlock(gs, j);
    assert SummaryLines(data, parse) == banner + GamesLines(gs);
    SliceAfter(banner, GamesLines(gs), 6 * j, 6 * j + 6);
  }

  /** A slice of the part after a prefix, located in the whole */
  lemma SliceAfter(prefix: seq<string>, rest: seq<string>, lo: nat, hi: nat)
    requires lo <= hi <= |rest|
    ensures (prefix + rest)[|prefix| + lo .. |prefix| + hi] == rest[lo..hi]
  {
  }

  /** One turn of the event loop extends the printed lines by the block of slot i, if any */
  lemma PrintedStep(slots: seq<Option<Game>>, i: nat, before: seq<string>, after: seq<string>)
    requires i < |slots|
    requires before == GamesLines(Printed(slots[..i]))
    requires after == before + GamesLines(OptionToSeq(slots[i]))
    ensures after == GamesLines(Printed(slots[..i + 1]))
  {
    assert slots[..i + 1] == slots[..i] + [slots[i]];
    PrintedSnoc(slots[..i], slots[i]);
    GamesLinesAppend(Printed(slots[..i]), OptionToSeq(slots[i]));
  }

  // ------------------------------------------------------------ the source

  /**
   * One turn of the event loop: the six lines of the block of event number
   * `idx` when it shows a matchup, nothing otherwise.
   */
  method PrintEvent(event: Json, idx: nat, parse: string -> Option<string>) returns (out: seq<string>)
    requires EventShaped(event)
    ensures out == GamesLines(OptionToSeq(GameOf(event, idx, parse)))
  {
    out := [];
    var gameId := IdText(event);
    var formattedDate := EventDate(event, parse);
    var status := StatusText(event);
    var competitions := Get(event, "competitions", EmptyArr);
    if Truthy(competitions) {
      var competitors := Get(competitions.items[0], "competitors", EmptyArr);
      if Len(competitors).value >= 2 {
        assert Qualifies(event) && competitors.items == Competitors(event);
        var homeName := TeamName(Side(competitors.items, "home"));
        var awayName := TeamName(Side(competitors.items, "away"));
        out := out + ["Game " + NatToDecimal(idx) + ":"];
        out := out + ["  ID: " + gameId];
        out := out + ["  Matchup: " + awayName + " @ " + homeName];
        out := out + ["  Date: " + formattedDate];
        out := out + ["  Status: " + status];
        out := out + [""];
        OneGameLines(Game(idx, gameId, awayName, homeName, formattedDate, status));
      }
    }
  }

  /** The `for idx, event in enumerate(events, 1)` loop: the blocks of the events that show a matchup */
  method PrintEvents(items: seq<Json>, parse: string -> Option<string>) returns (out: seq<string>)
    requires AllEventsShaped(items)
    ensures out == GamesLines(Games(items, 1, parse))
  {
    out := [];
    ghost var slots := Slots(items, 1, parse);
    for i := 0 to |items|
      invariant out == GamesLines(Printed(slots[..i]))
    {
      ghost var before := out;
      var block := PrintEvent(items[i], i + 1, parse);
      out := out + block;
      assert slots[i] == GameOf(items[i], i + 1, parse);
      PrintedStep(slots, i, before, out);
    }
    assert slots[..|items|] == slots;
  }

  /** `print_game_summary`, appending each printed line to `out` */
  method PrintGameSummary(data: Json, parse: string -> Option<string>) returns (out: seq<string>)
    requires SummaryShaped(data)
    ensures out == SummaryLines(data, parse)
  {
    if !Truthy(data) || !Contains(data, "events") {
      out := [NoGamesNotice];
      return;
    }
    var events := Get(data, "events", EmptyArr);
    var season := Get(data, "season", EmptyObj);
    var week := Get(data, "week", EmptyObj);
    out := Banner(season, week);
    if !Truthy(events) {
      out := out + [NoGamesThisWeek];
      return;
    }
    var blocks := PrintEvents(events.items, parse);
    out := out + blocks;
  }
}
