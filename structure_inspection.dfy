/**
 * `inspect_data_structure(data)`: the top-level keys of a scoreboard
 * response, then the keys of the first event, of its first competition, of
 * that competition's first competitor and of the competitor's team, each level
 * printed only when the one before it was reached and holds the next.
 */
module StructureInspection {
  import opened Wrappers
  import opened PyJson
  import opened PyText

  /** The four levels below the response, in the order the inspection descends */
  const LevelCount: nat := 4

  /** The key that leads from level `depth` to the next one */
  function LevelKey(depth: nat): string
    requires depth < LevelCount
  {
    ["events", "competitions", "competitors", "team"][depth]
  }

  /** How the keys of the value reached at level `depth` are introduced */
  function LevelLabel(depth: nat): string
    requires depth < LevelCount
  {
    ["  Event keys: ", "  Competition keys: ", "  Competitor keys: ", "  Team keys: "][depth]
  }

  const InspectionTitle: string := "\U{1F50D} DATA STRUCTURE INSPECTION"
  const TopKeysHeading: string := "Top-level keys available:"
  const SampleHeading: string := "Sample event structure (first game):"

  /**
   * The first three keys hold lists whose first element the inspection takes
   * (`x[0]` on a non-empty list); a truthy value of another type there would
   * make the script fail.
   */
  predicate ListOk(v: Json, depth: nat)
    requires v.JObj? && depth < LevelCount
  {
    var key := LevelKey(depth);
    depth == 3 || !HasKey(v, key) || !Truthy(Get(v, key, JNull)) || Get(v, key, JNull).JArr?
  }

  /**
   * The value the inspection moves on to from `v` at level `depth`: for the
   * three lists, the first element of a present and non-empty list; for the
   * team, the value of a present key, whatever it is.
   */
  function Down(v: Json, depth: nat): (r: Option<Json>)
    requires v.JObj? && depth < LevelCount && ListOk(v, depth)
    ensures r.Some? ==> HasKey(v, LevelKey(depth))
  {
    var key := LevelKey(depth);
    var x := Get(v, key, JNull);
    if !HasKey(v, key) then None
    else if depth == 3 then Some(x)
    else if Truthy(x) then Some(x.items[0])
    else None
  }

  /** Every value the inspection reaches is a dict, so that `keys()` applies to it, with each key once */
  predicate InspectShaped(v: Json, depth: nat)
    requires depth <= LevelCount
    decreases LevelCount - depth
  {
    && v.JObj?
    && DistinctKeys(v.fields)
    && (depth < LevelCount ==>
          && ListOk(v, depth)
          && (Down(v, depth).Some? ==> InspectShaped(Down(v, depth).value, depth + 1)))
  }

  /** The values reached from `v` at level `depth`: `v` itself, then one per level descended */
  function Chain(v: Json, depth: nat): (c: seq<Json>)
    requires depth <= LevelCount && InspectShaped(v, depth)
    ensures 1 <= |c| <= LevelCount + 1 - depth
    ensures c[0] == v
    decreases LevelCount - depth
  {
    if depth == LevelCount then [v]
    else match Down(v, depth)
      case None => [v]
      case Some(w) => [v] + Chain(w, depth + 1)
  }

  /** `print(f"  - {key}")` for each key */
  function Bullets(keys: seq<string>): (lines: seq<string>)
    ensures |lines| == |keys|
    ensures forall j :: 0 <= j < |keys| ==> lines[j] == "  - " + keys[j]
  {
    if keys == [] then [] else Bullets(keys[..|keys| - 1]) + ["  - " + keys[|keys| - 1]]
  }

  /** One turn of the key loop adds the bullet of the next key */
  lemma BulletsStep(top: seq<string>, keys: seq<string>, j: nat, before: seq<string>, after: seq<string>)
    requires j < |keys|
    requires before == top + Bullets(keys[..j])
    requires after == before + ["  - " + keys[j]]
    ensures after == top + Bullets(keys[..j + 1])
  {
    assert keys[..j + 1][..j] == keys[..j];
  }

  /**
   * The key lists printed from level `depth` on, for the value `v` reached
   * there: the label and keys of the value the level leads to, an empty line,
   * then what the next level prints.
   */
  function LevelLines(v: Json, depth: nat): seq<string>
    requires depth <= LevelCount && InspectShaped(v, depth)
    decreases LevelCount - depth
  {
    if depth == LevelCount then []
    else match Down(v, depth)
      case None => []
      case Some(w) => [LevelLabel(depth) + KeyListing(Keys(w.fields)), ""] + LevelLines(w, depth + 1)
  }

  /** Everything printed about the sample event: a heading, then the key lists, when there is an event */
  function SampleLines(data: Json): seq<string>
    requires InspectShaped(data, 0)
  {
    if Down(data, 0).Some? then [SampleHeading] + LevelLines(data, 0) else []
  }

  /** The heading lines and the top-level key list */
  function HeaderLines(data: Json): seq<string>
    requires data.JObj?
  {
    [Rule, InspectionTitle, Rule, "", TopKeysHeading]
    + Bullets(Keys(data.fields)) + [""]
  }

  /** Everything `inspect_data_structure(data)` prints */
  function InspectLines(data: Json): seq<string>
    requires InspectShaped(data, 0)
  {
    HeaderLines(data) + SampleLines(data)
  }

  // ------------------------------------------------------------- properties

  /** Position i of the chain `c`, which starts at level `depth`, leads on to position i + 1 */
  predicate Linked(c: seq<Json>, depth: nat, i: nat)
    requires i + 1 < |c|
  {
    && depth + i < LevelCount
    && InspectShaped(c[i], depth + i)
    && ListOk(c[i], depth + i)
    && Down(c[i], depth + i) == Some(c[i + 1])
  }

  /** The last position of the chain `c`, which starts at level `depth`, is the team or leads nowhere */
  predicate Ends(c: seq<Json>, depth: nat)
    requires |c| >= 1
  {
    var i := |c| - 1;
    depth + i < LevelCount ==> InspectShaped(c[i], depth + i) && ListOk(c[i], depth + i) && Down(c[i], depth + i).None?
  }

  /** Every position of the chain `c`, which starts at level `depth`, leads on to the next */
  predicate AllLinked(c: seq<Json>, depth: nat)
  {
    forall i :: 0 <= i < |c| - 1 ==> Linked(c, depth, i)
  }

  /**
   * The levels form a chain: each value reached is the one the previous level
   * leads to, and the descent stops only at the team or where a level does not
   * lead on.
   */
  lemma {:induction false} ChainIsPrefix(v: Json, depth: nat)
    requires depth <= LevelCount && InspectShaped(v, depth)
    ensures var c := Chain(v, depth);
      AllLinked(c, depth) && Ends(c, depth)
    decreases LevelCount - depth
  {
    if depth < LevelCount && Down(v, depth).Some? {
      var w := Down(v, depth).value;
      ChainIsPrefix(w, depth + 1);
      var tail := Chain(w, depth + 1);
      ChainStep(v, depth);
      AllLinkedShift(v, tail, depth);
      EndsShift(v, tail, depth);
    }
  }

  /** A level that leads on puts the value it leads to right after `v`, linked to it */
  lemma ChainStep(v: Json, depth: nat)
    requires depth < LevelCount && InspectShaped(v, depth) && Down(v, depth).Some?
    ensures var w := Down(v, depth).value;
      && InspectShaped(w, depth + 1)
      && Chain(v, depth) == [v] + Chain(w, depth + 1)
      && Linked([v] + Chain(w, depth + 1), depth, 0)
  {
  }

  /** Prepending the value a chain came from, linked to its first value, keeps every position linked */
  lemma AllLinkedShift(v: Json, tail: seq<Json>, depth: nat)
    requires |tail| >= 1 && AllLinked(tail, depth + 1) && Linked([v] + tail, depth, 0)
    ensures AllLinked([v] + tail, depth)
  {
    var c := [v] + tail;
    forall i | 1 <= i < |c| - 1
      ensures Linked(c, depth, i)
    {
      LinkedShift(v, tail, depth, i);
    }
  }

  /** Prepending the value a chain came from shifts its links by one position */
  lemma LinkedShift(v: Json, tail: seq<Json>, depth: nat, i: nat)
    requires 1 <= i < |tail| && Linked(tail, depth + 1, i - 1)
    ensures Linked([v] + tail, depth, i)
  {
    var c := [v] + tail;
    assert c[i] == tail[i - 1] && c[i + 1] == tail[i];
  }

  lemma EndsShift(v: Json, tail: seq<Json>, depth: nat)
    requires |tail| >= 1 && Ends(tail, depth + 1)
    ensures Ends([v] + tail, depth)
  {
    var c := [v] + tail;
    assert c[|c| - 1] == tail[|tail| - 1];
  }

  /**
   * Counting two lines per level, the j-th pair is the label of level
   * `depth + j - 1` with the keys of `c[j]`, then an empty line.
   */
  predicate KeysShownAt(lines: seq<string>, c: seq<Json>, depth: nat, j: nat)
    requires 1 <= j < |c|
  {
    var at := 2 * (j - 1);
    && 0 <= at && at + 1 < |lines|
    && c[j].JObj? && 1 <= depth + j <= LevelCount
    && lines[at] == LevelLabel(depth + j - 1) + KeyListing(Keys(c[j].fields))
    && lines[at + 1] == ""
  }

  /** `lines` are, for each value of the chain `c` after the first, its label with its key list and an empty line */
  predicate Follows(c: seq<Json>, lines: seq<string>, depth: nat)
    requires |c| >= 1
  {
    && |lines| == 2 * (|c| - 1)
    && (forall j :: 1 <= j < |c| ==> KeysShownAt(lines, c, depth, j))
  }

  /**
   * The key lists printed from level `depth` on follow the chain of values
   * the inspection reaches from there.
   */
  lemma {:induction false} LevelLinesFollowChain(v: Json, depth: nat)
    requires depth <= LevelCount && InspectShaped(v, depth)
    ensures Follows(Chain(v, depth), LevelLines(v, depth), depth)
    decreases LevelCount - depth
  {
    if depth < LevelCount && Down(v, depth).Some? {
      var w := Down(v, depth).value;
      LevelLinesFollowChain(w, depth + 1);
      var head := [LevelLabel(depth) + KeyListing(Keys(w.fields)), ""];
      assert LevelLines(v, depth) == head + LevelLines(w, depth + 1);
      assert Chain(v, depth) == [v] + Chain(w, depth + 1);
      FollowsStep(v, w, Chain(w, depth + 1), head, LevelLines(w, depth + 1), depth);
    } else {
      assert Chain(v, depth) == [v];
      assert LevelLines(v, depth) == [];
    }
  }

  /** A level that leads on prints its own two lines, then those that follow the rest of the chain */
  lemma FollowsStep(v: Json, w: Json, tail: seq<Json>, head: seq<string>, rest: seq<string>, depth: nat)
    requires depth < LevelCount && w.JObj? && |tail| >= 1 && tail[0] == w
    requires head == [LevelLabel(depth) + KeyListing(Keys(w.fields)), ""]
    requires Follows(tail, rest, depth + 1)
    ensures Follows([v] + tail, head + rest, depth)
  {
    var c := [v] + tail;
    var lines := head + rest;
    assert KeysShownAt(lines, c, depth, 1);
    forall j | 2 <= j < |c|
      ensures KeysShownAt(lines, c, depth, j)
    {
      KeysShownShift(head, rest, v, tail, depth, j);
    }
  }

  /** Lines about a chain's tail keep their meaning behind the two lines about its head */
  lemma KeysShownShift(head: seq<string>, rest: seq<string>, v: Json, tail: seq<Json>, depth: nat, j: nat)
    requires 2 <= j <= |tail| && |head| == 2
    requires KeysShownAt(rest, tail, depth + 1, j - 1)
    ensures KeysShownAt(head + rest, [v] + tail, depth, j)
  {
    var lines, c := head + rest, [v] + tail;
    assert c[j] == tail[j - 1];
    assert lines[2 * (j - 1)] == rest[2 * (j - 2)];
    assert lines[2 * (j - 1) + 1] == rest[2 * (j - 2) + 1];
  }

  /** The top-level keys are listed one per line, in the dict's order, after the heading */
  lemma TopKeysListed(data: Json)
    requires InspectShaped(data, 0)
    ensures var keys := Keys(data.fields);
      var lines := HeaderLines(data);
      && |lines| == 6 + |keys|
      && lines[4] == TopKeysHeading
      && (forall j :: 0 <= j < |keys| ==> lines[5 + j] == "  - " + keys[j])
      && lines[5 + |keys|] == ""
  {
    BulletsListed([Rule, InspectionTitle, Rule, "", TopKeysHeading], Keys(data.fields), [""]);
  }

  /** The bullets sit right after the lines before them, one per key and in order */
  lemma BulletsListed(top: seq<string>, keys: seq<string>, rest: seq<string>)
    ensures var lines := top + Bullets(keys) + rest;
      && |lines| == |top| + |keys| + |rest|
      && (forall j :: 0 <= j < |keys| ==> lines[|top| + j] == "  - " + keys[j])
      && (forall j :: 0 <= j < |rest| ==> lines[|top| + |keys| + j] == rest[j])
  {
    var bullets := Bullets(keys);
    var lines := top + bullets + rest;
    forall j | 0 <= j < |keys|
      ensures lines[|top| + j] == "  - " + keys[j]
    {
      assert lines[|top| + j] == bullets[j];
    }
  }

  /**
   * A level is printed exactly when every level before it led on: a response
   * without a non-empty `events` list prints only the heading and its keys,
   * and the team's keys appear only below an event, a competition and a competitor.
   */
  lemma LevelsPrinted(data: Json)
    requires InspectShaped(data, 0)
    ensures var lines := InspectLines(data);
      var header := HeaderLines(data);
      && lines[..|header|] == header
      && (lines == header <==> Down(data, 0).None?)
      && (Down(data, 0).Some? ==>
            && lines[|header|] == SampleHeading
            && Follows(Chain(data, 0), lines[|header| + 1..], 0))
  {
    LevelLinesFollowChain(data, 0);
    var lines := InspectLines(data);
    var header := HeaderLines(data);
    assert lines[..|header|] == header;
    if Down(data, 0).Some? {
      assert lines[|header| + 1..] == LevelLines(data, 0);
    }
  }

  /** One step of LevelLines, with the value moved on to spelled out */
  lemma LevelUnfold(v: Json, depth: nat)
    requires depth < LevelCount && InspectShaped(v, depth)
    ensures var key := LevelKey(depth);
      var x := Get(v, key, JNull);
      && (!HasKey(v, key) || (depth < 3 && !Truthy(x)) ==> LevelLines(v, depth) == [])
      && (HasKey(v, key) && depth == 3 ==>
            x.JObj? && LevelLines(v, depth) == [LevelLabel(depth) + KeyListing(Keys(x.fields)), ""])
      && (HasKey(v, key) && depth < 3 && Truthy(x) ==>
            x.JArr? && x.items[0].JObj? && InspectShaped(x.items[0], depth + 1)
            && LevelLines(v, depth)
                 == [LevelLabel(depth) + KeyListing(Keys(x.items[0].fields)), ""] + LevelLines(x.items[0], depth + 1))
  {
    if depth == 3 && HasKey(v, LevelKey(depth)) {
      var x := Get(v, LevelKey(depth), JNull);
      assert Down(v, depth) == Some(x);
      assert LevelLines(x, 4) == [];
    }
  }

  /** The sample part: nothing without a first event, otherwise its heading, the event's keys and the levels below */
  lemma SampleUnfold(data: Json)
    requires InspectShaped(data, 0)
    ensures var events := Get(data, "events", JNull);
      && (!(HasKey(data, "events") && Truthy(events)) ==> SampleLines(data) == [])
      && (HasKey(data, "events") && Truthy(events) ==>
            && events.JArr? && events.items[0].JObj? && InspectShaped(events.items[0], 1)
            && SampleLines(data)
                 == [SampleHeading, LevelLabel(0) + KeyListing(Keys(events.items[0].fields)), ""]
                    + LevelLines(events.items[0], 1))
  {
    LevelUnfold(data, 0);
    var events := Get(data, "events", JNull);
    if HasKey(data, "events") && Truthy(events) {
      assert Down(data, 0) == Some(events.items[0]);
    }
  }

  // ------------------------------------------------------------ the source

  /*
   * The nested `if`s of `inspect_data_structure` below the top-level keys, one
   * method per level: each prints the keys of the value its level leads to and
   * hands that value to the next level.
   */

  /** `if 'events' in data and data['events']:` and what it prints */
  method PrintSample(data: Json) returns (out: seq<string>)
    requires InspectShaped(data, 0)
    ensures out == SampleLines(data)
  {
    out := [];
    SampleUnfold(data);
    var events := Get(data, "events", JNull);
    if HasKey(data, "events") && Truthy(events) {
      out := out + [SampleHeading];
      var event := events.items[0];
      out := out + [LevelLabel(0) + KeyListing(Keys(event.fields))];
      out := out + [""];
      var below := PrintCompetition(event);
      out := out + below;
    }
  }

  /** `if 'competitions' in event and event['competitions']:` and what it prints */
  method PrintCompetition(event: Json) returns (out: seq<string>)
    requires InspectShaped(event, 1)
    ensures out == LevelLines(event, 1)
  {
    out := [];
    LevelUnfold(event, 1);
    var competitions := Get(event, "competitions", JNull);
    if HasKey(event, "competitions") && Truthy(competitions) {
      var comp := competitions.items[0];
      out := out + [LevelLabel(1) + KeyListing(Keys(comp.fields))];
      out := out + [""];
      var below := PrintCompetitor(comp);
      out := out + below;
    }
  }

  /** `if 'competitors' in comp and comp['competitors']:` and what it prints */
  method PrintCompetitor(comp: Json) returns (out: seq<string>)
    requires InspectShaped(comp, 2)
    ensures out == LevelLines(comp, 2)
  {
    out := [];
    LevelUnfold(comp, 2);
    var competitors := Get(comp, "competitors", JNull);
    if HasKey(comp, "competitors") && Truthy(competitors) {
      var competitor := competitors.items[0];
      out := out + [LevelLabel(2) + KeyListing(Keys(competitor.fields))];
      out := out + [""];
      var below := PrintTeam(competitor);
      out := out + below;
    }
  }

  /** `if 'team' in competitor:` and what it prints */
  method PrintTeam(competitor: Json) returns (out: seq<string>)
    requires InspectShaped(competitor, 3)
    ensures out == LevelLines(competitor, 3)
  {
    out := [];
    LevelUnfold(competitor, 3);
    if HasKey(competitor, "team") {
      var team := Get(competitor, "team", JNull);
      out := out + [LevelLabel(3) + KeyListing(Keys(team.fields))];
      out := out + [""];
    }
  }

  /** `inspect_data_structure`, appending each printed line to `out` */
  method InspectDataStructure(data: Json) returns (out: seq<string>)
    requires InspectShaped(data, 0)
    ensures out == InspectLines(data)
  {
    out := [Rule, InspectionTitle, Rule, ""];
    out := out + [TopKeysHeading];
    out := PrintKeys(out, Keys(data.fields));
    out := out + [""];
    var sample := PrintSample(data);
    out := out + sample;
  }

  /** The loop over the top-level keys: one bullet per key, after what was printed before */
  method PrintKeys(top: seq<string>, keys: seq<string>) returns (out: seq<string>)
    ensures out == top + Bullets(keys)
  {
    out := top;
    for j := 0 to |keys|
      invariant out == top + Bullets(keys[..j])
    {
      ghost var before := out;
      out := out + ["  - " + keys[j]];
      BulletsStep(top, keys, j, before, out);
    }
    assert keys[..|keys|] == keys;
  }
}
