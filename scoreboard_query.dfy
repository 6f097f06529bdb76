/**
 * The query-string parameters `fetch_nfl_scoreboard` sends with its one GET
 * request. The request itself, its timeout and its error handling are not part
 * of this model; only the parameter dict the function builds is.
 */
module ScoreboardQuery {
  import opened Wrappers

  /** One entry of the parameter dict */
  datatype Param = Param(name: string, value: int)

  /** Page size asked for, large enough for every game of a week */
  const PageLimit: int := 100
  /** The endpoint's code for the regular season (3 would be the playoffs) */
  const RegularSeason: int := 2

  function Names(params: seq<Param>): (ns: seq<string>)
    ensures |ns| == |params|
  {
    if params == [] then [] else [params[0].name] + Names(params[1..])
  }

  /** `params.get(name)` */
  function ValueOf(params: seq<Param>, name: string): (r: Option<int>)
    ensures r.None? <==> name !in Names(params)
    ensures r.Some? ==> Param(name, r.value) in params
  {
    if params == [] then None
    else if params[0].name == name then Some(params[0].value)
    else ValueOf(params[1..], name)
  }

  /** A dict holds each key once */
  predicate DistinctNames(params: seq<Param>) {
    params == [] || (params[0].name !in Names(params[1..]) && DistinctNames(params[1..]))
  }

  /**
   * `params[name] = value` on a dict: an existing entry keeps its place and
   * takes the new value, a new name is added at the end.
   */
  function Assign(params: seq<Param>, name: string, value: int): (r: seq<Param>)
    ensures |r| == if name in Names(params) then |params| else |params| + 1
  {
    if params == [] then [Param(name, value)]
    else if params[0].name == name then [Param(name, value)] + params[1..]
    else [params[0]] + Assign(params[1..], name, value)
  }

  /** The keys keep their order; a new key comes last */
  lemma {:induction false} AssignNames(params: seq<Param>, name: string, value: int)
    ensures Names(Assign(params, name, value))
      == if name in Names(params) then Names(params) else Names(params) + [name]
  {
    if params != [] && params[0].name != name {
      AssignNames(params[1..], name, value);
      assert Names(params) == [params[0].name] + Names(params[1..]);
    }
  }

  /** After the assignment the dict maps `name` to `value` */
  lemma {:induction false} AssignValue(params: seq<Param>, name: string, value: int)
    ensures ValueOf(Assign(params, name, value), name) == Some(value)
  {
    if params != [] && params[0].name != name {
      AssignValue(params[1..], name, value);
    }
  }

  /** The assignment leaves the value of every other name as it was */
  lemma {:induction false} AssignOther(params: seq<Param>, name: string, value: int, other: string)
    requires other != name
    ensures ValueOf(Assign(params, name, value), other) == ValueOf(params, other)
  {
    if params != [] && params[0].name != name {
      AssignOther(params[1..], name, value, other);
    }
  }

  /** The assignment keeps each key once */
  lemma {:induction false} AssignDistinct(params: seq<Param>, name: string, value: int)
    requires DistinctNames(params)
    ensures DistinctNames(Assign(params, name, value))
  {
    var r := Assign(params, name, value);
    if params == [] {
    } else if params[0].name == name {
      assert r[1..] == params[1..];
    } else {
      AssignDistinct(params[1..], name, value);
      AssignNames(params[1..], name, value);
      assert r[1..] == Assign(params[1..], name, value);
    }
  }

  /** Python's `if week:` on the optional week number: None and 0 are false */
  predicate WeekGiven(week: Option<int>) {
    week.Some? && week.value != 0
  }

  /**
   * The parameter dict of `fetch_nfl_scoreboard(year, week)`: always the page
   * limit; the week and the regular-season code only when a week is given.
   * The season year is accepted but never sent.
   */
  method ScoreboardParams(year: int, week: Option<int>) returns (params: seq<Param>)
    ensures DistinctNames(params)
    ensures Names(params) == if WeekGiven(week) then ["limit", "week", "seasontype"] else ["limit"]
    ensures ValueOf(params, "limit") == Some(PageLimit)
    ensures ValueOf(params, "week") == if WeekGiven(week) then Some(week.value) else None
    ensures ValueOf(params, "seasontype") == if WeekGiven(week) then Some(RegularSeason) else None
    ensures ValueOf(params, "year") == None
  {
    params := [Param("limit", PageLimit)];
    if WeekGiven(week) {
      AssignNames(params, "week", week.value);
      AssignDistinct(params, "week", week.value);
      AssignValue(params, "week", week.value);
      AssignOther(params, "week", week.value, "limit");
      AssignOther(params, "week", week.value, "seasontype");
      AssignOther(params, "week", week.value, "year");
      params := Assign(params, "week", week.value);
      AssignNames(params, "seasontype", RegularSeason);
      AssignDistinct(params, "seasontype", RegularSeason);
      AssignValue(params, "seasontype", RegularSeason);
      AssignOther(params, "seasontype", RegularSeason, "limit");
      AssignOther(params, "seasontype", RegularSeason, "week");
      AssignOther(params, "seasontype", RegularSeason, "year");
      params := Assign(params, "seasontype", RegularSeason);
    }
  }
}
