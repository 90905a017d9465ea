/** The index page's visitor counter: session values, the truthiness test of
    `get_server_side_cookie`, `visitor_cookie_handler`, and the ordinal
    suffixes `inflection.ordinalize` appends. */
module Visits {
  import opened Outcome
  import opened Text

  /** A value kept in the session: the counter is stored as an integer,
      `last_visit` as the text of a date-time, modelled here by its time in
      seconds; any other text a client managed to store is `Str`. */
  datatype SessionValue = Num(n: int) | Str(s: string) | Stamp(t: int)

  /** Python truthiness: zero and the empty string are false. */
  predicate Truthy(v: SessionValue) {
    match v
    case Num(n) => n != 0
    case Str(s) => s != []
    case Stamp(_) => true
  }

  /** `get_server_side_cookie`: the stored value when there is one and it is
      truthy, the default otherwise. */
  function GetServerSideCookie(session: map<string, SessionValue>, key: string, default: SessionValue): (r: SessionValue)
    ensures key in session && Truthy(session[key]) ==> r == session[key]
    ensures !(key in session && Truthy(session[key])) ==> r == default
  {
    if key in session && Truthy(session[key]) then session[key] else default
  }

  /** A stored 0 or empty text is not truthy, so the default is used as if
      nothing were stored. */
  lemma FalsyValueFallsBack(session: map<string, SessionValue>, key: string, default: SessionValue)
    ensures GetServerSideCookie(session[key := Num(0)], key, default) == default
    ensures GetServerSideCookie(session[key := Str("")], key, default) == default
  {
  }

  /** `int(value)`. */
  function ToInt(v: SessionValue): (r: Result<int>)
    ensures v.Num? ==> r == Ok(v.n)
    ensures v.Stamp? ==> r == Err(ValueError)
  {
    match v
    case Num(n) => Ok(n)
    case Str(s) => ParseInt(s)
    case Stamp(_) => Err(ValueError)
  }

  /** Parsing the `last_visit` value back into a date-time: only a stored
      date-time parses; other text fails with ValueError, and an integer
      cannot even be sliced. */
  function ToStamp(v: SessionValue): (r: Result<int>)
    ensures r.Ok? <==> v.Stamp?
    ensures r.Ok? ==> r.value == v.t
  {
    match v
    case Stamp(t) => Ok(t)
    case Str(_) => Err(ValueError)
    case Num(_) => Err(TypeError)
  }

  const DaySeconds: int := 86400

  /** `timedelta.seconds` of the difference `now - past`: the seconds part
      left after the whole days are taken out, for past and future alike. */
  function ElapsedSeconds(now: int, past: int): (r: int)
    ensures 0 <= r < DaySeconds
    ensures (now - past - r) % DaySeconds == 0
  {
    (now - past) % DaySeconds
  }

  /** The suffix `inflection.ordinal` gives a number. */
  function OrdinalSuffix(n: int): (r: string)
    ensures r in {"st", "nd", "rd", "th"}
  {
    var m := if n < 0 then -n else n;
    if 11 <= m % 100 <= 13 then "th"
    else if m % 10 == 1 then "st"
    else if m % 10 == 2 then "nd"
    else if m % 10 == 3 then "rd"
    else "th"
  }

  /** `inflection.ordinalize`: the decimal number followed by its suffix. */
  function Ordinalize(n: int): (r: string)
    ensures |r| >= 3 && r[..|r| - 2] == IntToString(n) && r[|r| - 2..] == OrdinalSuffix(n)
  {
    IntToString(n) + OrdinalSuffix(n)
  }

  /** The session of one client. */
  class Session {
    var data: map<string, SessionValue>

    constructor (data: map<string, SessionValue>)
      ensures this.data == data
    {
      this.data := data;
    }
  }

  /** The counter the handler displays when it does not fail: the stored
      count, or 1 when none is stored. */
  function StoredVisits(session: map<string, SessionValue>): Result<int> {
    ToInt(GetServerSideCookie(session, "visits", Str("1")))
  }

  /** The guard of the increment branch never holds: `timedelta.seconds` is
      always less than a day, whatever the two times are. */
  lemma IncrementNeverDue(now: int, past: int)
    ensures !(ElapsedSeconds(now, past) >= DaySeconds)
  {
  }

  /** The body of the increment branch, as it would run: the count goes up by
      one and is stored, and `last_visit` is written twice, the second write
      putting back the cookie value read before, so the current time is lost. */
  method RecordVisit(session: Session, visits: int, lastVisitCookie: SessionValue, now: int) returns (count: int)
    modifies session
    ensures count == visits + 1
    ensures session.data.Keys == old(session.data).Keys + {"last_visit", "visits"}
    ensures session.data["last_visit"] == lastVisitCookie
    ensures session.data["visits"] == Num(visits + 1)
    ensures forall k :: k in old(session.data) && k != "last_visit" && k != "visits" ==> session.data[k] == old(session.data)[k]
  {
    count := visits + 1;
    session.data := session.data["last_visit" := Stamp(now)];
    session.data := session.data["last_visit" := lastVisitCookie];
    session.data := session.data["visits" := Num(count)];
  }

  /** `visitor_cookie_handler` at time `now`: the page shows the ordinal of
      the stored count (or of 1), and the session is never written, because
      the increment branch is unreachable. It fails when the stored count is
      not a number or the stored `last_visit` is not a date-time. */
  method VisitorCookieHandler(session: Session, now: int) returns (r: Result<string>)
    modifies session
    ensures session.data == old(session.data)
    ensures StoredVisits(session.data).Err? ==> r == Err(StoredVisits(session.data).failure)
    ensures StoredVisits(session.data).Ok? ==>
      var last := GetServerSideCookie(session.data, "last_visit", Stamp(now));
      r == if last.Stamp? then Ok(Ordinalize(StoredVisits(session.data).value)) else Err(ToStamp(last).failure)
  {
    var visits :- ToInt(GetServerSideCookie(session.data, "visits", Str("1")));
    var lastVisitCookie := GetServerSideCookie(session.data, "last_visit", Stamp(now));
    var lastVisitTime :- ToStamp(lastVisitCookie);
    if ElapsedSeconds(now, lastVisitTime) >= DaySeconds {
      // where the source calls the body of RecordVisit; never reached
      assert false;
    }
    r := Ok(Ordinalize(visits));
  }

  /** A first visit, with nothing stored, shows "1st". */
  lemma FirstVisitShowsFirst(now: int)
    ensures StoredVisits(map[]) == Ok(1)
    ensures Ordinalize(1) == "1st"
  {
    IntToStringRoundTrip(1);
  }

  /** Ordinal suffixes by the last digit, for negative numbers by that of
      their magnitude. */
  lemma OrdinalByLastDigit()
    ensures OrdinalSuffix(1) == "st" && OrdinalSuffix(2) == "nd" && OrdinalSuffix(3) == "rd" && OrdinalSuffix(4) == "th"
    ensures OrdinalSuffix(21) == "st" && OrdinalSuffix(102) == "nd" && OrdinalSuffix(-1) == "st"
  {
  }

  /** 11 to 13 take "th" in every hundred, whatever their last digit, and so
      do their negations. */
  lemma OrdinalTeens(hundreds: nat, t: int)
    requires 11 <= t <= 13
    ensures OrdinalSuffix(100 * hundreds + t) == "th"
    ensures OrdinalSuffix(-(100 * hundreds + t)) == "th"
  {
  }

  /** A count of twenty-one shows as "21st". */
  lemma OrdinalOfTwentyOne()
    ensures Ordinalize(21) == "21st"
  {
    assert IntToString(21) == "21";
  }
}
