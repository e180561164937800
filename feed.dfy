/**
 * The activity feed (main.js:295-321) and the aging of its relative timestamps
 * (main.js:582-591).
 */
module Feed {
  import opened Wrappers
  import opened Numerals
  import opened Draws

  /** An entry of the feed; `kind` is the source's `type`. */
  datatype Activity = Activity(id: int, text: string, time: string, kind: string, color: string)

  /** The feed keeps only the latest Capacity entries. */
  const Capacity := 5

  const JustNow := "Just now"
  const OneMinuteAgo := "1 minute ago"
  const Minute := "minute"
  const Cyan := "#00E5FF"
  const Navy := "#102A43"

  /** The texts addNewActivity picks from, in their order. */
  const NewActivityTexts: seq<string> := [
    "User profile updated", "New order received", "Email campaign sent",
    "Database optimized", "Security alert resolved", "File upload completed",
    "API request processed", "Cache cleared", "Notification sent", "Report scheduled"
  ]

  function Min(a: int, b: int): int {
    if a <= b then a else b
  }

  /**
   * The entry addNewActivity creates: `now` is `Date.now()`, `textDraw` and `colorDraw`
   * are its two `Math.random()` results.
   */
  function NewActivity(now: int, textDraw: real, colorDraw: real): (a: Activity)
    requires 0.0 <= textDraw < 1.0 && 0.0 <= colorDraw < 1.0
    ensures a.id == now && a.time == JustNow && a.kind == "system"
    ensures a.text in NewActivityTexts
    ensures a.color == (if colorDraw > 0.5 then Cyan else Navy)
  {
    Activity(now, NewActivityTexts[RandomInt(textDraw, |NewActivityTexts|)], JustNow, "system",
             if colorDraw > 0.5 then Cyan else Navy)
  }

  /** `unshift(a)` followed by `slice(0, 5)`: the new entry first, then the newest older ones. */
  function Prepend(feed: seq<Activity>, a: Activity): (r: seq<Activity>)
    ensures |r| == Min(|feed| + 1, Capacity)
    ensures r[0] == a
    ensures r[1..] == feed[..|r| - 1]
  {
    ([a] + feed)[..Min(|feed| + 1, Capacity)]
  }

  /** The feed after the entries of news were added one by one, first to last. */
  function PrependAll(feed: seq<Activity>, news: seq<Activity>): seq<Activity>
    decreases |news|
  {
    if news == [] then feed else Prepend(PrependAll(feed, news[..|news| - 1]), news[|news| - 1])
  }

  /**
   * After a run of additions the feed holds at most five entries, newest first: the k-th
   * newest addition sits at index k, as long as fewer than five were added after it.
   */
  lemma {:induction false} PrependAllNewestFirst(feed: seq<Activity>, news: seq<Activity>)
    requires |feed| <= Capacity
    ensures |PrependAll(feed, news)| == Min(|feed| + |news|, Capacity)
    ensures forall k :: 0 <= k < Min(|news|, Capacity) ==> PrependAll(feed, news)[k] == news[|news| - 1 - k]
    decreases |news|
  {
    if news != [] {
      var init := news[..|news| - 1];
      PrependAllNewestFirst(feed, init);
      var r := PrependAll(feed, news);
      assert r == Prepend(PrependAll(feed, init), news[|news| - 1]);
      forall k | 0 <= k < Min(|news|, Capacity)
        ensures r[k] == news[|news| - 1 - k]
      {
        if k > 0 {
          assert r[k] == r[1..][k - 1];
          assert init[|init| - 1 - (k - 1)] == news[|news| - 1 - k];
        }
      }
    }
  }

  /** `${minutes} minutes ago`, where minutes is NaN when None. */
  function MinutesLabel(minutes: Option<int>): (text: string)
    ensures ParseInt(text) == minutes
  {
    var tail := " minutes ago";
    match minutes
    case Some(k) =>
      ParseIntOfIntToString(k, tail);
      IntToString(k) + tail
    case None =>
      var nan := "NaN" + tail;
      assert nan[0] == 'N' && TrimStart(nan) == nan;
      assert LeadingDigits(nan, 10) == [];
      nan
  }

  /** `+ 1` on a number that may be NaN: NaN stays NaN, a number goes up by one. */
  function Increment(m: Option<int>): (r: Option<int>)
    ensures r.None? <==> m.None?
    ensures r.Some? ==> r.value - 1 == m.value
  {
    match m case Some(k) => Some(k + 1) case None => None
  }

  /** A minutes label is never 'Just now' and always contains 'minute'. */
  lemma MinutesLabelShape(minutes: Option<int>)
    ensures MinutesLabel(minutes) != JustNow
    ensures Contains(MinutesLabel(minutes), Minute)
  {
    var head := match minutes case Some(k) => IntToString(k) case None => "NaN";
    var tail := " minutes ago";
    assert MinutesLabel(minutes) == head + tail;
    assert (head + tail)[0] == head[0] != 'J';
    assert tail[1..][..|Minute|] == Minute;
    assert Contains(tail, Minute);
    ContainsAfterPrefix(head, tail, Minute);
  }

  /**
   * One step of updateTimeStamps for one timestamp: 'Just now' becomes '1 minute ago', a label
   * containing 'minute' becomes '(parseInt(stamp) + 1) minutes ago', any other is kept.
   * No label is 'Just now' afterwards, and a changed label is in the minutes bucket.
   */
  function AgeLabel(stamp: string): (aged: string)
    ensures aged != JustNow
    ensures aged == stamp || Contains(aged, Minute)
    ensures stamp == JustNow ==> aged == OneMinuteAgo
    ensures stamp != JustNow && !Contains(stamp, Minute) ==> aged == stamp
  {
    if stamp == JustNow then
      assert OneMinuteAgo[2..][..|Minute|] == Minute;
      OneMinuteAgo
    else if Contains(stamp, Minute) then
      var m := Increment(ParseInt(stamp));
      MinutesLabelShape(m);
      MinutesLabel(m)
    else stamp
  }

  /**
   * Any label that contains 'minute' and starts with the integer n ages to '(n + 1) minutes ago':
   * parseInt reads the leading integer whatever text follows it.
   */
  lemma AgeLeadingInteger(n: int, t: string)
    requires Contains(t, Minute)
    requires t == [] || (!IsDecimalDigit(t[0]) && (n == 0 ==> t[0] != 'x' && t[0] != 'X'))
    ensures AgeLabel(IntToString(n) + t) == MinutesLabel(Some(n + 1))
  {
    var stamp := IntToString(n) + t;
    assert stamp[0] == IntToString(n)[0] != 'J';
    ContainsAfterPrefix(IntToString(n), t, Minute);
    ParseIntOfIntToString(n, t);
  }

  /** A timestamp n minutes old becomes n + 1 minutes old. */
  lemma AgeMinutesLabel(n: int)
    ensures AgeLabel(MinutesLabel(Some(n))) == MinutesLabel(Some(n + 1))
  {
    var tail := " minutes ago";
    assert tail[1..][..|Minute|] == Minute;
    assert MinutesLabel(Some(n)) == IntToString(n) + tail;
    AgeLeadingInteger(n, tail);
  }

  /** '1 minute ago' becomes '2 minutes ago': the singular label is read by its leading integer too. */
  lemma AgeOneMinuteAgo()
    ensures AgeLabel(OneMinuteAgo) == MinutesLabel(Some(2))
  {
    var tail := " minute ago";
    assert tail[1..][..|Minute|] == Minute;
    assert OneMinuteAgo == IntToString(1) + tail;
    AgeLeadingInteger(1, tail);
  }

  /** 'NaN minutes ago' stays as it is. */
  lemma AgeNaNLabel()
    ensures AgeLabel(MinutesLabel(None)) == MinutesLabel(None)
  {
    MinutesLabelShape(None);
  }

  /** A timestamp after k runs of updateTimeStamps. */
  function AgedTimes(stamp: string, k: nat): string {
    if k == 0 then stamp else AgeLabel(AgedTimes(stamp, k - 1))
  }

  /** An entry added as 'Just now' reads '1 minute ago' after one aging and 'k minutes ago' after k >= 2. */
  lemma {:induction false} JustNowAfter(k: nat)
    ensures AgedTimes(JustNow, k) == if k == 0 then JustNow else if k == 1 then OneMinuteAgo else MinutesLabel(Some(k))
  {
    if k == 2 {
      AgeOneMinuteAgo();
    } else if k > 2 {
      JustNowAfter(k - 1);
      AgeMinutesLabel(k - 1);
    }
  }
}
