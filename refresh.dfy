/**
 * The state slices of the dashboard (main.js:10-65) and the values the periodic
 * refresh tasks draw for them (main.js:229-293).
 */
module Refresh {
  import opened Draws

  datatype Trend = Up | Down

  /** One bar of the revenue chart's seed data. */
  datatype ChartPoint = ChartPoint(month: string, value: int)

  /** A row of the team-performance widget. */
  datatype Member = Member(name: string, avatar: string, progress: int, color: string)

  datatype Status = Online | Warning | Offline

  /** One subsystem of the system-status widget. */
  datatype Service = Service(status: Status, uptime: string)

  /** A notification; the dashboard never changes one. */
  datatype Notification = Notification(id: int, title: string, message: string, time: string, read: bool)

  /** `widgetSettings`: refresh rate in seconds. */
  datatype Settings = Settings(dataSource: string, refreshRate: int, theme: string)

  /** `statuses` of updateSystemStatus, in its order. */
  const Statuses: seq<Status> := [Online, Warning, Offline]

  /** Progress of a team member is kept in [0, MaxProgress]. */
  const MaxProgress := 100

  /** The analytics tick's `Math.floor(Math.random() * 200) - 100`. */
  function PageViewVariation(r: real): (v: int)
    requires 0.0 <= r < 1.0
    ensures -100 <= v <= 99
  {
    RandomInt(r, 200) - 100
  }

  /** The revenue tick's `Math.floor(Math.random() * 15000) + 8000`. */
  function RevenueDraw(r: real): (v: int)
    requires 0.0 <= r < 1.0
    ensures 8000 <= v <= 22999
  {
    RandomInt(r, 15000) + 8000
  }

  /** A chart bar's height in pixels: `randomHeight * 4` with `randomHeight` in [16, 35]. */
  function BarHeight(r: real): (h: int)
    requires 0.0 <= r < 1.0
    ensures 64 <= h <= 140 && h % 4 == 0
  {
    (RandomInt(r, 20) + 16) * 4
  }

  /** The team tick's per-member `Math.floor(Math.random() * 10) - 5`. */
  function ProgressVariation(r: real): (v: int)
    requires 0.0 <= r < 1.0
    ensures -5 <= v <= 4
  {
    RandomInt(r, 10) - 5
  }

  /** `Math.max(lo, Math.min(hi, x))`. */
  function Clamp(x: int, lo: int, hi: int): (c: int)
    requires lo <= hi
    ensures lo <= c <= hi
    ensures lo <= x <= hi ==> c == x
    ensures x < lo ==> c == lo
    ensures x > hi ==> c == hi
  {
    if x < lo then lo else if x > hi then hi else x
  }

  /** `Math.random() < 0.3`: whether a status tick resamples the API's status. */
  predicate ResamplesApi(r: real) {
    r < 0.3
  }

  /** A status tick can go either way: some draws resample the API's status and some do not. */
  lemma ResamplesApiEitherWay()
    ensures exists r: real :: 0.0 <= r < 1.0 && ResamplesApi(r)
    ensures exists r: real :: 0.0 <= r < 1.0 && !ResamplesApi(r)
  {
    assert ResamplesApi(0.0) && !ResamplesApi(0.5);
  }

  /** `statuses[Math.floor(Math.random() * 2)]`: only the first two statuses can come out. */
  function ResampledStatus(r: real): (s: Status)
    requires 0.0 <= r < 1.0
    ensures s == Online || s == Warning
    ensures s != Offline
  {
    Statuses[RandomInt(r, 2)]
  }

  /** Every variation in [-100, 99] is drawn by some `Math.random()` result. */
  lemma PageViewVariationReaches(v: int)
    requires -100 <= v <= 99
    ensures exists r: real :: 0.0 <= r < 1.0 && PageViewVariation(r) == v
  {
    RandomIntReaches(v + 100, 200);
    var r := ((v + 100) as real) / (200 as real);
    assert PageViewVariation(r) == v;
  }

  /** Every variation in [-5, 4] is drawn for a team member by some `Math.random()` result. */
  lemma ProgressVariationReaches(v: int)
    requires -5 <= v <= 4
    ensures exists r: real :: 0.0 <= r < 1.0 && ProgressVariation(r) == v
  {
    RandomIntReaches(v + 5, 10);
    var r := ((v + 5) as real) / (10 as real);
    assert ProgressVariation(r) == v;
  }

  /** Both Online and Warning can be drawn; with the lemma above, the resampler's range is exactly these two. */
  lemma ResampledStatusReaches()
    ensures exists r: real :: 0.0 <= r < 1.0 && ResampledStatus(r) == Online
    ensures exists r: real :: 0.0 <= r < 1.0 && ResampledStatus(r) == Warning
  {
    RandomIntReaches(0, 2);
    RandomIntReaches(1, 2);
    assert ResampledStatus(0.0 / 2.0) == Online;
    assert ResampledStatus(1.0 / 2.0) == Warning;
  }
}
