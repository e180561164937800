/**
 * Runs of a freshly constructed dashboard, stated as the values they end with.
 */
module Scenarios {
  import opened Wrappers
  import opened Modals
  import opened Install
  import opened Format
  import opened Dashboard

  /** From the seed 24567, an analytics tick whose draw is 0 (variation -100) shows 24467 as 'K'. */
  method AnalyticsTickFromSeed() returns (views: int, shown: Shown)
    ensures views == 24467
    ensures shown == Abbreviated(24467, Thousand) && shown.unit.Suffix() == "K"
  {
    var d := new DashboardPro();
    d.UpdateAnalytics(0.0);
    views := d.pageViews;
    shown := FormatNumber(views);
  }

  /** Opening the notifications then closing removes one modal; a second close removes none. */
  method OpenThenCloseTwice() returns (afterOpen: nat, afterClose: nat, afterSecondClose: nat)
    ensures afterOpen == 1 && afterClose == 0 && afterSecondClose == 0
  {
    var d := new DashboardPro();
    var _ := d.ShowNotifications();
    afterOpen := |d.displayed|;
    d.CloseModal();
    afterClose := |d.displayed|;
    d.CloseModal();
    afterSecondClose := |d.displayed|;
  }

  /** A modal opened over another only replaces the reference: closing leaves the first on the page. */
  method SecondModalLeavesFirstOpen() returns (left: seq<string>)
    ensures left == ["Notifications"]
  {
    var d := new DashboardPro();
    var _ := d.ShowNotifications();
    var job := d.InitiateInstall();
    d.CloseModal();
    left := if |d.displayed| == 1 then [d.displayed[0].title] else [];
  }

  /**
   * One install run: five ticks reach 100% and stop the interval, the last text is
   * 'Finalizing installation...', and exactly one completion toast follows the start toast.
   */
  method InstallRunsFiveTicks() returns (ticks: nat, progress: int, running: bool, text: string, toasts: seq<string>, modals: nat)
    ensures ticks == 5
    ensures progress == 100 && !running
    ensures text == "Finalizing installation..."
    ensures toasts == ["Installing Dashboard Pro...", "Dashboard Pro installed successfully!"]
    ensures modals == 0
  {
    var d := new DashboardPro();
    var job := d.InitiateInstall();
    ticks := 0;
    while job.running
      invariant d.Valid() && job.Valid() && !job.completed
      invariant job.progress == 20 * ticks
      invariant d.toasts == ["Installing Dashboard Pro..."]
      invariant d.displayed == [Modal(job.modal, "Installing Dashboard Pro")] && d.currentModal.Some?
      decreases Done - job.progress
    {
      job.Tick();
      ticks := ticks + 1;
    }
    progress, running, text := job.progress, job.running, job.text;
    d.CompleteInstall(job);
    toasts := d.toasts;
    modals := |d.displayed|;
  }

  /** The delayed close after an install closes whatever modal is current, not the install modal. */
  method InstallCloseHitsCurrentModal() returns (left: seq<string>)
    ensures left == ["Installing Dashboard Pro"]
  {
    var d := new DashboardPro();
    var job := d.InitiateInstall();
    var _ := d.ShowNotifications();
    while job.running
      invariant d.Valid() && job.Valid() && !job.completed
      invariant |d.displayed| == 2 && d.displayed[0].title == "Installing Dashboard Pro"
      invariant d.displayed[1].title == "Notifications" && d.currentModal == Some(d.displayed[1].id)
      decreases Done - job.progress
    {
      job.Tick();
    }
    d.CompleteInstall(job);
    left := if |d.displayed| == 1 then [d.displayed[0].title] else [];
  }
}
