/**
 * The DashboardPro controller (main.js:2-615): one object owning every state slice.
 * Each timer callback and event handler is a method; a `Math.random()` result is a
 * parameter r with 0 <= r < 1 and `Date.now()` is the parameter `now`.
 */
module Dashboard {
  import opened Wrappers
  import opened Refresh
  import opened Feed
  import opened Modals
  import opened Install
  import opened Drag

  const Themes: seq<string> := ["default", "purple", "green"]
  const QuickActions: seq<string> := ["Add Item", "Edit Settings", "Share Dashboard", "Download Report"]
  const LayoutPresets: seq<string> := ["Default", "Analytics Focus", "Executive View", "Developer Mode"]
  /** Number of revenue-chart bars the refresh rewrites. */
  const BarCount := 4
  /** Number of widgets made draggable at start-up. */
  const WidgetCount := 6

  class DashboardPro {
    // analyticsData
    var pageViews: int
    var previousPageViews: int
    var trend: Trend
    // revenueData, and the heights of the chart's bars in pixels ([] until the first refresh)
    var revenue: int
    var chartData: seq<ChartPoint>
    var barHeights: seq<int>
    var team: seq<Member>
    // systemStatus
    var server: Service
    var database: Service
    var api: Service
    var activities: seq<Activity>
    var notifications: seq<Notification>
    var settings: Settings
    /** The settings panel's classes translate-x-0 and translate-x-full. */
    var panelShown: bool
    var panelHidden: bool
    /** Whether each theme option carries the ring-2 class. */
    var themeMarks: seq<bool>
    /** The modals on the page, in the order they were appended, and `currentModal`. */
    var displayed: seq<Modal>
    var currentModal: Option<nat>
    var nextModalId: nat
    /** Every toast message shown, oldest first. */
    var toasts: seq<string>
    /** One drag closure per draggable widget. */
    var widgets: seq<DragState>

    ghost predicate Valid()
      reads this
    {
      && |activities| <= Capacity
      && (forall i :: 0 <= i < |team| ==> 0 <= team[i].progress <= MaxProgress)
      && |themeMarks| == |Themes|
      && ModalsValid(displayed, nextModalId)
      && (currentModal.Some? ==> IsDisplayed(displayed, currentModal.value))
      && (forall i, j :: 0 <= i < j < |widgets| ==> widgets[i] != widgets[j])
    }

    /** initializeData, with the page's initial classes: panel hidden, 'default' theme marked. */
    constructor ()
      ensures Valid()
      ensures pageViews == 24567 && previousPageViews == 22134 && trend == Up
      ensures revenue == 12450 && |chartData| == BarCount && barHeights == []
      ensures |team| == 4 && |activities| == Capacity
      ensures api.status == Warning && server.status == Online && database.status == Online
      ensures settings == Settings("Analytics API", 15, "default")
      ensures !panelShown && panelHidden && themeMarks == [true, false, false]
      ensures displayed == [] && currentModal == None && toasts == []
      ensures |widgets| == WidgetCount
      ensures forall i :: 0 <= i < |widgets| ==> fresh(widgets[i]) && !widgets[i].dragging
    {
      pageViews := 24567;
      previousPageViews := 22134;
      trend := Up;
      revenue := 12450;
      chartData := [ChartPoint("Jan", 8900), ChartPoint("Feb", 12100), ChartPoint("Mar", 9800), ChartPoint("Apr", 14200)];
      barHeights := [];
      team := [
        Member("Sarah Chen", "SC", 75, "from-[#102A43] to-[#00E5FF]"),
        Member("Mike Rodriguez", "MR", 68, "from-[#00E5FF] to-[#102A43]"),
        Member("Emma Johnson", "EJ", 82, "from-[#102A43] to-[#00E5FF]"),
        Member("David Kim", "DK", 59, "from-[#00E5FF] to-[#102A43]")
      ];
      server := Service(Online, "99.9%");
      database := Service(Online, "99.7%");
      api := Service(Warning, "98.2%");
      activities := [
        Activity(1, "New user registered", "2 minutes ago", "user", Cyan),
        Activity(2, "Report generated", "5 minutes ago", "report", Navy),
        Activity(3, "Data backup completed", "12 minutes ago", "system", Cyan),
        Activity(4, "Payment processed", "18 minutes ago", "payment", Navy),
        Activity(5, "Security scan completed", "25 minutes ago", "security", Cyan)
      ];
      notifications := [
        Notification(1, "System Update", "New features available", "1h ago", false),
        Notification(2, "Performance Alert", "CPU usage above 80%", "2h ago", false),
        Notification(3, "Backup Complete", "Daily backup successful", "3h ago", true)
      ];
      settings := Settings("Analytics API", 15, "default");
      panelShown, panelHidden := false, true;
      themeMarks := [true, false, false];
      displayed, currentModal, nextModalId := [], None, 0;
      toasts := [];
      var ws: seq<DragState> := [];
      while |ws| < WidgetCount
        invariant |ws| <= WidgetCount
        invariant forall i :: 0 <= i < |ws| ==> fresh(ws[i]) && !ws[i].dragging
        invariant forall i, j :: 0 <= i < j < |ws| ==> ws[i] != ws[j]
      {
        var w := new DragState();
        ws := ws + [w];
      }
      widgets := ws;
    }

    /** The 5 s analytics tick: a random walk of page views with no floor. */
    method UpdateAnalytics(r: real)
      requires Valid()
      requires 0.0 <= r < 1.0
      modifies this`pageViews
      ensures Valid()
      ensures pageViews == old(pageViews) + PageViewVariation(r)
      ensures old(pageViews) - 100 <= pageViews <= old(pageViews) + 99
    {
      var variation := PageViewVariation(r);
      pageViews := pageViews + variation;
    }

    /** The 30 s revenue tick: a new current value and a new height for each of the four bars. */
    method UpdateRevenueChart(r: real, bars: seq<real>)
      requires Valid()
      requires 0.0 <= r < 1.0
      requires |bars| == BarCount && forall i :: 0 <= i < |bars| ==> 0.0 <= bars[i] < 1.0
      modifies this`revenue, this`barHeights
      ensures Valid()
      ensures revenue == RevenueDraw(r) && 8000 <= revenue <= 22999
      ensures |barHeights| == BarCount
      ensures forall i :: 0 <= i < BarCount ==> barHeights[i] == BarHeight(bars[i])
      ensures forall i :: 0 <= i < BarCount ==> 64 <= barHeights[i] <= 140 && barHeights[i] % 4 == 0
    {
      revenue := RevenueDraw(r);
      var heights: seq<int> := [];
      for i := 0 to BarCount
        invariant |heights| == i
        invariant forall k :: 0 <= k < i ==> heights[k] == BarHeight(bars[k])
      {
        heights := heights + [BarHeight(bars[i])];
      }
      barHeights := heights;
    }

    /** The 10 s team tick: each member's progress walks by its own draw, clamped to [0, 100]. */
    method UpdateTeamPerformance(draws: seq<real>)
      requires Valid()
      requires |draws| == |team| && forall i :: 0 <= i < |draws| ==> 0.0 <= draws[i] < 1.0
      modifies this`team
      ensures Valid()
      ensures |team| == |old(team)|
      ensures forall i :: 0 <= i < |team| ==>
        team[i] == old(team)[i].(progress := Clamp(old(team)[i].progress + ProgressVariation(draws[i]), 0, MaxProgress))
      ensures forall i :: 0 <= i < |team| ==>
        team[i].name == old(team)[i].name && 0 <= team[i].progress <= MaxProgress
    {
      var i := 0;
      while i < |team|
        invariant 0 <= i <= |team| == |old(team)|
        invariant forall k :: 0 <= k < i ==>
          team[k] == old(team)[k].(progress := Clamp(old(team)[k].progress + ProgressVariation(draws[k]), 0, MaxProgress))
        invariant forall k :: i <= k < |team| ==> team[k] == old(team)[k]
      {
        var member := team[i];
        var variation := ProgressVariation(draws[i]);
        team := team[i := member.(progress := Clamp(member.progress + variation, 0, MaxProgress))];
        i := i + 1;
      }
    }

    /** The 15 s status tick: with `roll` < 0.3 the API's status is resampled; nothing else changes. */
    method UpdateSystemStatus(roll: real, pick: real)
      requires Valid()
      requires 0.0 <= roll < 1.0 && 0.0 <= pick < 1.0
      modifies this`api
      ensures Valid()
      ensures api == if ResamplesApi(roll) then old(api).(status := ResampledStatus(pick)) else old(api)
      ensures api.uptime == old(api).uptime
      ensures api.status != old(api).status ==> api.status == Online || api.status == Warning
      ensures server == old(server) && database == old(database)
    {
      if ResamplesApi(roll) {
        var newStatus := ResampledStatus(pick);
        api := api.(status := newStatus);
      }
    }

    /** The 20 s activity tick: the new entry goes first and only the latest five are kept. */
    method AddNewActivity(now: int, textDraw: real, colorDraw: real)
      requires Valid()
      requires 0.0 <= textDraw < 1.0 && 0.0 <= colorDraw < 1.0
      modifies this`activities
      ensures Valid()
      ensures activities == Prepend(old(activities), NewActivity(now, textDraw, colorDraw))
      ensures |activities| == Min(|old(activities)| + 1, Capacity)
      ensures activities[0].time == JustNow && activities[0].kind == "system"
      ensures activities[1..] == old(activities)[..|activities| - 1]
    {
      var entry := NewActivity(now, textDraw, colorDraw);
      activities := [entry] + activities;
      activities := activities[..Min(|activities|, Capacity)];
    }

    /** The 60 s tick: every entry's relative time label is aged in place. */
    method UpdateTimeStamps()
      requires Valid()
      modifies this`activities
      ensures Valid()
      ensures |activities| == |old(activities)|
      ensures forall i :: 0 <= i < |activities| ==>
        activities[i] == old(activities)[i].(time := AgeLabel(old(activities)[i].time))
    {
      var i := 0;
      while i < |activities|
        invariant 0 <= i <= |activities| == |old(activities)|
        invariant forall k :: 0 <= k < i ==>
          activities[k] == old(activities)[k].(time := AgeLabel(old(activities)[k].time))
        invariant forall k :: i <= k < |activities| ==> activities[k] == old(activities)[k]
      {
        var activity := activities[i];
        activities := activities[i := activity.(time := AgeLabel(activity.time))];
        i := i + 1;
      }
    }

    /** A click on theme option index: the theme is set and only that option is ring-marked. */
    method SelectTheme(index: nat)
      requires Valid() && index < |Themes|
      modifies this`settings, this`themeMarks
      ensures Valid()
      ensures settings == old(settings).(theme := Themes[index])
      ensures forall j :: 0 <= j < |themeMarks| ==> (themeMarks[j] <==> j == index)
    {
      settings := settings.(theme := Themes[index]);
      var i := 0;
      while i < |themeMarks|
        invariant 0 <= i <= |themeMarks| == |Themes|
        invariant settings == old(settings).(theme := Themes[index])
        invariant forall j :: 0 <= j < i ==> (themeMarks[j] <==> j == index)
      {
        if i == index {
          themeMarks := themeMarks[i := true];
        } else {
          themeMarks := themeMarks[i := false];
        }
        i := i + 1;
      }
    }

    /** The settings button: toggles both of the panel's position classes. */
    method ToggleSettingsPanel()
      requires Valid()
      modifies this`panelShown, this`panelHidden
      ensures Valid()
      ensures panelShown == !old(panelShown) && panelHidden == !old(panelHidden)
      ensures old(panelShown != panelHidden) ==> panelShown != panelHidden
    {
      panelShown := !panelShown;
      panelHidden := !panelHidden;
    }

    /** The panel's close button, also used by Apply: the panel ends up hidden whatever it was. */
    method HideSettingsPanel()
      requires Valid()
      modifies this`panelShown, this`panelHidden
      ensures Valid()
      ensures panelHidden && !panelShown
    {
      panelHidden := true;
      panelShown := false;
    }

    /** The data-source select's change event. */
    method SetDataSource(value: string)
      requires Valid()
      modifies this`settings
      ensures Valid()
      ensures settings == old(settings).(dataSource := value)
    {
      settings := settings.(dataSource := value);
    }

    /** The refresh-rate slider's input event, once its value has been read as an integer. */
    method SetRefreshRate(rate: int)
      requires Valid()
      modifies this`settings
      ensures Valid()
      ensures settings == old(settings).(refreshRate := rate)
    {
      settings := settings.(refreshRate := rate);
    }

    /** The Apply button: a toast, then the panel is hidden (the analytics timer restart is not modelled). */
    method ApplySettings()
      requires Valid()
      modifies this`toasts, this`panelShown, this`panelHidden
      ensures Valid()
      ensures toasts == old(toasts) + ["Settings applied successfully!"]
      ensures panelHidden && !panelShown
    {
      ShowToast("Settings applied successfully!");
      HideSettingsPanel();
    }

    /** showToast: the message is shown; its fade-in, hold and removal are not modelled. */
    method ShowToast(message: string)
      requires Valid()
      modifies this`toasts
      ensures Valid()
      ensures toasts == old(toasts) + [message]
    {
      toasts := toasts + [message];
    }

    method HandleQuickAction(index: nat)
      requires Valid()
      requires index < |QuickActions|
      modifies this`toasts
      ensures Valid()
      ensures toasts == old(toasts) + [QuickActions[index] + " clicked!"]
    {
      ShowToast(QuickActions[index] + " clicked!");
    }

    method SaveCurrentLayout()
      requires Valid()
      modifies this`toasts
      ensures Valid()
      ensures toasts == old(toasts) + ["Layout saved successfully!"]
    {
      ShowToast("Layout saved successfully!");
    }

    /** A preset button inside the layout modal: a toast, then the current modal is closed. */
    method ApplyLayoutPreset(index: nat)
      requires Valid() && index < |LayoutPresets|
      modifies this`toasts, this`displayed, this`currentModal
      ensures Valid()
      ensures toasts == old(toasts) + ["Applied " + LayoutPresets[index] + " layout"]
      ensures currentModal == None
      ensures displayed == if old(currentModal).Some? then RemoveById(old(displayed), old(currentModal).value) else old(displayed)
    {
      ShowToast("Applied " + LayoutPresets[index] + " layout");
      CloseModal();
    }

    /**
     * createModal: a new modal is appended and becomes the current one. The modal that
     * was current before stays on the page.
     */
    method CreateModal(title: string) returns (id: nat)
      requires Valid()
      modifies this`displayed, this`currentModal, this`nextModalId
      ensures Valid()
      ensures displayed == old(displayed) + [Modal(id, title)]
      ensures currentModal == Some(id)
      ensures forall i :: 0 <= i < |old(displayed)| ==> old(displayed)[i].id != id
    {
      id := nextModalId;
      nextModalId := nextModalId + 1;
      displayed := displayed + [Modal(id, title)];
      currentModal := Some(id);
      assert displayed[|displayed| - 1].id == id;
    }

    /** closeModal: the current modal, and only it, leaves the page; a second call does nothing. */
    method CloseModal()
      requires Valid()
      modifies this`displayed, this`currentModal
      ensures Valid()
      ensures currentModal == None
      ensures old(currentModal) == None ==> displayed == old(displayed)
      ensures old(currentModal).Some? ==>
        displayed == RemoveById(old(displayed), old(currentModal).value) &&
        |displayed| == |old(displayed)| - 1
    {
      if currentModal.Some? {
        RemoveDisplayedTakesOne(displayed, currentModal.value);
        RemoveKeepsValid(displayed, currentModal.value, nextModalId);
        displayed := RemoveById(displayed, currentModal.value);
        currentModal := None;
      }
    }

    /** The notifications button: a modal listing the notifications (its HTML is not modelled). */
    method ShowNotifications() returns (id: nat)
      requires Valid()
      modifies this`displayed, this`currentModal, this`nextModalId
      ensures Valid()
      ensures displayed == old(displayed) + [Modal(id, "Notifications")]
      ensures currentModal == Some(id)
    {
      id := CreateModal("Notifications");
    }

    /** The install button: a toast, the install modal, and a fresh counter closure at 0%. */
    method InitiateInstall() returns (job: InstallJob)
      requires Valid()
      modifies this`toasts, this`displayed, this`currentModal, this`nextModalId
      ensures Valid() && fresh(job) && job.Valid()
      ensures job.progress == 0 && job.running && job.text == Preparing
      ensures toasts == old(toasts) + ["Installing Dashboard Pro..."]
      ensures displayed == old(displayed) + [Modal(job.modal, "Installing Dashboard Pro")]
      ensures currentModal == Some(job.modal)
    {
      ShowToast("Installing Dashboard Pro...");
      var id := CreateModal("Installing Dashboard Pro");
      job := new InstallJob(id);
    }

    /**
     * The timeout scheduled when the install reached 100%: it closes the CURRENT modal,
     * which is the install modal only if no other modal was opened since, then shows the
     * completion toast. It fires once.
     */
    method CompleteInstall(job: InstallJob)
      requires Valid() && job.Valid() && job.closePending
      modifies this`toasts, this`displayed, this`currentModal, job`closePending, job`completed
      ensures Valid() && job.Valid()
      ensures !job.closePending && job.completed
      ensures toasts == old(toasts) + ["Dashboard Pro installed successfully!"]
      ensures currentModal == None
      ensures old(currentModal).Some? ==> displayed == RemoveById(old(displayed), old(currentModal).value)
      ensures old(currentModal) == None ==> displayed == old(displayed)
    {
      job.closePending := false;
      job.completed := true;
      CloseModal();
      ShowToast("Dashboard Pro installed successfully!");
    }

    /** mousedown on widget i. */
    method WidgetMouseDown(i: nat, x: int, y: int, offsetLeft: int, offsetTop: int)
      requires Valid()
      requires i < |widgets|
      modifies widgets[i]
      ensures Valid()
      ensures widgets[i].View() == old(widgets[i].View()).Pressed(x, y, offsetLeft, offsetTop)
    {
      widgets[i].MouseDown(x, y, offsetLeft, offsetTop);
    }

    /** A document mousemove reaches every widget's listener; only dragged widgets move. */
    method DocumentMouseMove(x: int, y: int)
      requires Valid()
      modifies set w | w in widgets
      ensures Valid()
      ensures forall k :: 0 <= k < |widgets| ==> widgets[k].View() == old(widgets[k].View()).Moved(x, y)
      ensures forall k :: 0 <= k < |widgets| && !old(widgets[k].dragging) ==> widgets[k].View() == old(widgets[k].View())
    {
      var i := 0;
      while i < |widgets|
        invariant 0 <= i <= |widgets|
        invariant forall k :: 0 <= k < i ==> widgets[k].View() == old(widgets[k].View()).Moved(x, y)
        invariant forall k :: i <= k < |widgets| ==> widgets[k].View() == old(widgets[k].View())
      {
        widgets[i].MouseMove(x, y);
        i := i + 1;
      }
    }

    /** A document mouseup reaches every widget's listener: afterwards no widget is dragged. */
    method DocumentMouseUp()
      requires Valid()
      modifies set w | w in widgets
      ensures Valid()
      ensures forall k :: 0 <= k < |widgets| ==> widgets[k].View() == old(widgets[k].View()).Released()
      ensures forall k :: 0 <= k < |widgets| ==> !widgets[k].dragging
    {
      var i := 0;
      while i < |widgets|
        invariant 0 <= i <= |widgets|
        invariant forall k :: 0 <= k < i ==> widgets[k].View() == old(widgets[k].View()).Released()
        invariant forall k :: i <= k < |widgets| ==> widgets[k].View() == old(widgets[k].View())
      {
        widgets[i].MouseUp();
        i := i + 1;
      }
    }
  }
}
