/**
 * UpdateManager: the process-wide coordinator. It gates a check on the
 * update dialog not being shown already, on the build not being expired and
 * on the app not coming from a market, and keeps at most one check task: a
 * new one is created only when there is none or the last one has finished,
 * otherwise the caller is attached to the running one.
 *
 * The static field updateTask becomes a field of one UpdateManager object.
 */
module Manager {
  import opened Basics
  import opened Platform
  import opened CheckUpdate
  import opened CheckUpdateUI

  const InstallerAdb: string := "adb"
  const InstallerPackageInstallerNougat: string := "com.google.android.packageinstaller"
  const InstallerPackageInstallerNougat2: string := "com.android.packageinstaller"

  /** The singleton's dynamic type: a background task or a task with UI. */
  datatype Task = Plain(task: CheckUpdateTask) | WithUI(ui: CheckUpdateTaskWithUI)

  /** The CheckUpdateTask part of a task. */
  function Core(t: Task): CheckUpdateTask
  {
    match t
    case Plain(c) => c
    case WithUI(u) => u.base
  }

  /** The objects a task consists of. */
  function Footprint(t: Option<Task>): set<object>
  {
    match t
    case None => {}
    case Some(Plain(c)) => {c}
    case Some(WithUI(u)) => {u, u.base}
  }

  /**
   * A task as its constructor leaves it, once executed: running, not
   * cancelled, not mandatory, with its listener, feed and context reference,
   * and a task with UI has no dialog yet.
   */
  predicate JustStarted(t: Task, listener: Option<Listener>, updateFeed: string, context: Ref<Context>)
    reads Footprint(Some(t))
  {
    var c := Core(t);
    && c.status == Running && !c.cancelled && !c.mandatory
    && c.listener == listener && c.updateFeed == Some(updateFeed) && c.weakContext == context
    && (t.WithUI? ==> t.ui.dialog == None)
  }

  /**
   * Attaching moves only the context reference: the running task keeps its
   * status, cancel state, flag, feed and listener, and a task with UI keeps
   * the first caller's activity, dialog and dialog requirement.
   */
  twostate predicate OnlyContextMoved(t: Task)
    reads Footprint(Some(t))
  {
    var c := Core(t);
    && c.status == old(c.status) && c.cancelled == old(c.cancelled)
    && c.mandatory == old(c.mandatory) && c.updateFeed == old(c.updateFeed)
    && (t.WithUI? ==> t.ui.weakActivity == old(t.ui.weakActivity) && t.ui.dialog == old(t.ui.dialog))
  }

  /** dialogShown: a live activity already holds a fragment tagged "hockey_update_dialog". */
  function DialogShown(weakActivity: Ref<Activity>): (shown: bool)
    ensures shown <==> weakActivity.Get().Some? && UpdateFragmentTag in weakActivity.Get().value.fragmentTags
  {
    match weakActivity.Get()
    case None => false
    case Some(activity) => UpdateFragmentTag in activity.fragmentTags
  }

  /** checkExpiryDateForBackground: expired only with a listener that gives an expiry date that now is strictly after. */
  function IsExpired(listener: Option<Listener>, now: int): (expired: bool)
    ensures listener.None? ==> !expired
    ensures expired <==> listener.Some? && listener.value.expiryDate.Some? && now > listener.value.expiryDate.value
  {
    if listener.None? then false
    else
      var expiryDate := listener.value.expiryDate;
      expiryDate.Some? && now > expiryDate.value
  }

  /** startExpiryInfoIntent: finish the live activity, then start ExpiryInfoActivity; nothing for a dead one. */
  function ExpiryInfoActions(weakActivity: Ref<Activity>): (r: seq<Action>)
    ensures weakActivity.Get().None? ==> r == []
    ensures weakActivity.Get().Some? ==> r == [FinishActivity(weakActivity.Get().value.id), StartExpiryInfoActivity]
  {
    match weakActivity.Get()
    case None => []
    case Some(activity) => [FinishActivity(activity.id), StartExpiryInfoActivity]
  }

  datatype ExpiryCheck = ExpiryCheck(expired: bool, actions: seq<Action>)

  /** checkExpiryDate: the expiry test, and the default hand-off when the listener's onBuildExpired() asks for it. */
  function CheckExpiryDate(weakActivity: Ref<Activity>, listener: Option<Listener>, now: int): (r: ExpiryCheck)
    ensures r.expired == IsExpired(listener, now)
    ensures r.actions != [] ==> r.expired
    ensures r.expired ==> r.actions == if listener.value.onBuildExpired then ExpiryInfoActions(weakActivity) else []
  {
    var hasExpired := IsExpired(listener, now);
    var handle := hasExpired && listener.value.onBuildExpired;
    ExpiryCheck(hasExpired, if hasExpired && handle then ExpiryInfoActions(weakActivity) else [])
  }

  /**
   * installedFromMarket: a non-empty installer counts as a market, except "adb"
   * always and the two package installers from Android N on. A dead context or
   * a failed lookup (None) counts as no market.
   */
  function InstalledFromMarket(context: Option<Context>, installer: Option<string>, sdk: int): (market: bool)
    ensures market <==>
      && context.Some? && installer.Some? && installer.value != ""
      && installer.value != InstallerAdb
      && !(sdk >= N && installer.value in {InstallerPackageInstallerNougat, InstallerPackageInstallerNougat2})
  {
    if context.None? || installer.None? || installer.value == "" then false
    else
      var name := installer.value;
      if sdk >= N && (name == InstallerPackageInstallerNougat || name == InstallerPackageInstallerNougat2) then false
      else if name == InstallerAdb then false
      else true
  }

  /** The three installer identifiers that are never or only before Android N taken for a market. */
  lemma InstallerClassification(context: Context, name: string, sdk: int)
    ensures !InstalledFromMarket(Some(context), Some(InstallerAdb), sdk)
    ensures InstalledFromMarket(Some(context), Some(InstallerPackageInstallerNougat), sdk) <==> sdk < N
    ensures InstalledFromMarket(Some(context), Some(InstallerPackageInstallerNougat2), sdk) <==> sdk < N
    ensures name !in {"", InstallerAdb, InstallerPackageInstallerNougat, InstallerPackageInstallerNougat2} ==>
      InstalledFromMarket(Some(context), Some(name), sdk)
  {
  }

  /** The gate register and registerForBackground share: not expired, and the market allows it or was not the source. */
  function ShouldCheck(listener: Option<Listener>, context: Option<Context>, device: Device): (check: bool)
    ensures check ==> !IsExpired(listener, device.now)
    ensures !InstalledFromMarket(context, device.installer, device.sdk) ==> (check <==> !IsExpired(listener, device.now))
    ensures listener.None? ==> (check <==> !InstalledFromMarket(context, device.installer, device.sdk))
    ensures InstalledFromMarket(context, device.installer, device.sdk) ==>
      (check <==> !IsExpired(listener, device.now) && listener.Some? && listener.value.canUpdateInMarket)
  {
    && !IsExpired(listener, device.now)
    && ((listener.Some? && listener.value.canUpdateInMarket) || !InstalledFromMarket(context, device.installer, device.sdk))
  }

  class UpdateManager {
    var updateTask: Option<Task>

    constructor ()
      ensures updateTask == None
    {
      updateTask := None;
    }

    /** No task, or only a finished one: the next check creates a new task. */
    function Idle(): (idle: bool)
      reads this, Footprint(updateTask)
      ensures updateTask.None? ==> idle
      ensures updateTask.Some? ==> (idle <==> Core(updateTask.value).status == Finished)
    {
      updateTask.None? || Core(updateTask.value).status == Finished
    }

    /** startUpdateTask: create and execute a task with UI when idle, otherwise attach the activity to the running task. */
    method StartUpdateTask(weakActivity: Ref<Activity>, listener: Option<Listener>, updateFeed: string, isDialogRequired: bool)
      returns (created: bool)
      modifies this, Footprint(updateTask)
      ensures created <==> old(Idle())
      ensures created ==> unchanged(Footprint(old(updateTask)))
      ensures updateTask.Some?
      ensures created ==>
        && updateTask.value.WithUI? && fresh(updateTask.value.ui) && fresh(Core(updateTask.value))
        && JustStarted(updateTask.value, listener, updateFeed,
             if weakActivity.Get().Some? then Weak(Some(ApplicationContext)) else Null)
        && updateTask.value.ui.weakActivity == weakActivity && updateTask.value.ui.isDialogRequired == isDialogRequired
      ensures !created ==>
        && updateTask == old(updateTask)
        && Core(updateTask.value).weakContext ==
             (if weakActivity.Get().Some? then Weak(Some(ApplicationContext)) else old(Core(updateTask.value).weakContext))
        && OnlyContextMoved(updateTask.value)
    {
      if updateTask.None? || Core(updateTask.value).status == Finished {
        var task := new CheckUpdateTaskWithUI(weakActivity, updateFeed, listener, isDialogRequired);
        task.base.Execute();
        updateTask := Some(WithUI(task));
        created := true;
      } else {
        Core(updateTask.value).Attach(AsContextRef(weakActivity));
        created := false;
      }
    }

    /** startUpdateTaskForBackground: the same, with a task without UI. */
    method StartUpdateTaskForBackground(weakContext: Ref<Context>, listener: Option<Listener>, updateFeed: string)
      returns (created: bool)
      modifies this, Footprint(updateTask)
      ensures created <==> old(Idle())
      ensures created ==> unchanged(Footprint(old(updateTask)))
      ensures updateTask.Some?
      ensures created ==>
        && updateTask.value.Plain? && fresh(Core(updateTask.value))
        && JustStarted(updateTask.value, listener, updateFeed,
             if weakContext.Get().Some? then Weak(Some(ApplicationContext)) else Null)
      ensures !created ==>
        && updateTask == old(updateTask)
        && Core(updateTask.value).weakContext ==
             (if weakContext.Get().Some? then Weak(Some(ApplicationContext)) else old(Core(updateTask.value).weakContext))
        && OnlyContextMoved(updateTask.value)
    {
      if updateTask.None? || Core(updateTask.value).status == Finished {
        var task := new CheckUpdateTask(weakContext, updateFeed, listener);
        task.Execute();
        updateTask := Some(Plain(task));
        created := true;
      } else {
        Core(updateTask.value).Attach(weakContext);
        created := false;
      }
    }

    /**
     * register: nothing when the update dialog is already shown; otherwise the
     * expiry check (with its hand-off) and, when the gate allows it, a check.
     */
    method Register(activity: Activity, listener: Option<Listener>, updateFeed: string, isDialogRequired: bool, device: Device)
      returns (actions: seq<Action>, checkStarted: bool, created: bool)
      modifies this, Footprint(updateTask)
      ensures var weakActivity := Weak(Some(activity));
        && actions == (if DialogShown(weakActivity) then [] else CheckExpiryDate(weakActivity, listener, device.now).actions)
        && (checkStarted <==> !DialogShown(weakActivity) && ShouldCheck(listener, Some(ActivityContext(activity)), device))
      ensures created <==> checkStarted && old(Idle())
      ensures created ==> unchanged(Footprint(old(updateTask)))
      ensures !checkStarted ==> updateTask == old(updateTask) && unchanged(Footprint(updateTask))
      ensures checkStarted ==> updateTask.Some?
      ensures created ==>
        && updateTask.value.WithUI? && fresh(updateTask.value.ui) && fresh(Core(updateTask.value))
        && JustStarted(updateTask.value, listener, updateFeed, Weak(Some(ApplicationContext)))
        && updateTask.value.ui.weakActivity == Weak(Some(activity)) && updateTask.value.ui.isDialogRequired == isDialogRequired
      ensures checkStarted && !created ==>
        && updateTask == old(updateTask) && Core(updateTask.value).weakContext == Weak(Some(ApplicationContext))
        && OnlyContextMoved(updateTask.value)
    {
      var weakActivity := Weak(Some(activity));
      actions, checkStarted, created := [], false, false;
      if DialogShown(weakActivity) {
        return;
      }
      var expiry := CheckExpiryDate(weakActivity, listener, device.now);
      actions := expiry.actions;
      if !expiry.expired
        && ((listener.Some? && listener.value.canUpdateInMarket)
            || !InstalledFromMarket(Some(ActivityContext(activity)), device.installer, device.sdk))
      {
        checkStarted := true;
        created := StartUpdateTask(weakActivity, listener, updateFeed, isDialogRequired);
      }
    }

    /** registerForBackground: no dialog guard and no expiry hand-off; expiry only suppresses the check. */
    method RegisterForBackground(appContext: Option<Context>, listener: Option<Listener>, updateFeed: string, device: Device)
      returns (checkStarted: bool, created: bool)
      modifies this, Footprint(updateTask)
      ensures checkStarted <==> ShouldCheck(listener, appContext, device)
      ensures created <==> checkStarted && old(Idle())
      ensures created ==> unchanged(Footprint(old(updateTask)))
      ensures !checkStarted ==> updateTask == old(updateTask) && unchanged(Footprint(updateTask))
      ensures checkStarted && !created ==>
        && updateTask == old(updateTask) && updateTask.Some?
        && Core(updateTask.value).weakContext ==
             (if appContext.Some? then Weak(Some(ApplicationContext)) else old(Core(updateTask.value).weakContext))
        && OnlyContextMoved(updateTask.value)
      ensures created ==>
        updateTask.Some? && updateTask.value.Plain? && fresh(Core(updateTask.value))
        && JustStarted(updateTask.value, listener, updateFeed,
             if appContext.Some? then Weak(Some(ApplicationContext)) else Null)
    {
      var weakContext := Weak(appContext);
      checkStarted, created := false, false;
      if !IsExpired(listener, device.now)
        && ((listener.Some? && listener.value.canUpdateInMarket)
            || !InstalledFromMarket(weakContext.Get(), device.installer, device.sdk))
      {
        checkStarted := true;
        created := StartUpdateTaskForBackground(weakContext, listener, updateFeed);
      }
    }

    /** unregister: cancel, detach and drop the task if there is one; nothing otherwise. */
    method Unregister() returns (actions: seq<Action>)
      modifies this, Footprint(updateTask)
      ensures updateTask == None
      ensures old(updateTask).None? ==> actions == []
      ensures old(updateTask).Some? ==>
        Core(old(updateTask).value).cancelled && Core(old(updateTask).value).weakContext == Null
      ensures old(updateTask).Some? && old(updateTask).value.Plain? ==> actions == []
      ensures old(updateTask).Some? && old(updateTask).value.WithUI? ==>
        var ui := old(updateTask).value.ui;
        && ui.weakActivity == Null && ui.dialog == None
        && actions == if old(ui.dialog).Some? then [DismissUpdateDialog] else []
    {
      actions := [];
      if updateTask.Some? {
        var task := updateTask.value;
        Core(task).Cancel();
        match task {
          case Plain(c) =>
            c.Detach();
          case WithUI(u) =>
            actions := u.Detach();
        }
        updateTask := None;
      }
    }
  }

  /**
   * Two registrations while the first check is still running share one task;
   * after unregister the next registration starts a fresh one.
   */
  method SingleFlight(first: Activity, second: Activity, listener: Option<Listener>, updateFeed: string, device: Device)
    returns (firstCreated: bool, secondCreated: bool, created: bool)
    requires UpdateFragmentTag !in first.fragmentTags && UpdateFragmentTag !in second.fragmentTags
    requires ShouldCheck(listener, Some(ActivityContext(first)), device)
    requires ShouldCheck(listener, Some(ActivityContext(second)), device)
    ensures firstCreated && !secondCreated && created
  {
    var manager := new UpdateManager();
    var _, _, c1 := manager.Register(first, listener, updateFeed, true, device);
    var _, _, c2 := manager.Register(second, listener, updateFeed, true, device);
    var _ := manager.Unregister();
    var _, _, c3 := manager.Register(first, listener, updateFeed, true, device);
    firstCreated, secondCreated, created := c1, c2, c3;
  }
}
