/**
 * CheckUpdateTaskWithUI: the version check of CheckUpdate plus the decision
 * of what to show once an update was found: nothing, an optional dialog
 * (decline, cancel, or accept leading to the update fragment or the update
 * activity), or a forced hand-off to the update activity that also finishes
 * the current activity.
 *
 * The Java subclass is modelled by composition: `base` is the CheckUpdateTask
 * part of the object.
 */
module CheckUpdateUI {
  import opened Basics
  import opened Feed
  import opened Platform
  import opened CheckUpdate

  /** The optional-update dialog; its button callbacks capture the activity and the update info. */
  datatype AlertDialog = AlertDialog(activity: Activity, updateInfo: seq<JsonValue>)

  /** The parameter list showUpdateFragment passes to getMethod("newInstance", ...): (String, String, boolean). */
  const LookupSignature: seq<JavaType> := [StringType, StringType, BooleanType]

  /** The types of the arguments it then passes to invoke: (updateInfo, true). */
  const InvokeArgumentTypes: seq<JavaType> := [JsonArrayType, BooleanType]

  /**
   * Reflective construction: getMethod throws unless the class declares
   * newInstance with exactly `signature`; invoke throws unless the arguments
   * match the parameters one for one.
   */
  function NewInstanceSucceeds(cls: FragmentClass, signature: seq<JavaType>, arguments: seq<JavaType>): (built: bool)
    ensures built ==> signature in cls.newInstanceSignatures && |arguments| == |signature|
  {
    signature in cls.newInstanceSignatures && arguments == signature
  }

  /** The lookup and the call never agree in arity, so no fragment class can be constructed this way. */
  lemma FragmentConstructionAlwaysFails(cls: FragmentClass)
    ensures !NewInstanceSucceeds(cls, LookupSignature, InvokeArgumentTypes)
  {
    assert |LookupSignature| != |InvokeArgumentTypes|;
  }

  /** The fragment class to use: the listener's, or UpdateFragment without a listener. */
  function FragmentClassOf(listener: Option<Listener>): (cls: FragmentClass)
    ensures listener.None? ==> cls == UpdateFragmentClass
    ensures listener.Some? ==> cls == listener.value.updateFragmentClass
  {
    if listener.Some? then listener.value.updateFragmentClass else UpdateFragmentClass
  }

  /**
   * showUpdateFragment. The removal of an existing tagged fragment is part of
   * the transaction that show() commits, so it happens only when the fragment
   * was built; a failed construction is caught and logged.
   */
  function FragmentActions(activity: Option<Activity>, cls: FragmentClass, signature: seq<JavaType>, arguments: seq<JavaType>): (r: seq<Action>)
    ensures activity.None? ==> r == []
    ensures activity.Some? && !NewInstanceSucceeds(cls, signature, arguments) ==> r == [LogError]
    ensures activity.Some? && NewInstanceSucceeds(cls, signature, arguments) ==>
      && r != [] && r[|r| - 1] == ShowFragment(UpdateFragmentTag)
      && (RemoveFragment(UpdateFragmentTag) in r <==> UpdateFragmentTag in activity.value.fragmentTags)
  {
    if activity.None? then []
    else if NewInstanceSucceeds(cls, signature, arguments) then
      (if UpdateFragmentTag in activity.value.fragmentTags then [RemoveFragment(UpdateFragmentTag)] else [])
      + [ShowFragment(UpdateFragmentTag)]
    else [LogError]
  }

  /** The "app_url" of the first entry, or None when reading it throws JSONException. */
  function AppUrl(updateInfo: seq<JsonValue>): (url: Option<string>)
    ensures url.Some? ==> |updateInfo| > 0 && updateInfo[0].VersionObject? && updateInfo[0].appUrl == url
    ensures |updateInfo| > 0 && updateInfo[0].VersionObject? ==> url == updateInfo[0].appUrl
  {
    if |updateInfo| > 0 && updateInfo[0].VersionObject? then updateInfo[0].appUrl else None
  }

  /** startUpdateIntent's calls: start UpdateActivity (dialog=false), then finish the activity when asked to. */
  function UpdateIntentActions(activity: Option<Activity>, updateInfo: seq<JsonValue>, finish: bool, cls: FragmentClass): (r: seq<Action>)
    ensures activity.None? ==> r == []
    ensures activity.Some? ==> |r| == (if finish then 2 else 1)
    ensures activity.Some? ==> r[0] == StartUpdateActivity(cls.name, updateInfo, AppUrl(updateInfo), false)
    ensures activity.Some? && finish ==> r[1] == FinishActivity(activity.value.id)
  {
    if activity.None? then []
    else [StartUpdateActivity(cls.name, updateInfo, AppUrl(updateInfo), false)]
         + (if finish then [FinishActivity(activity.value.id)] else [])
  }

  /** The three ways a finished check can end for the user. */
  datatype Presentation = NoPresentation | OptionalDialog | ForcedUpdate

  /** What onPostExecute and showDialog decide to present. */
  function PresentationOf(updateInfo: Option<seq<JsonValue>>, isDialogRequired: bool, activity: Option<Activity>, mandatory: bool): (p: Presentation)
    ensures p == ForcedUpdate <==>
      updateInfo.Some? && isDialogRequired && activity.Some? && !activity.value.finishing && mandatory
    ensures p == OptionalDialog <==>
      updateInfo.Some? && isDialogRequired && activity.Some? && !activity.value.finishing && !mandatory
  {
    if updateInfo.None? || !isDialogRequired then NoPresentation
    else if activity.None? || activity.value.finishing then NoPresentation
    else if mandatory then ForcedUpdate
    else OptionalDialog
  }

  class CheckUpdateTaskWithUI {
    const base: CheckUpdateTask
    var weakActivity: Ref<Activity>
    var dialog: Option<AlertDialog>
    const isDialogRequired: bool

    constructor (weakActivity: Ref<Activity>, updateFeed: string, listener: Option<Listener>, isDialogRequired: bool)
      ensures fresh(base)
      ensures base.weakContext == if weakActivity.Get().Some? then Weak(Some(ApplicationContext)) else Null
      ensures base.updateFeed == Some(updateFeed) && base.listener == listener
      ensures !base.mandatory && base.status == Pending && !base.cancelled
      ensures this.weakActivity == weakActivity && dialog == None && this.isDialogRequired == isDialogRequired
    {
      base := new CheckUpdateTask(AsContextRef(weakActivity), updateFeed, listener);
      this.weakActivity := weakActivity;
      this.isDialogRequired := isDialogRequired;
      dialog := None;
    }

    /** cleanUp: the base clean-up, then forget the activity and the dialog. */
    method CleanUp()
      modifies this, base`updateFeed
      ensures base.updateFeed == None && weakActivity == Null && dialog == None
    {
      base.CleanUp();
      weakActivity := Null;
      dialog := None;
    }

    /** detach: the base detach, forget the activity, and dismiss an open dialog. */
    method Detach() returns (actions: seq<Action>)
      modifies this, base`weakContext
      ensures base.weakContext == Null && weakActivity == Null && dialog == None
      ensures actions == if old(dialog).Some? then [DismissUpdateDialog] else []
    {
      base.Detach();
      weakActivity := Null;
      actions := [];
      if dialog.Some? {
        actions := [DismissUpdateDialog];
        dialog := None;
      }
    }

    /** startUpdateIntent: hand off to UpdateActivity if there is an activity, and clean up in any case. */
    method StartUpdateIntent(activity: Option<Activity>, updateInfo: seq<JsonValue>, finish: bool) returns (actions: seq<Action>)
      modifies this, base`updateFeed
      ensures actions == UpdateIntentActions(activity, updateInfo, finish, FragmentClassOf(base.listener))
      ensures base.updateFeed == None && weakActivity == Null && dialog == None
    {
      actions := [];
      if activity.Some? {
        var cls := FragmentClassOf(base.listener);
        actions := [StartUpdateActivity(cls.name, updateInfo, AppUrl(updateInfo), false)];
        if finish {
          actions := actions + [FinishActivity(activity.value.id)];
        }
      }
      CleanUp();
    }

    /** showDialog: nothing for a missing or finishing activity; otherwise the optional dialog or the forced hand-off. */
    method ShowDialog(activity: Option<Activity>, updateInfo: seq<JsonValue>) returns (actions: seq<Action>)
      modifies this, base`updateFeed
      ensures var p := PresentationOf(Some(updateInfo), true, activity, base.mandatory);
        && (p == NoPresentation ==>
              actions == [] && dialog == old(dialog) && weakActivity == old(weakActivity)
              && base.updateFeed == old(base.updateFeed))
        && (p == OptionalDialog ==>
              actions == [ShowUpdateDialog] && dialog == Some(AlertDialog(activity.value, updateInfo))
              && weakActivity == old(weakActivity) && base.updateFeed == old(base.updateFeed))
        && (p == ForcedUpdate ==>
              actions == [ShowMandatoryToast] + UpdateIntentActions(activity, updateInfo, true, FragmentClassOf(base.listener))
              && base.updateFeed == None && weakActivity == Null && dialog == None)
    {
      if activity.None? || activity.value.finishing {
        return [];
      }
      if !base.mandatory {
        dialog := Some(AlertDialog(activity.value, updateInfo));
        actions := [ShowUpdateDialog];
      } else {
        var handOff := StartUpdateIntent(activity, updateInfo, true);
        actions := [ShowMandatoryToast] + handOff;
      }
    }

    /**
     * onPostExecute: the listener callback first, then the dialog path when an
     * update was found and a dialog is required. The Java code dereferences
     * mWeakActivity there, so it must not have been cleared.
     */
    method OnPostExecute(updateInfo: Option<seq<JsonValue>>) returns (actions: seq<Action>)
      requires updateInfo.Some? && isDialogRequired ==> weakActivity != Null
      modifies this, base`updateFeed
      ensures var calls := ListenerCalls(base.listener.Some?, updateInfo);
        var p := PresentationOf(updateInfo, isDialogRequired, old(weakActivity).Get(), base.mandatory);
        && (p == NoPresentation ==>
              actions == calls && dialog == old(dialog) && weakActivity == old(weakActivity)
              && base.updateFeed == old(base.updateFeed))
        && (p == OptionalDialog ==>
              actions == calls + [ShowUpdateDialog]
              && dialog == Some(AlertDialog(old(weakActivity).Get().value, updateInfo.value))
              && weakActivity == old(weakActivity) && base.updateFeed == old(base.updateFeed))
        && (p == ForcedUpdate ==>
              actions == calls + [ShowMandatoryToast]
                + UpdateIntentActions(old(weakActivity).Get(), updateInfo.value, true, FragmentClassOf(base.listener))
              && base.updateFeed == None && weakActivity == Null && dialog == None)
    {
      actions := base.OnPostExecute(updateInfo);
      if updateInfo.Some? && isDialogRequired {
        var shown := ShowDialog(weakActivity.Get(), updateInfo.value);
        actions := actions + shown;
      }
    }

    /** The negative button and cancelling the dialog: clean up, then listener.onCancel(). */
    method Decline() returns (actions: seq<Action>)
      modifies this, base`updateFeed
      ensures base.updateFeed == None && weakActivity == Null && dialog == None
      ensures actions == if base.listener.Some? then [OnCancel] else []
    {
      CleanUp();
      actions := [];
      if base.listener.Some? {
        actions := [OnCancel];
      }
    }

    /**
     * The positive button, with the activity and update info the dialog captured.
     * The update fragment is used when the listener asks for it or, without a
     * listener, on a tablet; otherwise the update activity is started without
     * finishing the current one.
     */
    method Accept(activity: Activity, updateInfo: seq<JsonValue>, runsOnTablet: bool) returns (actions: seq<Action>)
      modifies this, base`updateFeed
      ensures var useUpdateDialog := if base.listener.Some? then base.listener.value.useUpdateDialog else runsOnTablet;
        && (useUpdateDialog ==>
              actions == FragmentActions(Some(activity), FragmentClassOf(base.listener), LookupSignature, InvokeArgumentTypes)
              && dialog == old(dialog) && weakActivity == old(weakActivity) && base.updateFeed == old(base.updateFeed))
        && (!useUpdateDialog ==>
              actions == UpdateIntentActions(Some(activity), updateInfo, false, FragmentClassOf(base.listener))
              && base.updateFeed == None && weakActivity == Null && dialog == None)
    {
      var useUpdateDialog := if base.listener.Some? then base.listener.value.useUpdateDialog else runsOnTablet;
      if useUpdateDialog {
        actions := FragmentActions(Some(activity), FragmentClassOf(base.listener), LookupSignature, InvokeArgumentTypes);
      } else {
        actions := StartUpdateIntent(Some(activity), updateInfo, false);
      }
    }

    /** The rest of an executed task's life: the background phase, then this class's onPostExecute unless cancelled. */
    method Complete(fetch: FetchOutcome, current: int, newer: int -> bool, connected: bool) returns (actions: seq<Action>)
      requires base.status == Running
      requires isDialogRequired && !base.cancelled ==> weakActivity != Null
      modifies this, base
      ensures base.status == Finished
      ensures base.cancelled == old(base.cancelled) && base.weakContext == old(base.weakContext)
      ensures base.mandatory ==
        (old(base.mandatory) || (old(base.weakContext).Get().Some? && fetch.Fetched? && Scan(fetch.feed, current, newer).mandatory))
      ensures old(base.cancelled) ==> actions == []
      ensures !old(base.cancelled) ==>
        var calls := ListenerCalls(base.listener.Some?, CheckResult(old(base.weakContext).Get().Some?, fetch, current, newer));
        |calls| <= |actions| && actions[..|calls|] == calls
    {
      var result, _, _ := base.DoInBackground(fetch, current, newer, connected);
      actions := [];
      if !base.cancelled {
        actions := OnPostExecute(result);
      }
      base.status := Finished;
    }
  }
}
