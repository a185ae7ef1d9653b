/**
 * UpdateFragment: the embedded update screen. Modelled are the size line's
 * choice between a known size and a size probe, the ordered guard chain in
 * front of the download, the permissions it asks for, the retry listener of
 * the download, and the fallback of the current version code.
 */
module Fragment {
  import opened Basics
  import opened Platform
  import FileSize

  /** The fragment's argument bundle (FRAGMENT_URL, FRAGMENT_VERSION_INFO, FRAGMENT_DIALOG). */
  datatype Arguments = Arguments(url: Option<string>, versionInfo: Option<string>, dialog: bool)

  /** What the device answers when the download button is tapped. */
  datatype DownloadEnv = DownloadEnv(
    attached: bool,                 // getActivity() != null
    connected: bool,                // Util.isConnectedToNetwork
    granted: set<string>,           // the permissions the app holds
    unknownSourcesEnabled: bool,    // PermissionsUtil.isUnknownSourcesEnabled
    sdk: int)

  /** requiredPermissions: WRITE_EXTERNAL_STORAGE below KitKat, nothing from KitKat on. */
  function RequiredPermissions(sdk: int): (permissions: seq<string>)
    ensures sdk < KITKAT ==> permissions == [WriteExternalStorage]
    ensures sdk >= KITKAT ==> permissions == []
  {
    if sdk < KITKAT then [WriteExternalStorage] else []
  }

  /** PermissionsUtil.permissionsAreGranted over permissionsState. */
  predicate PermissionsGranted(required: seq<string>, granted: set<string>)
  {
    forall i :: 0 <= i < |required| ==> required[i] in granted
  }

  /** All three guards in front of the download pass. */
  predicate GuardsPass(env: DownloadEnv)
  {
    env.connected && PermissionsGranted(RequiredPermissions(env.sdk), env.granted) && env.unknownSourcesEnabled
  }

  /** startDownloadTask's effect: a download of the fragment's URL, unless the fragment has no activity. */
  function DownloadActions(attached: bool, url: Option<string>): (r: seq<Action>)
    ensures attached ==> r == [StartDownload(url)]
    ensures !attached ==> r == []
  {
    if attached then [StartDownload(url)] else []
  }

  /**
   * prepareDownload: network, then permissions, then unknown sources; the first
   * failing guard decides the one thing shown, and only when all pass does the
   * download start, followed by a dismiss when shown as a dialog.
   */
  function PrepareDownloadActions(env: DownloadEnv, url: Option<string>, showsDialog: bool): (r: seq<Action>)
    ensures StartDownload(url) in r <==> GuardsPass(env) && env.attached
    ensures !env.connected ==> r == [ShowError(NoNetworkMessage)]
    ensures env.connected && !PermissionsGranted(RequiredPermissions(env.sdk), env.granted) ==>
      r == [ShowError(NoExternalStoragePermission)]
    ensures env.connected && PermissionsGranted(RequiredPermissions(env.sdk), env.granted) && !env.unknownSourcesEnabled ==>
      r == if env.sdk >= O then [OpenUnknownSourcesSettings] else [ShowError(UnknownSourcesDisabledMessage)]
    ensures GuardsPass(env) ==>
      r == DownloadActions(env.attached, url) + (if showsDialog then [DismissFragment] else [])
  {
    if !env.connected then [ShowError(NoNetworkMessage)]
    else if !PermissionsGranted(RequiredPermissions(env.sdk), env.granted) then [ShowError(NoExternalStoragePermission)]
    else if !env.unknownSourcesEnabled then
      (if env.sdk >= O then [OpenUnknownSourcesSettings] else [ShowError(UnknownSourcesDisabledMessage)])
    else DownloadActions(env.attached, url) + (if showsDialog then [DismissFragment] else [])
  }

  /** From KitKat on, the permissions the app holds never change what the download button does. */
  lemma PermissionsIrrelevantFromKitKat(env: DownloadEnv, url: Option<string>, showsDialog: bool)
    requires env.sdk >= KITKAT
    ensures PrepareDownloadActions(env, url, showsDialog) == PrepareDownloadActions(env.(granted := {}), url, showsDialog)
  {
  }

  /** Below KitKat, a connected device without the storage permission always gets the permission error. */
  lemma StoragePermissionRequiredBeforeKitKat(env: DownloadEnv, url: Option<string>, showsDialog: bool)
    requires env.sdk < KITKAT && env.connected && WriteExternalStorage !in env.granted
    ensures PrepareDownloadActions(env, url, showsDialog) == [ShowError(NoExternalStoragePermission)]
  {
    assert RequiredPermissions(env.sdk)[0] !in env.granted;
  }

  /** getCurrentVersionCode: the package's version code, or -1 when the lookup throws. */
  function CurrentVersionCode(packageVersionCode: Option<int>): (code: int)
    ensures packageVersionCode.None? ==> code == -1
    ensures packageVersionCode.Some? ==> code == packageVersionCode.value
  {
    if packageVersionCode.Some? then packageVersionCode.value else -1
  }

  /** The size part of the version line. */
  datatype SizeLabel = KnownSize(bytes: int) | UnknownSize

  /** onCreateView starts a GetFileSizeTask exactly when the feed gives no size. */
  function LaunchesSizeProbe(appSize: int): (launches: bool)
    ensures launches <==> appSize < 0
  {
    appSize < 0
  }

  /**
   * The size line once any probe has reported: the feed's size when it gives
   * one; otherwise the probed size on success, and "unknown" on failure (the
   * fragment's listener does not override downloadFailed).
   */
  function SizeLabelAfterProbe(appSize: int, probe: FileSize.Probe): (line: SizeLabel)
    ensures line.KnownSize? ==> line.bytes >= 0
    ensures !LaunchesSizeProbe(appSize) ==> line == KnownSize(appSize)
    ensures LaunchesSizeProbe(appSize) ==> (line.KnownSize? <==> probe.ContentLength? && probe.length > 0)
    ensures LaunchesSizeProbe(appSize) && line.KnownSize? ==> line.bytes == probe.length
  {
    if !LaunchesSizeProbe(appSize) then KnownSize(appSize)
    else
      var size := FileSize.ProbeResult(probe);
      if FileSize.SizeNotification(size) == DownloadSuccessful then KnownSize(size) else UnknownSize
  }

  class UpdateFragment {
    var urlString: Option<string>
    var versionInfo: Option<string>
    var showsDialog: bool
    /** The DownloadFileTasks started so far, by URL. */
    var downloads: seq<Option<string>>

    /** onCreate: take the URL, the version info and the dialog flag from the arguments. */
    constructor (arguments: Arguments)
      ensures urlString == arguments.url && versionInfo == arguments.versionInfo
      ensures showsDialog == arguments.dialog && downloads == []
    {
      urlString := arguments.url;
      versionInfo := arguments.versionInfo;
      showsDialog := arguments.dialog;
      downloads := [];
    }

    /** startDownloadTask: nothing without an activity, otherwise a new download of the URL. */
    method StartDownloadTask(attached: bool)
      modifies this`downloads
      ensures downloads == old(downloads) + (if attached then [urlString] else [])
    {
      if !attached {
        return;
      }
      downloads := downloads + [urlString];
    }

    /** The download listener's downloadFailed: restart the download exactly when the user wants a retry. */
    method OnDownloadFailed(userWantsRetry: bool, attached: bool)
      modifies this`downloads
      ensures downloads == old(downloads) + (if userWantsRetry && attached then [urlString] else [])
    {
      if userWantsRetry {
        StartDownloadTask(attached);
      }
    }

    /** prepareDownload, the handler of the download button. */
    method PrepareDownload(env: DownloadEnv) returns (actions: seq<Action>)
      modifies this`downloads
      ensures actions == PrepareDownloadActions(env, urlString, showsDialog)
      ensures downloads == old(downloads) + (if GuardsPass(env) && env.attached then [urlString] else [])
    {
      if !env.connected {
        return [ShowError(NoNetworkMessage)];
      }
      var permissions := RequiredPermissions(env.sdk);
      if !PermissionsGranted(permissions, env.granted) {
        return [ShowError(NoExternalStoragePermission)];
      }
      if !env.unknownSourcesEnabled {
        if env.sdk >= O {
          actions := [OpenUnknownSourcesSettings];
        } else {
          actions := [ShowError(UnknownSourcesDisabledMessage)];
        }
        return;
      }
      StartDownloadTask(env.attached);
      actions := DownloadActions(env.attached, urlString);
      if showsDialog {
        actions := actions + [DismissFragment];
      }
    }
  }
}
