/**
 * Stand-ins for the Android platform and for the host application's
 * callbacks. Weak references become values that say whether their referent
 * is still alive; every outbound call the core makes (listener callbacks,
 * dialogs, intents, finishing an activity) is recorded as an Action.
 */
module Platform {
  import opened Basics
  import opened Feed

  /** Build.VERSION_CODES the core compares the SDK level with. */
  const KITKAT: int := 19
  const N: int := 24
  const O: int := 26

  /** UpdateFragment.FRAGMENT_TAG, also the tag UpdateManager looks for. */
  const UpdateFragmentTag: string := "hockey_update_dialog"

  const WriteExternalStorage: string := "android.permission.WRITE_EXTERNAL_STORAGE"

  /**
   * A WeakReference-typed field: either null, or a weak reference whose
   * referent may already have been collected.
   */
  datatype Ref<+T> = Null | Weak(referent: Option<T>) {
    /** What `ref != null ? ref.get() : null` yields. */
    function Get(): Option<T>
    {
      if Null? then None else referent
    }
  }

  /** An activity of the host application. */
  datatype Activity = Activity(id: nat, finishing: bool, fragmentTags: set<string>)

  /** An android.content.Context: an activity, or the application context. */
  datatype Context = ActivityContext(activity: Activity) | ApplicationContext

  /** The same weak reference, seen as a reference to a Context. */
  function AsContextRef(r: Ref<Activity>): (c: Ref<Context>)
    ensures c.Null? <==> r.Null?
    ensures c.Get().Some? <==> r.Get().Some?
  {
    match r
    case Null => Null
    case Weak(None) => Weak(None)
    case Weak(Some(a)) => Weak(Some(ActivityContext(a)))
  }

  /** What the device answers: SDK level, the clock, and the installer package name lookup (None: null or an exception). */
  datatype Device = Device(sdk: int, now: int, installer: Option<string>)

  /** The Java types that occur in the reflective fragment construction. */
  datatype JavaType = StringType | BooleanType | JsonArrayType | JsonObjectType

  /** A fragment class, described by the parameter lists of its static newInstance methods. */
  datatype FragmentClass = FragmentClass(name: string, newInstanceSignatures: set<seq<JavaType>>)

  /** UpdateFragment itself: it declares newInstance(JSONObject, boolean). */
  const UpdateFragmentClass: FragmentClass :=
    FragmentClass("com.audacious_software.zamboni.UpdateFragment", {[JsonObjectType, BooleanType]})

  /** The answers of an UpdateManagerListener supplied by the host application. */
  datatype Listener = Listener(
    expiryDate: Option<int>,          // getExpiryDate(), in milliseconds
    onBuildExpired: bool,             // onBuildExpired(): true asks for the default expiry hand-off
    canUpdateInMarket: bool,          // canUpdateInMarket()
    useUpdateDialog: bool,            // useUpdateDialog(activity)
    updateFragmentClass: FragmentClass)  // getUpdateFragmentClass()

  datatype ErrorMessage = NoNetworkMessage | NoExternalStoragePermission | UnknownSourcesDisabledMessage

  /** An outbound call of the core, in the order it is made. */
  datatype Action =
    | OnUpdateAvailable(updateInfo: seq<JsonValue>)   // listener.onUpdateAvailable
    | OnNoUpdateAvailable                             // listener.onNoUpdateAvailable
    | OnCancel                                        // listener.onCancel
    | ShowUpdateDialog                                // the optional-update AlertDialog is shown
    | DismissUpdateDialog
    | ShowMandatoryToast
    | StartUpdateActivity(fragmentClass: string, versionInfo: seq<JsonValue>, url: Option<string>, dialog: bool)
    | FinishActivity(activity: nat)
    | StartExpiryInfoActivity
    | RemoveFragment(tag: string)
    | ShowFragment(tag: string)
    | LogError
    | ShowError(message: ErrorMessage)
    | OpenUnknownSourcesSettings
    | StartDownload(url: Option<string>)
    | DismissFragment

  /** A DownloadFileListener callback. */
  datatype Notification = DownloadSuccessful | DownloadFailed(userWantsRetry: bool)
}
