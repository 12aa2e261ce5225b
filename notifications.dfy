/**
  The values a notification is built from, the mutable notification object the
  notifier and the backend update, and the coercion of the notifier's
  `app_icon` argument into an `Icon`.

  The value types live in the package's `base` module, which is not part of
  this model; they carry here only what the notifier reads or writes. Callbacks
  (`on_clicked`, `on_dismissed`, button and reply handlers) are left out.
 */
module Notifications {
  import opened Wrappers

  datatype Urgency = Low | Normal | Critical

  /** An icon: a name in the desktop's icon theme, a file path, or a URI. */
  datatype Icon = NamedIcon(name: string) | PathIcon(path: string) | UriIcon(uri: string)

  datatype Sound = DefaultSound | NamedSound(name: string) | PathSound(path: string)

  datatype Attachment = AttachmentPath(path: string) | AttachmentUri(uri: string)

  datatype Button = Button(title: string)

  datatype ReplyField = ReplyField(title: string, buttonTitle: string)

  /** The optional features a backend may support. */
  datatype Capability =
    | Buttons | ReplyFieldCapability | SoundCapability | AttachmentCapability
    | OnDismissed | Thread | Timeout

  /**
    A notification request. `identifier` is the backend-assigned token; it is
    `None` until a backend has accepted the notification.
   */
  class Notification {
    const title: string
    const message: string
    const urgency: Urgency
    var icon: Option<Icon>
    const buttons: seq<Button>
    const replyField: Option<ReplyField>
    const attachment: Option<Attachment>
    const sound: Option<Sound>
    const thread: Option<string>
    const timeout: int
    var identifier: Option<string>

    constructor (title: string, message: string, urgency: Urgency, icon: Option<Icon>,
                 buttons: seq<Button>, replyField: Option<ReplyField>,
                 attachment: Option<Attachment>, sound: Option<Sound>,
                 thread: Option<string>, timeout: int)
      ensures this.title == title && this.message == message && this.urgency == urgency
      ensures this.icon == icon && this.buttons == buttons && this.replyField == replyField
      ensures this.attachment == attachment && this.sound == sound
      ensures this.thread == thread && this.timeout == timeout
      ensures identifier == None
    {
      this.title := title;
      this.message := message;
      this.urgency := urgency;
      this.icon := icon;
      this.buttons := buttons;
      this.replyField := replyField;
      this.attachment := attachment;
      this.sound := sound;
      this.thread := thread;
      this.timeout := timeout;
      this.identifier := None;
    }
  }

  /**
    The icon `send_notification` leaves on a notification: its own icon if it
    has one, the notifier's default otherwise. An `Icon` value is always
    truthy, so `not notification.icon` holds exactly for `None`.
   */
  function WithDefaultIcon(own: Option<Icon>, default: Option<Icon>): (r: Option<Icon>)
    ensures own.Some? ==> r == own
    ensures own.None? ==> r == default
  {
    if own.None? then default else own
  }

  /** Filling in the default twice changes nothing more than filling it in once. */
  lemma DefaultIconIdempotent(own: Option<Icon>, default: Option<Icon>)
    ensures WithDefaultIcon(WithDefaultIcon(own, default), default) == WithDefaultIcon(own, default)
  {
  }

  // ---------------------------------------------------------------------------
  // The `app_icon` argument of the notifier's constructor
  // ---------------------------------------------------------------------------

  /**
    What the caller passed as `app_icon`: an `Icon` or `None`, a string, or a
    path. For a string, `scheme` and `host` are what
    `urllib.parse.urlparse(text)` reports as its `scheme` and `hostname`; that
    parser is not part of this model.
   */
  datatype IconArgument =
    | IconValue(icon: Option<Icon>)
    | IconString(text: string, scheme: string, host: Option<string>)
    | IconPath(path: string)

  /**
    `urlparse(...).hostname` is either `None` or a non-empty string: an empty
    host is reported as `None`.
   */
  predicate HostAsParsed(arg: IconArgument)
  {
    arg.IconString? ==> arg.host != Some("")
  }

  /** The coercion with the test as it is written, `hostname != ""`. */
  function CoerceAppIconAsWritten(arg: IconArgument): (r: Option<Icon>)
    ensures arg.IconValue? ==> r == arg.icon
    ensures arg.IconPath? ==> r == Some(PathIcon(arg.path))
  {
    match arg
    case IconValue(icon) => icon
    case IconString(text, _, host) =>
      if host != Some("") then Some(UriIcon(text)) else Some(NamedIcon(text))
    case IconPath(path) => Some(PathIcon(path))
  }

  /**
    As written, every string the parser can describe becomes a URI icon: the
    branch that makes a named icon is dead.
   */
  lemma AsWrittenNeverNamesAnIcon(arg: IconArgument)
    requires HostAsParsed(arg)
    ensures arg.IconString? ==> CoerceAppIconAsWritten(arg) == Some(UriIcon(arg.text))
  {
  }

  /** A theme icon name such as "dialog-information" is no URI, yet is taken for one. */
  lemma ThemeNameTakenForUri()
    ensures HostAsParsed(IconString("dialog-information", "", None))
    ensures CoerceAppIconAsWritten(IconString("dialog-information", "", None))
         == Some(UriIcon("dialog-information"))
  {
  }

  /**
    The coercion as intended: a URI string (one with a scheme) is a URI icon,
    any other string the name of a theme icon; a path becomes a path icon; an
    `Icon` or `None` is kept.
   */
  function CoerceAppIcon(arg: IconArgument): (r: Option<Icon>)
    ensures arg == IconValue(None) <==> r == None
    ensures !arg.IconString? ==> r == CoerceAppIconAsWritten(arg)
  {
    match arg
    case IconValue(icon) => icon
    case IconString(text, scheme, _) =>
      if scheme != "" then Some(UriIcon(text)) else Some(NamedIcon(text))
    case IconPath(path) => Some(PathIcon(path))
  }

  /**
    Every deprecated form yields an icon carrying the caller's text; a string
    becomes a URI icon exactly when it has a scheme, and a theme name otherwise.
   */
  lemma CoerceAppIconClassifies(arg: IconArgument)
    ensures arg.IconValue? ==> CoerceAppIcon(arg) == arg.icon
    ensures arg.IconString? ==>
      CoerceAppIcon(arg).Some? &&
      (CoerceAppIcon(arg) == Some(UriIcon(arg.text)) <==> arg.scheme != "") &&
      (CoerceAppIcon(arg) == Some(NamedIcon(arg.text)) <==> arg.scheme == "")
    ensures arg.IconPath? ==> CoerceAppIcon(arg) == Some(PathIcon(arg.path))
  {
  }

  /** Theme names become named icons, and URIs stay URIs with or without a host. */
  lemma CorrectedExamples()
    ensures CoerceAppIcon(IconString("dialog-information", "", None))
         == Some(NamedIcon("dialog-information"))
    ensures CoerceAppIcon(IconString("file:///usr/share/icons/app.png", "file", None))
         == Some(UriIcon("file:///usr/share/icons/app.png"))
    ensures CoerceAppIcon(IconString("https://example.org/app.png", "https", Some("example.org")))
         == Some(UriIcon("https://example.org/app.png"))
  {
  }

  /** The corrected test differs from the written one exactly on strings without a scheme. */
  lemma CoercionsAgreeOnUris(arg: IconArgument)
    requires HostAsParsed(arg)
    ensures CoerceAppIcon(arg) == CoerceAppIconAsWritten(arg) <==> !(arg.IconString? && arg.scheme == "")
  {
  }
}
