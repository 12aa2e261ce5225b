/**
  The notification orchestrator `DesktopNotifier`: it owns one backend, keeps
  the default icon, remembers whether authorisation was requested, and caches
  the backend's capabilities.

  The async methods are modelled as ordinary sequential methods. The state the
  notifier's methods change is summarised by `Snapshot`; `Step` says what one
  call does to it, and the lemmas about `Run` state what holds over any
  sequence of calls.
 */
module Notifier {
  import opened Wrappers
  import opened Selector
  import opened Notifications
  import opened Backends

  // ---------------------------------------------------------------------------
  // Abstract state and the effect of each call on it
  // ---------------------------------------------------------------------------

  /** The notifier's own flags and cache, with the calls its backend has received. */
  datatype Snapshot = Snapshot(
    didRequestAuthorisation: bool,
    capabilities: Option<set<Capability>>,
    calls: Calls)

  /** The state of a freshly constructed notifier. */
  const Initial := Snapshot(false, None, NoCalls)

  /** A call on the notifier; `answer` is what the backend would report if asked. */
  datatype Op =
    | RequestAuthorisationOp
    | HasAuthorisationOp
    | SendOp
    | ClearOp
    | ClearAllOp
    | GetCapabilitiesOp(answer: set<Capability>)

  /** `if not self._capabilities`: no cache yet, or an empty one. */
  predicate NeedsQuery(cache: Option<set<Capability>>)
  {
    cache.None? || cache.value == {}
  }

  /**
    The effect of one call. The pure pass-throughs leave the flag and the cache
    alone, and no call forgets that authorisation was requested.
   */
  function Step(s: Snapshot, op: Op): (r: Snapshot)
    ensures s.didRequestAuthorisation ==> r.didRequestAuthorisation
    ensures op.HasAuthorisationOp? || op.ClearOp? || op.ClearAllOp? ==>
      r.didRequestAuthorisation == s.didRequestAuthorisation && r.capabilities == s.capabilities
    ensures !op.GetCapabilitiesOp? ==> r.capabilities == s.capabilities
  {
    var c := s.calls;
    match op
    case RequestAuthorisationOp =>
      s.(didRequestAuthorisation := true,
         calls := c.(requestAuthorisation := c.requestAuthorisation + 1))
    case HasAuthorisationOp =>
      s.(calls := c.(hasAuthorisation := c.hasAuthorisation + 1))
    case SendOp =>
      var asked :=
        if s.didRequestAuthorisation then c
        else c.(requestAuthorisation := c.requestAuthorisation + 1);
      s.(didRequestAuthorisation := true, calls := asked.(send := asked.send + 1))
    case ClearOp =>
      s.(calls := c.(clear := c.clear + 1))
    case ClearAllOp =>
      s.(calls := c.(clearAll := c.clearAll + 1))
    case GetCapabilitiesOp(answer) =>
      if NeedsQuery(s.capabilities) then
        s.(capabilities := Some(answer),
           calls := c.(getCapabilities := c.getCapabilities + 1))
      else s
  }

  /** The state after the calls `ops`, in order. */
  function Run(s: Snapshot, ops: seq<Op>): (r: Snapshot)
    ensures s.didRequestAuthorisation ==> r.didRequestAuthorisation
    ensures r.calls.send >= s.calls.send && r.calls.getCapabilities >= s.calls.getCapabilities
    decreases |ops|
  {
    if ops == [] then s else Run(Step(s, ops[0]), ops[1..])
  }

  function CountSends(ops: seq<Op>): nat
  {
    if ops == [] then 0 else (if ops[0].SendOp? then 1 else 0) + CountSends(ops[1..])
  }

  function CountCapabilityCalls(ops: seq<Op>): nat
  {
    if ops == [] then 0
    else (if ops[0].GetCapabilitiesOp? then 1 else 0) + CountCapabilityCalls(ops[1..])
  }

  function CountRequests(ops: seq<Op>): nat
  {
    if ops == [] then 0
    else (if ops[0].RequestAuthorisationOp? then 1 else 0) + CountRequests(ops[1..])
  }

  // ---------------------------------------------------------------------------
  // One call
  // ---------------------------------------------------------------------------

  /** Every call leaves the authorisation flag set if it was set, and keeps a non-empty cache. */
  lemma StepKeepsWriteOnceState(s: Snapshot, op: Op)
    ensures s.didRequestAuthorisation ==> Step(s, op).didRequestAuthorisation
    ensures !NeedsQuery(s.capabilities) ==> Step(s, op).capabilities == s.capabilities
    ensures Step(s, op).calls.requestAuthorisation <= s.calls.requestAuthorisation + 1
  {
  }

  /** A send asks for authorisation exactly when it has not been asked for before. */
  lemma SendAsksOnlyFirstTime(s: Snapshot)
    ensures Step(s, SendOp).didRequestAuthorisation
    ensures Step(s, SendOp).calls.requestAuthorisation ==
      s.calls.requestAuthorisation + (if s.didRequestAuthorisation then 0 else 1)
    ensures Step(s, SendOp).calls.send == s.calls.send + 1
  {
  }

  /** Asking for capabilities queries the backend exactly when the cache is missing or empty. */
  lemma CapabilitiesQueryOnMiss(s: Snapshot, answer: set<Capability>)
    ensures Step(s, GetCapabilitiesOp(answer)).calls.getCapabilities ==
      s.calls.getCapabilities + (if NeedsQuery(s.capabilities) then 1 else 0)
    ensures Step(s, GetCapabilitiesOp(answer)).capabilities ==
      if NeedsQuery(s.capabilities) then Some(answer) else s.capabilities
  {
  }

  // ---------------------------------------------------------------------------
  // Any sequence of calls
  // ---------------------------------------------------------------------------

  /**
    Without explicit requests, the backend is asked for authorisation at most
    once: by the first send, and only if nobody asked before.
   */
  lemma {:induction false} LazyAuthorisation(s: Snapshot, ops: seq<Op>)
    requires forall i :: 0 <= i < |ops| ==> !ops[i].RequestAuthorisationOp?
    ensures Run(s, ops).calls.requestAuthorisation ==
      s.calls.requestAuthorisation + (if !s.didRequestAuthorisation && CountSends(ops) > 0 then 1 else 0)
    ensures Run(s, ops).didRequestAuthorisation <==> s.didRequestAuthorisation || CountSends(ops) > 0
    decreases |ops|
  {
    if ops != [] {
      LazyAuthorisation(Step(s, ops[0]), ops[1..]);
    }
  }

  /** From a fresh notifier, sends alone ask for authorisation at most once. */
  lemma AuthorisationAtMostOnce(ops: seq<Op>)
    requires forall i :: 0 <= i < |ops| ==> !ops[i].RequestAuthorisationOp?
    ensures Run(Initial, ops).calls.requestAuthorisation <= 1
  {
    LazyAuthorisation(Initial, ops);
  }

  /**
    Every explicit request reaches the backend, and at most one more request
    is made on behalf of the sends.
   */
  lemma {:induction false} RequestsForwarded(s: Snapshot, ops: seq<Op>)
    ensures s.calls.requestAuthorisation + CountRequests(ops)
         <= Run(s, ops).calls.requestAuthorisation
         <= s.calls.requestAuthorisation + CountRequests(ops) + (if s.didRequestAuthorisation then 0 else 1)
    decreases |ops|
  {
    if ops != [] {
      var t := Step(s, ops[0]);
      RequestsForwarded(t, ops[1..]);
      if !s.didRequestAuthorisation && t.didRequestAuthorisation {
        assert t.calls.requestAuthorisation == s.calls.requestAuthorisation + 1;
      }
    }
  }

  /** Every send reaches the backend exactly once, whatever authorisation said. */
  lemma {:induction false} EverySendForwarded(s: Snapshot, ops: seq<Op>)
    ensures Run(s, ops).calls.send == s.calls.send + CountSends(ops)
    decreases |ops|
  {
    if ops != [] {
      EverySendForwarded(Step(s, ops[0]), ops[1..]);
    }
  }

  /** Once a non-empty capability set is cached, it stays and the backend is not asked again. */
  lemma {:induction false} CacheStable(s: Snapshot, ops: seq<Op>)
    requires s.capabilities.Some? && s.capabilities.value != {}
    ensures Run(s, ops).capabilities == s.capabilities
    ensures Run(s, ops).calls.getCapabilities == s.calls.getCapabilities
    decreases |ops|
  {
    if ops != [] {
      CacheStable(Step(s, ops[0]), ops[1..]);
    }
  }

  /**
    An empty answer is not kept as a cache: while the backend answers the
    empty set, every capability call asks it again, whatever other calls come
    in between.
   */
  lemma {:induction false} EmptyAnswerRequeried(s: Snapshot, ops: seq<Op>)
    requires NeedsQuery(s.capabilities)
    requires forall i :: 0 <= i < |ops| && ops[i].GetCapabilitiesOp? ==> ops[i].answer == {}
    ensures Run(s, ops).calls.getCapabilities == s.calls.getCapabilities + CountCapabilityCalls(ops)
    ensures NeedsQuery(Run(s, ops).capabilities)
    decreases |ops|
  {
    if ops != [] {
      EmptyAnswerRequeried(Step(s, ops[0]), ops[1..]);
    }
  }

  // ---------------------------------------------------------------------------
  // The notifier
  // ---------------------------------------------------------------------------

  class DesktopNotifier {
    /** The icon given to notifications that have none. */
    var appIcon: Option<Icon>
    /** The backend, chosen once at construction. */
    const impl: Backend
    var didRequestAuthorisation: bool
    var capabilities: Option<set<Capability>>

    ghost function Model(): Snapshot
      reads this, impl
    {
      Snapshot(didRequestAuthorisation, capabilities, impl.calls)
    }

    /**
      Selects the backend for `platform`, coerces the icon argument, and starts
      with authorisation not requested and no capabilities cached.
     */
    constructor (platform: PlatformFacts, appName: string, appIcon: IconArgument,
                 notificationLimit: Option<int>)
      ensures fresh(impl)
      ensures impl.kind == ImplementationClass(platform)
      ensures impl.appName == appName && impl.notificationLimit == notificationLimit
      ensures impl.current == []
      ensures this.appIcon == CoerceAppIcon(appIcon)
      ensures !appIcon.IconString? ==> this.appIcon == CoerceAppIconAsWritten(appIcon)
      ensures !didRequestAuthorisation && capabilities == None
      ensures Model() == Initial
    {
      var implClass := ImplementationClass(platform);
      this.appIcon := CoerceAppIcon(appIcon);
      impl := new Backend(implClass, appName, notificationLimit);
      didRequestAuthorisation := false;
      capabilities := None;
    }

    method GetAppName() returns (name: string)
      ensures name == impl.appName
    {
      name := impl.appName;
    }

    /** Renames the application on the backend itself. */
    method SetAppName(value: string)
      modifies impl`appName
      ensures impl.appName == value
      ensures Model() == old(Model())
    {
      impl.appName := value;
    }

    /** Always forwards to the backend and passes its answer back unchanged. */
    method RequestAuthorisation() returns (granted: bool)
      modifies this`didRequestAuthorisation, impl`calls, impl`lastAuthAnswer
      ensures didRequestAuthorisation
      ensures impl.calls.requestAuthorisation == old(impl.calls.requestAuthorisation) + 1
      ensures granted == impl.lastAuthAnswer
      ensures Model() == Step(old(Model()), RequestAuthorisationOp)
    {
      didRequestAuthorisation := true;
      granted := impl.RequestAuthorisation();
    }

    method HasAuthorisation() returns (granted: bool)
      modifies impl`calls, impl`lastAuthAnswer
      ensures granted == impl.lastAuthAnswer
      ensures Model() == Step(old(Model()), HasAuthorisationOp)
    {
      granted := impl.HasAuthorisation();
    }

    /**
      Gives `notification` the default icon if it has none, asks for
      authorisation if that was never done, and hands it to the backend
      whatever the answer; returns the same object.
     */
    method SendNotification(notification: Notification) returns (r: Notification)
      modifies this`didRequestAuthorisation, impl`calls, impl`lastAuthAnswer,
               impl`current, impl`lastAccepted, impl`lastEvicted,
               notification`icon, notification`identifier
      ensures r == notification
      ensures notification.icon == WithDefaultIcon(old(notification.icon), appIcon)
      ensures didRequestAuthorisation
      ensures impl.calls.requestAuthorisation ==
        old(impl.calls.requestAuthorisation) + (if old(didRequestAuthorisation) then 0 else 1)
      ensures impl.calls.send == old(impl.calls.send) + 1
      ensures impl.lastAccepted ==>
        notification.identifier.Some? &&
        impl.lastEvicted <= |old(impl.current)| &&
        impl.current == (old(impl.current) + [notification])[impl.lastEvicted..] &&
        (impl.notificationLimit.None? ==> impl.current == old(impl.current) + [notification])
      ensures !impl.lastAccepted ==>
        notification.identifier == old(notification.identifier) && impl.current == old(impl.current)
      ensures Model() == Step(old(Model()), SendOp)
    {
      if notification.icon.None? {
        notification.icon := appIcon;
      }
      if !didRequestAuthorisation {
        var _ := RequestAuthorisation();
      }
      impl.Send(notification);
      r := notification;
    }

    /** Builds a notification from its fields and sends it. */
    method Send(title: string, message: string, urgency: Urgency, icon: Option<Icon>,
                buttons: seq<Button>, replyField: Option<ReplyField>,
                attachment: Option<Attachment>, sound: Option<Sound>,
                thread: Option<string>, timeout: int) returns (r: Notification)
      modifies this`didRequestAuthorisation, impl`calls, impl`lastAuthAnswer,
               impl`current, impl`lastAccepted, impl`lastEvicted
      ensures fresh(r)
      ensures r.title == title && r.message == message && r.urgency == urgency
      ensures r.icon == WithDefaultIcon(icon, appIcon)
      ensures r.buttons == buttons && r.replyField == replyField
      ensures r.attachment == attachment && r.sound == sound
      ensures r.thread == thread && r.timeout == timeout
      ensures r.identifier.Some? <==> impl.lastAccepted
      ensures impl.lastAccepted ==>
        impl.lastEvicted <= |old(impl.current)| &&
        impl.current == (old(impl.current) + [r])[impl.lastEvicted..] &&
        (impl.notificationLimit.None? ==> impl.current == old(impl.current) + [r])
      ensures !impl.lastAccepted ==> impl.current == old(impl.current)
      ensures Model() == Step(old(Model()), SendOp)
    {
      var notification := new Notification(title, message, urgency, icon, buttons,
                                            replyField, attachment, sound, thread, timeout);
      r := SendNotification(notification);
    }

    /** The backend's list of shown notifications, as it is. */
    method CurrentNotifications() returns (ns: seq<Notification>)
      ensures ns == impl.current
    {
      ns := impl.current;
    }

    method Clear(notification: Notification)
      modifies impl`calls, impl`current
      ensures impl.current == Without(old(impl.current), notification)
      ensures Model() == Step(old(Model()), ClearOp)
    {
      impl.Clear(notification);
    }

    method ClearAll()
      modifies impl`calls, impl`current
      ensures impl.current == []
      ensures Model() == Step(old(Model()), ClearAllOp)
    {
      impl.ClearAll();
    }

    /**
      Answers from the cache unless it is missing or empty; in that case asks
      the backend and caches whatever it answers, an empty set included.
     */
    method GetCapabilities() returns (caps: set<Capability>)
      modifies this`capabilities, impl`calls, impl`lastCapabilities
      ensures capabilities == Some(caps)
      ensures NeedsQuery(old(capabilities)) ==>
        caps == impl.lastCapabilities &&
        impl.calls.getCapabilities == old(impl.calls.getCapabilities) + 1
      ensures !NeedsQuery(old(capabilities)) ==>
        caps == old(capabilities).value && impl.calls == old(impl.calls)
      ensures Model() == Step(old(Model()), GetCapabilitiesOp(impl.lastCapabilities))
    {
      if NeedsQuery(capabilities) {
        var answer := impl.GetCapabilities();
        capabilities := Some(answer);
      }
      caps := capabilities.value;
    }
  }

  /** What a caller can conclude from the contracts alone: two sends, one authorisation request. */
  method SendTwice(platform: PlatformFacts, n: Notification)
    modifies n
  {
    var notifier := new DesktopNotifier(platform, "Python", IconValue(None), None);
    var first := notifier.SendNotification(n);
    assert first == n && notifier.impl.calls.requestAuthorisation == 1;
    var second := notifier.Send("Backup finished", "42 files copied", Low, None,
                                [Button("Open")], None, None, None, None, 10);
    assert second.title == "Backup finished";
    assert notifier.impl.calls.requestAuthorisation == 1;
    assert notifier.impl.calls.send == 2;
  }

  /** A non-empty capability answer is served from the cache; an empty one is fetched again. */
  method QueryCapabilitiesTwice(platform: PlatformFacts)
  {
    var notifier := new DesktopNotifier(platform, "Python", IconValue(None), None);
    var caps1 := notifier.GetCapabilities();
    var caps2 := notifier.GetCapabilities();
    assert caps1 != {} ==> caps2 == caps1 && notifier.impl.calls.getCapabilities == 1;
    assert caps1 == {} ==> notifier.impl.calls.getCapabilities == 2;
  }
}
