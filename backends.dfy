/**
  A platform backend, as the notifier sees it: only its contract. The native
  implementations (Cocoa, DBus, WinRT, Dummy) are not part of this model, so
  every answer the backend gives is left open (chosen arbitrarily), and ghost
  state records each call and each answer so that the notifier's contracts can
  say what it forwarded and what it passed back.
 */
module Backends {
  import opened Wrappers
  import opened Notifications
  import opened Selector

  /** How often each backend operation has been called. */
  datatype Calls = Calls(
    requestAuthorisation: nat,
    hasAuthorisation: nat,
    send: nat,
    clear: nat,
    clearAll: nat,
    getCapabilities: nat)

  const NoCalls := Calls(0, 0, 0, 0, 0, 0)

  /**
    `s` with every occurrence of the object `n` removed; the other entries keep
    their multiplicity and (by `WithoutDistributes`) their order.
   */
  function Without(s: seq<Notification>, n: Notification): (r: seq<Notification>)
    ensures n !in r
    ensures multiset(r) == multiset(s)[n := 0]
    ensures forall i :: 0 <= i < |r| ==> r[i] in s
    ensures forall i :: 0 <= i < |s| && s[i] != n ==> s[i] in r
    ensures n !in s ==> r == s
    ensures |r| <= |s|
  {
    if s == [] then []
    else
      assert s == [s[0]] + s[1..];
      if s[0] == n then Without(s[1..], n)
      else [s[0]] + Without(s[1..], n)
  }

  /**
    Removal works entry by entry: it commutes with concatenation, so what is
    left of a list is what is left of its parts, in the same order.
   */
  lemma {:induction false} WithoutDistributes(s: seq<Notification>, t: seq<Notification>, n: Notification)
    ensures Without(s + t, n) == Without(s, n) + Without(t, n)
    decreases |s|
  {
    if s != [] {
      assert (s + t)[1..] == s[1..] + t;
      WithoutDistributes(s[1..], t, n);
    } else {
      assert s + t == t;
    }
  }

  class Backend {
    /** The backend class the selector chose. */
    const kind: BackendKind
    var appName: string
    const notificationLimit: Option<int>
    /** The notifications of this application still shown by the system. */
    var current: seq<Notification>

    ghost var calls: Calls
    ghost var lastAuthAnswer: bool
    ghost var lastCapabilities: set<Capability>
    ghost var lastAccepted: bool
    /** How many of the oldest shown notifications the last accepted send evicted. */
    ghost var lastEvicted: nat

    constructor (kind: BackendKind, appName: string, notificationLimit: Option<int>)
      ensures this.kind == kind && this.appName == appName
      ensures this.notificationLimit == notificationLimit
      ensures current == [] && calls == NoCalls
    {
      this.kind := kind;
      this.appName := appName;
      this.notificationLimit := notificationLimit;
      current := [];
      calls := NoCalls;
    }

    /** May prompt the user; answers whether notifications are currently allowed. */
    method RequestAuthorisation() returns (granted: bool)
      modifies this`calls, this`lastAuthAnswer
      ensures calls == old(calls).(requestAuthorisation := old(calls).requestAuthorisation + 1)
      ensures lastAuthAnswer == granted
    {
      granted :| true;
      lastAuthAnswer := granted;
      calls := calls.(requestAuthorisation := calls.requestAuthorisation + 1);
    }

    /** Answers, without prompting, whether notifications are currently allowed. */
    method HasAuthorisation() returns (granted: bool)
      modifies this`calls, this`lastAuthAnswer
      ensures calls == old(calls).(hasAuthorisation := old(calls).hasAuthorisation + 1)
      ensures lastAuthAnswer == granted
    {
      granted :| true;
      lastAuthAnswer := granted;
      calls := calls.(hasAuthorisation := calls.hasAuthorisation + 1);
    }

    /**
      Tries to schedule `n`. When the system accepts it, `n` gets an identifier
      and is shown after the others; with a notification limit, some of the
      oldest ones may be evicted (a backend may also ignore the limit).
      Otherwise nothing about `n` changes. It never fails with an error.
     */
    method Send(n: Notification)
      modifies this`calls, this`current, this`lastAccepted, this`lastEvicted, n`identifier
      ensures calls == old(calls).(send := old(calls).send + 1)
      ensures lastAccepted ==>
        n.identifier.Some? &&
        lastEvicted <= |old(current)| && current == (old(current) + [n])[lastEvicted..] &&
        (notificationLimit.None? ==> current == old(current) + [n])
      ensures !lastAccepted ==> n.identifier == old(n.identifier) && current == old(current)
    {
      var accepted: bool :| true;
      lastAccepted := accepted;
      calls := calls.(send := calls.send + 1);
      if accepted {
        var id: string :| true;
        n.identifier := Some(id);
        var evicted: nat :| evicted <= |current| && (notificationLimit.None? ==> evicted == 0);
        lastEvicted := evicted;
        current := (current + [n])[evicted..];
      }
    }

    /** Removes `n` from the shown notifications; nothing happens if it is not shown. */
    method Clear(n: Notification)
      modifies this`calls, this`current
      ensures calls == old(calls).(clear := old(calls).clear + 1)
      ensures current == Without(old(current), n)
    {
      calls := calls.(clear := calls.clear + 1);
      current := Without(current, n);
    }

    /** Removes every notification of this application. */
    method ClearAll()
      modifies this`calls, this`current
      ensures calls == old(calls).(clearAll := old(calls).clearAll + 1)
      ensures current == []
    {
      calls := calls.(clearAll := calls.clearAll + 1);
      current := [];
    }

    /** The features this backend supports on the running system. */
    method GetCapabilities() returns (caps: set<Capability>)
      modifies this`calls, this`lastCapabilities
      ensures calls == old(calls).(getCapabilities := old(calls).getCapabilities + 1)
      ensures lastCapabilities == caps
    {
      caps :| true;
      lastCapabilities := caps;
      calls := calls.(getCapabilities := calls.getCapabilities + 1);
    }
  }
}
