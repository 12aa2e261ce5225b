/**
  The backend selector `get_implementation_class`: a total decision over the
  facts the running platform reports. The probes (`platform.system()`,
  `platform.version()`, `macos_version`, `is_bundle()`, `is_signed_bundle()`)
  are the fields of `PlatformFacts`; the selector reads nothing else.
 */
module Selector {
  import opened Versions

  /** The four backend classes the selector can return. */
  datatype BackendKind = Cocoa | DBus | WinRT | Dummy

  datatype PlatformFacts = PlatformFacts(
    system: string,          // platform.system()
    version: Release,        // Version(platform.version()), consulted on Windows
    macosVersion: Release,   // macos_version, consulted on Darwin
    isBundle: bool,          // is_bundle()
    isSignedBundle: bool)    // is_signed_bundle()

  /** First macOS release with UNUserNotificationCenter. */
  const MacosMinimum: Release := [10, 14]

  /** First Windows release with the WinRT notification API. */
  const WindowsMinimum: Release := [10, 0, 10240]

  /** Total: every combination of facts selects exactly one backend, a native one only where it can run. */
  function ImplementationClass(p: PlatformFacts): (r: BackendKind)
    ensures r != Dummy ==> p.system in {"Darwin", "Linux", "Windows"}
    ensures r == Cocoa ==> p.isBundle && AtLeast(p.macosVersion, MacosMinimum)
    ensures r == WinRT ==> AtLeast(p.version, WindowsMinimum)
  {
    if p.system == "Darwin" then
      var hasUserNotificationCenter := AtLeast(p.macosVersion, MacosMinimum);
      if hasUserNotificationCenter && p.isBundle then
        // an unsigned bundle only draws a warning
        Cocoa
      else
        Dummy
    else if p.system == "Linux" then
      DBus
    else if p.system == "Windows" && AtLeast(p.version, WindowsMinimum) then
      WinRT
    else
      Dummy
  }

  /** On Linux the message-bus backend is chosen, whatever the other facts say. */
  lemma LinuxIsDBus(p: PlatformFacts)
    ensures ImplementationClass(p) == DBus <==> p.system == "Linux"
  {
  }

  /**
    On Darwin: Cocoa exactly when macOS is at least 10.14 and the program runs
    from an app bundle, signed or not; Dummy in every other Darwin case.
   */
  lemma DarwinSelection(p: PlatformFacts)
    requires p.system == "Darwin"
    ensures ImplementationClass(p) == Cocoa <==> AtLeast(p.macosVersion, MacosMinimum) && p.isBundle
    ensures ImplementationClass(p) != Cocoa ==> ImplementationClass(p) == Dummy
  {
  }

  /** The bundle signature never influences the choice. */
  lemma SignatureIrrelevant(p: PlatformFacts, signed: bool)
    ensures ImplementationClass(p.(isSignedBundle := signed)) == ImplementationClass(p)
  {
  }

  /** On Windows: WinRT exactly from 10.0.10240 on, Dummy before. */
  lemma WindowsSelection(p: PlatformFacts)
    requires p.system == "Windows"
    ensures ImplementationClass(p) == WinRT <==> AtLeast(p.version, WindowsMinimum)
    ensures ImplementationClass(p) != WinRT ==> ImplementationClass(p) == Dummy
  {
  }

  /** Native backends are chosen on their own platform only; every other system gets Dummy. */
  lemma NativeBackendsStayOnTheirPlatform(p: PlatformFacts)
    ensures ImplementationClass(p) == Cocoa ==> p.system == "Darwin"
    ensures ImplementationClass(p) == WinRT ==> p.system == "Windows"
    ensures p.system !in {"Darwin", "Linux", "Windows"} ==> ImplementationClass(p) == Dummy
  {
  }

  /** The facts a platform does not consult have no effect on its choice. */
  predicate SameRelevantFacts(p: PlatformFacts, q: PlatformFacts)
  {
    p.system == q.system &&
    (p.system == "Darwin" ==> p.macosVersion == q.macosVersion && p.isBundle == q.isBundle) &&
    (p.system == "Windows" ==> Compare(p.version, q.version) == Equal)
  }

  lemma {:induction false} OnlyRelevantFactsMatter(p: PlatformFacts, q: PlatformFacts)
    requires SameRelevantFacts(p, q)
    ensures ImplementationClass(p) == ImplementationClass(q)
  {
    if p.system == "Windows" {
      // versions that compare equal sit on the same side of the threshold
      EqualVersionsSameSide(p.version, q.version, WindowsMinimum);
    }
  }

  lemma {:induction false} EqualVersionsSameSide(a: Release, b: Release, t: Release)
    requires Compare(a, b) == Equal
    ensures AtLeast(a, t) <==> AtLeast(b, t)
  {
    CompareAntisymmetric(a, b);
    if AtLeast(a, t) {
      AtLeastTransitive(b, a, t);
    }
    if AtLeast(b, t) {
      AtLeastTransitive(a, b, t);
    }
  }

  /** Typical platforms. */
  lemma Examples()
    ensures ImplementationClass(PlatformFacts("Darwin", [], [10, 13, 6], true, true)) == Dummy
    ensures ImplementationClass(PlatformFacts("Darwin", [], [10, 14], false, true)) == Dummy
    ensures ImplementationClass(PlatformFacts("Darwin", [], [14, 2, 1], true, false)) == Cocoa
    ensures ImplementationClass(PlatformFacts("Windows", [10, 0, 10240], [], false, false)) == WinRT
    ensures ImplementationClass(PlatformFacts("Windows", [10, 0, 22631], [], false, false)) == WinRT
    ensures ImplementationClass(PlatformFacts("Windows", [6, 3, 9600], [], false, false)) == Dummy
    ensures ImplementationClass(PlatformFacts("Linux", [], [], false, false)) == DBus
    ensures ImplementationClass(PlatformFacts("FreeBSD", [], [], false, false)) == Dummy
  {
  }
}
