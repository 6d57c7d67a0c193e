/**
 * python/components.py: the component report without the permission scan.
 * It prints the package, then the application and the first launcher
 * activity (each only when present), the activities, services, receivers
 * (with their actions) and providers whose qualified names do not start with
 * one of five ignorable prefixes.
 */
module ComponentReport {
  import opened Wrappers
  import opened Text
  import opened Components
  import ManifestAnalysis

  /** Library components that are not worth reporting. */
  const IgnorableComponents: seq<string> := [
    "com.google.android.gms",
    "com.google.firebase",
    "com.google.android.datatransport",
    "androidx.profileinstaller",
    "androidx.startup"
  ]

  /** The report for any ignore list: the package line, the filtered middle part, then receivers and providers. */
  function ReportWith(m: Manifest, prefixes: seq<string>): Run {
    Then(Run([Finding(MainPackage, PackageText(m.package))] + Listed(m, prefixes), None), Rest(m, prefixes))
  }

  /** What the script prints for a manifest. */
  function Expected(m: Manifest): Run {
    ReportWith(m, IgnorableComponents)
  }

  /** The script, step by step. */
  method Report(m: Manifest) returns (r: Run)
    ensures r == Expected(m)
  {
    var listed := ListComponents(m, IgnorableComponents);
    var printed := [Finding(MainPackage, PackageText(m.package))] + listed;
    var receivers := ReportReceivers(m.package, m.receivers, IgnorableComponents);
    if receivers.crash.Some? {
      return Run(printed + receivers.printed, receivers.crash);
    }
    var providers := ReportNames(m.package, m.providers, IgnorableComponents);
    r := Run(printed + (receivers.printed + Tag(Provider, providers)), None);
  }

  /**
   * The report stops with IndexError exactly when some receiver has no
   * name: a missing application or launcher is skipped, not an error.
   */
  lemma ReportCrash(m: Manifest)
    ensures Expected(m).crash.Some? <==> exists i | 0 <= i < |m.receivers| :: m.receivers[i].names == []
    ensures Expected(m).crash in {None, Some(IndexError)}
  {
    FilteredReceiversCrash(m.package, m.receivers, IgnorableComponents);
  }

  /** Whatever happens, the report names no permission. */
  lemma ReportWithoutPermissions(m: Manifest, prefixes: seq<string>)
    ensures OfKind(ReportWith(m, prefixes).printed, DangerousPermission) == []
  {
    var head := [Finding(MainPackage, PackageText(m.package))];
    var listed := Listed(m, prefixes);
    var rest := Rest(m, prefixes);
    OfKindSingle(head[0], DangerousPermission);
    ListedOther(m, prefixes, DangerousPermission);
    RestKinds(m, prefixes, DangerousPermission);
    OfKindAppend(head, listed, DangerousPermission);
    OfKindAppend(head + listed, rest.printed, DangerousPermission);
  }

  lemma NoPermissions(m: Manifest)
    ensures OfKind(Expected(m).printed, DangerousPermission) == []
  {
    ReportWithoutPermissions(m, IgnorableComponents);
  }

  /** The shape of a completed report, for `ReportWithComponents`: the package line, the middle part and the end part, in that order. */
  lemma ReportWithShape(m: Manifest, prefixes: seq<string>)
    requires ReportWith(m, prefixes).crash.None?
    ensures Rest(m, prefixes).crash.None?
    ensures ReportWith(m, prefixes).printed
         == [Finding(MainPackage, PackageText(m.package))] + Listed(m, prefixes) + Rest(m, prefixes).printed
  {
  }

  /** A completed report, seen kind by kind: the middle part and then the end part. */
  lemma ReportWithComponents(m: Manifest, prefixes: seq<string>, kind: Kind)
    requires ReportWith(m, prefixes).crash.None?
    requires kind != MainPackage
    ensures OfKind(ReportWith(m, prefixes).printed, kind)
         == OfKind(Listed(m, prefixes), kind) + OfKind(Rest(m, prefixes).printed, kind)
  {
    var head := [Finding(MainPackage, PackageText(m.package))];
    ReportWithShape(m, prefixes);
    OfKindSingle(head[0], kind);
    OfKindBehind(head, Listed(m, prefixes), Rest(m, prefixes).printed, kind);
  }

  /**
   * A report that completes prints one receiver line per receiver whose
   * qualified first name is not ignorable, in manifest order.
   */
  lemma ReportReceiverLines(m: Manifest)
    requires Expected(m).crash.None?
    ensures OfKind(Expected(m).printed, ReceiverName) == Reported(m.package, FirstNames(m.receivers), IgnorableComponents)
  {
    var p := IgnorableComponents;
    ReportWithComponents(m, p, ReceiverName);
    ListedOther(m, p, ReceiverName);
    assert Rest(m, p).crash.None?;
    RestReceivers(m, p);
  }

  /**
   * A report that completes shows the application and the first launcher
   * when present and not ignorable, and exactly the filtered activities,
   * services and providers, each kind in manifest order.
   */
  lemma ReportComponents(m: Manifest)
    requires Expected(m).crash.None?
    ensures OfKind(Expected(m).printed, Application)
      == if m.applications != [] && !IsIgnorable(QualifyName(m.package, m.applications[0]), IgnorableComponents)
         then [QualifyName(m.package, m.applications[0])] else []
    ensures OfKind(Expected(m).printed, LauncherActivity)
      == if m.launchers != [] && !IsIgnorable(QualifyName(m.package, m.launchers[0]), IgnorableComponents)
         then [QualifyName(m.package, m.launchers[0])] else []
    ensures OfKind(Expected(m).printed, Activity) == Reported(m.package, m.activities, IgnorableComponents)
    ensures OfKind(Expected(m).printed, Service) == Reported(m.package, m.services, IgnorableComponents)
    ensures OfKind(Expected(m).printed, Provider) == Reported(m.package, m.providers, IgnorableComponents)
    ensures OfKind(Expected(m).printed, ReceiverName) == Reported(m.package, FirstNames(m.receivers), IgnorableComponents)
  {
    var p := IgnorableComponents;
    ReportReceiverLines(m);
    ReportWithComponents(m, p, Application);
    ReportWithComponents(m, p, LauncherActivity);
    ReportWithComponents(m, p, Activity);
    ReportWithComponents(m, p, Service);
    ReportWithComponents(m, p, Provider);
    ListedApplication(m, p);
    ListedLauncher(m, p);
    ListedActivities(m, p);
    ListedServices(m, p);
    ListedOther(m, p, Provider);
    RestKinds(m, p, Application);
    RestKinds(m, p, LauncherActivity);
    RestKinds(m, p, Activity);
    RestKinds(m, p, Service);
    RestKinds(m, p, Provider);
  }

  /** Extending an ignore list keeps everything it already ignored ignored. */
  lemma IgnorableExtended(name: string, a: seq<string>, b: seq<string>)
    requires |a| <= |b| && a == b[..|a|]
    requires IsIgnorable(name, a)
    ensures IsIgnorable(name, b)
  {
    var k :| 0 <= k < |a| && StartsWith(name, a[k]);
    assert a[k] == b[k];
  }

  /** With an extended ignore list, the filter loops report a sub-sequence's worth of names: never a name the shorter list hides. */
  lemma ReportedNarrower(package: Option<string>, names: seq<string>, a: seq<string>, b: seq<string>, x: string)
    requires |a| <= |b| && a == b[..|a|]
    requires x in Reported(package, names, b)
    ensures x in Reported(package, names, a)
  {
    ReportedMembership(package, names, b, x);
    ReportedMembership(package, names, a, x);
    if IsIgnorable(x, a) {
      IgnorableExtended(x, a, b);
    }
  }

  /** The ignore list here extends the one of the permission-scanning script. */
  lemma IgnoreListsAgree()
    ensures |ManifestAnalysis.IgnorableComponents| <= |IgnorableComponents|
    ensures ManifestAnalysis.IgnorableComponents == IgnorableComponents[..|ManifestAnalysis.IgnorableComponents|]
  {
  }

  /**
   * Filter against filter: a name this script's five-prefix filter keeps is
   * kept by the three-prefix filter of the permission-scanning script too.
   * Whether that script gets as far as printing it is `ScriptsReportNoMore`.
   */
  lemma ReportsNoMoreThanAnalysis(package: Option<string>, names: seq<string>, x: string)
    requires x in Reported(package, names, IgnorableComponents)
    ensures x in Reported(package, names, ManifestAnalysis.IgnorableComponents)
  {
    IgnoreListsAgree();
    ReportedNarrower(package, names, ManifestAnalysis.IgnorableComponents, IgnorableComponents, x);
  }

  /** The two added prefixes make a difference: an `androidx.startup` name is ignorable under this list but not under the shorter one. */
  lemma StartupProviderHiddenHereOnly()
    ensures IsIgnorable("androidx.startup.InitializationProvider", IgnorableComponents)
    ensures !IsIgnorable("androidx.startup.InitializationProvider", ManifestAnalysis.IgnorableComponents)
  {
    var name := "androidx.startup.InitializationProvider";
    assert StartsWith(name, IgnorableComponents[4]);
    forall k | 0 <= k < |ManifestAnalysis.IgnorableComponents|
      ensures !StartsWith(name, ManifestAnalysis.IgnorableComponents[k])
    {
      assert name[0] == 'a';
      assert ManifestAnalysis.IgnorableComponents[k][0] == 'c';
    }
  }

  /**
   * On a manifest the permission-scanning script gets through, this report
   * completes too, and every activity, service, receiver or provider line it
   * prints is printed by the other script as well.
   */
  lemma ScriptsReportNoMore(m: Manifest, kind: Kind, x: string)
    requires ManifestAnalysis.Expected(m).crash.None?
    requires kind == Activity || kind == Service || kind == ReceiverName || kind == Provider
    requires x in OfKind(Expected(m).printed, kind)
    ensures Expected(m).crash.None?
    ensures x in OfKind(ManifestAnalysis.Expected(m).printed, kind)
  {
    ManifestAnalysis.AnalyzeCrash(m);
    ReportCrash(m);
    ReportComponents(m);
    ManifestAnalysis.AnalyzeComponents(m);
    var names := if kind == Activity then m.activities
      else if kind == Service then m.services
      else if kind == Provider then m.providers
      else FirstNames(m.receivers);
    ReportsNoMoreThanAnalysis(m.package, names, x);
  }

  /**
   * The converse fails only through the crash: without an application name
   * the permission-scanning script stops with IndexError before any
   * component, while this report, when every receiver is named, completes.
   */
  lemma OnlyThisReportWithoutApplication(m: Manifest)
    requires m.applications == []
    requires forall i | 0 <= i < |m.receivers| :: m.receivers[i].names != []
    ensures ManifestAnalysis.Expected(m).crash == Some(IndexError)
    ensures Expected(m).crash.None?
  {
    ManifestAnalysis.AnalyzeCrash(m);
    ReportCrash(m);
  }

  /** The filter over a single name: the name itself, qualified, or nothing. */
  lemma ReportedStartup(package: Option<string>, prefixes: seq<string>)
    ensures Reported(package, ["androidx.startup.InitializationProvider"], prefixes)
         == if IsIgnorable("androidx.startup.InitializationProvider", prefixes) then []
            else ["androidx.startup.InitializationProvider"]
  {
    var names := ["androidx.startup.InitializationProvider"];
    var name := names[0];
    assert name[0] == 'a';
    assert !StartsWith(name, ".") by {
      assert name[..1][0] == name[0];
    }
    assert names[..0] == [];
  }

  /**
   * A manifest whose only provider is the `androidx.startup` initializer:
   * when both scripts complete, the permission-scanning script prints that
   * provider and this report does not.
   */
  lemma StartupProviderShownThereOnly(m: Manifest)
    requires ManifestAnalysis.Expected(m).crash.None?
    requires m.providers == ["androidx.startup.InitializationProvider"]
    ensures Expected(m).crash.None?
    ensures OfKind(Expected(m).printed, Provider) == []
    ensures OfKind(ManifestAnalysis.Expected(m).printed, Provider) == ["androidx.startup.InitializationProvider"]
  {
    ManifestAnalysis.AnalyzeCrash(m);
    ReportCrash(m);
    ReportComponents(m);
    ManifestAnalysis.AnalyzeComponents(m);
    StartupProviderHiddenHereOnly();
    ReportedStartup(m.package, IgnorableComponents);
    ReportedStartup(m.package, ManifestAnalysis.IgnorableComponents);
  }
}
