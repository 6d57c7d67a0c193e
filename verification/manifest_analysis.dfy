/**
 * python/manifest_analysis.py: prints the package, the dangerous
 * permissions the manifest requests, then the application, the launcher
 * activity and every activity, service, receiver (with its actions) and
 * provider whose qualified name does not start with an ignorable prefix.
 */
module ManifestAnalysis {
  import opened Wrappers
  import opened Seqs
  import opened Components

  /** Library components that are not worth reporting. */
  const IgnorableComponents: seq<string> := [
    "com.google.android.gms",
    "com.google.firebase",
    "com.google.android.datatransport"
  ]

  /** The dangerous permissions looked up in the manifest, in reporting order. */
  const DangerousPermissions: seq<string> := [
    "android.permission.ACCEPT_HANDOVER",
    "android.permission.ACCESS_BACKGROUND_LOCATION",
    "android.permission.ACCESS_COARSE_LOCATION",
    "android.permission.ACCESS_FINE_LOCATION",
    "android.permission.ACCESS_MEDIA_LOCATION",
    "android.permission.ACTIVITY_RECOGNITION",
    "android.permission.ADD_VOICEMAIL",
    "android.permission.ANSWER_PHONE_CALLS",
    "android.permission.BLUETOOTH_ADVERTISE",
    "android.permission.BLUETOOTH_CONNECT",
    "android.permission.BLUETOOTH_SCAN",
    "android.permission.BODY_SENSORS",
    "android.permission.BODY_SENSORS_BACKGROUND",
    "android.permission.CALL_PHONE",
    "android.permission.CAMERA",
    "android.permission.GET_ACCOUNTS",
    "android.permission.NEARBY_WIFI_DEVICES",
    "android.permission.POST_NOTIFICATIONS",
    "android.permission.RANGING",
    "android.permission.READ_CALENDAR",
    "android.permission.READ_CALL_LOG",
    "android.permission.READ_CONTACTS",
    "android.permission.READ_EXTERNAL_STORAGE",
    "android.permission.READ_MEDIA_AUDIO",
    "android.permission.READ_MEDIA_IMAGES",
    "android.permission.READ_MEDIA_VIDEO",
    "android.permission.READ_MEDIA_VISUAL_USER_SELECTED",
    "android.permission.READ_PHONE_NUMBERS",
    "android.permission.READ_PHONE_STATE",
    "android.permission.READ_SMS",
    "android.permission.RECEIVE_MMS",
    "android.permission.RECEIVE_SMS",
    "android.permission.RECEIVE_WAP_PUSH",
    "android.permission.RECORD_AUDIO",
    "android.permission.SEND_SMS",
    "android.permission.USE_SIP",
    "android.permission.UWB_RANGING",
    "android.permission.WRITE_CALENDAR",
    "android.permission.WRITE_CALL_LOG",
    "android.permission.WRITE_CONTACTS",
    "android.permission.WRITE_EXTERNAL_STORAGE"
  ]

  /**
   * What the script prints for a manifest. Reading `application[0]` raises
   * IndexError when the application has no name, after the package and the
   * permissions are out.
   */
  function Expected(m: Manifest): Run {
    ScriptWith(m, DangerousPermissions, IgnorableComponents)
  }

  /** The script's shape for any permission table and any ignore list. */
  function ScriptWith(m: Manifest, table: seq<string>, prefixes: seq<string>): Run {
    var pre := Preamble(m.package, table, m.permissions);
    if m.applications == [] then Run(pre, Some(IndexError))
    else Then(Run(pre + Listed(m, prefixes), None), Rest(m, prefixes))
  }

  /** The script, step by step. */
  method Analyze(m: Manifest) returns (r: Run)
    ensures r == Expected(m)
  {
    var hits := ScanPermissions(DangerousPermissions, m.permissions);
    var printed := [Finding(MainPackage, PackageText(m.package))] + Tag(DangerousPermission, hits);
    if m.applications == [] {
      return Run(printed, Some(IndexError));
    }
    var listed := ListComponents(m, IgnorableComponents);
    printed := printed + listed;
    var receivers := ReportReceivers(m.package, m.receivers, IgnorableComponents);
    if receivers.crash.Some? {
      return Run(printed + receivers.printed, receivers.crash);
    }
    var providers := ReportNames(m.package, m.providers, IgnorableComponents);
    r := Run(printed + (receivers.printed + Tag(Provider, providers)), None);
  }

  /**
   * The script stops with IndexError exactly when the application has no
   * name or some receiver has no name; nothing else makes it fail.
   */
  lemma AnalyzeCrash(m: Manifest)
    ensures Expected(m).crash.Some? <==>
      m.applications == [] || exists i | 0 <= i < |m.receivers| :: m.receivers[i].names == []
    ensures Expected(m).crash in {None, Some(IndexError)}
  {
    ScriptWithCrash(m, DangerousPermissions, IgnorableComponents);
  }

  lemma ScriptWithCrash(m: Manifest, table: seq<string>, prefixes: seq<string>)
    ensures ScriptWith(m, table, prefixes).crash.Some? <==>
      m.applications == [] || exists i | 0 <= i < |m.receivers| :: m.receivers[i].names == []
    ensures ScriptWith(m, table, prefixes).crash in {None, Some(IndexError)}
  {
    FilteredReceiversCrash(m.package, m.receivers, prefixes);
  }

  /** The table names each permission once; checked a few rows at a time. */
  lemma DangerousTableDistinct()
    ensures NoDuplicates(DangerousPermissions)
  {
    DistinctRowsFrom0();
    DistinctRowsFrom2();
    DistinctRowsFrom4();
    DistinctRowsFrom8();
    DistinctRowsFrom18();
  }

  /** A slice of `DangerousTableDistinct`, kept small so that each slice is cheap to check. */
  lemma DistinctRowsFrom0()
    ensures forall i, j | 0 <= i < 2 && i < j < |DangerousPermissions| :: DangerousPermissions[i] != DangerousPermissions[j]
  {
  }

  /** A slice of `DangerousTableDistinct`, kept small so that each slice is cheap to check. */
  lemma DistinctRowsFrom2()
    ensures forall i, j | 2 <= i < 4 && i < j < |DangerousPermissions| :: DangerousPermissions[i] != DangerousPermissions[j]
  {
  }

  /** A slice of `DangerousTableDistinct`, kept small so that each slice is cheap to check. */
  lemma DistinctRowsFrom4()
    ensures forall i, j | 4 <= i < 8 && i < j < |DangerousPermissions| :: DangerousPermissions[i] != DangerousPermissions[j]
  {
  }

  /** A slice of `DangerousTableDistinct`, kept small so that each slice is cheap to check. */
  lemma DistinctRowsFrom8()
    ensures forall i, j | 8 <= i < 18 && i < j < |DangerousPermissions| :: DangerousPermissions[i] != DangerousPermissions[j]
  {
  }

  /** A slice of `DangerousTableDistinct`, kept small so that each slice is cheap to check. */
  lemma DistinctRowsFrom18()
    ensures forall i, j | 18 <= i && i < j < |DangerousPermissions| :: DangerousPermissions[i] != DangerousPermissions[j]
  {
  }

  /** Whatever else happens, the preamble's permissions are the only ones printed. */
  lemma ScriptWithDangerous(m: Manifest, table: seq<string>, prefixes: seq<string>)
    ensures OfKind(ScriptWith(m, table, prefixes).printed, DangerousPermission) == Scanned(table, m.permissions)
  {
    var pre := Preamble(m.package, table, m.permissions);
    PreambleHits(m.package, table, m.permissions);
    if m.applications != [] {
      var listed := Listed(m, prefixes);
      var rest := Rest(m, prefixes);
      ListedOther(m, prefixes, DangerousPermission);
      RestKinds(m, prefixes, DangerousPermission);
      OfKindAppend(pre, listed, DangerousPermission);
      OfKindAppend(pre + listed, rest.printed, DangerousPermission);
    }
  }

  /**
   * The dangerous permissions printed are those of the table that the
   * manifest requests, each once and in table order, whatever the order or
   * repetition in the manifest; they are printed even when the script later
   * fails.
   */
  lemma AnalyzeDangerous(m: Manifest)
    ensures var hits := OfKind(Expected(m).printed, DangerousPermission);
      && hits == Scanned(DangerousPermissions, m.permissions)
      && NoDuplicates(hits)
      && (forall x :: x in hits <==> x in DangerousPermissions && x in m.permissions)
  {
    ScriptWithDangerous(m, DangerousPermissions, IgnorableComponents);
    DangerousTableDistinct();
    ScannedTableOrder(DangerousPermissions, m.permissions);
    forall x ensures x in Scanned(DangerousPermissions, m.permissions) <==> x in DangerousPermissions && x in m.permissions {
      ScannedMembership(DangerousPermissions, m.permissions, x);
    }
  }

  /** A completed run printed the preamble, the middle part and the end part, in that order. */
  lemma ScriptWithShape(m: Manifest, table: seq<string>, prefixes: seq<string>)
    requires ScriptWith(m, table, prefixes).crash.None?
    ensures m.applications != []
    ensures ScriptWith(m, table, prefixes).printed
         == Preamble(m.package, table, m.permissions) + Listed(m, prefixes) + Rest(m, prefixes).printed
  {
  }

  /** What a completed run of the script reports, kind by kind. */
  lemma ScriptWithComponents(m: Manifest, table: seq<string>, prefixes: seq<string>, kind: Kind)
    requires ScriptWith(m, table, prefixes).crash.None?
    requires kind != MainPackage && kind != DangerousPermission
    ensures m.applications != []
    ensures OfKind(ScriptWith(m, table, prefixes).printed, kind)
         == OfKind(Listed(m, prefixes), kind) + OfKind(Rest(m, prefixes).printed, kind)
  {
    ScriptWithShape(m, table, prefixes);
    PreambleKinds(m.package, table, m.permissions, kind);
    OfKindBehind(Preamble(m.package, table, m.permissions), Listed(m, prefixes), Rest(m, prefixes).printed, kind);
  }

  /**
   * A run that completes prints one receiver line per receiver whose
   * qualified first name is not ignorable, in manifest order.
   */
  lemma AnalyzeReceivers(m: Manifest)
    requires Expected(m).crash.None?
    ensures OfKind(Expected(m).printed, ReceiverName) == Reported(m.package, FirstNames(m.receivers), IgnorableComponents)
  {
    var t, p := DangerousPermissions, IgnorableComponents;
    ScriptWithComponents(m, t, p, ReceiverName);
    ListedOther(m, p, ReceiverName);
    assert Rest(m, p).crash.None?;
    RestReceivers(m, p);
  }

  /**
   * A run that completes reports the application and the first launcher
   * activity when their qualified names pass the filter, and exactly the
   * filtered activities, services and providers, each kind in manifest order.
   */
  lemma AnalyzeComponents(m: Manifest)
    requires Expected(m).crash.None?
    ensures m.applications != []
    ensures OfKind(Expected(m).printed, Application)
      == if IsIgnorable(QualifyName(m.package, m.applications[0]), IgnorableComponents) then []
         else [QualifyName(m.package, m.applications[0])]
    ensures OfKind(Expected(m).printed, LauncherActivity)
      == if m.launchers != [] && !IsIgnorable(QualifyName(m.package, m.launchers[0]), IgnorableComponents)
         then [QualifyName(m.package, m.launchers[0])] else []
    ensures OfKind(Expected(m).printed, Activity) == Reported(m.package, m.activities, IgnorableComponents)
    ensures OfKind(Expected(m).printed, Service) == Reported(m.package, m.services, IgnorableComponents)
    ensures OfKind(Expected(m).printed, Provider) == Reported(m.package, m.providers, IgnorableComponents)
    ensures OfKind(Expected(m).printed, ReceiverName) == Reported(m.package, FirstNames(m.receivers), IgnorableComponents)
  {
    var t, p := DangerousPermissions, IgnorableComponents;
    AnalyzeReceivers(m);
    ScriptWithComponents(m, t, p, Application);
    ScriptWithComponents(m, t, p, LauncherActivity);
    ScriptWithComponents(m, t, p, Activity);
    ScriptWithComponents(m, t, p, Service);
    ScriptWithComponents(m, t, p, Provider);
    ListedApplication(m, p);
    ListedLauncher(m, p);
    ListedActivities(m, p);
    ListedServices(m, p);
    ListedOther(m, p, Provider);
    RestKinds(m, p, Application);
    RestKinds(m, p, LauncherActivity);
    RestKinds(m, p, Activity);
    RestKinds(m, p, Service);
    RestKinds(m, p, Provider);
  }
}
