/**
 * static/python/manifest_analysis.py: the earlier, unfiltered manifest
 * script. It prints the package, the dangerous permissions, the application
 * (read without a guard) and then every activity, service, receiver and
 * provider, with no ignore list. A receiver without a name prints as
 * "Unknown". Its launcher branch hands the whole XPath result list to
 * `qualify_name`, so a manifest with a launcher activity ends the script
 * with AttributeError right after the application line.
 */
module StaticManifestAnalysis {
  import opened Wrappers
  import opened Components
  import ManifestAnalysis

  /** The receiver name printed: the first `android:name`, or "Unknown" when there is none, qualified. */
  function ReceiverLabel(package: Option<string>, r: Receiver): (q: string)
    ensures r.names == [] ==> q == "Unknown"
    ensures r.names != [] ==> q == QualifyName(package, r.names[0])
  {
    assert "Unknown"[0] == 'U';
    QualifyName(package, if r.names == [] then "Unknown" else r.names[0])
  }

  /** The receiver loop: every receiver is printed with its actions; none is filtered and none makes it fail. */
  function AllReceivers(package: Option<string>, receivers: seq<Receiver>): seq<Finding> {
    if receivers == [] then []
    else
      var r := receivers[|receivers| - 1];
      AllReceivers(package, receivers[..|receivers| - 1]) + ReceiverBlock(ReceiverLabel(package, r), r.actions)
  }

  method ReportAllReceivers(package: Option<string>, receivers: seq<Receiver>) returns (printed: seq<Finding>)
    ensures printed == AllReceivers(package, receivers)
  {
    printed := [];
    var i := 0;
    while i < |receivers|
      invariant 0 <= i <= |receivers|
      invariant printed == AllReceivers(package, receivers[..i])
    {
      assert receivers[..i + 1][..i] == receivers[..i];
      var receiver := receivers[i];
      var name := if receiver.names != [] then receiver.names[0] else "Unknown";
      var block := ReportReceiver(QualifyName(package, name), receiver.actions);
      printed := printed + block;
      i := i + 1;
    }
    assert receivers[..i] == receivers;
  }

  /** The receiver line, then one line per intent-filter action. */
  method ReportReceiver(q: string, actions: seq<string>) returns (block: seq<Finding>)
    ensures block == ReceiverBlock(q, actions)
  {
    block := [Finding(ReceiverName, q)];
    var j := 0;
    while j < |actions|
      invariant 0 <= j <= |actions|
      invariant block == [Finding(ReceiverName, q)] + Tag(ReceiverAction, actions[..j])
    {
      TagSnoc(ReceiverAction, actions[..j], actions[j]);
      assert actions[..j + 1] == actions[..j] + [actions[j]];
      block := block + [Finding(ReceiverAction, actions[j])];
      j := j + 1;
    }
    assert actions[..j] == actions;
  }

  /** The intent-filter actions of all receivers, in document order. */
  function Actions(receivers: seq<Receiver>): seq<string> {
    if receivers == [] then []
    else Actions(receivers[..|receivers| - 1]) + receivers[|receivers| - 1].actions
  }

  /** One receiver line per receiver, in document order, "Unknown" for a receiver without a name. */
  lemma {:induction false} AllReceiversNames(package: Option<string>, receivers: seq<Receiver>)
    ensures |OfKind(AllReceivers(package, receivers), ReceiverName)| == |receivers|
    ensures forall i | 0 <= i < |receivers| ::
      OfKind(AllReceivers(package, receivers), ReceiverName)[i] == ReceiverLabel(package, receivers[i])
  {
    if receivers != [] {
      var n := |receivers| - 1;
      var r := receivers[n];
      var q := ReceiverLabel(package, r);
      var prev := AllReceivers(package, receivers[..n]);
      AllReceiversNames(package, receivers[..n]);
      BlockKinds(q, r.actions);
      OfKindAppend(prev, ReceiverBlock(q, r.actions), ReceiverName);
      var names := OfKind(AllReceivers(package, receivers), ReceiverName);
      assert names == OfKind(prev, ReceiverName) + [q];
      forall i | 0 <= i < |receivers| ensures names[i] == ReceiverLabel(package, receivers[i]) {
        if i < n {
          assert receivers[..n][i] == receivers[i];
        }
      }
    }
  }

  /** Every action of every receiver is printed, in document order. */
  lemma {:induction false} AllReceiversActions(package: Option<string>, receivers: seq<Receiver>)
    ensures OfKind(AllReceivers(package, receivers), ReceiverAction) == Actions(receivers)
  {
    if receivers != [] {
      var n := |receivers| - 1;
      var r := receivers[n];
      var q := ReceiverLabel(package, r);
      AllReceiversActions(package, receivers[..n]);
      BlockKinds(q, r.actions);
      OfKindAppend(AllReceivers(package, receivers[..n]), ReceiverBlock(q, r.actions), ReceiverAction);
    }
  }

  /** A receiver block holds one name line and its actions, nothing else. */
  lemma BlockKinds(q: string, actions: seq<string>)
    ensures OfKind(ReceiverBlock(q, actions), ReceiverName) == [q]
    ensures OfKind(ReceiverBlock(q, actions), ReceiverAction) == actions
    ensures forall kind | kind != ReceiverName && kind != ReceiverAction :: OfKind(ReceiverBlock(q, actions), kind) == []
  {
    forall kind | true
      ensures OfKind(ReceiverBlock(q, actions), kind) == (if kind == ReceiverName then [q] else []) + (if kind == ReceiverAction then actions else [])
    {
      OfKindSingle(Finding(ReceiverName, q), kind);
      OfKindTag(ReceiverAction, actions, kind);
      OfKindAppend([Finding(ReceiverName, q)], Tag(ReceiverAction, actions), kind);
    }
  }

  /** The receiver loop prints receiver names and actions only. */
  lemma {:induction false} AllReceiversOtherKinds(package: Option<string>, receivers: seq<Receiver>, kind: Kind)
    requires kind != ReceiverName && kind != ReceiverAction
    ensures OfKind(AllReceivers(package, receivers), kind) == []
  {
    if receivers != [] {
      var n := |receivers| - 1;
      var r := receivers[n];
      AllReceiversOtherKinds(package, receivers[..n], kind);
      BlockKinds(ReceiverLabel(package, r), r.actions);
      OfKindAppend(AllReceivers(package, receivers[..n]), ReceiverBlock(ReceiverLabel(package, r), r.actions), kind);
    }
  }

  /** Everything after the launcher branch: activities, services, receivers, providers, unfiltered. */
  function Body(m: Manifest): seq<Finding> {
    Tag(Activity, Reported(m.package, m.activities, []))
    + Tag(Service, Reported(m.package, m.services, []))
    + AllReceivers(m.package, m.receivers)
    + Tag(Provider, Reported(m.package, m.providers, []))
  }

  /**
   * The script for a permission table. `launcherIndexed` says whether the
   * launcher branch qualifies the first launcher name (`main_activity[0]`)
   * or, as written, the list itself, which has no `startswith` and raises
   * AttributeError.
   */
  function ScriptWith(m: Manifest, table: seq<string>, launcherIndexed: bool): Run {
    var pre := Preamble(m.package, table, m.permissions);
    if m.applications == [] then Run(pre, Some(IndexError))
    else
      var app := [Finding(Application, QualifyName(m.package, m.applications[0]))];
      if m.launchers != [] && !launcherIndexed then Run(pre + app, Some(AttributeError))
      else Run(pre + app + FirstIfKept(LauncherActivity, m.package, m.launchers, []) + Body(m), None)
  }

  /** The script as written. */
  function Expected(m: Manifest): Run {
    ScriptWith(m, ManifestAnalysis.DangerousPermissions, false)
  }

  /** The script with the launcher branch qualifying `main_activity[0]`. */
  function Corrected(m: Manifest): Run {
    ScriptWith(m, ManifestAnalysis.DangerousPermissions, true)
  }

  /** The script as written, step by step. */
  method Analyze(m: Manifest) returns (r: Run)
    ensures r == Expected(m)
  {
    var hits := ScanPermissions(ManifestAnalysis.DangerousPermissions, m.permissions);
    var printed := [Finding(MainPackage, PackageText(m.package))] + Tag(DangerousPermission, hits);
    if m.applications == [] {
      return Run(printed, Some(IndexError));
    }
    printed := printed + [Finding(Application, QualifyName(m.package, m.applications[0]))];
    if m.launchers != [] {
      return Run(printed, Some(AttributeError));
    }
    var activities := ReportNames(m.package, m.activities, []);
    var services := ReportNames(m.package, m.services, []);
    var receivers := ReportAllReceivers(m.package, m.receivers);
    var providers := ReportNames(m.package, m.providers, []);
    var body := Tag(Activity, activities) + Tag(Service, services) + receivers + Tag(Provider, providers);
    assert body == Body(m);
    r := Run(printed + [] + body, None);
  }

  /** How the script ends: IndexError without an application name, otherwise AttributeError whenever there is a launcher. */
  lemma ScriptWithCrash(m: Manifest, table: seq<string>, launcherIndexed: bool)
    ensures ScriptWith(m, table, launcherIndexed).crash ==
      if m.applications == [] then Some(IndexError)
      else if m.launchers != [] && !launcherIndexed then Some(AttributeError)
      else None
  {
  }

  lemma AnalyzeCrash(m: Manifest)
    ensures Expected(m).crash ==
      if m.applications == [] then Some(IndexError)
      else if m.launchers != [] then Some(AttributeError)
      else None
    ensures Corrected(m).crash.Some? <==> m.applications == []
  {
    ScriptWithCrash(m, ManifestAnalysis.DangerousPermissions, false);
    ScriptWithCrash(m, ManifestAnalysis.DangerousPermissions, true);
  }

  /** The body seen through OfKind, piece by piece. */
  lemma BodyParts(m: Manifest, kind: Kind)
    ensures OfKind(Body(m), kind)
      == OfKind(Tag(Activity, Reported(m.package, m.activities, [])), kind)
       + OfKind(Tag(Service, Reported(m.package, m.services, [])), kind)
       + OfKind(AllReceivers(m.package, m.receivers), kind)
       + OfKind(Tag(Provider, Reported(m.package, m.providers, [])), kind)
  {
    var acts := Tag(Activity, Reported(m.package, m.activities, []));
    var svcs := Tag(Service, Reported(m.package, m.services, []));
    var recs := AllReceivers(m.package, m.receivers);
    var provs := Tag(Provider, Reported(m.package, m.providers, []));
    OfKindAppend(acts, svcs, kind);
    OfKindAppend(acts + svcs, recs, kind);
    OfKindAppend(acts + svcs + recs, provs, kind);
  }

  /** The body's activities, services and providers are the unfiltered reports of their lists. */
  lemma BodyTagged(m: Manifest, kind: Kind)
    requires kind in {Activity, Service, Provider}
    ensures OfKind(Body(m), kind) == Reported(m.package,
      if kind == Activity then m.activities else if kind == Service then m.services else m.providers, [])
  {
    BodyParts(m, kind);
    AllReceiversOtherKinds(m.package, m.receivers, kind);
    OfKindTag(Activity, Reported(m.package, m.activities, []), kind);
    OfKindTag(Service, Reported(m.package, m.services, []), kind);
    OfKindTag(Provider, Reported(m.package, m.providers, []), kind);
  }

  /** The body's receiver names and actions come from the receiver loop alone. */
  lemma BodyReceivers(m: Manifest, kind: Kind)
    requires kind == ReceiverName || kind == ReceiverAction
    ensures OfKind(Body(m), kind) == OfKind(AllReceivers(m.package, m.receivers), kind)
  {
    var recs := OfKind(AllReceivers(m.package, m.receivers), kind);
    BodyParts(m, kind);
    OfKindTag(Activity, Reported(m.package, m.activities, []), kind);
    OfKindTag(Service, Reported(m.package, m.services, []), kind);
    OfKindTag(Provider, Reported(m.package, m.providers, []), kind);
    assert [] + [] + recs + [] == recs;
  }

  /** The body prints no other kind. */
  lemma BodyOther(m: Manifest, kind: Kind)
    requires kind !in {Activity, Service, Provider, ReceiverName, ReceiverAction}
    ensures OfKind(Body(m), kind) == []
  {
    BodyParts(m, kind);
    AllReceiversOtherKinds(m.package, m.receivers, kind);
    OfKindTag(Activity, Reported(m.package, m.activities, []), kind);
    OfKindTag(Service, Reported(m.package, m.services, []), kind);
    OfKindTag(Provider, Reported(m.package, m.providers, []), kind);
  }

  /** The launcher line is printed only by the corrected branch, and then for the first launcher. */
  lemma ScriptWithLauncher(m: Manifest, table: seq<string>, launcherIndexed: bool)
    ensures OfKind(ScriptWith(m, table, launcherIndexed).printed, LauncherActivity) ==
      if launcherIndexed && m.applications != [] && m.launchers != []
      then [QualifyName(m.package, m.launchers[0])] else []
  {
    var pre := Preamble(m.package, table, m.permissions);
    PreambleKinds(m.package, table, m.permissions, LauncherActivity);
    if m.applications != [] {
      var app := [Finding(Application, QualifyName(m.package, m.applications[0]))];
      var launcher := FirstIfKept(LauncherActivity, m.package, m.launchers, []);
      OfKindSingle(app[0], LauncherActivity);
      OfKindAppend(pre, app, LauncherActivity);
      if m.launchers == [] || launcherIndexed {
        OfKindFirstIfKept(LauncherActivity, m.package, m.launchers, [], LauncherActivity);
        BodyOther(m, LauncherActivity);
        OfKindAppend(pre + app, launcher, LauncherActivity);
        OfKindAppend(pre + app + launcher, Body(m), LauncherActivity);
      }
    }
  }

  /**
   * As written, the launcher line is never printed: whenever the manifest
   * has a launcher activity the branch that would print it fails, and no
   * activity, service, receiver or provider is printed either.
   */
  lemma LauncherNeverPrinted(m: Manifest)
    ensures OfKind(Expected(m).printed, LauncherActivity) == []
    ensures m.applications != [] && m.launchers != [] ==>
      Expected(m).crash == Some(AttributeError) && OfKind(Expected(m).printed, Activity) == []
  {
    ScriptWithLauncher(m, ManifestAnalysis.DangerousPermissions, false);
    if m.applications != [] && m.launchers != [] {
      ScriptWithOther(m, ManifestAnalysis.DangerousPermissions, false, Activity);
    }
  }

  /** A failed launcher branch leaves only the preamble and the application line. */
  lemma ScriptWithOther(m: Manifest, table: seq<string>, launcherIndexed: bool, kind: Kind)
    requires m.applications != [] && m.launchers != [] && !launcherIndexed
    requires kind !in {MainPackage, DangerousPermission, Application}
    ensures OfKind(ScriptWith(m, table, launcherIndexed).printed, kind) == []
  {
    var pre := Preamble(m.package, table, m.permissions);
    var app := [Finding(Application, QualifyName(m.package, m.applications[0]))];
    PreambleKinds(m.package, table, m.permissions, kind);
    OfKindSingle(app[0], kind);
    OfKindAppend(pre, app, kind);
  }

  /** A run that gets past the launcher branch reports each kind of the body in full. */
  lemma ScriptWithBody(m: Manifest, table: seq<string>, launcherIndexed: bool, kind: Kind)
    requires ScriptWith(m, table, launcherIndexed).crash.None?
    requires kind !in {MainPackage, DangerousPermission, Application, LauncherActivity}
    ensures OfKind(ScriptWith(m, table, launcherIndexed).printed, kind) == OfKind(Body(m), kind)
  {
    var pre := Preamble(m.package, table, m.permissions);
    var app := [Finding(Application, QualifyName(m.package, m.applications[0]))];
    var launcher := FirstIfKept(LauncherActivity, m.package, m.launchers, []);
    PreambleKinds(m.package, table, m.permissions, kind);
    OfKindSingle(app[0], kind);
    OfKindFirstIfKept(LauncherActivity, m.package, m.launchers, [], kind);
    OfKindAppend(pre, app, kind);
    OfKindAppend(pre + app, launcher, kind);
    OfKindAppend(pre + app + launcher, Body(m), kind);
  }

  /**
   * With the launcher branch corrected, a manifest with an application name
   * is reported in full: the first launcher, every activity, service and
   * provider qualified and in manifest order, one receiver line per receiver
   * ("Unknown" when it has no name) and every receiver action.
   */
  lemma CorrectedReportsAll(m: Manifest)
    requires m.applications != []
    ensures Corrected(m).crash == None
    ensures OfKind(Corrected(m).printed, LauncherActivity)
         == if m.launchers != [] then [QualifyName(m.package, m.launchers[0])] else []
    ensures |OfKind(Corrected(m).printed, Activity)| == |m.activities|
    ensures forall i | 0 <= i < |m.activities| ::
      OfKind(Corrected(m).printed, Activity)[i] == QualifyName(m.package, m.activities[i])
    ensures |OfKind(Corrected(m).printed, ReceiverName)| == |m.receivers|
    ensures forall i | 0 <= i < |m.receivers| ::
      OfKind(Corrected(m).printed, ReceiverName)[i] == ReceiverLabel(m.package, m.receivers[i])
    ensures OfKind(Corrected(m).printed, ReceiverAction) == Actions(m.receivers)
  {
    var t := ManifestAnalysis.DangerousPermissions;
    ScriptWithCrash(m, t, true);
    ScriptWithLauncher(m, t, true);
    ScriptWithBody(m, t, true, Activity);
    ScriptWithBody(m, t, true, ReceiverName);
    ScriptWithBody(m, t, true, ReceiverAction);
    BodyTagged(m, Activity);
    BodyReceivers(m, ReceiverName);
    BodyReceivers(m, ReceiverAction);
    ReportedUnfiltered(m.package, m.activities);
    AllReceiversNames(m.package, m.receivers);
    AllReceiversActions(m.package, m.receivers);
  }

  /**
   * As written, a run that completes (an application name and no launcher)
   * reports every service and provider qualified and in manifest order, one
   * receiver line per receiver and every receiver action: nothing is filtered.
   */
  lemma CompletedReportsAll(m: Manifest)
    requires Expected(m).crash == None
    ensures m.applications != [] && m.launchers == []
    ensures |OfKind(Expected(m).printed, Service)| == |m.services|
    ensures forall i | 0 <= i < |m.services| ::
      OfKind(Expected(m).printed, Service)[i] == QualifyName(m.package, m.services[i])
    ensures |OfKind(Expected(m).printed, Provider)| == |m.providers|
    ensures forall i | 0 <= i < |m.providers| ::
      OfKind(Expected(m).printed, Provider)[i] == QualifyName(m.package, m.providers[i])
    ensures |OfKind(Expected(m).printed, ReceiverName)| == |m.receivers|
    ensures OfKind(Expected(m).printed, ReceiverAction) == Actions(m.receivers)
  {
    var t := ManifestAnalysis.DangerousPermissions;
    ScriptWithCrash(m, t, false);
    ScriptWithBody(m, t, false, Service);
    ScriptWithBody(m, t, false, Provider);
    ScriptWithBody(m, t, false, ReceiverName);
    ScriptWithBody(m, t, false, ReceiverAction);
    BodyTagged(m, Service);
    BodyTagged(m, Provider);
    BodyReceivers(m, ReceiverName);
    BodyReceivers(m, ReceiverAction);
    ReportedUnfiltered(m.package, m.services);
    ReportedUnfiltered(m.package, m.providers);
    AllReceiversNames(m.package, m.receivers);
    AllReceiversActions(m.package, m.receivers);
  }
}
