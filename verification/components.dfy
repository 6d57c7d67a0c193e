/**
 * What the three manifest scripts share: the manifest as the name lists the
 * XPath queries extract, the findings they print, `qualify_name`,
 * `is_ignorable`, the dangerous-permission scan and the per-kind filter loop.
 */
module Components {
  import opened Wrappers
  import opened Text
  import opened Seqs

  /** A `<receiver>`: its `android:name` attribute values (none when it has no name) and its intent-filter actions. */
  datatype Receiver = Receiver(names: seq<string>, actions: seq<string>)

  /**
   * The manifest as the scripts query it: the `package` attribute (absent
   * when the root has none), the `uses-permission` names, the application
   * names, the names of launcher activities (those with a MAIN action and a
   * LAUNCHER category), then every activity, service, receiver and provider
   * in document order.
   */
  datatype Manifest = Manifest(
    package: Option<string>,
    permissions: seq<string>,
    applications: seq<string>,
    launchers: seq<string>,
    activities: seq<string>,
    services: seq<string>,
    receivers: seq<Receiver>,
    providers: seq<string>)

  /** What a printed "[*] FOUND" line reports. */
  datatype Kind =
    | MainPackage | DangerousPermission | Application | LauncherActivity
    | Activity | Service | ReceiverName | ReceiverAction | Provider

  datatype Finding = Finding(kind: Kind, name: string)

  /** The Python exceptions that end a script early. */
  datatype Crash = IndexError | AttributeError

  /** What a script printed, and the exception that stopped it, if any. */
  datatype Run = Run(printed: seq<Finding>, crash: Option<Crash>)

  /** Running `a` and then, unless `a` crashed, `b`. */
  function Then(a: Run, b: Run): Run {
    if a.crash.Some? then a else Run(a.printed + b.printed, b.crash)
  }

  /** Formatting the package into an f-string: an absent attribute prints as `None`. */
  function PackageText(package: Option<string>): string {
    match package
    case Some(p) => p
    case None => "None"
  }

  /** `qualify_name`: a name starting with `.` is relative to the package. */
  function QualifyName(package: Option<string>, name: string): string {
    if StartsWith(name, ".") then PackageText(package) + name else name
  }

  /**
   * Qualifying only ever puts text in front of the name, and qualifying a
   * qualified name again changes nothing unless the package itself starts
   * with a dot.
   */
  lemma QualifyNameProperties(package: Option<string>, name: string)
    ensures var q := QualifyName(package, name);
      && |name| <= |q| && q[|q| - |name|..] == name
      && (!StartsWith(name, ".") ==> q == name)
      && (!StartsWith(PackageText(package), ".") ==> QualifyName(package, q) == q)
  {
    var q := QualifyName(package, name);
    var p := PackageText(package);
    if StartsWith(name, ".") && !StartsWith(p, ".") && p != [] {
      assert q[..1] == p[..1];
    }
  }

  /** `is_ignorable`: the name starts with one of the prefixes (a raw prefix test). */
  function IsIgnorable(name: string, prefixes: seq<string>): (b: bool)
    ensures b <==> exists k | 0 <= k < |prefixes| :: StartsWith(name, prefixes[k])
  {
    if prefixes == [] then false
    else StartsWith(name, prefixes[0]) || IsIgnorable(name, prefixes[1..])
  }

  /** The qualified names a filter loop prints: those whose qualified form is not ignorable. */
  function Reported(package: Option<string>, names: seq<string>, prefixes: seq<string>): seq<string> {
    if names == [] then []
    else
      var q := QualifyName(package, names[|names| - 1]);
      Reported(package, names[..|names| - 1], prefixes) + (if IsIgnorable(q, prefixes) then [] else [q])
  }

  /** One filter loop over the names of one component kind. */
  method ReportNames(package: Option<string>, names: seq<string>, prefixes: seq<string>) returns (out: seq<string>)
    ensures out == Reported(package, names, prefixes)
  {
    out := [];
    var i := 0;
    while i < |names|
      invariant 0 <= i <= |names|
      invariant out == Reported(package, names[..i], prefixes)
    {
      assert names[..i + 1][..i] == names[..i];
      var q := QualifyName(package, names[i]);
      if !IsIgnorable(q, prefixes) {
        out := out + [q];
      }
      i := i + 1;
    }
    assert names[..i] == names;
  }

  /**
   * Each name is filtered on its own: the report of a concatenation is the
   * concatenation of the reports, so ignoring one component never hides
   * another.
   */
  lemma {:induction false} ReportedAppend(package: Option<string>, a: seq<string>, b: seq<string>, prefixes: seq<string>)
    ensures Reported(package, a + b, prefixes) == Reported(package, a, prefixes) + Reported(package, b, prefixes)
  {
    if b == [] {
      assert a + b == a;
    } else {
      assert (a + b)[..|a + b| - 1] == a + b[..|b| - 1];
      ReportedAppend(package, a, b[..|b| - 1], prefixes);
    }
  }

  /**
   * A name is printed iff it is the qualified form of some manifest name and
   * that qualified form (not the raw attribute) is not ignorable.
   */
  lemma {:induction false} ReportedMembership(package: Option<string>, names: seq<string>, prefixes: seq<string>, x: string)
    ensures x in Reported(package, names, prefixes) <==>
      !IsIgnorable(x, prefixes) && exists i | 0 <= i < |names| :: QualifyName(package, names[i]) == x
  {
    if names != [] {
      var p := names[..|names| - 1];
      ReportedMembership(package, p, prefixes, x);
      if exists i | 0 <= i < |names| :: QualifyName(package, names[i]) == x {
        var i :| 0 <= i < |names| && QualifyName(package, names[i]) == x;
        if i < |p| { assert p[i] == names[i]; }
      }
      if exists i | 0 <= i < |p| :: QualifyName(package, p[i]) == x {
        var i :| 0 <= i < |p| && QualifyName(package, p[i]) == x;
        assert names[i] == p[i];
      }
    }
  }

  /** With no prefixes to ignore, every name is printed, qualified, in manifest order. */
  lemma {:induction false} ReportedUnfiltered(package: Option<string>, names: seq<string>)
    ensures |Reported(package, names, [])| == |names|
    ensures forall i | 0 <= i < |names| :: Reported(package, names, [])[i] == QualifyName(package, names[i])
  {
    if names != [] {
      ReportedUnfiltered(package, names[..|names| - 1]);
    }
  }

  /** The findings of one kind for a list of names, in order. */
  function Tag(kind: Kind, names: seq<string>): seq<Finding> {
    if names == [] then [] else Tag(kind, names[..|names| - 1]) + [Finding(kind, names[|names| - 1])]
  }

  /** Each name becomes one finding of the kind, in order. */
  lemma {:induction false} TagAt(kind: Kind, names: seq<string>)
    ensures |Tag(kind, names)| == |names|
    ensures forall i | 0 <= i < |names| :: Tag(kind, names)[i] == Finding(kind, names[i])
  {
    if names != [] {
      TagAt(kind, names[..|names| - 1]);
    }
  }

  lemma TagSnoc(kind: Kind, names: seq<string>, x: string)
    ensures Tag(kind, names + [x]) == Tag(kind, names) + [Finding(kind, x)]
  {
    assert (names + [x])[..|names|] == names;
  }

  /**
   * The dangerous-permission scan: the table entries that some
   * `uses-permission` of the manifest names, in table order.
   */
  function Scanned(table: seq<string>, perms: seq<string>): seq<string> {
    if table == [] then []
    else Scanned(table[..|table| - 1], perms) + (if table[|table| - 1] in perms then [table[|table| - 1]] else [])
  }

  /** The scan loop: one XPath query per table entry, a finding for each that matches. */
  method ScanPermissions(table: seq<string>, perms: seq<string>) returns (hits: seq<string>)
    ensures hits == Scanned(table, perms)
  {
    hits := [];
    var i := 0;
    while i < |table|
      invariant 0 <= i <= |table|
      invariant hits == Scanned(table[..i], perms)
    {
      assert table[..i + 1][..i] == table[..i];
      var found := table[i] in perms;
      if found {
        hits := hits + [table[i]];
      }
      i := i + 1;
    }
    assert table[..i] == table;
  }

  /** A permission is reported iff it is in the table and the manifest requests it. */
  lemma {:induction false} ScannedMembership(table: seq<string>, perms: seq<string>, x: string)
    ensures x in Scanned(table, perms) <==> x in table && x in perms
  {
    if table != [] {
      var t := table[..|table| - 1];
      ScannedMembership(t, perms, x);
      assert table == t + [table[|table| - 1]];
    }
  }

  /**
   * The scan depends only on which names the manifest requests, not on their
   * order or how often they repeat.
   */
  lemma {:induction false} ScannedIgnoresOrder(table: seq<string>, p1: seq<string>, p2: seq<string>)
    requires forall x :: x in p1 <==> x in p2
    ensures Scanned(table, p1) == Scanned(table, p2)
  {
    if table != [] {
      ScannedIgnoresOrder(table[..|table| - 1], p1, p2);
    }
  }

  /** With a table free of repeats, the reports follow the table's order. */
  lemma {:induction false} ScannedOrder(table: seq<string>, perms: seq<string>)
    requires NoDuplicates(table)
    ensures forall y | y in Scanned(table, perms) :: y in table
    ensures forall i, j | 0 <= i < j < |Scanned(table, perms)| ::
      FirstIndex(table, Scanned(table, perms)[i]) < FirstIndex(table, Scanned(table, perms)[j])
  {
    if table != [] {
      var n := |table| - 1;
      var t := table[..n];
      var h := Scanned(t, perms);
      NoDuplicatesPrefix(table, n);
      ScannedOrder(t, perms);
      forall y | y in h ensures y in table && FirstIndex(table, y) == FirstIndex(t, y) < n {
        FirstIndexPrefix(table, y, n);
      }
      if table[n] in perms {
        var x := table[n];
        var r := h + [x];
        assert Scanned(table, perms) == r;
        assert FirstIndex(table, x) == n;
        forall i, j | 0 <= i < j < |r| ensures FirstIndex(table, r[i]) < FirstIndex(table, r[j]) {
          assert r[i] == h[i];
          if j < |h| {
            assert r[j] == h[j];
          } else {
            assert r[j] == x;
          }
        }
      } else {
        assert Scanned(table, perms) == h;
      }
    }
  }

  /**
   * With a table free of repeats, each permission is reported at most once,
   * and the reports follow the table's order.
   */
  lemma ScannedTableOrder(table: seq<string>, perms: seq<string>)
    requires NoDuplicates(table)
    ensures NoDuplicates(Scanned(table, perms))
    ensures forall i, j | 0 <= i < j < |Scanned(table, perms)| ::
      Scanned(table, perms)[i] in table && Scanned(table, perms)[j] in table &&
      FirstIndex(table, Scanned(table, perms)[i]) < FirstIndex(table, Scanned(table, perms)[j])
  {
    ScannedOrder(table, perms);
  }

  /** The lines printed for a receiver that passes the filter: its name, then its actions. */
  function ReceiverBlock(q: string, actions: seq<string>): seq<Finding> {
    [Finding(ReceiverName, q)] + Tag(ReceiverAction, actions)
  }

  /**
   * The receiver loop of the filtering scripts: `[0]` of a receiver's name
   * list raises IndexError when it has no name; a named receiver whose
   * qualified name is not ignorable is printed with its actions.
   */
  function FilteredReceivers(package: Option<string>, receivers: seq<Receiver>, prefixes: seq<string>): Run {
    if receivers == [] then Run([], None)
    else Then(FilteredReceivers(package, receivers[..|receivers| - 1], prefixes),
              ReceiverStep(package, receivers[|receivers| - 1], prefixes))
  }

  /** One iteration of the receiver loop. */
  function ReceiverStep(package: Option<string>, r: Receiver, prefixes: seq<string>): Run {
    if r.names == [] then Run([], Some(IndexError))
    else
      var q := QualifyName(package, r.names[0]);
      Run(if IsIgnorable(q, prefixes) then [] else ReceiverBlock(q, r.actions), None)
  }

  /** Once a prefix of the receivers has crashed, the later ones change nothing. */
  lemma {:induction false} FilteredReceiversCrashedPrefix(package: Option<string>, receivers: seq<Receiver>, prefixes: seq<string>, k: nat)
    requires k <= |receivers|
    requires FilteredReceivers(package, receivers[..k], prefixes).crash.Some?
    ensures FilteredReceivers(package, receivers, prefixes) == FilteredReceivers(package, receivers[..k], prefixes)
    decreases |receivers| - k
  {
    if k < |receivers| {
      var n := |receivers| - 1;
      var p := receivers[..n];
      assert p[..k] == receivers[..k];
      FilteredReceiversCrashedPrefix(package, p, prefixes, k);
      assert FilteredReceivers(package, receivers, prefixes)
          == Then(FilteredReceivers(package, p, prefixes), ReceiverStep(package, receivers[n], prefixes));
    } else {
      assert receivers[..k] == receivers;
    }
  }

  method ReportReceivers(package: Option<string>, receivers: seq<Receiver>, prefixes: seq<string>) returns (run: Run)
    ensures run == FilteredReceivers(package, receivers, prefixes)
  {
    var printed: seq<Finding> := [];
    var i := 0;
    while i < |receivers|
      invariant 0 <= i <= |receivers|
      invariant FilteredReceivers(package, receivers[..i], prefixes) == Run(printed, None)
    {
      assert receivers[..i + 1][..i] == receivers[..i];
      var receiver := receivers[i];
      if receiver.names == [] {
        FilteredReceiversCrashedPrefix(package, receivers, prefixes, i + 1);
        return Run(printed, Some(IndexError));
      }
      var q := QualifyName(package, receiver.names[0]);
      if !IsIgnorable(q, prefixes) {
        printed := printed + ReceiverBlock(q, receiver.actions);
      }
      i := i + 1;
    }
    assert receivers[..i] == receivers;
    run := Run(printed, None);
  }

  /** The loop crashes iff some receiver has no name, and then with IndexError. */
  lemma {:induction false} FilteredReceiversCrash(package: Option<string>, receivers: seq<Receiver>, prefixes: seq<string>)
    ensures FilteredReceivers(package, receivers, prefixes).crash.Some?
            <==> exists i | 0 <= i < |receivers| :: receivers[i].names == []
    ensures FilteredReceivers(package, receivers, prefixes).crash in {None, Some(IndexError)}
  {
    if receivers != [] {
      var n := |receivers| - 1;
      var p := receivers[..n];
      FilteredReceiversCrash(package, p, prefixes);
      assert FilteredReceivers(package, receivers, prefixes)
          == Then(FilteredReceivers(package, p, prefixes), ReceiverStep(package, receivers[n], prefixes));
      SomeNamelessSnoc(receivers, p);
    }
  }

  /** Some receiver of a list has no name iff one of all but the last has none, or the last has none. */
  lemma SomeNamelessSnoc(receivers: seq<Receiver>, p: seq<Receiver>)
    requires receivers != [] && p == receivers[..|receivers| - 1]
    ensures (exists i | 0 <= i < |receivers| :: receivers[i].names == [])
        <==> (exists i | 0 <= i < |p| :: p[i].names == []) || receivers[|receivers| - 1].names == []
  {
    var n := |receivers| - 1;
    if exists i | 0 <= i < |p| :: p[i].names == [] {
      var i :| 0 <= i < |p| && p[i].names == [];
      assert receivers[i] == p[i];
    }
    if exists i | 0 <= i < |receivers| :: receivers[i].names == [] {
      var i :| 0 <= i < |receivers| && receivers[i].names == [];
      if i < n { assert p[i] == receivers[i]; }
    }
  }

  /**
   * A receiver action is printed only under a receiver that has a name whose
   * qualified form is not ignorable, and it is one of that receiver's actions.
   */
  lemma {:induction false} ActionsOnlyUnderReportedReceivers(package: Option<string>, receivers: seq<Receiver>, prefixes: seq<string>, f: Finding)
    requires f in FilteredReceivers(package, receivers, prefixes).printed && f.kind == ReceiverAction
    ensures exists i | 0 <= i < |receivers| ::
      && receivers[i].names != []
      && !IsIgnorable(QualifyName(package, receivers[i].names[0]), prefixes)
      && f.name in receivers[i].actions
  {
    var n := |receivers| - 1;
    var p := receivers[..n];
    var prev := FilteredReceivers(package, p, prefixes);
    if f in prev.printed {
      ActionsOnlyUnderReportedReceivers(package, p, prefixes, f);
      var i :| 0 <= i < |p| && p[i].names != [] && !IsIgnorable(QualifyName(package, p[i].names[0]), prefixes)
               && f.name in p[i].actions;
      assert receivers[i] == p[i];
    } else {
      ActionInStep(package, receivers[n], prefixes, f);
    }
  }

  /** An action printed by one step of the receiver loop belongs to a named, reported receiver. */
  lemma ActionInStep(package: Option<string>, r: Receiver, prefixes: seq<string>, f: Finding)
    requires f in ReceiverStep(package, r, prefixes).printed && f.kind == ReceiverAction
    ensures r.names != [] && !IsIgnorable(QualifyName(package, r.names[0]), prefixes) && f.name in r.actions
  {
    var block := ReceiverBlock(QualifyName(package, r.names[0]), r.actions);
    var k :| 0 <= k < |block| && block[k] == f;
    TagAt(ReceiverAction, r.actions);
    assert f == Tag(ReceiverAction, r.actions)[k - 1];
  }

  /** The first names of the receivers that have one, in manifest order. */
  function FirstNames(receivers: seq<Receiver>): seq<string> {
    if receivers == [] then []
    else
      var r := receivers[|receivers| - 1];
      FirstNames(receivers[..|receivers| - 1]) + (if r.names == [] then [] else [r.names[0]])
  }

  /** What one receiver contributes when the loop gets past it: its block when it is kept, else nothing. */
  function OwnBlock(package: Option<string>, r: Receiver, prefixes: seq<string>): seq<Finding> {
    if r.names != [] && !IsIgnorable(QualifyName(package, r.names[0]), prefixes)
    then ReceiverBlock(QualifyName(package, r.names[0]), r.actions) else []
  }

  /** The blocks of the named receivers whose qualified name is not ignorable, in manifest order. */
  function KeptBlocks(package: Option<string>, receivers: seq<Receiver>, prefixes: seq<string>): seq<Finding> {
    if receivers == [] then []
    else KeptBlocks(package, receivers[..|receivers| - 1], prefixes) + OwnBlock(package, receivers[|receivers| - 1], prefixes)
  }

  /**
   * A receiver loop that completes prints, in manifest order, one block per
   * receiver whose qualified name is not ignorable: its name, then its
   * actions. Ignored receivers print nothing.
   */
  lemma {:induction false} FilteredReceiversCompleted(package: Option<string>, receivers: seq<Receiver>, prefixes: seq<string>)
    requires FilteredReceivers(package, receivers, prefixes).crash.None?
    ensures FilteredReceivers(package, receivers, prefixes).printed == KeptBlocks(package, receivers, prefixes)
  {
    if receivers != [] {
      var n := |receivers| - 1;
      var p := receivers[..n];
      assert FilteredReceivers(package, receivers, prefixes)
          == Then(FilteredReceivers(package, p, prefixes), ReceiverStep(package, receivers[n], prefixes));
      FilteredReceiversCompleted(package, p, prefixes);
    }
  }

  /** One receiver's receiver line is its qualified first name, when it has one that is not ignorable. */
  lemma KeptOwnName(package: Option<string>, r: Receiver, prefixes: seq<string>)
    ensures OfKind(OwnBlock(package, r, prefixes), ReceiverName) == Reported(package, FirstNames([r]), prefixes)
  {
    assert [r][..0] == [];
    if r.names != [] {
      var q := QualifyName(package, r.names[0]);
      assert FirstNames([r]) == [r.names[0]];
      assert [r.names[0]][..0] == [];
      if !IsIgnorable(q, prefixes) {
        OfKindSingle(Finding(ReceiverName, q), ReceiverName);
        OfKindTag(ReceiverAction, r.actions, ReceiverName);
        OfKindAppend([Finding(ReceiverName, q)], Tag(ReceiverAction, r.actions), ReceiverName);
      }
    }
  }

  /** The receiver lines of the kept blocks are the filtered, qualified first names. */
  lemma {:induction false} KeptReceiverNames(package: Option<string>, receivers: seq<Receiver>, prefixes: seq<string>)
    ensures OfKind(KeptBlocks(package, receivers, prefixes), ReceiverName) == Reported(package, FirstNames(receivers), prefixes)
  {
    if receivers != [] {
      var n := |receivers| - 1;
      var p, r := receivers[..n], receivers[n];
      KeptReceiverNames(package, p, prefixes);
      KeptOwnName(package, r, prefixes);
      OfKindAppend(KeptBlocks(package, p, prefixes), OwnBlock(package, r, prefixes), ReceiverName);
      assert [r][..0] == [];
      assert FirstNames(receivers) == FirstNames(p) + FirstNames([r]);
      ReportedAppend(package, FirstNames(p), FirstNames([r]), prefixes);
    }
  }

  /** The names of the findings of one kind, in printing order. */
  function OfKind(fs: seq<Finding>, kind: Kind): seq<string> {
    if fs == [] then []
    else OfKind(fs[..|fs| - 1], kind) + (if fs[|fs| - 1].kind == kind then [fs[|fs| - 1].name] else [])
  }

  lemma {:induction false} OfKindAppend(a: seq<Finding>, b: seq<Finding>, kind: Kind)
    ensures OfKind(a + b, kind) == OfKind(a, kind) + OfKind(b, kind)
  {
    if b == [] {
      assert a + b == a;
    } else {
      assert (a + b)[..|a + b| - 1] == a + b[..|b| - 1];
      OfKindAppend(a, b[..|b| - 1], kind);
    }
  }

  lemma {:induction false} OfKindTag(tag: Kind, names: seq<string>, kind: Kind)
    ensures OfKind(Tag(tag, names), kind) == if tag == kind then names else []
  {
    if names != [] {
      var t := Tag(tag, names);
      OfKindTag(tag, names[..|names| - 1], kind);
      assert t[..|t| - 1] == Tag(tag, names[..|names| - 1]);
    }
  }

  /** The first name of a list, qualified, when there is one and it is not ignorable; later names are never looked at. */
  function FirstIfKept(kind: Kind, package: Option<string>, names: seq<string>, prefixes: seq<string>): seq<Finding> {
    if names != [] && !IsIgnorable(QualifyName(package, names[0]), prefixes)
    then [Finding(kind, QualifyName(package, names[0]))]
    else []
  }

  /** The receiver loop prints receiver names and actions only. */
  lemma {:induction false} OfKindFilteredReceivers(package: Option<string>, receivers: seq<Receiver>, prefixes: seq<string>, kind: Kind)
    requires kind != ReceiverName && kind != ReceiverAction
    ensures OfKind(FilteredReceivers(package, receivers, prefixes).printed, kind) == []
  {
    if receivers != [] {
      var n := |receivers| - 1;
      var prev := FilteredReceivers(package, receivers[..n], prefixes);
      var step := ReceiverStep(package, receivers[n], prefixes);
      OfKindFilteredReceivers(package, receivers[..n], prefixes, kind);
      if prev.crash.None? {
        OfKindAppend(prev.printed, step.printed, kind);
        if step.printed != [] {
          var q := QualifyName(package, receivers[n].names[0]);
          OfKindAppend([Finding(ReceiverName, q)], Tag(ReceiverAction, receivers[n].actions), kind);
          OfKindTag(ReceiverAction, receivers[n].actions, kind);
        }
      }
    }
  }

  /** One finding, seen through OfKind. */
  lemma OfKindSingle(f: Finding, kind: Kind)
    ensures OfKind([f], kind) == if f.kind == kind then [f.name] else []
  {
    assert [f][..0] == [];
  }

  /** The package line, then a finding for every table entry the manifest requests. */
  function Preamble(package: Option<string>, table: seq<string>, perms: seq<string>): seq<Finding> {
    [Finding(MainPackage, PackageText(package))] + Tag(DangerousPermission, Scanned(table, perms))
  }

  /** Behind a head with no finding of a kind, the findings of that kind are those of the two parts that follow. */
  lemma OfKindBehind(head: seq<Finding>, a: seq<Finding>, b: seq<Finding>, kind: Kind)
    requires OfKind(head, kind) == []
    ensures OfKind(head + a + b, kind) == OfKind(a, kind) + OfKind(b, kind)
  {
    OfKindAppend(head, a, kind);
    OfKindAppend(head + a, b, kind);
  }

  /** The dangerous permissions of the preamble are exactly the scan's hits. */
  lemma PreambleHits(package: Option<string>, table: seq<string>, perms: seq<string>)
    ensures OfKind(Preamble(package, table, perms), DangerousPermission) == Scanned(table, perms)
  {
    OfKindSingle(Finding(MainPackage, PackageText(package)), DangerousPermission);
    OfKindTag(DangerousPermission, Scanned(table, perms), DangerousPermission);
    OfKindAppend([Finding(MainPackage, PackageText(package))], Tag(DangerousPermission, Scanned(table, perms)), DangerousPermission);
  }

  /** The preamble holds the package and the dangerous permissions, nothing else. */
  lemma PreambleKinds(package: Option<string>, table: seq<string>, perms: seq<string>, kind: Kind)
    requires kind != MainPackage && kind != DangerousPermission
    ensures OfKind(Preamble(package, table, perms), kind) == []
  {
    OfKindSingle(Finding(MainPackage, PackageText(package)), kind);
    OfKindTag(DangerousPermission, Scanned(table, perms), kind);
    OfKindAppend([Finding(MainPackage, PackageText(package))], Tag(DangerousPermission, Scanned(table, perms)), kind);
  }

  /**
   * The middle of a filtering script: the application, the first launcher
   * activity, the activities and the services that pass the filter.
   */
  function Listed(m: Manifest, prefixes: seq<string>): seq<Finding> {
    FirstIfKept(Application, m.package, m.applications, prefixes)
    + FirstIfKept(LauncherActivity, m.package, m.launchers, prefixes)
    + Tag(Activity, Reported(m.package, m.activities, prefixes))
    + Tag(Service, Reported(m.package, m.services, prefixes))
  }

  /** The middle of the filtering scripts: the application, the first launcher, then the activity and service loops. */
  method ListComponents(m: Manifest, prefixes: seq<string>) returns (listed: seq<Finding>)
    ensures listed == Listed(m, prefixes)
  {
    listed := [];
    if m.applications != [] && !IsIgnorable(QualifyName(m.package, m.applications[0]), prefixes) {
      listed := listed + [Finding(Application, QualifyName(m.package, m.applications[0]))];
    }
    assert listed == FirstIfKept(Application, m.package, m.applications, prefixes);
    if m.launchers != [] && !IsIgnorable(QualifyName(m.package, m.launchers[0]), prefixes) {
      listed := listed + [Finding(LauncherActivity, QualifyName(m.package, m.launchers[0]))];
    }
    assert listed == FirstIfKept(Application, m.package, m.applications, prefixes)
                   + FirstIfKept(LauncherActivity, m.package, m.launchers, prefixes);
    var activities := ReportNames(m.package, m.activities, prefixes);
    listed := listed + Tag(Activity, activities);
    var services := ReportNames(m.package, m.services, prefixes);
    listed := listed + Tag(Service, services);
  }

  lemma OfKindFirstIfKept(tag: Kind, package: Option<string>, names: seq<string>, prefixes: seq<string>, kind: Kind)
    ensures OfKind(FirstIfKept(tag, package, names, prefixes), kind)
         == if tag == kind && FirstIfKept(tag, package, names, prefixes) != [] then [QualifyName(package, names[0])] else []
  {
    if FirstIfKept(tag, package, names, prefixes) != [] {
      OfKindSingle(Finding(tag, QualifyName(package, names[0])), kind);
    }
  }

  /**
   * Each kind of the middle part is reported on its own: the application and
   * the launcher at most once, activities and services as the filter loops
   * report them, nothing of any other kind.
   */
  lemma ListedApplication(m: Manifest, prefixes: seq<string>)
    ensures OfKind(Listed(m, prefixes), Application)
      == if m.applications != [] && !IsIgnorable(QualifyName(m.package, m.applications[0]), prefixes)
         then [QualifyName(m.package, m.applications[0])] else []
  {
    var kind := Application;
    var a := FirstIfKept(Application, m.package, m.applications, prefixes);
    assert OfKind(Listed(m, prefixes), kind) == OfKind(a, kind) by {
      ListedParts(m, prefixes, kind);
      OfKindFirstIfKept(LauncherActivity, m.package, m.launchers, prefixes, kind);
      OfKindTag(Activity, Reported(m.package, m.activities, prefixes), kind);
      OfKindTag(Service, Reported(m.package, m.services, prefixes), kind);
    }
    if a != [] {
      OfKindSingle(a[0], kind);
    }
  }

  lemma ListedLauncher(m: Manifest, prefixes: seq<string>)
    ensures OfKind(Listed(m, prefixes), LauncherActivity)
      == if m.launchers != [] && !IsIgnorable(QualifyName(m.package, m.launchers[0]), prefixes)
         then [QualifyName(m.package, m.launchers[0])] else []
  {
    var kind := LauncherActivity;
    ListedParts(m, prefixes, kind);
    OfKindFirstIfKept(Application, m.package, m.applications, prefixes, kind);
    OfKindFirstIfKept(LauncherActivity, m.package, m.launchers, prefixes, kind);
    OfKindTag(Activity, Reported(m.package, m.activities, prefixes), kind);
    OfKindTag(Service, Reported(m.package, m.services, prefixes), kind);
  }

  lemma ListedActivities(m: Manifest, prefixes: seq<string>)
    ensures OfKind(Listed(m, prefixes), Activity) == Reported(m.package, m.activities, prefixes)
  {
    var kind := Activity;
    ListedParts(m, prefixes, kind);
    OfKindFirstIfKept(Application, m.package, m.applications, prefixes, kind);
    OfKindFirstIfKept(LauncherActivity, m.package, m.launchers, prefixes, kind);
    OfKindTag(Activity, Reported(m.package, m.activities, prefixes), kind);
    OfKindTag(Service, Reported(m.package, m.services, prefixes), kind);
  }

  lemma ListedServices(m: Manifest, prefixes: seq<string>)
    ensures OfKind(Listed(m, prefixes), Service) == Reported(m.package, m.services, prefixes)
  {
    var kind := Service;
    ListedParts(m, prefixes, kind);
    OfKindFirstIfKept(Application, m.package, m.applications, prefixes, kind);
    OfKindFirstIfKept(LauncherActivity, m.package, m.launchers, prefixes, kind);
    OfKindTag(Activity, Reported(m.package, m.activities, prefixes), kind);
    OfKindTag(Service, Reported(m.package, m.services, prefixes), kind);
  }

  lemma ListedOther(m: Manifest, prefixes: seq<string>, kind: Kind)
    requires kind !in {Application, LauncherActivity, Activity, Service}
    ensures OfKind(Listed(m, prefixes), kind) == []
  {
    ListedParts(m, prefixes, kind);
    OfKindFirstIfKept(Application, m.package, m.applications, prefixes, kind);
    OfKindFirstIfKept(LauncherActivity, m.package, m.launchers, prefixes, kind);
    OfKindTag(Activity, Reported(m.package, m.activities, prefixes), kind);
    OfKindTag(Service, Reported(m.package, m.services, prefixes), kind);
  }

  /** The middle part seen through OfKind, piece by piece. */
  lemma ListedParts(m: Manifest, prefixes: seq<string>, kind: Kind)
    ensures OfKind(Listed(m, prefixes), kind)
      == OfKind(FirstIfKept(Application, m.package, m.applications, prefixes), kind)
       + OfKind(FirstIfKept(LauncherActivity, m.package, m.launchers, prefixes), kind)
       + OfKind(Tag(Activity, Reported(m.package, m.activities, prefixes)), kind)
       + OfKind(Tag(Service, Reported(m.package, m.services, prefixes)), kind)
  {
    var a := FirstIfKept(Application, m.package, m.applications, prefixes);
    var l := FirstIfKept(LauncherActivity, m.package, m.launchers, prefixes);
    var acts := Tag(Activity, Reported(m.package, m.activities, prefixes));
    var svcs := Tag(Service, Reported(m.package, m.services, prefixes));
    OfKindAppend(a, l, kind);
    OfKindAppend(a + l, acts, kind);
    OfKindAppend(a + l + acts, svcs, kind);
  }

  /** The end of a filtering script: the receiver loop, then, unless it failed, the providers. */
  function Rest(m: Manifest, prefixes: seq<string>): Run {
    Then(FilteredReceivers(m.package, m.receivers, prefixes),
         Run(Tag(Provider, Reported(m.package, m.providers, prefixes)), None))
  }

  /**
   * An end part that completes prints, among its receiver lines, exactly the
   * filtered, qualified first names of the receivers, each followed by its
   * own actions.
   */
  lemma RestReceivers(m: Manifest, prefixes: seq<string>)
    requires Rest(m, prefixes).crash.None?
    ensures FilteredReceivers(m.package, m.receivers, prefixes).crash.None?
    ensures Rest(m, prefixes).printed
         == KeptBlocks(m.package, m.receivers, prefixes) + Tag(Provider, Reported(m.package, m.providers, prefixes))
    ensures OfKind(Rest(m, prefixes).printed, ReceiverName) == Reported(m.package, FirstNames(m.receivers), prefixes)
  {
    var prov := Tag(Provider, Reported(m.package, m.providers, prefixes));
    FilteredReceiversCompleted(m.package, m.receivers, prefixes);
    KeptReceiverNames(m.package, m.receivers, prefixes);
    OfKindTag(Provider, Reported(m.package, m.providers, prefixes), ReceiverName);
    OfKindAppend(KeptBlocks(m.package, m.receivers, prefixes), prov, ReceiverName);
  }

  /** The end part prints no kind other than receivers, their actions and providers; providers only when it did not fail. */
  lemma RestKinds(m: Manifest, prefixes: seq<string>, kind: Kind)
    ensures kind == Provider && Rest(m, prefixes).crash.None? ==>
      OfKind(Rest(m, prefixes).printed, kind) == Reported(m.package, m.providers, prefixes)
    ensures kind !in {ReceiverName, ReceiverAction, Provider} ==> OfKind(Rest(m, prefixes).printed, kind) == []
  {
    var rec := FilteredReceivers(m.package, m.receivers, prefixes);
    var prov := Tag(Provider, Reported(m.package, m.providers, prefixes));
    if kind != ReceiverName && kind != ReceiverAction {
      OfKindFilteredReceivers(m.package, m.receivers, prefixes, kind);
      OfKindTag(Provider, Reported(m.package, m.providers, prefixes), kind);
      OfKindAppend(rec.printed, prov, kind);
    }
  }
}
