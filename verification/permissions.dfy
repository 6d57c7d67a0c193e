/**
 * The permission report of python/permissions.py (and its byte-identical copy
 * python/permisions.py): the `uses-permission` names read from the manifest
 * are split into dangerous, signature and normal lists, then a summary line
 * and one section per non-empty list are printed.
 */
module Permissions {

  /** The protection levels the report distinguishes. */
  datatype Category = Normal | Dangerous | Signature

  /** Permissions that need the user's approval at run time. */
  const DangerousPermissions: seq<string> := [
    "android.permission.ACCEPT_HANDOVER",
    "android.permission.ACCESS_BACKGROUND_LOCATION",
    "android.permission.ACCESS_COARSE_LOCATION",
    "android.permission.ACCESS_FINE_LOCATION",
    "android.permission.ACCESS_MEDIA_LOCATION",
    "android.permission.ACTIVITY_RECOGNITION",
    "android.permission.ADD_VOICEMAIL",
    "android.permission.ANSWER_PHONE_CALLS",
    "android.permission.BLUETOOTH_ADVERTISE",
    "android.permission.BLUETOOTH_CONNECT",
    "android.permission.BLUETOOTH_SCAN",
    "android.permission.BODY_SENSORS",
    "android.permission.BODY_SENSORS_BACKGROUND",
    "android.permission.CALL_PHONE",
    "android.permission.CAMERA",
    "android.permission.GET_ACCOUNTS",
    "android.permission.NEARBY_WIFI_DEVICES",
    "android.permission.POST_NOTIFICATIONS",
    "android.permission.PROCESS_OUTGOING_CALLS",
    "android.permission.READ_CALENDAR",
    "android.permission.READ_CALL_LOG",
    "android.permission.READ_CONTACTS",
    "android.permission.READ_EXTERNAL_STORAGE",
    "android.permission.READ_MEDIA_AUDIO",
    "android.permission.READ_MEDIA_IMAGES",
    "android.permission.READ_MEDIA_VIDEO",
    "android.permission.READ_MEDIA_VISUAL_USER_SELECTED",
    "android.permission.READ_PHONE_NUMBERS",
    "android.permission.READ_PHONE_STATE",
    "android.permission.READ_SMS",
    "android.permission.RECEIVE_MMS",
    "android.permission.RECEIVE_SMS",
    "android.permission.RECEIVE_WAP_PUSH",
    "android.permission.RECORD_AUDIO",
    "android.permission.SEND_SMS",
    "android.permission.USE_SIP",
    "android.permission.UWB_RANGING",
    "android.permission.WRITE_CALENDAR",
    "android.permission.WRITE_CALL_LOG",
    "android.permission.WRITE_CONTACTS",
    "android.permission.WRITE_EXTERNAL_STORAGE"
  ]

  /** Permissions granted only to apps signed with the platform key. */
  const SignaturePermissions: seq<string> := [
    "android.permission.ACCOUNT_MANAGER",
    "android.permission.BATTERY_STATS",
    "android.permission.BIND_ACCESSIBILITY_SERVICE",
    "android.permission.BIND_APPWIDGET",
    "android.permission.BIND_CARRIER_SERVICES",
    "android.permission.BIND_CHOOSER_TARGET_SERVICE",
    "android.permission.BIND_CONDITION_PROVIDER_SERVICE",
    "android.permission.BIND_DEVICE_ADMIN",
    "android.permission.BIND_DREAM_SERVICE",
    "android.permission.BIND_INPUT_METHOD",
    "android.permission.BIND_MIDI_DEVICE_SERVICE",
    "android.permission.BIND_NFC_SERVICE",
    "android.permission.BIND_NOTIFICATION_LISTENER_SERVICE",
    "android.permission.BIND_PRINT_SERVICE",
    "android.permission.BIND_QUICK_SETTINGS_TILE",
    "android.permission.BIND_REMOTEVIEWS",
    "android.permission.BIND_SCREENING_SERVICE",
    "android.permission.BIND_TELECOM_CONNECTION_SERVICE",
    "android.permission.BIND_TEXT_SERVICE",
    "android.permission.BIND_TV_INPUT",
    "android.permission.BIND_VISUAL_VOICEMAIL_SERVICE",
    "android.permission.BIND_VOICE_INTERACTION",
    "android.permission.BIND_VPN_SERVICE",
    "android.permission.BIND_VR_LISTENER_SERVICE",
    "android.permission.BIND_WALLPAPER",
    "android.permission.BRICK",
    "android.permission.BROADCAST_PACKAGE_REMOVED",
    "android.permission.BROADCAST_SMS",
    "android.permission.BROADCAST_WAP_PUSH",
    "android.permission.CALL_PRIVILEGED",
    "android.permission.CAPTURE_AUDIO_OUTPUT",
    "android.permission.CHANGE_COMPONENT_ENABLED_STATE",
    "android.permission.CLEAR_APP_CACHE",
    "android.permission.CONTROL_LOCATION_UPDATES",
    "android.permission.DELETE_CACHE_FILES",
    "android.permission.DELETE_PACKAGES",
    "android.permission.DIAGNOSTIC",
    "android.permission.DUMP",
    "android.permission.FACTORY_TEST",
    "android.permission.FORCE_STOP_PACKAGES",
    "android.permission.GET_PACKAGE_SIZE",
    "android.permission.GLOBAL_SEARCH",
    "android.permission.INSTALL_LOCATION_PROVIDER",
    "android.permission.INSTALL_PACKAGES",
    "android.permission.INSTALL_SHORTCUT",
    "android.permission.INTERACT_ACROSS_USERS",
    "android.permission.INTERACT_ACROSS_USERS_FULL",
    "android.permission.INTERNAL_SYSTEM_WINDOW",
    "android.permission.MANAGE_DOCUMENTS",
    "android.permission.MANAGE_EXTERNAL_STORAGE",
    "android.permission.MANAGE_USB",
    "android.permission.MASTER_CLEAR",
    "android.permission.MEDIA_CONTENT_CONTROL",
    "android.permission.MODIFY_PHONE_STATE",
    "android.permission.MOUNT_FORMAT_FILESYSTEMS",
    "android.permission.MOUNT_UNMOUNT_FILESYSTEMS",
    "android.permission.PACKAGE_USAGE_STATS",
    "android.permission.QUERY_ALL_PACKAGES",
    "android.permission.READ_FRAME_BUFFER",
    "android.permission.READ_LOGS",
    "android.permission.READ_PRIVILEGED_PHONE_STATE",
    "android.permission.REBOOT",
    "android.permission.RECEIVE_BOOT_COMPLETED",
    "android.permission.REQUEST_IGNORE_BATTERY_OPTIMIZATIONS",
    "android.permission.REQUEST_INSTALL_PACKAGES",
    "android.permission.SEND_RESPOND_VIA_MESSAGE",
    "android.permission.SET_ALWAYS_FINISH",
    "android.permission.SET_ANIMATION_SCALE",
    "android.permission.SET_DEBUG_APP",
    "android.permission.SET_PREFERRED_APPLICATIONS",
    "android.permission.SET_PROCESS_LIMIT",
    "android.permission.SET_TIME",
    "android.permission.SET_TIME_ZONE",
    "android.permission.SIGNAL_PERSISTENT_PROCESSES",
    "android.permission.STATUS_BAR",
    "android.permission.SYSTEM_ALERT_WINDOW",
    "android.permission.UPDATE_DEVICE_STATS",
    "android.permission.WRITE_APN_SETTINGS",
    "android.permission.WRITE_GSERVICES",
    "android.permission.WRITE_SECURE_SETTINGS",
    "android.permission.WRITE_SETTINGS"
  ]

  /** The two lookup tables the script consults. */
  datatype Tables = Tables(dangerous: seq<string>, signature: seq<string>)

  /** The tables of the script. */
  const Android := Tables(DangerousPermissions, SignaturePermissions)

  /**
   * The category of one permission name. The dangerous table is consulted
   * first, so a name listed in both tables counts as dangerous; a name in
   * neither table (a custom or unknown permission) counts as normal.
   */
  function Classify(p: string, t: Tables): Category
  {
    if p in t.dangerous then Dangerous
    else if p in t.signature then Signature
    else Normal
  }

  /** The names of `perms` whose category is `c`, in manifest order, repeats kept. */
  function InCategory(perms: seq<string>, c: Category, t: Tables): seq<string>
  {
    if perms == [] then []
    else InCategory(perms[..|perms| - 1], c, t)
         + (if Classify(perms[|perms| - 1], t) == c then [perms[|perms| - 1]] else [])
  }

  /**
   * The categorisation loop: every name is appended to the list of its
   * category, in manifest order.
   */
  method Categorize(perms: seq<string>, t: Tables) returns (dangerous: seq<string>, signature: seq<string>, normal: seq<string>)
    ensures dangerous == InCategory(perms, Dangerous, t)
    ensures signature == InCategory(perms, Signature, t)
    ensures normal == InCategory(perms, Normal, t)
  {
    dangerous, signature, normal := [], [], [];
    var i := 0;
    while i < |perms|
      invariant 0 <= i <= |perms|
      invariant dangerous == InCategory(perms[..i], Dangerous, t)
      invariant signature == InCategory(perms[..i], Signature, t)
      invariant normal == InCategory(perms[..i], Normal, t)
    {
      var perm := perms[i];
      assert perms[..i + 1][..i] == perms[..i];
      if perm in t.dangerous {
        dangerous := dangerous + [perm];
      } else if perm in t.signature {
        signature := signature + [perm];
      } else {
        normal := normal + [perm];
      }
      i := i + 1;
    }
    assert perms[..i] == perms;
  }

  /** Categorising a concatenation categorises each part: manifest order is kept. */
  lemma {:induction false} InCategoryAppend(a: seq<string>, b: seq<string>, c: Category, t: Tables)
    ensures InCategory(a + b, c, t) == InCategory(a, c, t) + InCategory(b, c, t)
  {
    if b == [] {
      assert a + b == a;
    } else {
      var b' := b[..|b| - 1];
      assert (a + b)[..|a + b| - 1] == a + b';
      InCategoryAppend(a, b', c, t);
    }
  }

  /**
   * How often a name occurs in the list of category `c`: as often as in the
   * manifest when `c` is its category, never otherwise. Duplicates are
   * therefore appended each time they occur, and to one list only.
   */
  lemma {:induction false} CategoryCount(perms: seq<string>, c: Category, x: string, t: Tables)
    ensures multiset(InCategory(perms, c, t))[x] == if Classify(x, t) == c then multiset(perms)[x] else 0
  {
    if perms != [] {
      var p := perms[..|perms| - 1];
      CategoryCount(p, c, x, t);
      assert perms == p + [perms[|perms| - 1]];
    }
  }

  /**
   * Which names land in which list: the dangerous table wins over the
   * signature table, and a name in neither is normal.
   */
  lemma CategoryMembers(perms: seq<string>, x: string, t: Tables)
    ensures x in InCategory(perms, Dangerous, t) <==> x in perms && x in t.dangerous
    ensures x in InCategory(perms, Signature, t) <==> x in perms && x !in t.dangerous && x in t.signature
    ensures x in InCategory(perms, Normal, t) <==> x in perms && x !in t.dangerous && x !in t.signature
  {
    CategoryCount(perms, Dangerous, x, t);
    CategoryCount(perms, Signature, x, t);
    CategoryCount(perms, Normal, x, t);
  }

  /**
   * The three lists partition the manifest's permission names: together
   * they hold every name exactly as often as the manifest does, so the three
   * counts of the summary line add up to the number of names read.
   */
  lemma Partition(perms: seq<string>, t: Tables)
    ensures multiset(InCategory(perms, Dangerous, t)) + multiset(InCategory(perms, Signature, t))
            + multiset(InCategory(perms, Normal, t)) == multiset(perms)
    ensures |InCategory(perms, Dangerous, t)| + |InCategory(perms, Signature, t)|
            + |InCategory(perms, Normal, t)| == |perms|
  {
    var d, s, n := InCategory(perms, Dangerous, t), InCategory(perms, Signature, t), InCategory(perms, Normal, t);
    forall x ensures (multiset(d) + multiset(s) + multiset(n))[x] == multiset(perms)[x] {
      CategoryCount(perms, Dangerous, x, t);
      CategoryCount(perms, Signature, x, t);
      CategoryCount(perms, Normal, x, t);
    }
    assert multiset(d) + multiset(s) + multiset(n) == multiset(perms);
    assert |multiset(d + s + n)| == |multiset(perms)|;
  }

  /** One line of the printed report; the text around the items is not modelled. */
  datatype ReportLine =
    | Summary(normal: nat, dangerous: nat, signature: nat)
    | Heading(category: Category)
    | Entry(name: string)

  /** A category's section: its heading and its names, or nothing when it has no names. */
  function Section(c: Category, names: seq<string>): seq<ReportLine>
  {
    if names == [] then [] else [Heading(c)] + Entries(names)
  }

  function Entries(names: seq<string>): (r: seq<ReportLine>)
    ensures |r| == |names|
  {
    if names == [] then [] else [Entry(names[0])] + Entries(names[1..])
  }

  /** The summary line, then the normal, dangerous and signature sections. */
  function Report(dangerous: seq<string>, signature: seq<string>, normal: seq<string>): seq<ReportLine>
  {
    [Summary(|normal|, |dangerous|, |signature|)]
    + Section(Normal, normal) + Section(Dangerous, dangerous) + Section(Signature, signature)
  }

  /** The report for any pair of tables, over the names the manifest yields. */
  method Run(perms: seq<string>, t: Tables) returns (out: seq<ReportLine>)
    ensures out == Report(InCategory(perms, Dangerous, t), InCategory(perms, Signature, t), InCategory(perms, Normal, t))
  {
    var dangerous, signature, normal := Categorize(perms, t);
    out := Report(dangerous, signature, normal);
  }

  /** The script itself: the report with its own two tables. */
  method Script(perms: seq<string>) returns (out: seq<ReportLine>)
    ensures out == Report(InCategory(perms, Dangerous, Android), InCategory(perms, Signature, Android), InCategory(perms, Normal, Android))
  {
    out := Run(perms, Android);
  }

  /** The names printed under the sections, in printing order. */
  function EntryNames(lines: seq<ReportLine>): seq<string>
  {
    if lines == [] then []
    else (if lines[0].Entry? then [lines[0].name] else []) + EntryNames(lines[1..])
  }

  lemma {:induction false} EntryNamesAppend(a: seq<ReportLine>, b: seq<ReportLine>)
    ensures EntryNames(a + b) == EntryNames(a) + EntryNames(b)
  {
    if a == [] {
      assert a + b == b;
    } else {
      assert (a + b)[1..] == a[1..] + b;
      EntryNamesAppend(a[1..], b);
    }
  }

  lemma {:induction false} EntryNamesOfEntries(names: seq<string>)
    ensures EntryNames(Entries(names)) == names
    ensures forall k | 0 <= k < |Entries(names)| :: Entries(names)[k].Entry?
  {
    if names != [] {
      EntryNamesOfEntries(names[1..]);
    }
  }

  /** A section holds a heading only for its own category, and only when it has names. */
  lemma SectionHeading(c: Category, names: seq<string>, h: Category)
    ensures Heading(h) in Section(c, names) <==> h == c && names != []
  {
    EntryNamesOfEntries(names);
    var s := Section(c, names);
    forall k | 1 <= k < |s| ensures s[k].Entry? {
      assert s[k] == Entries(names)[k - 1];
    }
  }

  /** The summary counts add up to the number of permission names read. */
  lemma ReportSummary(perms: seq<string>, t: Tables)
    ensures var out := Report(InCategory(perms, Dangerous, t), InCategory(perms, Signature, t), InCategory(perms, Normal, t));
      out[0].Summary? && out[0].normal + out[0].dangerous + out[0].signature == |perms|
  {
    Partition(perms, t);
  }

  /** A category's heading is printed iff some name falls into that category. */
  lemma ReportHeadings(perms: seq<string>, c: Category, t: Tables)
    ensures Heading(c) in Report(InCategory(perms, Dangerous, t), InCategory(perms, Signature, t), InCategory(perms, Normal, t))
            <==> InCategory(perms, c, t) != []
  {
    var d, s, n := InCategory(perms, Dangerous, t), InCategory(perms, Signature, t), InCategory(perms, Normal, t);
    SectionHeading(Normal, n, c);
    SectionHeading(Dangerous, d, c);
    SectionHeading(Signature, s, c);
    assert Report(d, s, n) == [Summary(|n|, |d|, |s|)] + Section(Normal, n) + Section(Dangerous, d) + Section(Signature, s);
  }

  lemma EntryNamesOfSection(c: Category, names: seq<string>)
    ensures EntryNames(Section(c, names)) == names
  {
    EntryNamesOfEntries(names);
    if names != [] { EntryNamesAppend([Heading(c)], Entries(names)); }
  }

  /** The printed names are the normal, dangerous and signature names in that order. */
  lemma ReportEntryOrder(d: seq<string>, s: seq<string>, n: seq<string>)
    ensures EntryNames(Report(d, s, n)) == n + d + s
  {
    EntryNamesOfSection(Normal, n);
    EntryNamesOfSection(Dangerous, d);
    EntryNamesOfSection(Signature, s);
    var head: seq<ReportLine> := [Summary(|n|, |d|, |s|)];
    var a, b, c := Section(Normal, n), Section(Dangerous, d), Section(Signature, s);
    assert EntryNames(head) == [] by {
      assert head[1..] == [];
    }
    EntryNamesAppend(head, a);
    var ha := head + a;
    assert EntryNames(ha) == n;
    EntryNamesAppend(ha, b);
    var hab := ha + b;
    assert EntryNames(hab) == n + d;
    EntryNamesAppend(hab, c);
    assert Report(d, s, n) == hab + c;
  }

  /** Every permission name read is printed exactly as often as it occurs in the manifest. */
  lemma ReportEntries(perms: seq<string>, t: Tables)
    ensures multiset(EntryNames(Report(InCategory(perms, Dangerous, t), InCategory(perms, Signature, t), InCategory(perms, Normal, t))))
            == multiset(perms)
  {
    var d, s, n := InCategory(perms, Dangerous, t), InCategory(perms, Signature, t), InCategory(perms, Normal, t);
    Partition(perms, t);
    ReportEntryOrder(d, s, n);
    assert multiset(n + d + s) == multiset(d) + multiset(s) + multiset(n);
  }
}
