/**
 * python/grep.py: the post-processing of `rg --json` output. For each label
 * of LABELS, the match records are filtered (library packages skipped,
 * exclude markers dropped), grouped by file in first-seen order and
 * printed under a header; a label with no surviving match prints nothing.
 * The search itself (rg and its PCRE patterns) is outside the model: each
 * label's output lines are a parameter.
 */
module Grep {
  import opened Text
  import opened Seqs

  /**
   * One line of rg's output, decoded: an empty line, or a JSON record with its
   * `type`, and for a match its path, line text and line number. Path and
   * line are always in rg's `text` form, never its `bytes` form.
   */
  datatype RgLine =
    | EmptyLine
    | Record(recordType: string, path: string, text: string, lineNumber: int)

  /** A surviving match: its file, line number and stripped line text. */
  datatype Match = Match(path: string, lineNumber: int, text: string)

  /** The lines printed for a label, one constructor per `print`. */
  datatype OutLine =
    | Grepping(header: string)  // "[*] GREPPING FOR <label>..."
    | FoundIn(file: string)     // "[*] FOUND IN: <basename>"
    | Code(text: string)        // "[*] CODE: <text>"
    | AtLine(lineNumber: int)   // "[*] AT LINE: <n>"
    | Separator                 // "[*]"
    | Blank                     // the closing empty print

  /** Paths containing one of these anywhere are library code and skipped. */
  const SkipPackages: seq<string> := [
    "kotlin/",
    "kotlinx/",
    "androidx/",
    "android/support/",
    "com/google/android/gms/",
    "com/google/firebase/",
    "com/google/android/datatransport/",
    "org/jetbrains/",
    "java/",
    "javax/",
    "sun/",
    "org/apache/",
    "okhttp3/",
    "retrofit2/",
    "com/squareup/"
  ]

  /** A label, with the markers that drop a matched line. */
  datatype Label = Label(name: string, excludes: seq<string>)

  /** LABELS, in the order the script greps them. */
  const Labels: seq<Label> := [
    Label("CRYPTO", []),
    Label("BASE64", []),
    Label("KEY", []),
    Label("DROPPER", []),
    Label("TELEPHONY", []),
    Label("ACCESSIBILITY", []),
    Label("STRING CONCATENATION", []),
    Label("WEBVIEW", []),
    Label("DATA EXFILTRATION PATTERNS", []),
    Label("REFLECTION", ["/* synthetic */", "/* bridge */"]),
    Label("DYNAMIC LOADING", []),
    Label("NETWORK", []),
    Label("COMMAND EXECUTION_PATTERNS", []),
    Label("FILE OPS", []),
    Label("NATIVE", ["/* synthetic */"]),
    Label("LOG", []),
    Label("SERVICE PERSISTENCE", []),
    Label("MISCELANEOUS", [])
  ]

  /** Some needle occurs in `s` as a substring. */
  predicate AnyIn(s: string, needles: seq<string>) {
    exists k | 0 <= k < |needles| :: Contains(s, needles[k])
  }

  /** The `for ... if x in s: skip = True; break` loops. */
  method FindAny(s: string, needles: seq<string>) returns (found: bool)
    ensures found <==> AnyIn(s, needles)
  {
    found := false;
    var k := 0;
    while k < |needles|
      invariant 0 <= k <= |needles|
      invariant !found
      invariant forall j | 0 <= j < k :: !Contains(s, needles[j])
    {
      if Contains(s, needles[k]) {
        found := true;
        break;
      }
      k := k + 1;
    }
  }

  /**
   * What one output line contributes: nothing for an empty line, a record
   * that is not a match, a path with a skipped package, or a stripped text
   * with an exclude marker; otherwise the match with its stripped text.
   */
  function Survivor(line: RgLine, excludes: seq<string>, skip: seq<string>): seq<Match> {
    if line.EmptyLine? || line.recordType != "match" then []
    else if AnyIn(line.path, skip) then []
    else if AnyIn(Strip(line.text), excludes) then []
    else [Match(line.path, line.lineNumber, Strip(line.text))]
  }

  /** The surviving matches of a label's output, in output order. */
  function Survivors(lines: seq<RgLine>, excludes: seq<string>, skip: seq<string>): seq<Match> {
    if lines == [] then []
    else Survivors(lines[..|lines| - 1], excludes, skip) + Survivor(lines[|lines| - 1], excludes, skip)
  }

  /**
   * The filter works line by line and keeps output order: the survivors of
   * two stretches of output, one after the other, are the survivors of each.
   */
  lemma {:induction false} SurvivorsAppend(a: seq<RgLine>, b: seq<RgLine>, excludes: seq<string>, skip: seq<string>)
    ensures Survivors(a + b, excludes, skip) == Survivors(a, excludes, skip) + Survivors(b, excludes, skip)
  {
    if b == [] {
      assert a + b == a;
    } else {
      var n := |b| - 1;
      assert (a + b)[..|a + b| - 1] == a + b[..n];
      SurvivorsAppend(a, b[..n], excludes, skip);
      assert Survivors(a + b, excludes, skip)
          == Survivors(a + b[..n], excludes, skip) + Survivor(b[n], excludes, skip);
    }
  }

  lemma SurvivorsSingle(line: RgLine, excludes: seq<string>, skip: seq<string>)
    ensures Survivors([line], excludes, skip) == Survivor(line, excludes, skip)
  {
    assert [line][..0] == [];
  }

  /**
   * A line lets a match through iff it is a match record whose path holds no
   * skipped package and whose stripped text holds no exclude marker; the
   * match keeps the record's path and line number and the stripped text.
   */
  lemma SurvivorFilter(line: RgLine, excludes: seq<string>, skip: seq<string>)
    ensures Survivor(line, excludes, skip) != [] <==>
      && line.Record? && line.recordType == "match"
      && !AnyIn(line.path, skip) && !AnyIn(Strip(line.text), excludes)
    ensures Survivor(line, excludes, skip) != [] ==>
      Survivor(line, excludes, skip) == [Match(line.path, line.lineNumber, Strip(line.text))]
  {
  }

  /** The paths of the matches, in order. */
  function Paths(ms: seq<Match>): (r: seq<string>)
    ensures |r| == |ms|
    ensures forall i | 0 <= i < |ms| :: r[i] == ms[i].path
  {
    if ms == [] then [] else Paths(ms[..|ms| - 1]) + [ms[|ms| - 1].path]
  }

  /** The dictionary's keys: each file once, in the order it was first seen. */
  function Files(ms: seq<Match>): seq<string> {
    Dedup(Paths(ms))
  }

  /** The dictionary's value for a file: its matches, in output order. */
  function HitsIn(ms: seq<Match>, file: string): seq<Match> {
    if ms == [] then []
    else HitsIn(ms[..|ms| - 1], file) + (if ms[|ms| - 1].path == file then [ms[|ms| - 1]] else [])
  }

  /** The three lines printed for one match. */
  function Entry(m: Match): seq<OutLine> {
    [Code(m.text), AtLine(m.lineNumber), Separator]
  }

  /** The lines printed for a file's matches. */
  function Entries(ms: seq<Match>): seq<OutLine> {
    if ms == [] then [] else Entries(ms[..|ms| - 1]) + Entry(ms[|ms| - 1])
  }

  /** `os.path.basename`: the text after the last `/`. */
  function Basename(path: string): string {
    path[LastIndexOf(path, '/') + 1..]
  }

  /** The base name is the end of the path after its last `/`, so it holds no `/`. */
  lemma BasenameSuffix(path: string)
    ensures |Basename(path)| <= |path| && Basename(path) == path[|path| - |Basename(path)|..]
    ensures '/' !in Basename(path)
  {
    var k := LastIndexOf(path, '/');
    var r := Basename(path);
    forall i | 0 <= i < |r| ensures r[i] != '/' {
      assert r[i] == path[k + 1 + i];
    }
  }

  /** One block per file: its base name, then its matches. */
  function Groups(files: seq<string>, ms: seq<Match>): seq<OutLine> {
    if files == [] then []
    else
      var f := files[|files| - 1];
      Groups(files[..|files| - 1], ms) + [FoundIn(Basename(f))] + Entries(HitsIn(ms, f))
  }

  /** What `grep_and_print` prints for a label: nothing at all without survivors. */
  function Printout(name: string, ms: seq<Match>): seq<OutLine> {
    if ms == [] then [] else [Grepping(name)] + Groups(Files(ms), ms) + [Blank]
  }

  /** The printing of one file's matches. */
  method PrintMatches(ms: seq<Match>) returns (out: seq<OutLine>)
    ensures out == Entries(ms)
  {
    out := [];
    var k := 0;
    while k < |ms|
      invariant 0 <= k <= |ms|
      invariant out == Entries(ms[..k])
    {
      assert ms[..k + 1][..k] == ms[..k];
      out := out + [Code(ms[k].text), AtLine(ms[k].lineNumber), Separator];
      assert Entries(ms[..k + 1]) == Entries(ms[..k]) + Entry(ms[k]);
      k := k + 1;
    }
    assert ms[..k] == ms;
  }

  /** One step of the record loop, seen through the dictionary: the match goes to the end of its file's list. */
  lemma HitsInSnoc(ms: seq<Match>, x: Match, file: string)
    ensures HitsIn(ms + [x], file) == HitsIn(ms, file) + (if x.path == file then [x] else [])
  {
    assert (ms + [x])[..|ms|] == ms;
  }

  /** One step of the record loop, seen through the keys: a file is added at the end when it is new. */
  lemma FilesSnoc(ms: seq<Match>, x: Match)
    ensures Files(ms + [x]) == if x.path in Files(ms) then Files(ms) else Files(ms) + [x.path]
  {
    assert Paths(ms + [x]) == Paths(ms) + [x.path];
    DedupSnoc(Paths(ms), x.path);
    if x.path in Paths(ms) {
      assert x.path in Files(ms);
    } else {
      assert x.path !in Files(ms);
    }
  }

  /** The dictionary and its key order describe the grouping of `ms` by file. */
  ghost predicate Grouped(ms: seq<Match>, keys: seq<string>, byFile: map<string, seq<Match>>) {
    && keys == Files(ms)
    && (forall f :: f in byFile <==> f in keys)
    && (forall f | f in byFile :: byFile[f] == HitsIn(ms, f))
  }

  /** `matches_by_file[filepath].append(...)` on a defaultdict: the key order grows only for a new file. */
  function AddKey(keys: seq<string>, byFile: map<string, seq<Match>>, x: Match): seq<string> {
    if x.path in byFile then keys else keys + [x.path]
  }

  function AddMatch(byFile: map<string, seq<Match>>, x: Match): map<string, seq<Match>> {
    if x.path in byFile then byFile[x.path := byFile[x.path] + [x]] else byFile[x.path := [x]]
  }

  /** Appending a match to its file's list keeps the grouping exact. */
  lemma AddMatchGrouped(ms: seq<Match>, keys: seq<string>, byFile: map<string, seq<Match>>, x: Match)
    requires Grouped(ms, keys, byFile)
    ensures Grouped(ms + [x], AddKey(keys, byFile, x), AddMatch(byFile, x))
  {
    var keys', byFile' := AddKey(keys, byFile, x), AddMatch(byFile, x);
    FilesSnoc(ms, x);
    assert keys' == Files(ms + [x]);
    assert forall f :: f in byFile' <==> f in keys';
    forall f | f in byFile' ensures byFile'[f] == HitsIn(ms + [x], f) {
      HitsInSnoc(ms, x, f);
      if f == x.path && x.path !in byFile {
        HitsInAbsent(ms, f);
      }
    }
  }

  /** The filter of one output line: the `continue`s of the record loop. */
  method KeepLine(line: RgLine, excludes: seq<string>, skip: seq<string>) returns (kept: seq<Match>)
    ensures kept == Survivor(line, excludes, skip)
  {
    if line.EmptyLine? || line.recordType != "match" {
      return [];
    }
    var skipped := FindAny(line.path, skip);
    if skipped {
      return [];
    }
    var text := Strip(line.text);
    var excluded := FindAny(text, excludes);
    if excluded {
      return [];
    }
    return [Match(line.path, line.lineNumber, text)];
  }

  /** One pass of the record loop: the line's match, if it survives, is added to the dictionary. */
  method GroupLine(line: RgLine, excludes: seq<string>, skip: seq<string>,
                   ghost ms: seq<Match>, keys: seq<string>, byFile: map<string, seq<Match>>)
    returns (keys': seq<string>, byFile': map<string, seq<Match>>)
    requires Grouped(ms, keys, byFile)
    ensures Grouped(ms + Survivor(line, excludes, skip), keys', byFile')
  {
    var kept := KeepLine(line, excludes, skip);
    if kept != [] {
      AddMatchGrouped(ms, keys, byFile, kept[0]);
      assert [kept[0]] == kept;
      keys' := AddKey(keys, byFile, kept[0]);
      byFile' := AddMatch(byFile, kept[0]);
    } else {
      assert ms + kept == ms;
      keys', byFile' := keys, byFile;
    }
  }

  /** The record loop, filling the dictionary. */
  method GroupByFile(lines: seq<RgLine>, excludes: seq<string>, skip: seq<string>)
    returns (keys: seq<string>, byFile: map<string, seq<Match>>)
    ensures Grouped(Survivors(lines, excludes, skip), keys, byFile)
  {
    keys := [];
    byFile := map[];
    var i := 0;
    while i < |lines|
      invariant 0 <= i <= |lines|
      invariant Grouped(Survivors(lines[..i], excludes, skip), keys, byFile)
    {
      assert lines[..i + 1][..i] == lines[..i];
      keys, byFile := GroupLine(lines[i], excludes, skip, Survivors(lines[..i], excludes, skip), keys, byFile);
      assert Survivors(lines[..i + 1], excludes, skip)
          == Survivors(lines[..i], excludes, skip) + Survivor(lines[i], excludes, skip);
      i := i + 1;
    }
    assert lines[..i] == lines;
  }

  /** The loop over the keys: one block per file, its base name and then its matches. */
  method PrintBlocks(ms: seq<Match>, keys: seq<string>, byFile: map<string, seq<Match>>)
    returns (blocks: seq<OutLine>)
    requires forall f | f in keys :: f in byFile && byFile[f] == HitsIn(ms, f)
    ensures blocks == Groups(keys, ms)
  {
    blocks := [];
    var j := 0;
    while j < |keys|
      invariant 0 <= j <= |keys|
      invariant blocks == Groups(keys[..j], ms)
    {
      GroupsStep(keys, j, ms);
      var file := keys[j];
      var printed := PrintMatches(byFile[file]);
      blocks := blocks + [FoundIn(Basename(file))] + printed;
      j := j + 1;
    }
    assert keys[..j] == keys;
  }

  /** One more key adds its block behind the blocks of the keys before it. */
  lemma GroupsStep(keys: seq<string>, j: nat, ms: seq<Match>)
    requires j < |keys|
    ensures Groups(keys[..j + 1], ms) == Groups(keys[..j], ms) + [FoundIn(Basename(keys[j]))] + Entries(HitsIn(ms, keys[j]))
  {
    assert keys[..j + 1][..j] == keys[..j];
  }

  /** The printing loops over the dictionary, in key order; an empty dictionary prints nothing. */
  method PrintGroups(name: string, ms: seq<Match>, keys: seq<string>, byFile: map<string, seq<Match>>)
    returns (out: seq<OutLine>)
    requires Grouped(ms, keys, byFile)
    ensures out == Printout(name, ms)
  {
    out := [];
    if byFile != map[] {
      var some :| some in byFile;
      assert some in Files(ms);
      var blocks := PrintBlocks(ms, keys, byFile);
      out := [Grepping(name)] + blocks + [Blank];
    } else if ms != [] {
      assert false;
    }
  }

  /** `grep_and_print` after the search: group the records, then print. */
  method GrepAndPrint(name: string, lines: seq<RgLine>, excludes: seq<string>, skip: seq<string>) returns (out: seq<OutLine>)
    ensures out == Printout(name, Survivors(lines, excludes, skip))
  {
    var keys, byFile := GroupByFile(lines, excludes, skip);
    out := PrintGroups(name, Survivors(lines, excludes, skip), keys, byFile);
  }

  /** A file that is the path of no match has no entry. */
  lemma {:induction false} HitsInNoPath(ms: seq<Match>, file: string)
    requires file !in Paths(ms)
    ensures HitsIn(ms, file) == []
  {
    if ms != [] {
      var n := |ms| - 1;
      assert Paths(ms) == Paths(ms[..n]) + [ms[n].path];
      HitsInNoPath(ms[..n], file);
    }
  }

  /** A file that has no key has no entry. */
  lemma HitsInAbsent(ms: seq<Match>, file: string)
    requires file !in Files(ms)
    ensures HitsIn(ms, file) == []
  {
    forall i | 0 <= i < |Paths(ms)| ensures Paths(ms)[i] != file {
      assert Paths(ms)[i] in Files(ms);
    }
    HitsInNoPath(ms, file);
  }

  /** The matches printed under a list of files, in printing order. */
  function HitsUnder(files: seq<string>, ms: seq<Match>): seq<Match> {
    if files == [] then []
    else HitsUnder(files[..|files| - 1], ms) + HitsIn(ms, files[|files| - 1])
  }

  /** The matches' entries are printed in file blocks: removing the file lines leaves the entries of HitsUnder. */
  function WithoutFileLines(out: seq<OutLine>): seq<OutLine> {
    if out == [] then []
    else WithoutFileLines(out[..|out| - 1]) + (if out[|out| - 1].FoundIn? then [] else [out[|out| - 1]])
  }

  lemma {:induction false} WithoutFileLinesAppend(a: seq<OutLine>, b: seq<OutLine>)
    ensures WithoutFileLines(a + b) == WithoutFileLines(a) + WithoutFileLines(b)
  {
    if b == [] {
      assert a + b == a;
    } else {
      assert (a + b)[..|a + b| - 1] == a + b[..|b| - 1];
      WithoutFileLinesAppend(a, b[..|b| - 1]);
    }
  }

  lemma {:induction false} EntriesAppend(a: seq<Match>, b: seq<Match>)
    ensures Entries(a + b) == Entries(a) + Entries(b)
  {
    if b == [] {
      assert a + b == a;
    } else {
      assert (a + b)[..|a + b| - 1] == a + b[..|b| - 1];
      EntriesAppend(a, b[..|b| - 1]);
    }
  }

  /** Lines that neither name a file nor open a label pass through the file filter and add no name or header. */
  lemma {:induction false} PlainLines(out: seq<OutLine>)
    requires forall i | 0 <= i < |out| :: !out[i].FoundIn? && !out[i].Grepping?
    ensures WithoutFileLines(out) == out
    ensures FileLines(out) == []
    ensures Headers(out) == []
  {
    if out != [] {
      PlainLines(out[..|out| - 1]);
      assert out[..|out| - 1] + [out[|out| - 1]] == out;
    }
  }

  /** A match's three lines are neither file lines nor headers. */
  lemma EntryLines(m: Match)
    ensures WithoutFileLines(Entry(m)) == Entry(m)
    ensures FileLines(Entry(m)) == []
    ensures Headers(Entry(m)) == []
  {
    PlainLines(Entry(m));
  }

  lemma {:induction false} EntriesHaveNoFileLines(ms: seq<Match>)
    ensures WithoutFileLines(Entries(ms)) == Entries(ms)
  {
    if ms != [] {
      var n := |ms| - 1;
      EntriesHaveNoFileLines(ms[..n]);
      WithoutFileLinesAppend(Entries(ms[..n]), Entry(ms[n]));
      EntryLines(ms[n]);
    }
  }

  /** Apart from the file lines, the blocks print the entries of every file's matches, file after file. */
  lemma {:induction false} GroupsEntries(files: seq<string>, ms: seq<Match>)
    ensures WithoutFileLines(Groups(files, ms)) == Entries(HitsUnder(files, ms))
  {
    if files != [] {
      var n := |files| - 1;
      var f := files[n];
      var prev := Groups(files[..n], ms);
      GroupsEntries(files[..n], ms);
      WithoutFileLinesAppend(prev + [FoundIn(Basename(f))], Entries(HitsIn(ms, f)));
      WithoutFileLinesAppend(prev, [FoundIn(Basename(f))]);
      assert [FoundIn(Basename(f))][..0] == [];
      EntriesHaveNoFileLines(HitsIn(ms, f));
      EntriesAppend(HitsUnder(files[..n], ms), HitsIn(ms, f));
    }
  }

  /** For `HitsUnderSnocListed`: a new match lands in at most one of two parts, so the counts add up. */
  lemma AddedOnce(before: multiset<Match>, after: multiset<Match>, here: multiset<Match>, here': multiset<Match>,
                  x: Match, listed: bool, isHere: bool)
    requires !(listed && isHere)
    requires after == before + (if listed then multiset{x} else multiset{})
    requires here' == here + (if isHere then multiset{x} else multiset{})
    ensures after + here' == before + here + (if listed || isHere then multiset{x} else multiset{})
  {
  }

  /** A new match adds itself to the matches printed under a list of distinct files iff its file is listed. */
  lemma {:induction false} HitsUnderSnocListed(files: seq<string>, ms: seq<Match>, x: Match)
    requires NoDuplicates(files)
    ensures multiset(HitsUnder(files, ms + [x]))
         == multiset(HitsUnder(files, ms)) + (if x.path in files then multiset{x} else multiset{})
  {
    if files != [] {
      var n := |files| - 1;
      var p, f := files[..n], files[n];
      NoDuplicatesPrefix(files, n);
      HitsUnderSnocListed(p, ms, x);
      HitsInSnoc(ms, x, f);
      assert HitsUnder(files, ms + [x]) == HitsUnder(p, ms + [x]) + HitsIn(ms + [x], f);
      assert HitsUnder(files, ms) == HitsUnder(p, ms) + HitsIn(ms, f);
      assert x.path in files <==> x.path in p || x.path == f by {
        assert files == p + [f];
      }
      AddedOnce(multiset(HitsUnder(p, ms)), multiset(HitsUnder(p, ms + [x])),
                multiset(HitsIn(ms, f)), multiset(HitsIn(ms + [x], f)), x, x.path in p, x.path == f);
    }
  }

  /**
   * Every surviving match is printed exactly once: the matches under the
   * file blocks are the survivors, as a multiset.
   */
  lemma {:induction false} EveryMatchOnce(ms: seq<Match>)
    ensures multiset(HitsUnder(Files(ms), ms)) == multiset(ms)
  {
    if ms != [] {
      var n := |ms| - 1;
      var p := ms[..n];
      var x := ms[n];
      assert p + [x] == ms;
      EveryMatchOnce(p);
      FilesSnoc(p, x);
      HitsUnderSnocListed(Files(p), p, x);
      if x.path !in Files(p) {
        HitsInAbsent(p, x.path);
        HitsInSnoc(p, x, x.path);
        assert HitsUnder(Files(p) + [x.path], ms) == HitsUnder(Files(p), ms) + HitsIn(ms, x.path);
      }
    }
  }

  /** The header and the closing blank around the blocks: a header, no file name, and no entry. */
  lemma Framed(name: string, g: seq<OutLine>)
    ensures WithoutFileLines([Grepping(name)] + g + [Blank]) == [Grepping(name)] + WithoutFileLines(g) + [Blank]
    ensures FileLines([Grepping(name)] + g + [Blank]) == FileLines(g)
    ensures Headers([Grepping(name)] + g + [Blank]) == [name] + Headers(g)
  {
    WithoutFileLinesAppend([Grepping(name)] + g, [Blank]);
    WithoutFileLinesAppend([Grepping(name)], g);
    FileLinesAppend([Grepping(name)] + g, [Blank]);
    FileLinesAppend([Grepping(name)], g);
    HeadersAppend([Grepping(name)] + g, [Blank]);
    HeadersAppend([Grepping(name)], g);
    assert [Grepping(name)][..0] == [];
    assert [Blank][..0] == [];
  }

  /**
   * The printout for a label: nothing iff no match survives; otherwise the
   * header, then the file blocks whose entries, file lines aside, are those
   * of every file's matches in key order, then the closing blank.
   */
  lemma PrintoutContents(name: string, ms: seq<Match>)
    ensures Printout(name, ms) == [] <==> ms == []
    ensures ms != [] ==> Printout(name, ms)[0] == Grepping(name)
    ensures ms != [] ==> (WithoutFileLines(Printout(name, ms)) ==
      [Grepping(name)] + Entries(HitsUnder(Files(ms), ms)) + [Blank])
  {
    if ms != [] {
      var g := Groups(Files(ms), ms);
      GroupsEntries(Files(ms), ms);
      Framed(name, g);
    }
  }

  /** The file lines of the printout: the base name of each file, once, in first-seen order. */
  function FileLines(out: seq<OutLine>): seq<string> {
    if out == [] then []
    else FileLines(out[..|out| - 1]) + (if out[|out| - 1].FoundIn? then [out[|out| - 1].file] else [])
  }

  lemma {:induction false} FileLinesAppend(a: seq<OutLine>, b: seq<OutLine>)
    ensures FileLines(a + b) == FileLines(a) + FileLines(b)
  {
    if b == [] {
      assert a + b == a;
    } else {
      assert (a + b)[..|a + b| - 1] == a + b[..|b| - 1];
      FileLinesAppend(a, b[..|b| - 1]);
    }
  }

  lemma {:induction false} EntriesHaveNoFileNames(ms: seq<Match>)
    ensures FileLines(Entries(ms)) == []
  {
    if ms != [] {
      var n := |ms| - 1;
      EntriesHaveNoFileNames(ms[..n]);
      FileLinesAppend(Entries(ms[..n]), Entry(ms[n]));
      EntryLines(ms[n]);
    }
  }

  /** The base names of a list of files. */
  function Basenames(files: seq<string>): (r: seq<string>)
    ensures |r| == |files|
    ensures forall i | 0 <= i < |files| :: r[i] == Basename(files[i])
  {
    if files == [] then [] else Basenames(files[..|files| - 1]) + [Basename(files[|files| - 1])]
  }

  /** Each block opens with its file's base name, and nothing else names a file. */
  lemma {:induction false} GroupsFileLines(files: seq<string>, ms: seq<Match>)
    ensures FileLines(Groups(files, ms)) == Basenames(files)
  {
    if files != [] {
      var n := |files| - 1;
      var f := files[n];
      var prev := Groups(files[..n], ms);
      GroupsFileLines(files[..n], ms);
      FileLinesAppend(prev + [FoundIn(Basename(f))], Entries(HitsIn(ms, f)));
      FileLinesAppend(prev, [FoundIn(Basename(f))]);
      assert [FoundIn(Basename(f))][..0] == [];
      EntriesHaveNoFileNames(HitsIn(ms, f));
    }
  }

  /** The file lines of a printout: the base names of the files with survivors, in key order. */
  lemma PrintoutFileLines(name: string, ms: seq<Match>)
    ensures FileLines(Printout(name, ms)) == Basenames(Files(ms))
  {
    if ms != [] {
      GroupsFileLines(Files(ms), ms);
      Framed(name, Groups(Files(ms), ms));
    }
  }

  /**
   * The dictionary's keys are the files that have survivors, each once, in
   * the order their first match appeared.
   */
  lemma FilesOrder(ms: seq<Match>)
    ensures NoDuplicates(Files(ms))
    ensures forall f :: f in Files(ms) <==> exists i | 0 <= i < |ms| :: ms[i].path == f
    ensures forall i, j | 0 <= i < j < |Files(ms)| ::
      FirstIndex(Paths(ms), Files(ms)[i]) < FirstIndex(Paths(ms), Files(ms)[j])
  {
    DedupFirstOccurrenceOrder(Paths(ms));
    forall f ensures f in Files(ms) <==> exists i | 0 <= i < |ms| :: ms[i].path == f {
      if f in Files(ms) {
        var i :| 0 <= i < |ms| && Paths(ms)[i] == f;
      }
      if exists i | 0 <= i < |ms| :: ms[i].path == f {
        var i :| 0 <= i < |ms| && ms[i].path == f;
        assert Paths(ms)[i] == f;
      }
    }
  }

  /** The script: every label in LABELS order, each with its own rg output. */
  function AllPrintouts(labels: seq<Label>, outputs: seq<seq<RgLine>>, skip: seq<string>): seq<OutLine>
    requires |outputs| == |labels|
  {
    if labels == [] then []
    else
      var n := |labels| - 1;
      AllPrintouts(labels[..n], outputs[..n], skip)
      + Printout(labels[n].name, Survivors(outputs[n], labels[n].excludes, skip))
  }

  /** The loop over the labels, each grepped and printed in turn. */
  method GrepLabels(labels: seq<Label>, outputs: seq<seq<RgLine>>, skip: seq<string>) returns (out: seq<OutLine>)
    requires |outputs| == |labels|
    ensures out == AllPrintouts(labels, outputs, skip)
  {
    out := [];
    var i := 0;
    while i < |labels|
      invariant 0 <= i <= |labels|
      invariant out == AllPrintouts(labels[..i], outputs[..i], skip)
    {
      AllPrintoutsStep(labels, outputs, skip, i);
      var printed := GrepAndPrint(labels[i].name, outputs[i], labels[i].excludes, skip);
      out := out + printed;
      i := i + 1;
    }
    assert labels[..i] == labels;
    assert outputs[..i] == outputs;
  }

  /** One more label appends its printout behind those of the labels before it. */
  lemma AllPrintoutsStep(labels: seq<Label>, outputs: seq<seq<RgLine>>, skip: seq<string>, i: nat)
    requires |outputs| == |labels| && i < |labels|
    ensures AllPrintouts(labels[..i + 1], outputs[..i + 1], skip)
         == AllPrintouts(labels[..i], outputs[..i], skip) + Printout(labels[i].name, Survivors(outputs[i], labels[i].excludes, skip))
  {
    assert labels[..i + 1][..i] == labels[..i];
    assert outputs[..i + 1][..i] == outputs[..i];
  }

  /** The script's main loop over LABELS with the library packages skipped. */
  method GrepAll(outputs: seq<seq<RgLine>>) returns (out: seq<OutLine>)
    requires |outputs| == |Labels|
    ensures out == AllPrintouts(Labels, outputs, SkipPackages)
  {
    out := GrepLabels(Labels, outputs, SkipPackages);
  }

  /** The headers printed, in order. */
  function Headers(out: seq<OutLine>): seq<string> {
    if out == [] then []
    else Headers(out[..|out| - 1]) + (if out[|out| - 1].Grepping? then [out[|out| - 1].header] else [])
  }

  lemma {:induction false} HeadersAppend(a: seq<OutLine>, b: seq<OutLine>)
    ensures Headers(a + b) == Headers(a) + Headers(b)
  {
    if b == [] {
      assert a + b == a;
    } else {
      assert (a + b)[..|a + b| - 1] == a + b[..|b| - 1];
      HeadersAppend(a, b[..|b| - 1]);
    }
  }

  lemma {:induction false} GroupsHaveNoHeaders(files: seq<string>, ms: seq<Match>)
    ensures Headers(Groups(files, ms)) == []
  {
    if files != [] {
      var n := |files| - 1;
      var f := files[n];
      var prev := Groups(files[..n], ms);
      GroupsHaveNoHeaders(files[..n], ms);
      HeadersAppend(prev + [FoundIn(Basename(f))], Entries(HitsIn(ms, f)));
      HeadersAppend(prev, [FoundIn(Basename(f))]);
      assert [FoundIn(Basename(f))][..0] == [];
      EntriesHaveNoHeaders(HitsIn(ms, f));
    }
  }

  lemma {:induction false} EntriesHaveNoHeaders(ms: seq<Match>)
    ensures Headers(Entries(ms)) == []
  {
    if ms != [] {
      var n := |ms| - 1;
      EntriesHaveNoHeaders(ms[..n]);
      HeadersAppend(Entries(ms[..n]), Entry(ms[n]));
      EntryLines(ms[n]);
    }
  }

  /** A label's printout has its header exactly when something survives. */
  lemma PrintoutHeaders(name: string, ms: seq<Match>)
    ensures Headers(Printout(name, ms)) == if ms == [] then [] else [name]
  {
    if ms != [] {
      GroupsHaveNoHeaders(Files(ms), ms);
      Framed(name, Groups(Files(ms), ms));
    }
  }

  /** The labels whose output has a surviving match, in label order. */
  function LabelsWithSurvivors(labels: seq<Label>, outputs: seq<seq<RgLine>>, skip: seq<string>): seq<string>
    requires |outputs| == |labels|
  {
    if labels == [] then []
    else
      var n := |labels| - 1;
      LabelsWithSurvivors(labels[..n], outputs[..n], skip)
      + (if Survivors(outputs[n], labels[n].excludes, skip) == [] then [] else [labels[n].name])
  }

  /** The headers of a whole run: the labels with survivors, in label order; a label with none is silent. */
  lemma {:induction false} AllPrintoutsHeaders(labels: seq<Label>, outputs: seq<seq<RgLine>>, skip: seq<string>)
    requires |outputs| == |labels|
    ensures Headers(AllPrintouts(labels, outputs, skip)) == LabelsWithSurvivors(labels, outputs, skip)
  {
    if labels != [] {
      var n := |labels| - 1;
      var ms := Survivors(outputs[n], labels[n].excludes, skip);
      AllPrintoutsHeaders(labels[..n], outputs[..n], skip);
      HeadersAppend(AllPrintouts(labels[..n], outputs[..n], skip), Printout(labels[n].name, ms));
      PrintoutHeaders(labels[n].name, ms);
    }
  }

  /** Only REFLECTION and NATIVE drop lines by marker, and both drop jadx's synthetic methods. */
  lemma ExcludeMarkers()
    ensures forall i | 0 <= i < |Labels| && Labels[i].excludes != [] ::
      Labels[i].name in {"REFLECTION", "NATIVE"} && "/* synthetic */" in Labels[i].excludes
  {
  }
}
