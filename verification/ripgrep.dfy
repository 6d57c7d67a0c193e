/**
 * static/python/ripgrep.py: the older grep script. For each of its fifteen
 * labels it prints a header, then one line per match record whose path holds
 * no library package, then an empty line; after the last label it prints a
 * completion line. Unlike python/grep.py there is no grouping by file, no
 * exclude marker, and the header is printed even when nothing matches.
 *
 * The script never imports `json`: `json.loads` raises NameError on every
 * non-empty line and the bare `except` swallows it. `jsonBound` says whether
 * the name is bound; as written it is not.
 */
module Ripgrep {
  import opened Text
  import Grep

  /** The lines the script prints. */
  datatype Printed =
    | Header(name: string)                                    // "[*] GREPPING FOR <label>..."
    | Found(name: string, text: string, path: string, lineNumber: int) // "[*] FOUND <label>: <text> in <path> at line <n>"
    | Blank                                                   // the empty print closing a label
    | Complete                                                // "[*] GREPPING COMPLETE"

  /** LABELS, in the order the script greps them. */
  const Labels: seq<string> := [
    "CRYPTO", "BASE64", "KEY", "DROPPER", "SMS", "ACCESSIBILITY", "OBFUSCATION", "WEBVIEW",
    "REFLECTION", "DYNAMIC_LOAD", "NETWORK", "FILE_OPS", "NATIVE", "LOG", "PERSISTENCE"
  ]

  /** The script's SKIP_PACKAGES holds the same fifteen entries as python/grep.py. */
  const SkipPackages: seq<string> := Grep.SkipPackages

  /**
   * What one output line prints: nothing for an empty line; nothing when
   * `json` is unbound (the NameError is swallowed); nothing for a record that
   * is not a match or whose path holds a skipped package; otherwise one line
   * with the stripped text.
   */
  function LineOutput(name: string, line: Grep.RgLine, jsonBound: bool, skip: seq<string>): seq<Printed> {
    if line.EmptyLine? then []
    else if !jsonBound then []
    else if line.recordType != "match" then []
    else if Grep.AnyIn(line.path, skip) then []
    else [Found(name, Strip(line.text), line.path, line.lineNumber)]
  }

  /** The lines printed for a label's output, in output order. */
  function Body(name: string, lines: seq<Grep.RgLine>, jsonBound: bool, skip: seq<string>): seq<Printed> {
    if lines == [] then []
    else Body(name, lines[..|lines| - 1], jsonBound, skip) + LineOutput(name, lines[|lines| - 1], jsonBound, skip)
  }

  /** What `grep_and_print` prints: the header, the body, the closing empty line. */
  function Printout(name: string, lines: seq<Grep.RgLine>, jsonBound: bool, skip: seq<string>): seq<Printed> {
    [Header(name)] + Body(name, lines, jsonBound, skip) + [Blank]
  }

  /** The body of the `for line in ...` loop. */
  method PrintLine(name: string, line: Grep.RgLine, jsonBound: bool, skip: seq<string>) returns (out: seq<Printed>)
    ensures out == LineOutput(name, line, jsonBound, skip)
  {
    if line.EmptyLine? {
      return [];
    }
    if !jsonBound {
      return [];
    }
    if line.recordType != "match" {
      return [];
    }
    var skipped := Grep.FindAny(line.path, skip);
    if skipped {
      return [];
    }
    return [Found(name, Strip(line.text), line.path, line.lineNumber)];
  }

  /** `grep_and_print` after the search. */
  method GrepAndPrint(name: string, lines: seq<Grep.RgLine>, jsonBound: bool, skip: seq<string>) returns (out: seq<Printed>)
    ensures out == Printout(name, lines, jsonBound, skip)
  {
    var body: seq<Printed> := [];
    var i := 0;
    while i < |lines|
      invariant 0 <= i <= |lines|
      invariant body == Body(name, lines[..i], jsonBound, skip)
    {
      assert lines[..i + 1][..i] == lines[..i];
      var printed := PrintLine(name, lines[i], jsonBound, skip);
      body := body + printed;
      i := i + 1;
    }
    assert lines[..i] == lines;
    out := [Header(name)] + body + [Blank];
  }

  /** The whole run: every label's printout in order, then the completion line. */
  function Run(labels: seq<string>, outputs: seq<seq<Grep.RgLine>>, jsonBound: bool, skip: seq<string>): seq<Printed>
    requires |outputs| == |labels|
  {
    Printouts(labels, outputs, jsonBound, skip) + [Complete]
  }

  function Printouts(labels: seq<string>, outputs: seq<seq<Grep.RgLine>>, jsonBound: bool, skip: seq<string>): seq<Printed>
    requires |outputs| == |labels|
  {
    if labels == [] then []
    else
      var n := |labels| - 1;
      Printouts(labels[..n], outputs[..n], jsonBound, skip) + Printout(labels[n], outputs[n], jsonBound, skip)
  }

  /** The loop over any list of labels. */
  method GrepLabels(labels: seq<string>, outputs: seq<seq<Grep.RgLine>>, jsonBound: bool, skip: seq<string>)
    returns (out: seq<Printed>)
    requires |outputs| == |labels|
    ensures out == Run(labels, outputs, jsonBound, skip)
  {
    out := [];
    var i := 0;
    while i < |labels|
      invariant 0 <= i <= |labels|
      invariant out == Printouts(labels[..i], outputs[..i], jsonBound, skip)
    {
      assert labels[..i + 1][..i] == labels[..i];
      assert outputs[..i + 1][..i] == outputs[..i];
      var printed := GrepAndPrint(labels[i], outputs[i], jsonBound, skip);
      out := out + printed;
      i := i + 1;
    }
    assert labels[..i] == labels;
    assert outputs[..i] == outputs;
    out := out + [Complete];
  }

  /**
   * The script as written: its fifteen labels and its skip list, each label
   * with its own rg output, and `json` never imported. Every label prints
   * its header and an empty line, whatever rg found.
   */
  method Script(outputs: seq<seq<Grep.RgLine>>) returns (out: seq<Printed>)
    requires |outputs| == |Labels|
    ensures out == Frames(Labels) + [Complete]
  {
    out := GrepLabels(Labels, outputs, false, SkipPackages);
    AsWrittenRun(Labels, outputs, SkipPackages);
  }

  /** The script with `json` imported: each label prints the FOUND lines of its surviving matches. */
  method CorrectedScript(outputs: seq<seq<Grep.RgLine>>) returns (out: seq<Printed>)
    requires |outputs| == |Labels|
    ensures out == Run(Labels, outputs, true, SkipPackages)
  {
    out := GrepLabels(Labels, outputs, true, SkipPackages);
  }

  /**
   * As written (no `json` import), a label prints its header and the empty
   * line and nothing in between, whatever rg found.
   */
  lemma {:induction false} AsWrittenPrintsNoMatch(name: string, lines: seq<Grep.RgLine>, skip: seq<string>)
    ensures Body(name, lines, false, skip) == []
    ensures Printout(name, lines, false, skip) == [Header(name), Blank]
  {
    if lines != [] {
      AsWrittenPrintsNoMatch(name, lines[..|lines| - 1], skip);
    }
  }

  /** An input that shows it: one match in application code, and still no FOUND line. */
  lemma AsWrittenDropsAMatch()
    ensures var line := Grep.Record("match", "Pay.java", "Cipher.getInstance(k);", 12);
      && LineOutput("CRYPTO", line, true, SkipPackages) != []
      && Printout("CRYPTO", [line], false, SkipPackages) == [Header("CRYPTO"), Blank]
  {
    var line := Grep.Record("match", "Pay.java", "Cipher.getInstance(k);", 12);
    assert !Grep.AnyIn(line.path, SkipPackages) by {
      forall k | 0 <= k < |SkipPackages| ensures !Contains(line.path, SkipPackages[k]) {
        assert '/' == SkipPackages[k][|SkipPackages[k]| - 1];
        NotContainsChar(line.path, SkipPackages[k], |SkipPackages[k]| - 1);
      }
    }
    AsWrittenPrintsNoMatch("CRYPTO", [line], SkipPackages);
  }

  /** `s` does not contain `t` when `t` holds a character that never occurs in `s`. */
  lemma NotContainsChar(s: string, t: string, k: nat)
    requires k < |t| && t[k] !in s
    ensures !Contains(s, t)
  {
  }

  /** The FOUND lines for a sequence of matches, in order. */
  function FoundLines(name: string, ms: seq<Grep.Match>): seq<Printed> {
    if ms == [] then []
    else FoundLines(name, ms[..|ms| - 1]) + [Found(name, ms[|ms| - 1].text, ms[|ms| - 1].path, ms[|ms| - 1].lineNumber)]
  }

  lemma FoundLinesAppend(name: string, ms: seq<Grep.Match>, tail: seq<Grep.Match>)
    ensures FoundLines(name, ms + tail) == FoundLines(name, ms) + FoundLines(name, tail)
    decreases |tail|
  {
    if tail != [] {
      assert (ms + tail)[..|ms + tail| - 1] == ms + tail[..|tail| - 1];
      FoundLinesAppend(name, ms, tail[..|tail| - 1]);
    } else {
      assert ms + tail == ms;
    }
  }

  /**
   * With `json` imported, a label prints one FOUND line per match record
   * that python/grep.py's filter keeps when no exclude marker applies: same
   * records, same stripped text, in rg's output order, ungrouped.
   */
  lemma {:induction false} CorrectedPrintsSurvivors(name: string, lines: seq<Grep.RgLine>, skip: seq<string>)
    ensures Body(name, lines, true, skip) == FoundLines(name, Grep.Survivors(lines, [], skip))
  {
    if lines != [] {
      var n := |lines| - 1;
      var p := lines[..n];
      CorrectedPrintsSurvivors(name, p, skip);
      var kept := Grep.Survivor(lines[n], [], skip);
      FoundLinesAppend(name, Grep.Survivors(p, [], skip), kept);
      if kept != [] {
        assert FoundLines(name, kept) == [Found(name, kept[0].text, kept[0].path, kept[0].lineNumber)] by {
          assert kept[..0] == [];
        }
      }
    }
  }

  /** The header names of a run, in order. */
  function HeaderNames(out: seq<Printed>): seq<string> {
    if out == [] then []
    else HeaderNames(out[..|out| - 1]) + (if out[|out| - 1].Header? then [out[|out| - 1].name] else [])
  }

  lemma {:induction false} HeaderNamesAppend(a: seq<Printed>, b: seq<Printed>)
    ensures HeaderNames(a + b) == HeaderNames(a) + HeaderNames(b)
  {
    if b == [] {
      assert a + b == a;
    } else {
      assert (a + b)[..|a + b| - 1] == a + b[..|b| - 1];
      HeaderNamesAppend(a, b[..|b| - 1]);
    }
  }

  /** A label's body holds no header. */
  lemma {:induction false} BodyHasNoHeader(name: string, lines: seq<Grep.RgLine>, jsonBound: bool, skip: seq<string>)
    ensures HeaderNames(Body(name, lines, jsonBound, skip)) == []
  {
    if lines != [] {
      var n := |lines| - 1;
      var step := LineOutput(name, lines[n], jsonBound, skip);
      BodyHasNoHeader(name, lines[..n], jsonBound, skip);
      HeaderNamesAppend(Body(name, lines[..n], jsonBound, skip), step);
      if step != [] {
        assert step[..0] == [];
      }
    }
  }

  /** Each printout has exactly its own header, at the front. */
  lemma PrintoutHeader(name: string, lines: seq<Grep.RgLine>, jsonBound: bool, skip: seq<string>)
    ensures Printout(name, lines, jsonBound, skip)[0] == Header(name)
    ensures HeaderNames(Printout(name, lines, jsonBound, skip)) == [name]
  {
    var body := Body(name, lines, jsonBound, skip);
    BodyHasNoHeader(name, lines, jsonBound, skip);
    HeaderNamesAppend([Header(name)] + body, [Blank]);
    HeaderNamesAppend([Header(name)], body);
    assert [Header(name)][..0] == [];
    assert [Blank][..0] == [];
  }

  /**
   * Every label prints its header, in label order, whether or not anything
   * matched, and the run ends with the completion line.
   */
  lemma {:induction false} RunHeaders(labels: seq<string>, outputs: seq<seq<Grep.RgLine>>, jsonBound: bool, skip: seq<string>)
    requires |outputs| == |labels|
    ensures HeaderNames(Printouts(labels, outputs, jsonBound, skip)) == labels
    ensures Run(labels, outputs, jsonBound, skip)[|Run(labels, outputs, jsonBound, skip)| - 1] == Complete
  {
    if labels != [] {
      var n := |labels| - 1;
      RunHeaders(labels[..n], outputs[..n], jsonBound, skip);
      HeaderNamesAppend(Printouts(labels[..n], outputs[..n], jsonBound, skip), Printout(labels[n], outputs[n], jsonBound, skip));
      PrintoutHeader(labels[n], outputs[n], jsonBound, skip);
      assert labels[..n] + [labels[n]] == labels;
    }
  }

  /** As written, the whole run is each label's header and empty line, then the completion line. */
  lemma {:induction false} AsWrittenRun(labels: seq<string>, outputs: seq<seq<Grep.RgLine>>, skip: seq<string>)
    requires |outputs| == |labels|
    ensures Printouts(labels, outputs, false, skip) == Frames(labels)
  {
    if labels != [] {
      var n := |labels| - 1;
      AsWrittenRun(labels[..n], outputs[..n], skip);
      AsWrittenPrintsNoMatch(labels[n], outputs[n], skip);
    }
  }

  /** A header and an empty line per label. */
  function Frames(labels: seq<string>): (r: seq<Printed>)
    ensures |r| == 2 * |labels|
  {
    if labels == [] then [] else Frames(labels[..|labels| - 1]) + [Header(labels[|labels| - 1]), Blank]
  }
}
