/**
 * python/ui.py: the integer and list logic inside the results viewer. The
 * gutter width, the scroll bar's marker state and clamp, the de-duplicated
 * match blocks, find-next with its one wrap, and the tab names. Qt itself
 * (painting, the document search, widgets) is outside the model: the search
 * results it would produce are parameters.
 */
module Viewer {
  import opened Wrappers
  import opened Seqs
  import opened Text

  function Max(a: int, b: int): int {
    if a < b then b else a
  }

  /** 10 to the power `k`. */
  function Pow10(k: nat): (r: nat)
    ensures r >= 1
  {
    if k == 0 then 1 else 10 * Pow10(k - 1)
  }

  /** `len(str(n))` for a natural number. */
  function Digits(n: nat): (d: nat)
    ensures d >= 1
  {
    if n < 10 then 1 else 1 + Digits(n / 10)
  }

  /** `Digits` is the decimal length: a positive `n` lies between the powers of ten it names. */
  lemma {:induction false} DigitsBounds(n: nat)
    requires n >= 1
    ensures Pow10(Digits(n) - 1) <= n < Pow10(Digits(n))
  {
    if n >= 10 {
      var q := n / 10;
      DigitsBounds(q);
      var p := Pow10(Digits(q) - 1);
      assert Digits(n) - 1 == Digits(q);
      assert Pow10(Digits(n) - 1) == 10 * p;
      assert Pow10(Digits(n)) == 10 * Pow10(Digits(q));
      assert 10 * q <= n < 10 * q + 10;
    }
  }

  /** A larger number never has fewer digits. */
  lemma {:induction false} DigitsMonotone(a: nat, b: nat)
    requires a <= b
    ensures Digits(a) <= Digits(b)
  {
    if a >= 10 {
      DigitsMonotone(a / 10, b / 10);
    }
  }

  /**
   * `line_number_area_width`'s digit count: the digits of the block count,
   * at least one block, at least two digits. Every line number fits, and
   * beyond two digits there is no spare one.
   */
  function GutterDigits(blockCount: int): (d: nat)
    ensures d >= 2
    ensures Max(1, blockCount) < Pow10(d)
    ensures d > 2 ==> Pow10(d - 1) <= Max(1, blockCount)
  {
    DigitsBounds(Max(1, blockCount));
    Max(2, Digits(Max(1, blockCount)))
  }

  /** The gutter width for a font whose digit advance is `advance`. */
  function GutterWidth(blockCount: int, advance: int): int {
    12 + advance * GutterDigits(blockCount)
  }

  /**
   * Up to 99 blocks the gutter has room for two digits; beyond that, exactly
   * as many as the block count has, so every line number fits.
   */
  lemma GutterFits(blockCount: int)
    ensures blockCount <= 99 ==> GutterDigits(blockCount) == 2
    ensures blockCount >= 1 ==> blockCount < Pow10(GutterDigits(blockCount))
    ensures blockCount >= 100 ==> Pow10(GutterDigits(blockCount) - 1) <= blockCount
  {
    if blockCount <= 99 {
      DigitsMonotone(Max(1, blockCount), 99);
    }
    if blockCount >= 1 {
      DigitsBounds(blockCount);
      if Digits(blockCount) < 2 {
        assert Pow10(2) == 100;
      }
    }
    if blockCount >= 100 {
      DigitsMonotone(100, blockCount);
    }
  }

  /** More blocks never make the gutter narrower. */
  lemma GutterWidthMonotone(a: int, b: int, advance: int)
    requires a <= b && advance >= 0
    ensures GutterWidth(a, advance) <= GutterWidth(b, advance)
    ensures GutterWidth(a, advance) >= 12 + 2 * advance
  {
    DigitsMonotone(Max(1, a), Max(1, b));
    assert GutterDigits(a) <= GutterDigits(b);
  }

  /**
   * The paint loop's clamp, `min(max(0, block), total - 1)`: the index in
   * `[0, total)` nearest to `block`.
   */
  function Clamp(block: int, total: int): (b: int)
    requires total >= 1
    ensures 0 <= b < total
    ensures 0 <= block < total ==> b == block
    ensures block < 0 ==> b == 0
    ensures block >= total ==> b == total - 1
  {
    if block < 0 then 0 else if block < total then block else total - 1
  }

  /** No index in range is closer to `block` than its clamp, and clamping twice changes nothing. */
  lemma ClampNearest(block: int, total: int, x: int)
    requires total >= 1 && 0 <= x < total
    ensures var b := Clamp(block, total);
      (if b <= block then block - b else b - block) <= (if x <= block then block - x else x - block)
    ensures Clamp(Clamp(block, total), total) == Clamp(block, total)
  {
  }

  /** The scroll bar that draws a marker per matched block. */
  class MarkerScrollBar {
    var markerBlocks: seq<int>
    var totalBlocks: int

    /** The floor `set_markers` keeps: at least one block, so the clamp range is never empty. */
    predicate Valid()
      reads this
    {
      totalBlocks >= 1
    }

    constructor()
      ensures markerBlocks == [] && totalBlocks == 1
      ensures Valid()
    {
      markerBlocks := [];
      totalBlocks := 1;
    }

    /** `set_markers`: no list (None) or an empty list means no markers; the block count is floored at one. */
    method SetMarkers(blockIndices: Option<seq<int>>, total: int)
      modifies this
      ensures markerBlocks == if blockIndices.None? then [] else blockIndices.value
      ensures totalBlocks == Max(1, total)
      ensures Valid()
    {
      if blockIndices.None? || blockIndices.value == [] {
        markerBlocks := [];
      } else {
        markerBlocks := blockIndices.value;
      }
      totalBlocks := Max(1, total);
    }

    /** The block rows the paint loop draws: every marker clamped into the document. */
    function MarkerRows(): (rows: seq<int>)
      reads this
      requires Valid()
      ensures |rows| == |markerBlocks|
      ensures forall i | 0 <= i < |rows| :: 0 <= rows[i] < totalBlocks
      ensures forall i | 0 <= i < |rows| :: 0 <= markerBlocks[i] < totalBlocks ==> rows[i] == markerBlocks[i]
    {
      ClampAll(markerBlocks, totalBlocks)
    }
  }

  /** Each block clamped, in order. */
  function ClampAll(blocks: seq<int>, total: int): (rows: seq<int>)
    requires total >= 1
    ensures |rows| == |blocks|
    ensures forall i | 0 <= i < |blocks| :: rows[i] == Clamp(blocks[i], total)
  {
    if blocks == [] then [] else ClampAll(blocks[..|blocks| - 1], total) + [Clamp(blocks[|blocks| - 1], total)]
  }

  /**
   * The blocks `highlight_all_matches` returns for a search text whose
   * successive document hits lie in blocks `hits`: none for an empty text,
   * otherwise each block once, in the order its first hit came.
   */
  function MatchBlocks(searchText: string, hits: seq<int>): seq<int> {
    if searchText == [] then [] else Dedup(hits)
  }

  /** The blocks reported are exactly the blocks hit, without repeats, in first-hit order. */
  lemma MatchBlocksProperties(searchText: string, hits: seq<int>)
    ensures searchText == [] ==> MatchBlocks(searchText, hits) == []
    ensures NoDuplicates(MatchBlocks(searchText, hits))
    ensures searchText != [] ==> forall b :: b in MatchBlocks(searchText, hits) <==> b in hits
    ensures searchText != [] ==> forall i, j | 0 <= i < j < |MatchBlocks(searchText, hits)| ::
      FirstIndex(hits, MatchBlocks(searchText, hits)[i]) < FirstIndex(hits, MatchBlocks(searchText, hits)[j])
  {
    if searchText != [] {
      DedupFirstOccurrenceOrder(hits);
    }
  }

  /**
   * Qt's forward search from position `from`, given the positions `starts`
   * where the search text occurs: the first occurrence at or after `from`.
   */
  function Search(starts: seq<nat>, from: nat): (r: Option<nat>)
    ensures r.Some? ==> r.value in starts && r.value >= from
    ensures r.Some? ==> forall q | q in starts && q >= from :: r.value <= q
    ensures r.None? ==> forall q | q in starts :: q < from
  {
    if starts == [] then None
    else
      var r := Search(starts[..|starts| - 1], from);
      var x := starts[|starts| - 1];
      assert starts == starts[..|starts| - 1] + [x];
      if x < from then r
      else if r.None? || x < r.value then Some(x)
      else r
  }

  /** Where `find_next` lands: the next occurrence, or after the wrap the first one. */
  function FindNextTarget(starts: seq<nat>, from: nat): Option<nat> {
    if Search(starts, from).Some? then Search(starts, from) else Search(starts, 0)
  }

  /**
   * One wrap is enough: `find_next` finds something iff the text occurs at
   * all, and it wraps only when nothing occurs at or after the cursor.
   */
  lemma FindNextWrapsOnce(starts: seq<nat>, from: nat)
    ensures FindNextTarget(starts, from).Some? <==> starts != []
    ensures (exists q | q in starts :: q >= from) ==> FindNextTarget(starts, from) == Search(starts, from)
    ensures (forall q | q in starts :: q < from) && starts != [] ==>
      FindNextTarget(starts, from).value == Search(starts, 0).value
  {
  }

  /** The editor: its text cursor, its block count and the blocks of the last search's hits. */
  class CodeEditor {
    var matchBlocks: seq<int>
    var blockCount: int
    var cursor: nat
    const bar: MarkerScrollBar

    constructor(blocks: int)
      ensures matchBlocks == [] && blockCount == blocks && cursor == 0
      ensures fresh(bar) && bar.markerBlocks == [] && bar.totalBlocks == 1
    {
      matchBlocks := [];
      blockCount := blocks;
      cursor := 0;
      bar := new MarkerScrollBar();
    }

    /**
     * `highlight_all_matches`: the list is reset, then each hit's block is
     * appended unless already present; the scroll bar gets the same blocks.
     * `hits` are the blocks of the successive document hits.
     */
    method HighlightAllMatches(searchText: string, hits: seq<int>) returns (blocks: seq<int>)
      modifies this, bar
      ensures blocks == MatchBlocks(searchText, hits)
      ensures matchBlocks == blocks
      ensures bar.markerBlocks == blocks && bar.totalBlocks == Max(1, blockCount)
      ensures blockCount == old(blockCount) && cursor == old(cursor)
    {
      matchBlocks := [];
      if searchText == [] {
        bar.SetMarkers(Some([]), blockCount);
        return [];
      }
      RecordBlocks(hits);
      bar.SetMarkers(Some(matchBlocks), blockCount);
      blocks := matchBlocks;
    }

    /** The `while True` loop over the hits, appending each new block to the (reset) list. */
    method RecordBlocks(hits: seq<int>)
      requires matchBlocks == []
      modifies this
      ensures matchBlocks == Dedup(hits)
      ensures blockCount == old(blockCount) && cursor == old(cursor)
    {
      var i := 0;
      while i < |hits|
        invariant 0 <= i <= |hits|
        invariant matchBlocks == Dedup(hits[..i])
        invariant blockCount == old(blockCount) && cursor == old(cursor)
      {
        AppendBlock(hits, i);
        i := i + 1;
      }
      assert hits[..i] == hits;
    }

    /** One pass of the loop: the hit's block is appended unless it is already listed. */
    method AppendBlock(hits: seq<int>, i: nat)
      requires i < |hits| && matchBlocks == Dedup(hits[..i])
      modifies this
      ensures matchBlocks == Dedup(hits[..i + 1])
      ensures blockCount == old(blockCount) && cursor == old(cursor)
    {
      DedupStep(hits, i);
      if hits[i] !in matchBlocks {
        matchBlocks := matchBlocks + [hits[i]];
      }
    }

    /**
     * `find_next`: an empty text finds nothing and leaves the cursor; else
     * search forward from the cursor and, failing that, once more from the
     * start. A hit selects the occurrence, leaving the cursor at its end.
     * `starts` are the positions where `text` occurs in the document.
     */
    method FindNext(text: string, starts: seq<nat>) returns (found: bool)
      modifies this
      ensures text == [] ==> !found && cursor == old(cursor)
      ensures text != [] ==> (found <==> FindNextTarget(starts, old(cursor)).Some?)
      ensures text != [] && found ==> cursor == FindNextTarget(starts, old(cursor)).value + |text|
      ensures text != [] && !found ==> cursor == 0
      ensures matchBlocks == old(matchBlocks) && blockCount == old(blockCount)
    {
      if text == [] {
        return false;
      }
      var r := Search(starts, cursor);
      if r.None? {
        cursor := 0;
        r := Search(starts, cursor);
      }
      found := r.Some?;
      if found {
        cursor := r.value + |text|;
      }
    }
  }

  /** `Path.stem` of a file name: the name without its last suffix, when it has one. */
  function Stem(name: string): string {
    var i := LastIndexOf(name, '.');
    if 0 < i < |name| - 1 then name[..i] else name
  }

  /** A result file `<base>.txt` with a non-empty base is shown under the base. */
  lemma StemOfTxt(base: string)
    requires base != []
    ensures Stem(base + ".txt") == base
  {
    var name := base + ".txt";
    assert name[|base|] == '.';
    assert forall j | |base| < j < |name| :: name[j] != '.';
    assert LastIndexOf(name, '.') == |base|;
    assert name[..|base|] == base;
  }

  /** The tab title: the stem with underscores turned into spaces, then title-cased. */
  function DisplayName(name: string): string {
    Title(ReplaceChar(Stem(name), '_', ' '))
  }

  /**
   * The tab title is as long as the stem and holds no underscore: each
   * underscore becomes a space, every other character that starts the stem
   * or follows an underscore is upper-cased, and a character that follows a
   * letter is lower-cased.
   */
  lemma DisplayNameWords(name: string, k: nat)
    requires k < |Stem(name)|
    ensures |DisplayName(name)| == |Stem(name)|
    ensures DisplayName(name)[k] != '_'
    ensures Stem(name)[k] == '_' ==> DisplayName(name)[k] == ' '
    ensures Stem(name)[k] != '_' && (k == 0 || Stem(name)[k - 1] == '_') ==>
      DisplayName(name)[k] == ToUpper(Stem(name)[k])
    ensures Stem(name)[k] != '_' && k > 0 && IsCased(Stem(name)[k - 1]) ==>
      DisplayName(name)[k] == ToLower(Stem(name)[k])
  {
    var stem := Stem(name);
    var s := ReplaceChar(stem, '_', ' ');
    TitleAt(s, k);
    assert s[k] == if stem[k] == '_' then ' ' else stem[k];
    if k > 0 {
      assert s[k - 1] == if stem[k - 1] == '_' then ' ' else stem[k - 1];
    }
  }

  /** A title is idempotent: re-deriving the name of a tab title changes nothing. */
  lemma DisplayNameStable(name: string)
    ensures Title(DisplayName(name)) == DisplayName(name)
  {
    TitleIdempotent(ReplaceChar(Stem(name), '_', ' '));
  }
}
