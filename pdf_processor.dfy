/**
 * The PDF processor: cleaning the text pypdf extracts from each page,
 * cutting every page into overlapping chunks that break at a space, and
 * numbering the chunks of a whole document. Reading the PDF itself is done
 * by pypdf and enters the model as a value (`Reading`).
 */
module PdfProcessor {
  import opened Wrappers
  import opened Text

  /** The processor's two settings; they are fixed when it is built. */
  datatype Settings = Settings(chunkSize: nat, chunkOverlap: int)

  /** `PDFProcessor()` with its default arguments. */
  function DefaultSettings(): Settings { Settings(1000, 100) }

  /** The `metadata` dictionary of a chunk; `totalPageChars` is absent on a whole-page chunk. */
  datatype ChunkMetadata = ChunkMetadata(
    filename: string, pageNumber: int, chunkSize: nat,
    isCompletePage: bool, totalPageChars: Option<nat>)

  datatype DocumentChunk = DocumentChunk(
    content: string, pageNumber: int, chunkIndex: int,
    startChar: nat, endChar: nat, metadata: ChunkMetadata)

  datatype ProcessingResult = ProcessingResult(
    success: bool, chunks: seq<DocumentChunk>, totalPages: nat, totalChars: nat,
    errorMessage: Option<string>)

  /** A page as the processor keeps it: its 1-based number and its cleaned text. */
  type Page = (int, string)

  // ----- _clean_text -----

  /** The class `[\x00-\x08\x0B\x0C\x0E-\x1F\x7F]`: control characters other than tab, newline and carriage return. */
  predicate IsControl(c: char) {
    var n := c as int;
    n <= 8 || n == 11 || n == 12 || (14 <= n <= 31) || n == 127
  }

  /** The class `[ \t]`. */
  predicate IsBlank(c: char) { c == ' ' || c == '\t' }

  predicate NoControls(s: string) { forall i :: 0 <= i < |s| ==> !IsControl(s[i]) }

  predicate NoNewlineRuns(s: string) {
    forall i :: 0 <= i && i + 2 < |s| ==> !(s[i] == '\n' && s[i + 1] == '\n' && s[i + 2] == '\n')
  }

  predicate NoBlankRuns(s: string) {
    forall i :: 0 <= i < |s| ==> s[i] != '\t' && (i + 1 < |s| ==> !(s[i] == ' ' && s[i + 1] == ' '))
  }

  predicate Stripped(s: string) { s == [] || (!IsSpace(s[0]) && !IsSpace(s[|s| - 1])) }

  /** What cleaned text looks like. */
  predicate Clean(s: string) {
    NoControls(s) && NoNewlineRuns(s) && NoBlankRuns(s) && Stripped(s)
  }

  /** `re.sub(r'[\x00-\x08\x0B\x0C\x0E-\x1F\x7F]', '', s)`. */
  function RemoveControls(s: string): (r: string)
    ensures |r| <= |s|
  {
    if s == [] then []
    else (if IsControl(s[0]) then [] else [s[0]]) + RemoveControls(s[1..])
  }

  /** Length of the run of newlines that `s` starts with. */
  function NewlineRun(s: string): (n: nat)
    ensures n <= |s|
    ensures forall i :: 0 <= i < n ==> s[i] == '\n'
    ensures n < |s| ==> s[n] != '\n'
  {
    if s == [] || s[0] != '\n' then 0 else 1 + NewlineRun(s[1..])
  }

  /**
   * `re.sub(r'\n{3,}', '\n\n', s)`: every maximal run of three or more
   * newlines becomes two; shorter runs stay as they are.
   */
  function CollapseNewlines(s: string): (r: string)
    ensures |r| <= |s|
    ensures s != [] && s[0] != '\n' ==> r != [] && r[0] == s[0]
    decreases |s|
  {
    if s == [] then []
    else if s[0] == '\n' then
      var n := NewlineRun(s);
      (if n >= 3 then "\n\n" else s[..n]) + CollapseNewlines(s[n..])
    else [s[0]] + CollapseNewlines(s[1..])
  }

  /** Length of the run of spaces and tabs that `s` starts with. */
  function BlankRun(s: string): (n: nat)
    ensures n <= |s|
    ensures forall i :: 0 <= i < n ==> IsBlank(s[i])
    ensures n < |s| ==> !IsBlank(s[n])
  {
    if s == [] || !IsBlank(s[0]) then 0 else 1 + BlankRun(s[1..])
  }

  /** `re.sub(r'[ \t]+', ' ', s)`: every maximal run of spaces and tabs becomes one space. */
  function CollapseBlanks(s: string): (r: string)
    ensures |r| <= |s|
    ensures s != [] ==> r != [] && r[0] == (if IsBlank(s[0]) then ' ' else s[0])
    decreases |s|
  {
    if s == [] then []
    else if IsBlank(s[0]) then " " + CollapseBlanks(s[BlankRun(s)..])
    else [s[0]] + CollapseBlanks(s[1..])
  }

  // Each condition on a string put together from a head and a tail.

  lemma NoControlsAppend(a: string, b: string)
    requires NoControls(a) && NoControls(b)
    ensures NoControls(a + b)
  {
    assert forall i :: |a| <= i < |a + b| ==> (a + b)[i] == b[i - |a|];
  }

  lemma NoNewlineRunsCons(c: char, rest: string)
    requires NoNewlineRuns(rest)
    requires c == '\n' && |rest| >= 2 && rest[0] == '\n' ==> rest[1] != '\n'
    ensures NoNewlineRuns([c] + rest)
  {
    var s := [c] + rest;
    forall i | 0 <= i && i + 2 < |s|
      ensures !(s[i] == '\n' && s[i + 1] == '\n' && s[i + 2] == '\n')
    {
      if i > 0 {
        assert s[i] == rest[i - 1] && s[i + 1] == rest[i] && s[i + 2] == rest[i + 1];
      }
    }
  }

  /** At most two newlines followed by a tail that does not start with one. */
  lemma NoNewlineRunsAfterRun(run: string, rest: string)
    requires |run| <= 2 && NoNewlineRuns(rest)
    requires rest != [] ==> rest[0] != '\n'
    ensures NoNewlineRuns(run + rest)
  {
    var s := run + rest;
    forall i | 0 <= i && i + 2 < |s|
      ensures !(s[i] == '\n' && s[i + 1] == '\n' && s[i + 2] == '\n')
    {
      if i >= |run| {
        assert s[i] == rest[i - |run|] && s[i + 1] == rest[i - |run| + 1] && s[i + 2] == rest[i - |run| + 2];
      } else if i + 1 == |run| {
        assert s[i + 1] == rest[0];
      } else {
        assert s[i + 2] == rest[0];
      }
    }
  }

  lemma NoBlankRunsCons(c: char, rest: string)
    requires NoBlankRuns(rest) && c != '\t'
    requires c == ' ' && rest != [] ==> rest[0] != ' '
    ensures NoBlankRuns([c] + rest)
  {
    var s := [c] + rest;
    forall i | 0 <= i < |s|
      ensures s[i] != '\t' && (i + 1 < |s| ==> !(s[i] == ' ' && s[i + 1] == ' '))
    {
      if i > 0 {
        assert s[i] == rest[i - 1];
        if i + 1 < |s| { assert s[i + 1] == rest[i]; }
      }
    }
  }

  // The three substitutions.

  lemma {:induction false} ControlsRemoved(s: string)
    ensures NoControls(RemoveControls(s))
    ensures NoControls(s) ==> RemoveControls(s) == s
    decreases |s|
  {
    if s != [] {
      ControlsRemoved(s[1..]);
      var head := if IsControl(s[0]) then [] else [s[0]];
      NoControlsAppend(head, RemoveControls(s[1..]));
    }
  }

  lemma {:induction false} NewlinesCollapsed(s: string)
    ensures NoNewlineRuns(CollapseNewlines(s))
    decreases |s|
  {
    if s != [] {
      if s[0] == '\n' {
        var n := NewlineRun(s);
        NewlinesCollapsed(s[n..]);
        NoNewlineRunsAfterRun(if n >= 3 then "\n\n" else s[..n], CollapseNewlines(s[n..]));
      } else {
        NewlinesCollapsed(s[1..]);
        NoNewlineRunsCons(s[0], CollapseNewlines(s[1..]));
      }
    }
  }

  lemma {:induction false} NewlinesKeepControls(s: string)
    requires NoControls(s)
    ensures NoControls(CollapseNewlines(s))
    decreases |s|
  {
    if s != [] {
      if s[0] == '\n' {
        var n := NewlineRun(s);
        assert NoControls(s[n..]);
        NewlinesKeepControls(s[n..]);
        NoControlsAppend(if n >= 3 then "\n\n" else s[..n], CollapseNewlines(s[n..]));
      } else {
        assert NoControls(s[1..]);
        NewlinesKeepControls(s[1..]);
        NoControlsAppend([s[0]], CollapseNewlines(s[1..]));
      }
    }
  }

  lemma {:induction false} NewlinesFixed(s: string)
    requires NoNewlineRuns(s)
    ensures CollapseNewlines(s) == s
    decreases |s|
  {
    if s != [] {
      if s[0] == '\n' {
        var n := NewlineRun(s);
        if |s| >= 3 {
          assert !(s[0] == '\n' && s[1] == '\n' && s[2] == '\n');
        }
        assert n < 3;
        assert NoNewlineRuns(s[n..]) by {
          var t := s[n..];
          forall i | 0 <= i && i + 2 < |t| ensures !(t[i] == '\n' && t[i + 1] == '\n' && t[i + 2] == '\n') {
            assert t[i] == s[n + i] && t[i + 1] == s[n + i + 1] && t[i + 2] == s[n + i + 2];
          }
        }
        NewlinesFixed(s[n..]);
        assert s[..n] + s[n..] == s;
      } else {
        assert NoNewlineRuns(s[1..]) by {
          var t := s[1..];
          forall i | 0 <= i && i + 2 < |t| ensures !(t[i] == '\n' && t[i + 1] == '\n' && t[i + 2] == '\n') {
            assert t[i] == s[i + 1] && t[i + 1] == s[i + 2] && t[i + 2] == s[i + 3];
          }
        }
        NewlinesFixed(s[1..]);
        assert [s[0]] + s[1..] == s;
      }
    }
  }

  lemma {:induction false} BlanksCollapsed(s: string)
    ensures NoBlankRuns(CollapseBlanks(s))
    decreases |s|
  {
    if s != [] {
      if IsBlank(s[0]) {
        BlanksCollapsed(s[BlankRun(s)..]);
        NoBlankRunsCons(' ', CollapseBlanks(s[BlankRun(s)..]));
      } else {
        BlanksCollapsed(s[1..]);
        NoBlankRunsCons(s[0], CollapseBlanks(s[1..]));
      }
    }
  }

  lemma {:induction false} BlanksKeepControls(s: string)
    requires NoControls(s)
    ensures NoControls(CollapseBlanks(s))
    decreases |s|
  {
    if s != [] {
      if IsBlank(s[0]) {
        var n := BlankRun(s);
        assert NoControls(s[n..]);
        BlanksKeepControls(s[n..]);
        NoControlsAppend(" ", CollapseBlanks(s[n..]));
      } else {
        assert NoControls(s[1..]);
        BlanksKeepControls(s[1..]);
        NoControlsAppend([s[0]], CollapseBlanks(s[1..]));
      }
    }
  }

  lemma {:induction false} BlanksKeepNewlineRuns(s: string)
    requires NoNewlineRuns(s)
    ensures NoNewlineRuns(CollapseBlanks(s))
    decreases |s|
  {
    if s != [] {
      if IsBlank(s[0]) {
        var n := BlankRun(s);
        var t := s[n..];
        assert NoNewlineRuns(t) by {
          forall i | 0 <= i && i + 2 < |t| ensures !(t[i] == '\n' && t[i + 1] == '\n' && t[i + 2] == '\n') {
            assert t[i] == s[n + i] && t[i + 1] == s[n + i + 1] && t[i + 2] == s[n + i + 2];
          }
        }
        BlanksKeepNewlineRuns(t);
        NoNewlineRunsCons(' ', CollapseBlanks(t));
      } else {
        var t := s[1..];
        assert NoNewlineRuns(t) by {
          forall i | 0 <= i && i + 2 < |t| ensures !(t[i] == '\n' && t[i + 1] == '\n' && t[i + 2] == '\n') {
            assert t[i] == s[i + 1] && t[i + 1] == s[i + 2] && t[i + 2] == s[i + 3];
          }
        }
        BlanksKeepNewlineRuns(t);
        var rest := CollapseBlanks(t);
        if s[0] == '\n' && |rest| >= 2 && rest[0] == '\n' {
          assert t[0] == '\n';
          assert rest == [t[0]] + CollapseBlanks(t[1..]);
          assert rest[1] == CollapseBlanks(t[1..])[0];
          assert t[1..] != [] && t[1..][0] == s[2];
        }
        NoNewlineRunsCons(s[0], rest);
      }
    }
  }

  lemma {:induction false} BlanksFixed(s: string)
    requires NoBlankRuns(s)
    ensures CollapseBlanks(s) == s
    decreases |s|
  {
    if s != [] {
      if |s| >= 2 {
        assert s[1] != '\t' && !(s[0] == ' ' && s[1] == ' ');
      }
      assert IsBlank(s[0]) ==> BlankRun(s) == 1;
      var t := s[1..];
      assert NoBlankRuns(t) by {
        forall i | 0 <= i < |t| ensures t[i] != '\t' && (i + 1 < |t| ==> !(t[i] == ' ' && t[i + 1] == ' ')) {
          assert t[i] == s[i + 1];
          if i + 1 < |t| { assert t[i + 1] == s[i + 2]; }
        }
      }
      BlanksFixed(t);
      assert [s[0]] + t == s;
    }
  }

  /** Stripping keeps each of the three character conditions, since it only drops both ends. */
  lemma StripKeeps(s: string)
    ensures NoControls(s) ==> NoControls(Strip(s))
    ensures NoNewlineRuns(s) ==> NoNewlineRuns(Strip(s))
    ensures NoBlankRuns(s) ==> NoBlankRuns(Strip(s))
  {
    var lo := SkipSpace(s, 0);
    var hi := TrimEnd(s, lo, |s|);
    var r := s[lo..hi];
    assert Strip(s) == r;
    assert forall i :: 0 <= i < |r| ==> r[i] == s[lo + i];
  }

  /** `_clean_text`. */
  function CleanText(s: string): (r: string)
    ensures |r| <= |s|
  {
    if s == [] then []
    else Strip(CollapseBlanks(CollapseNewlines(RemoveControls(s))))
  }

  /** Cleaned text has no control characters, no three newlines in a row, no tab, no two spaces in a row and no whitespace at either end. */
  lemma CleanTextIsClean(s: string)
    ensures Clean(CleanText(s))
  {
    if s != [] {
      var a := RemoveControls(s);
      var b := CollapseNewlines(a);
      var c := CollapseBlanks(b);
      ControlsRemoved(s);
      NewlinesCollapsed(a);
      NewlinesKeepControls(a);
      BlanksCollapsed(b);
      BlanksKeepControls(b);
      BlanksKeepNewlineRuns(b);
      StripKeeps(c);
    }
  }

  /** Clean text is a fixed point of the cleaning. */
  lemma CleanIsFixed(s: string)
    requires Clean(s)
    ensures CleanText(s) == s
  {
    if s != [] {
      ControlsRemoved(s);
      NewlinesFixed(s);
      BlanksFixed(s);
      StripOfStripped(s);
    }
  }

  /** Cleaning twice is cleaning once. */
  lemma CleanTextIdempotent(s: string)
    ensures CleanText(CleanText(s)) == CleanText(s)
  {
    CleanTextIsClean(s);
    CleanIsFixed(CleanText(s));
  }

  // ----- _chunk_text -----

  function Min(a: int, b: int): int { if a <= b then a else b }

  /** Python's `text[lo:hi]` for non-negative bounds, a character at a time. */
  function Slice(text: string, lo: nat, hi: nat): (r: string)
    ensures |r| == if lo < Min(hi, |text|) then Min(hi, |text|) - lo else 0
    decreases hi - lo
  {
    if lo < hi && lo < |text| then [text[lo]] + Slice(text, lo + 1, hi) else []
  }

  /** Character `k` of `text[lo:hi]` is character `lo + k` of the text. */
  lemma {:induction false} SliceAt(text: string, lo: nat, hi: nat, k: nat)
    requires k < |Slice(text, lo, hi)|
    ensures lo + k < |text| && Slice(text, lo, hi)[k] == text[lo + k]
    decreases hi - lo
  {
    if k > 0 {
      SliceAt(text, lo + 1, hi, k - 1);
    }
  }

  /** Python clamps the end of a slice to the length of the text. */
  lemma {:induction false} SliceClamp(text: string, lo: nat, hi: nat)
    ensures Slice(text, lo, hi) == Slice(text, lo, Min(hi, |text|))
    decreases hi - lo
  {
    if lo < hi && lo < |text| {
      SliceClamp(text, lo + 1, hi);
    }
  }

  /** A slice of a slice is a slice. */
  lemma {:induction false} SliceOfSlice(text: string, lo: nat, hi: nat, x: nat, y: nat)
    requires x <= y <= |Slice(text, lo, hi)|
    ensures Slice(Slice(text, lo, hi), x, y) == Slice(text, lo + x, lo + y)
    decreases y - x
  {
    if x < y {
      SliceAt(text, lo, hi, x);
      SliceOfSlice(text, lo, hi, x + 1, y);
    }
  }

  /** Within bounds the character-at-a-time slice is Dafny's own. */
  lemma {:induction false} SliceIsSubsequence(s: string, a: nat, b: nat)
    requires a <= b <= |s|
    ensures Slice(s, a, b) == s[a..b]
    decreases b - a
  {
    if a < b {
      SliceIsSubsequence(s, a + 1, b);
      assert s[a..b] == [s[a]] + s[a + 1..b];
    }
  }

  /** The first index in `lo..hi` that is not whitespace, or `hi`. */
  function FirstText(text: string, lo: nat, hi: nat): (k: nat)
    requires lo <= hi <= |text|
    ensures lo <= k <= hi
    decreases hi - lo
  {
    if lo == hi || !IsSpace(text[lo]) then lo else FirstText(text, lo + 1, hi)
  }

  /** One past the last index in `lo..hi` that is not whitespace, or `lo`. */
  function EndText(text: string, lo: nat, hi: nat): (k: nat)
    requires lo <= hi <= |text|
    ensures lo <= k <= hi
    decreases hi - lo
  {
    if hi == lo || !IsSpace(text[hi - 1]) then hi else EndText(text, lo, hi - 1)
  }

  /**
   * `text[lo:hi].strip()`, found by moving the two bounds inwards over the
   * text itself; `StrippedSliceIsStrip` shows it is that.
   */
  function StrippedSlice(text: string, lo: nat, hi: nat): string {
    var hi' := Min(hi, |text|);
    if lo >= hi' then []
    else
      var a := FirstText(text, lo, hi');
      Slice(text, a, EndText(text, a, hi'))
  }

  lemma {:induction false} FirstTextIsSkipSpace(s: string, i: nat)
    requires i <= |s|
    ensures SkipSpace(s, i) == FirstText(s, i, |s|)
    decreases |s| - i
  {
    if i < |s| && IsSpace(s[i]) {
      FirstTextIsSkipSpace(s, i + 1);
    }
  }

  lemma {:induction false} EndTextIsTrimEnd(s: string, a: nat, j: nat)
    requires a <= j <= |s|
    ensures TrimEnd(s, a, j) == EndText(s, a, j)
    decreases j - a
  {
    if a < j && IsSpace(s[j - 1]) {
      EndTextIsTrimEnd(s, a, j - 1);
    }
  }

  /** Python's `s.strip()` in terms of the two bounds. */
  lemma {:induction false} StripBounds(s: string, a: nat, b: nat, r: string)
    requires a == FirstText(s, 0, |s|) && b == EndText(s, a, |s|) && r == Slice(s, a, b)
    ensures Strip(s) == r
  {
    FirstTextIsSkipSpace(s, 0);
    EndTextIsTrimEnd(s, a, |s|);
    SliceIsSubsequence(s, a, b);
  }

  /** The bounds found in a slice are those found in the text, shifted by the slice's start. */
  lemma {:induction false} FirstTextShift(text: string, lo: nat, hi: nat, i: nat)
    requires lo + i <= hi <= |text|
    ensures FirstText(Slice(text, lo, hi), i, hi - lo) == FirstText(text, lo + i, hi) - lo
    decreases hi - lo - i
  {
    if lo + i < hi {
      SliceAt(text, lo, hi, i);
      FirstTextShift(text, lo, hi, i + 1);
    }
  }

  lemma {:induction false} EndTextShift(text: string, lo: nat, hi: nat, a: nat, j: nat)
    requires lo <= a <= j <= hi <= |text|
    ensures EndText(Slice(text, lo, hi), a - lo, j - lo) == EndText(text, a, j) - lo
    decreases j - a
  {
    if a < j {
      SliceAt(text, lo, hi, j - lo - 1);
      EndTextShift(text, lo, hi, a, j - 1);
    }
  }

  /** The bounds of the text inside `text[lo:hi]` read off the slice and off the text agree. */
  lemma {:induction false} SliceTextBounds(text: string, lo: nat, hi: nat, a: nat, b: nat)
    requires lo < hi <= |text|
    requires a == FirstText(text, lo, hi) && b == EndText(text, a, hi)
    ensures FirstText(Slice(text, lo, hi), 0, hi - lo) == a - lo
    ensures EndText(Slice(text, lo, hi), a - lo, hi - lo) == b - lo
  {
    FirstTextShift(text, lo, hi, 0);
    EndTextShift(text, lo, hi, a, hi);
  }

  lemma {:induction false} StripOfClampedSlice(text: string, lo: nat, hi: nat, a: nat, b: nat)
    requires lo < hi <= |text|
    requires a == FirstText(text, lo, hi) && b == EndText(text, a, hi)
    ensures Strip(Slice(text, lo, hi)) == Slice(text, a, b)
  {
    SliceTextBounds(text, lo, hi, a, b);
    SliceOfSlice(text, lo, hi, a - lo, b - lo);
    StripBounds(Slice(text, lo, hi), a - lo, b - lo, Slice(text, a, b));
  }

  /** Bounds moved inwards give Python's `text[lo:hi].strip()`. */
  lemma {:induction false} StrippedSliceIsStrip(text: string, lo: nat, hi: nat)
    ensures StrippedSlice(text, lo, hi) == Strip(Slice(text, lo, hi))
  {
    var hi' := Min(hi, |text|);
    SliceClamp(text, lo, hi);
    if lo < hi' {
      var a := FirstText(text, lo, hi');
      StripOfClampedSlice(text, lo, hi', a, EndText(text, a, hi'));
    }
  }

  /** `text.rfind(' ', lo, hi)` for `hi <= len(text)`: the last index in `lo..hi` holding a space, or -1. */
  function LastSpace(text: string, lo: nat, hi: nat): (r: int)
    requires hi <= |text|
    ensures r == -1 || (lo <= r < hi && text[r] == ' ')
    decreases hi
  {
    if hi <= lo then -1
    else if text[hi - 1] == ' ' then hi - 1
    else LastSpace(text, lo, hi - 1)
  }

  /** `rfind` gives -1 only when there is no space in the range, and otherwise the last one. */
  lemma {:induction false} LastSpaceIsLast(text: string, lo: nat, hi: nat, i: nat)
    requires hi <= |text| && lo <= i < hi && text[i] == ' '
    ensures LastSpace(text, lo, hi) != -1
    ensures i <= LastSpace(text, lo, hi)
    decreases hi
  {
    if text[hi - 1] != ' ' {
      LastSpaceIsLast(text, lo, hi - 1, i);
    }
  }

  /**
   * Where the window that starts at `start` ends: `size` characters on,
   * brought back to the last space of the window when the window does not
   * reach the end of the text and that space lies after `start`.
   */
  function WindowEnd(text: string, size: nat, start: nat): (end: nat)
    requires start < |text|
    ensures start <= end <= |text| && end - start <= size
    ensures end < |text| && end < start + size ==> text[end] == ' '
    ensures size >= 1 ==> start < end
  {
    var end := Min(start + size, |text|);
    if end < |text| then
      var space := LastSpace(text, start, end);
      if space > start then space else end
    else end
  }

  /** The next window's start: `overlap` characters before `end`, but at least one past `start`. */
  function NextStart(start: nat, end: nat, overlap: int): (next: nat)
    ensures next > start
    ensures next == start + 1 || next == end - overlap
  {
    if end - overlap <= start then start + 1 else end - overlap
  }

  /** The `(start_pos, end_pos)` pairs the chunking loop goes through, from `start` on. */
  function Windows(text: string, size: nat, overlap: int, start: nat): seq<(nat, nat)>
    decreases |text| - start
  {
    if start >= |text| then []
    else
      var end := WindowEnd(text, size, start);
      if end >= |text| then [(start, end)]
      else [(start, end)] + Windows(text, size, overlap, NextStart(start, end, overlap))
  }

  /** Past the first window come the windows from the next start. */
  lemma WindowsTail(text: string, size: nat, overlap: int, start: nat, k: nat)
    requires start < |text| && WindowEnd(text, size, start) < |text|
    requires k < |Windows(text, size, overlap, NextStart(start, WindowEnd(text, size, start), overlap))|
    ensures var later := Windows(text, size, overlap, NextStart(start, WindowEnd(text, size, start), overlap));
      k + 1 < |Windows(text, size, overlap, start)| && Windows(text, size, overlap, start)[k + 1] == later[k]
  {
    var later := Windows(text, size, overlap, NextStart(start, WindowEnd(text, size, start), overlap));
    ConsIndex((start, WindowEnd(text, size, start)), later, k);
  }

  lemma ConsIndex<T>(x: T, xs: seq<T>, k: nat)
    requires k < |xs|
    ensures ([x] + xs)[k + 1] == xs[k]
  {
  }

  /** Every window lies inside the text, starts at or after `start` and spans at most `size` characters. */
  lemma {:induction false} WindowInBounds(text: string, size: nat, overlap: int, start: nat, k: nat)
    requires k < |Windows(text, size, overlap, start)|
    ensures var w := Windows(text, size, overlap, start)[k];
      start <= w.0 < |text| && w.0 <= w.1 <= |text| && w.1 - w.0 <= size
    ensures var w := Windows(text, size, overlap, start)[k];
      size >= 1 ==> w.0 < w.1
    decreases |text| - start
  {
    if k > 0 {
      var end := WindowEnd(text, size, start);
      WindowInBounds(text, size, overlap, NextStart(start, end, overlap), k - 1);
    }
  }

  /**
   * From one window to the next: the start strictly increases, by the
   * overlap rule or by the forced step of one; only the last window reaches
   * the end of the text; and with a positive size and a non-negative overlap
   * the next window starts no later than the previous one ends.
   */
  lemma {:induction false} WindowsAdvance(text: string, size: nat, overlap: int, start: nat, k: nat)
    requires k + 1 < |Windows(text, size, overlap, start)|
    ensures var ws := Windows(text, size, overlap, start);
      ws[k].0 < ws[k + 1].0 && ws[k].1 < |text|
    ensures var ws := Windows(text, size, overlap, start);
      ws[k + 1].0 == ws[k].1 - overlap || ws[k + 1].0 == ws[k].0 + 1
    ensures var ws := Windows(text, size, overlap, start);
      size >= 1 && overlap >= 0 ==> ws[k + 1].0 <= ws[k].1
    decreases |text| - start
  {
    var end := WindowEnd(text, size, start);
    var next := NextStart(start, end, overlap);
    if k > 0 {
      WindowsAdvance(text, size, overlap, next, k - 1);
    } else if next < |text| {
      assert Windows(text, size, overlap, next)[0] == (next, WindowEnd(text, size, next));
    }
  }

  /** With a positive size and a non-negative overlap the windows run to the end of the text. */
  lemma {:induction false} WindowsReachEnd(text: string, size: nat, overlap: int, start: nat)
    requires start < |text| && size >= 1 && overlap >= 0
    ensures var ws := Windows(text, size, overlap, start);
      ws != [] && ws[|ws| - 1].1 == |text|
    decreases |text| - start
  {
    var end := WindowEnd(text, size, start);
    if end < |text| {
      WindowsReachEnd(text, size, overlap, NextStart(start, end, overlap));
    }
  }

  /** The chunk of a page that fits in one chunk. */
  function WholePage(text: string, page: int, index: int, filename: string): DocumentChunk {
    DocumentChunk(text, page, index, 0, |text|,
      ChunkMetadata(filename, page, |text|, true, None))
  }

  /** The chunk cut from one window of a longer page. */
  function PartChunk(text: string, page: int, index: int, filename: string, w: (nat, nat), content: string): DocumentChunk {
    DocumentChunk(content, page, index, w.0, w.1,
      ChunkMetadata(filename, page, |content|, false, Some(|text|)))
  }

  /**
   * The chunking loop from the window at `start` on, where `acc` holds the
   * chunks cut so far and `index` is the number the next chunk gets.
   */
  function ChunkLoop(s: Settings, text: string, page: int, filename: string, start: nat, index: int, acc: seq<DocumentChunk>): seq<DocumentChunk>
    decreases |text| - start
  {
    if start >= |text| then acc
    else
      var end := WindowEnd(text, s.chunkSize, start);
      var content := StrippedSlice(text, start, end);
      var acc' := if content == [] then acc else acc + [PartChunk(text, page, index, filename, (start, end), content)];
      var index' := if content == [] then index else index + 1;
      if end >= |text| then acc'
      else ChunkLoop(s, text, page, filename, NextStart(start, end, s.chunkOverlap), index', acc')
  }

  /** What `_chunk_text` returns. */
  function Chunked(s: Settings, text: string, page: int, index: int, filename: string): seq<DocumentChunk> {
    if |text| <= s.chunkSize then [WholePage(text, page, index, filename)]
    else ChunkLoop(s, text, page, filename, 0, index, [])
  }

  /** The end of the window at `start`: the first steps of the loop body. */
  method FindWindowEnd(text: string, size: nat, start: nat) returns (end: nat)
    requires start < |text|
    ensures end == WindowEnd(text, size, start)
  {
    end := Min(start + size, |text|);
    if end < |text| {
      var lastSpace := LastSpace(text, start, end);
      if lastSpace > start {
        end := lastSpace;
      }
    }
  }

  /** `_chunk_text`. */
  method ChunkText(s: Settings, text: string, page: int, startIndex: int, filename: string)
    returns (chunks: seq<DocumentChunk>)
    ensures chunks == Chunked(s, text, page, startIndex, filename)
    ensures |text| <= s.chunkSize ==>
      |chunks| == 1 && chunks[0].content == text && chunks[0].chunkIndex == startIndex
      && chunks[0].startChar == 0 && chunks[0].endChar == |text| && chunks[0].metadata.isCompletePage
  {
    if |text| <= s.chunkSize {
      return [WholePage(text, page, startIndex, filename)];
    }
    ghost var goal := ChunkLoop(s, text, page, filename, 0, startIndex, []);
    chunks := [];
    var index := startIndex;
    var start: nat := 0;
    while start < |text|
      invariant ChunkLoop(s, text, page, filename, start, index, chunks) == goal
      decreases |text| - start
    {
      var end := FindWindowEnd(text, s.chunkSize, start);
      var content := Strip(Slice(text, start, end));
      StrippedSliceIsStrip(text, start, end);
      if content != [] {
        chunks := chunks + [PartChunk(text, page, index, filename, (start, end), content)];
        index := index + 1;
      }
      if end >= |text| {
        break;
      }
      var next := end - s.chunkOverlap;
      if next <= start {
        next := start + 1;
      }
      assert next == NextStart(start, end, s.chunkOverlap);
      start := next;
    }
  }

  /** The loop only appends: the chunks cut before `start` stay as they are. */
  lemma {:induction false} ChunkLoopKeeps(s: Settings, text: string, page: int, filename: string, start: nat, index: int, acc: seq<DocumentChunk>, k: nat)
    requires k < |acc|
    ensures k < |ChunkLoop(s, text, page, filename, start, index, acc)|
    ensures ChunkLoop(s, text, page, filename, start, index, acc)[k] == acc[k]
    decreases |text| - start
  {
    if start < |text| {
      var end := WindowEnd(text, s.chunkSize, start);
      var content := StrippedSlice(text, start, end);
      var acc' := if content == [] then acc else acc + [PartChunk(text, page, index, filename, (start, end), content)];
      var index' := if content == [] then index else index + 1;
      assert acc'[k] == acc[k];
      if end < |text| {
        ChunkLoopKeeps(s, text, page, filename, NextStart(start, end, s.chunkOverlap), index', acc', k);
      }
    }
  }

  /**
   * Chunk `k` of what the loop returns, past those cut before `start`, is
   * the chunk of the `j`-th window from `start` on, numbered on from
   * `index`; it holds that window's stripped text, which is not empty.
   */
  lemma {:induction false} ChunkLoopAt(s: Settings, text: string, page: int, filename: string, start: nat, index: int, acc: seq<DocumentChunk>, k: nat)
    returns (j: nat)
    requires |acc| <= k < |ChunkLoop(s, text, page, filename, start, index, acc)|
    ensures j < |Windows(text, s.chunkSize, s.chunkOverlap, start)|
    ensures var w := Windows(text, s.chunkSize, s.chunkOverlap, start)[j];
      ChunkLoop(s, text, page, filename, start, index, acc)[k]
      == PartChunk(text, page, index + (k - |acc|), filename, w, StrippedSlice(text, w.0, w.1))
    ensures var w := Windows(text, s.chunkSize, s.chunkOverlap, start)[j];
      StrippedSlice(text, w.0, w.1) != []
    decreases |text| - start
  {
    var end := WindowEnd(text, s.chunkSize, start);
    var content := StrippedSlice(text, start, end);
    var acc' := if content == [] then acc else acc + [PartChunk(text, page, index, filename, (start, end), content)];
    var index' := if content == [] then index else index + 1;
    var ws := Windows(text, s.chunkSize, s.chunkOverlap, start);
    assert ws[0] == (start, end);
    if k < |acc'| {
      j := 0;
      assert acc'[k] == PartChunk(text, page, index, filename, (start, end), content);
      if end < |text| {
        ChunkLoopKeeps(s, text, page, filename, NextStart(start, end, s.chunkOverlap), index', acc', k);
      }
    } else {
      var next := NextStart(start, end, s.chunkOverlap);
      assert end < |text|;
      var j' := ChunkLoopAt(s, text, page, filename, next, index', acc', k);
      j := j' + 1;
      WindowsTail(text, s.chunkSize, s.chunkOverlap, start, j');
    }
  }

  /** Stripped text that is not empty comes from a non-empty range of the text and is no longer than it. */
  lemma StrippedSliceFits(text: string, lo: nat, hi: nat)
    ensures StrippedSlice(text, lo, hi) != [] ==>
      lo < hi && lo < |text| && |StrippedSlice(text, lo, hi)| <= Min(hi, |text|) - lo
  {
  }

  /**
   * Every chunk of a page longer than `chunk_size` is cut from one of the
   * windows: it carries that window's bounds, the window's text stripped,
   * which is not empty and no longer than `chunk_size`, the page's number,
   * and the next number from `start_chunk_index` on.
   */
  lemma ChunkedPart(s: Settings, text: string, page: int, index: int, filename: string, k: nat)
    returns (j: nat)
    requires |text| > s.chunkSize && k < |Chunked(s, text, page, index, filename)|
    ensures j < |Windows(text, s.chunkSize, s.chunkOverlap, 0)|
    ensures var c := Chunked(s, text, page, index, filename)[k];
      (c.startChar, c.endChar) == Windows(text, s.chunkSize, s.chunkOverlap, 0)[j]
      && c.content == Strip(Slice(text, c.startChar, c.endChar))
    ensures var c := Chunked(s, text, page, index, filename)[k];
      c.chunkIndex == index + k && c.pageNumber == page
      && c.content != [] && |c.content| <= s.chunkSize
      && c.startChar < c.endChar <= |text|
      && c.metadata == ChunkMetadata(filename, page, |c.content|, false, Some(|text|))
  {
    j := ChunkLoopAt(s, text, page, filename, 0, index, [], k);
    var w := Windows(text, s.chunkSize, s.chunkOverlap, 0)[j];
    WindowInBounds(text, s.chunkSize, s.chunkOverlap, 0, j);
    StrippedSliceIsStrip(text, w.0, w.1);
    StrippedSliceFits(text, w.0, w.1);
  }

  /** Chunks whose start positions strictly increase. */
  predicate StartsIncrease(cs: seq<DocumentChunk>) {
    forall a, b :: 0 <= a < b < |cs| ==> cs[a].startChar < cs[b].startChar
  }

  predicate StartBefore(cs: seq<DocumentChunk>, start: nat) {
    forall a :: 0 <= a < |cs| ==> cs[a].startChar < start
  }

  /** The loop appends chunks in the order of their windows, whose starts increase. */
  lemma {:induction false} ChunkLoopOrdered(s: Settings, text: string, page: int, filename: string, start: nat, index: int, acc: seq<DocumentChunk>)
    requires StartsIncrease(acc) && StartBefore(acc, start)
    ensures StartsIncrease(ChunkLoop(s, text, page, filename, start, index, acc))
    decreases |text| - start
  {
    if start < |text| {
      var end := WindowEnd(text, s.chunkSize, start);
      var content := StrippedSlice(text, start, end);
      var acc' := if content == [] then acc else acc + [PartChunk(text, page, index, filename, (start, end), content)];
      var index' := if content == [] then index else index + 1;
      assert StartsIncrease(acc') && StartBefore(acc', start + 1);
      if end < |text| {
        ChunkLoopOrdered(s, text, page, filename, NextStart(start, end, s.chunkOverlap), index', acc');
      }
    }
  }

  /** A page's chunks come in the order of their positions in the page. */
  lemma ChunkedOrdered(s: Settings, text: string, page: int, index: int, filename: string)
    ensures StartsIncrease(Chunked(s, text, page, index, filename))
  {
    if |text| > s.chunkSize {
      ChunkLoopOrdered(s, text, page, filename, 0, index, []);
    }
  }

  /** The first window, when its text is not all whitespace, gives the next chunk. */
  lemma ChunkLoopFirst(s: Settings, text: string, page: int, filename: string, start: nat, index: int, acc: seq<DocumentChunk>)
    requires start < |text|
    requires StrippedSlice(text, start, WindowEnd(text, s.chunkSize, start)) != []
    ensures |acc| < |ChunkLoop(s, text, page, filename, start, index, acc)|
    ensures var c := ChunkLoop(s, text, page, filename, start, index, acc)[|acc|];
      c.startChar == start && c.endChar == WindowEnd(text, s.chunkSize, start)
  {
    var end := WindowEnd(text, s.chunkSize, start);
    var content := StrippedSlice(text, start, end);
    var acc' := acc + [PartChunk(text, page, index, filename, (start, end), content)];
    assert acc'[|acc|] == PartChunk(text, page, index, filename, (start, end), content);
    if end < |text| {
      ChunkLoopKeeps(s, text, page, filename, NextStart(start, end, s.chunkOverlap), index + 1, acc', |acc|);
    }
  }

  /** The window's text is not all whitespace. */
  predicate HasText(text: string, w: (nat, nat)) { StrippedSlice(text, w.0, w.1) != [] }

  /** Every window whose text is not all whitespace gives a chunk, from `start` on. */
  lemma {:induction false} ChunkLoopCovers(s: Settings, text: string, page: int, filename: string, start: nat, index: int, acc: seq<DocumentChunk>, j: nat)
    returns (k: nat)
    requires j < |Windows(text, s.chunkSize, s.chunkOverlap, start)|
    requires HasText(text, Windows(text, s.chunkSize, s.chunkOverlap, start)[j])
    ensures |acc| <= k < |ChunkLoop(s, text, page, filename, start, index, acc)|
    ensures var w := Windows(text, s.chunkSize, s.chunkOverlap, start)[j];
      var c := ChunkLoop(s, text, page, filename, start, index, acc)[k];
      c.startChar == w.0 && c.endChar == w.1
    decreases |text| - start, 1
  {
    if j == 0 {
      assert Windows(text, s.chunkSize, s.chunkOverlap, start)[0] == (start, WindowEnd(text, s.chunkSize, start));
      ChunkLoopFirst(s, text, page, filename, start, index, acc);
      k := |acc|;
    } else {
      k := ChunkLoopCoversLater(s, text, page, filename, start, index, acc, j);
    }
  }

  /** The windows after the first are covered by the turns of the loop that follow. */
  lemma {:induction false} ChunkLoopCoversLater(s: Settings, text: string, page: int, filename: string, start: nat, index: int, acc: seq<DocumentChunk>, j: nat)
    returns (k: nat)
    requires 0 < j < |Windows(text, s.chunkSize, s.chunkOverlap, start)|
    requires HasText(text, Windows(text, s.chunkSize, s.chunkOverlap, start)[j])
    ensures |acc| <= k < |ChunkLoop(s, text, page, filename, start, index, acc)|
    ensures var w := Windows(text, s.chunkSize, s.chunkOverlap, start)[j];
      var c := ChunkLoop(s, text, page, filename, start, index, acc)[k];
      c.startChar == w.0 && c.endChar == w.1
    decreases |text| - start, 0
  {
    var next, index', acc' := ChunkLoopStep(s, text, page, filename, start, index, acc, j);
    k := ChunkLoopCovers(s, text, page, filename, next, index', acc', j - 1);
  }

  /**
   * One turn of the loop that does not reach the end of the text only
   * appends, and the windows from the next start are the remaining ones.
   */
  lemma ChunkLoopStep(s: Settings, text: string, page: int, filename: string, start: nat, index: int, acc: seq<DocumentChunk>, j: nat)
    returns (next: nat, index': int, acc': seq<DocumentChunk>)
    requires 0 < j < |Windows(text, s.chunkSize, s.chunkOverlap, start)|
    ensures start < next && |acc| <= |acc'|
    ensures j - 1 < |Windows(text, s.chunkSize, s.chunkOverlap, next)|
    ensures Windows(text, s.chunkSize, s.chunkOverlap, next)[j - 1] == Windows(text, s.chunkSize, s.chunkOverlap, start)[j]
    ensures ChunkLoop(s, text, page, filename, start, index, acc) == ChunkLoop(s, text, page, filename, next, index', acc')
  {
    var end := WindowEnd(text, s.chunkSize, start);
    assert end < |text|;
    next := NextStart(start, end, s.chunkOverlap);
    var content := StrippedSlice(text, start, end);
    acc' := if content == [] then acc else acc + [PartChunk(text, page, index, filename, (start, end), content)];
    index' := if content == [] then index else index + 1;
    WindowsTail(text, s.chunkSize, s.chunkOverlap, start, j - 1);
  }

  /** No window whose text is not all whitespace is dropped from a long page. */
  lemma ChunkedCovers(s: Settings, text: string, page: int, index: int, filename: string, j: nat)
    returns (k: nat)
    requires |text| > s.chunkSize && j < |Windows(text, s.chunkSize, s.chunkOverlap, 0)|
    requires var w := Windows(text, s.chunkSize, s.chunkOverlap, 0)[j];
      Strip(Slice(text, w.0, w.1)) != []
    ensures k < |Chunked(s, text, page, index, filename)|
    ensures var w := Windows(text, s.chunkSize, s.chunkOverlap, 0)[j];
      var c := Chunked(s, text, page, index, filename)[k];
      c.startChar == w.0 && c.endChar == w.1
  {
    var w := Windows(text, s.chunkSize, s.chunkOverlap, 0)[j];
    StrippedSliceIsStrip(text, w.0, w.1);
    k := ChunkLoopCovers(s, text, page, filename, 0, index, [], j);
  }

  // ----- _create_chunks -----

  /** The chunks of one page, numbered on from `index`; a blank page gives none. */
  function PageChunks(s: Settings, page: Page, filename: string, index: int): seq<DocumentChunk> {
    if Strip(page.1) == [] then [] else Chunked(s, page.1, page.0, index, filename)
  }

  /** The loop over the pages from `i` on, where `acc` holds the chunks of the pages before. */
  function PagesLoop(s: Settings, pages: seq<Page>, filename: string, i: nat, acc: seq<DocumentChunk>): seq<DocumentChunk>
    decreases |pages| - i
  {
    if i >= |pages| then acc
    else PagesLoop(s, pages, filename, i + 1, acc + PageChunks(s, pages[i], filename, |acc|))
  }

  /** What `_create_chunks` returns for the pages in the order the dictionary holds them. */
  function DocumentChunks(s: Settings, pages: seq<Page>, filename: string): seq<DocumentChunk> {
    PagesLoop(s, pages, filename, 0, [])
  }

  /** `_create_chunks`. */
  method CreateChunks(s: Settings, pages: seq<Page>, filename: string) returns (chunks: seq<DocumentChunk>)
    ensures chunks == DocumentChunks(s, pages, filename)
  {
    chunks := [];
    var chunkIndex := 0;
    for i := 0 to |pages|
      invariant chunkIndex == |chunks|
      invariant PagesLoop(s, pages, filename, i, chunks) == DocumentChunks(s, pages, filename)
    {
      PagesLoopStep(s, pages, filename, i, chunks);
      var (pageNum, pageText) := pages[i];
      if Strip(pageText) == [] {
        assert chunks + PageChunks(s, pages[i], filename, |chunks|) == chunks;
        continue;
      }
      var pageChunks := ChunkText(s, pageText, pageNum, chunkIndex, filename);
      chunks := chunks + pageChunks;
      chunkIndex := chunkIndex + |pageChunks|;
    }
  }

  lemma PagesLoopStep(s: Settings, pages: seq<Page>, filename: string, i: nat, acc: seq<DocumentChunk>)
    requires i < |pages|
    ensures PagesLoop(s, pages, filename, i, acc) == PagesLoop(s, pages, filename, i + 1, acc + PageChunks(s, pages[i], filename, |acc|))
  {
  }

  /** Chunk `m` of a page carries the page's number and the `m`-th number from `index` on. */
  lemma ChunkedNumbered(s: Settings, text: string, page: int, index: int, filename: string, m: nat)
    requires m < |Chunked(s, text, page, index, filename)|
    ensures Chunked(s, text, page, index, filename)[m].chunkIndex == index + m
    ensures Chunked(s, text, page, index, filename)[m].pageNumber == page
    ensures text != [] ==> Chunked(s, text, page, index, filename)[m].content != []
  {
    if |text| > s.chunkSize {
      var j := ChunkedPart(s, text, page, index, filename, m);
    }
  }

  /** The pages loop only appends. */
  lemma {:induction false} PagesLoopKeeps(s: Settings, pages: seq<Page>, filename: string, i: nat, acc: seq<DocumentChunk>, k: nat)
    requires k < |acc|
    ensures k < |PagesLoop(s, pages, filename, i, acc)| && PagesLoop(s, pages, filename, i, acc)[k] == acc[k]
    decreases |pages| - i
  {
    if i < |pages| {
      var acc' := acc + PageChunks(s, pages[i], filename, |acc|);
      assert acc'[k] == acc[k];
      PagesLoopKeeps(s, pages, filename, i + 1, acc', k);
    }
  }

  /**
   * Chunk `k` past those of the pages before `i` comes from a page `p` at
   * or after `i` that is not blank, carries that page's number, and is
   * numbered by its position.
   */
  lemma {:induction false} PagesLoopAt(s: Settings, pages: seq<Page>, filename: string, i: nat, acc: seq<DocumentChunk>, k: nat)
    returns (p: nat)
    requires |acc| <= k < |PagesLoop(s, pages, filename, i, acc)|
    ensures i <= p < |pages| && Strip(pages[p].1) != []
    ensures PagesLoop(s, pages, filename, i, acc)[k].chunkIndex == k
    ensures PagesLoop(s, pages, filename, i, acc)[k].pageNumber == pages[p].0
    ensures PagesLoop(s, pages, filename, i, acc)[k].content != []
    decreases |pages| - i
  {
    var here := PageChunks(s, pages[i], filename, |acc|);
    var acc' := acc + here;
    if k < |acc'| {
      p := i;
      assert acc'[k] == here[k - |acc|];
      ChunkedNumbered(s, pages[i].1, pages[i].0, |acc|, filename, k - |acc|);
      PagesLoopKeeps(s, pages, filename, i + 1, acc', k);
    } else {
      p := PagesLoopAt(s, pages, filename, i + 1, acc', k);
    }
  }

  /**
   * `_create_chunks` numbers the chunks 0, 1, 2, ... across the pages, and
   * every chunk carries the number of a page that is not blank.
   */
  lemma DocumentChunksNumbered(s: Settings, pages: seq<Page>, filename: string, k: nat)
    returns (p: nat)
    requires k < |DocumentChunks(s, pages, filename)|
    ensures p < |pages| && Strip(pages[p].1) != []
    ensures DocumentChunks(s, pages, filename)[k].chunkIndex == k
    ensures DocumentChunks(s, pages, filename)[k].pageNumber == pages[p].0
    ensures DocumentChunks(s, pages, filename)[k].content != []
  {
    p := PagesLoopAt(s, pages, filename, 0, [], k);
  }

  /** Page numbers that strictly increase, as reading the pages one after another gives them. */
  predicate PagesIncrease(pages: seq<Page>) {
    forall a, b :: 0 <= a < b < |pages| ==> pages[a].0 < pages[b].0
  }

  predicate PageOrder(cs: seq<DocumentChunk>) {
    forall a, b :: 0 <= a < b < |cs| ==> cs[a].pageNumber <= cs[b].pageNumber
  }

  predicate PagesAtMost(cs: seq<DocumentChunk>, n: int) {
    forall a :: 0 <= a < |cs| ==> cs[a].pageNumber <= n
  }

  /** All chunks of a page carry its number. */
  lemma PageChunksOnPage(s: Settings, page: Page, filename: string, index: int)
    ensures forall m :: 0 <= m < |PageChunks(s, page, filename, index)| ==>
      PageChunks(s, page, filename, index)[m].pageNumber == page.0
  {
    forall m | 0 <= m < |PageChunks(s, page, filename, index)|
      ensures PageChunks(s, page, filename, index)[m].pageNumber == page.0
    {
      ChunkedNumbered(s, page.1, page.0, index, filename, m);
    }
  }

  lemma {:induction false} PagesLoopOrdered(s: Settings, pages: seq<Page>, filename: string, i: nat, acc: seq<DocumentChunk>)
    requires PagesIncrease(pages) && PageOrder(acc)
    requires i < |pages| ==> PagesAtMost(acc, pages[i].0)
    ensures PageOrder(PagesLoop(s, pages, filename, i, acc))
    decreases |pages| - i
  {
    if i < |pages| {
      var here := PageChunks(s, pages[i], filename, |acc|);
      PageChunksOnPage(s, pages[i], filename, |acc|);
      var acc' := acc + here;
      assert PageOrder(acc') && PagesAtMost(acc', pages[i].0);
      PagesLoopOrdered(s, pages, filename, i + 1, acc');
    }
  }

  /** With the pages in reading order, the chunks of a page come after those of every earlier page. */
  lemma DocumentChunksInPageOrder(s: Settings, pages: seq<Page>, filename: string)
    requires PagesIncrease(pages)
    ensures PageOrder(DocumentChunks(s, pages, filename))
  {
    PagesLoopOrdered(s, pages, filename, 0, []);
  }

  // ----- _extract_text_from_pdf -----

  /**
   * What pypdf makes of the file's bytes: a `PdfReadError`, another
   * exception while opening the file or listing its pages, an encrypted
   * document, or the pages, each with the text `extract_text` returned or
   * `None` where it raised.
   */
  datatype Reading =
    | Corrupted(detail: string)
    | Unreadable(detail: string)
    | Encrypted
    | Opened(texts: seq<Option<string>>)

  function EncryptedMessage(): string { "PDF is encrypted and cannot be processed" }

  function CorruptedMessage(detail: string): string { "PDF file is corrupted or unreadable: " + detail }

  function ReadFailedMessage(detail: string): string { "Failed to read PDF: " + detail }

  /**
   * What one page adds to `text_by_page`: its number and its text as
   * `clean` leaves it, unless that is blank or extraction raised. The
   * processor's `clean` is `CleanText`; the loop lemmas hold for any.
   */
  function PageEntry(clean: string -> string, num: int, text: Option<string>): seq<Page> {
    match text
    case None => []
    case Some(raw) =>
      var cleaned := clean(raw);
      if Strip(cleaned) != [] then [(num, cleaned)] else []
  }

  /** The page loop from the `i`-th page (numbered `i + 1`) on, where `acc` holds the pages kept so far. */
  function ReadLoop(clean: string -> string, texts: seq<Option<string>>, i: nat, acc: seq<Page>): seq<Page>
    decreases |texts| - i
  {
    if i >= |texts| then acc
    else ReadLoop(clean, texts, i + 1, acc + PageEntry(clean, i + 1, texts[i]))
  }

  /** What `_extract_text_from_pdf` returns, or the message of the exception it raises. */
  function Extracted(reading: Reading): Result<seq<Page>, string> {
    match reading
    case Corrupted(detail) => Err(CorruptedMessage(detail))
    case Unreadable(detail) => Err(ReadFailedMessage(detail))
    case Encrypted => Err(ReadFailedMessage(EncryptedMessage()))
    case Opened(texts) => Ok(ReadLoop(CleanText, texts, 0, []))
  }

  /** `_extract_text_from_pdf`. */
  method ExtractText(reading: Reading) returns (r: Result<seq<Page>, string>)
    ensures r == Extracted(reading)
  {
    match reading {
      case Corrupted(detail) =>
        return Err(CorruptedMessage(detail));
      case Unreadable(detail) =>
        return Err(ReadFailedMessage(detail));
      case Encrypted =>
        return Err(ReadFailedMessage(EncryptedMessage()));
      case Opened(texts) =>
        var textByPage: seq<Page> := [];
        for i := 0 to |texts|
          invariant ReadLoop(CleanText, texts, i, textByPage) == ReadLoop(CleanText, texts, 0, [])
        {
          var pageNum := i + 1;
          match texts[i] {
            case None =>
              assert PageEntry(CleanText, pageNum, texts[i]) == [];
              assert textByPage + [] == textByPage;
            case Some(raw) =>
              var cleaned := CleanText(raw);
              if Strip(cleaned) != [] {
                textByPage := textByPage + [(pageNum, cleaned)];
              } else {
                assert textByPage + [] == textByPage;
              }
          }
        }
        return Ok(textByPage);
    }
  }

  /** Pages kept before page `i` have numbers below `i + 1`. */
  predicate NumberedBelow(pages: seq<Page>, n: int) {
    forall a :: 0 <= a < |pages| ==> pages[a].0 < n
  }

  /**
   * A kept page carries a number from 1 to the number of pages and the
   * cleaned text of the page of that number, which is not blank.
   */
  predicate KeptPage(clean: string -> string, texts: seq<Option<string>>, page: Page) {
    1 <= page.0 <= |texts| && texts[page.0 - 1].Some?
    && page.1 == clean(texts[page.0 - 1].value) && Strip(page.1) != []
  }

  predicate KeptFrom(clean: string -> string, texts: seq<Option<string>>, pages: seq<Page>) {
    forall a :: 0 <= a < |pages| ==> KeptPage(clean, texts, pages[a])
  }

  lemma {:induction false} ReadLoopIncrease(clean: string -> string, texts: seq<Option<string>>, i: nat, acc: seq<Page>)
    requires PagesIncrease(acc) && NumberedBelow(acc, i + 1)
    ensures PagesIncrease(ReadLoop(clean, texts, i, acc))
    decreases |texts| - i
  {
    if i < |texts| {
      var acc' := acc + PageEntry(clean, i + 1, texts[i]);
      assert PagesIncrease(acc') && NumberedBelow(acc', i + 2);
      ReadLoopIncrease(clean, texts, i + 1, acc');
    }
  }

  lemma {:induction false} ReadLoopKept(clean: string -> string, texts: seq<Option<string>>, i: nat, acc: seq<Page>)
    requires KeptFrom(clean, texts, acc)
    ensures KeptFrom(clean, texts, ReadLoop(clean, texts, i, acc))
    decreases |texts| - i
  {
    if i < |texts| {
      var entry := PageEntry(clean, i + 1, texts[i]);
      assert KeptFrom(clean, texts, entry);
      KeptFromAppend(clean, texts, acc, entry);
      ReadLoopKept(clean, texts, i + 1, acc + entry);
    }
  }

  lemma KeptFromAppend(clean: string -> string, texts: seq<Option<string>>, a: seq<Page>, b: seq<Page>)
    requires KeptFrom(clean, texts, a) && KeptFrom(clean, texts, b)
    ensures KeptFrom(clean, texts, a + b)
  {
    forall x | 0 <= x < |a + b|
      ensures (a + b)[x] == if x < |a| then a[x] else b[x - |a|]
    {
    }
  }

  lemma {:induction false} ReadLoopKeeps(clean: string -> string, texts: seq<Option<string>>, i: nat, acc: seq<Page>, k: nat)
    requires k < |acc|
    ensures k < |ReadLoop(clean, texts, i, acc)| && ReadLoop(clean, texts, i, acc)[k] == acc[k]
    decreases |texts| - i
  {
    if i < |texts| {
      var acc' := acc + PageEntry(clean, i + 1, texts[i]);
      assert acc'[k] == acc[k];
      ReadLoopKeeps(clean, texts, i + 1, acc', k);
    }
  }

  /** Every page whose cleaned text is not blank is kept, from `i` on. */
  lemma {:induction false} ReadLoopCovers(clean: string -> string, texts: seq<Option<string>>, i: nat, acc: seq<Page>, n: nat)
    returns (k: nat)
    requires i <= n < |texts| && texts[n].Some? && Strip(clean(texts[n].value)) != []
    ensures |acc| <= k < |ReadLoop(clean, texts, i, acc)|
    ensures ReadLoop(clean, texts, i, acc)[k] == (n + 1, clean(texts[n].value))
    decreases |texts| - i
  {
    var acc' := acc + PageEntry(clean, i + 1, texts[i]);
    if n == i {
      k := |acc|;
      assert acc'[k] == (n + 1, clean(texts[n].value));
      ReadLoopKeeps(clean, texts, i + 1, acc', k);
    } else {
      k := ReadLoopCovers(clean, texts, i + 1, acc', n);
    }
  }

  /** The pages `_extract_text_from_pdf` keeps come in reading order, with strictly increasing numbers. */
  lemma ExtractedInOrder(texts: seq<Option<string>>)
    ensures PagesIncrease(Extracted(Opened(texts)).value)
  {
    ReadLoopIncrease(CleanText, texts, 0, []);
  }

  /**
   * Every kept page carries a number from 1 to the number of pages and the
   * cleaned text of the page of that number, which is not blank.
   */
  lemma ExtractedPage(texts: seq<Option<string>>, k: nat)
    requires k < |Extracted(Opened(texts)).value|
    ensures KeptPage(CleanText, texts, Extracted(Opened(texts)).value[k])
  {
    ReadLoopKept(CleanText, texts, 0, []);
  }

  /** The text of every kept page is clean. */
  lemma ExtractedClean(texts: seq<Option<string>>, k: nat)
    requires k < |Extracted(Opened(texts)).value|
    ensures Clean(Extracted(Opened(texts)).value[k].1)
  {
    ExtractedPage(texts, k);
    KeptPageClean(texts, Extracted(Opened(texts)).value[k]);
  }

  lemma KeptPageClean(texts: seq<Option<string>>, page: Page)
    requires KeptPage(CleanText, texts, page)
    ensures Clean(page.1)
  {
    CleanTextIsClean(texts[page.0 - 1].value);
  }

  /** No page whose cleaned text is not blank is left out. */
  lemma ExtractedKeepsEveryPage(texts: seq<Option<string>>, n: nat) returns (k: nat)
    requires n < |texts| && texts[n].Some? && Strip(CleanText(texts[n].value)) != []
    ensures var pages := Extracted(Opened(texts)).value;
      k < |pages| && pages[k] == (n + 1, CleanText(texts[n].value))
  {
    k := ReadLoopCovers(CleanText, texts, 0, [], n);
  }

  // ----- process_pdf -----

  function NoTextMessage(): string { "No text content found in PDF" }

  function Failure(message: string): ProcessingResult {
    ProcessingResult(false, [], 0, 0, Some(message))
  }

  /** `sum(len(page_text) for page_text in text_by_page.values())`. */
  function TotalChars(pages: seq<Page>): nat {
    if pages == [] then 0 else |pages[0].1| + TotalChars(pages[1..])
  }

  /** What `process_pdf` returns. */
  function Processed(s: Settings, reading: Reading, filename: string): ProcessingResult {
    match Extracted(reading)
    case Err(message) => Failure(message)
    case Ok(pages) =>
      if pages == [] then Failure(NoTextMessage())
      else ProcessingResult(true, DocumentChunks(s, pages, filename), |pages|, TotalChars(pages), None)
  }

  /** `process_pdf`. */
  method ProcessPdf(s: Settings, reading: Reading, filename: string) returns (r: ProcessingResult)
    ensures r == Processed(s, reading, filename)
  {
    var extracted := ExtractText(reading);
    match extracted {
      case Err(message) =>
        return Failure(message);
      case Ok(textByPage) =>
        if textByPage == [] {
          return Failure(NoTextMessage());
        }
        var chunks := CreateChunks(s, textByPage, filename);
        return ProcessingResult(true, chunks, |textByPage|, TotalChars(textByPage), None);
    }
  }

  /**
   * `process_pdf` fails exactly when reading fails or no page has text;
   * a failure carries no chunks, zero totals and the error's message.
   */
  lemma ProcessedFails(s: Settings, reading: Reading, filename: string)
    ensures var r := Processed(s, reading, filename);
      !r.success <==> (Extracted(reading).Err? || Extracted(reading).value == [])
    ensures var r := Processed(s, reading, filename);
      !r.success ==> r.chunks == [] && r.totalPages == 0 && r.totalChars == 0 && r.errorMessage.Some?
    ensures var r := Processed(s, reading, filename);
      Extracted(reading).Err? ==> r.errorMessage == Some(Extracted(reading).error)
    ensures var r := Processed(s, reading, filename);
      Extracted(reading).Ok? && Extracted(reading).value == [] ==> r.errorMessage == Some(NoTextMessage())
    ensures var r := Processed(s, reading, filename);
      r.success ==> r.errorMessage.None?
  {
  }

  /**
   * On success the chunks are numbered 0, 1, 2, ... in page order, none is
   * empty, each carries the number of a kept page, and the totals are the
   * number of kept pages and the sum of their lengths.
   */
  lemma ProcessedChunks(s: Settings, texts: seq<Option<string>>, filename: string, k: nat)
    returns (p: nat)
    requires k < |Processed(s, Opened(texts), filename).chunks|
    ensures var r := Processed(s, Opened(texts), filename);
      var pages := Extracted(Opened(texts)).value;
      r.success && r.totalPages == |pages| && r.totalChars == TotalChars(pages)
      && PageOrder(r.chunks)
      && p < |pages| && r.chunks[k].pageNumber == pages[p].0
      && r.chunks[k].chunkIndex == k && r.chunks[k].content != []
  {
    var pages := Extracted(Opened(texts)).value;
    ExtractedInOrder(texts);
    DocumentChunksInPageOrder(s, pages, filename);
    p := DocumentChunksNumbered(s, pages, filename, k);
  }
}
