/** A text buffer: loaded content, its line count and a cursor. */
module Buffers {
  import opened Common
  import opened Cursors

  /** How many times `c` occurs in `s`. */
  function Occurrences(s: string, c: char): (n: nat)
    ensures n == multiset(s)[c]
    ensures n <= |s|
  {
    if s == [] then 0
    else
      assert s == [s[0]] + s[1..];
      (if s[0] == c then 1 else 0) + Occurrences(s[1..], c)
  }

  /** The pieces joined back together, `sep` between each two. */
  function Join(pieces: seq<string>, sep: char): string
    requires |pieces| >= 1
  {
    if |pieces| == 1 then pieces[0] else pieces[0] + [sep] + Join(pieces[1..], sep)
  }

  /** Rust's `str::split` on one character: the maximal runs between separators,
      an empty piece before a leading, after a trailing and between two adjacent
      separators, and `[""]` for the empty string. */
  function Split(s: string, sep: char): (pieces: seq<string>)
    ensures |pieces| >= 1
    ensures forall i :: 0 <= i < |pieces| ==> sep !in pieces[i]
    ensures Join(pieces, sep) == s
    decreases |s|
  {
    if s == [] then [""]
    else
      var rest := Split(s[1..], sep);
      if s[0] == sep then
        assert ([""] + rest)[1..] == rest;
        [""] + rest
      else
        var pieces := [[s[0]] + rest[0]] + rest[1..];
        assert pieces[1..] == rest[1..];
        assert s == [s[0]] + s[1..];
        pieces
  }

  /** There is one more piece than separators: `split('\n').count()` is never 0. */
  lemma {:induction false} SplitCount(s: string, sep: char)
    ensures |Split(s, sep)| == Occurrences(s, sep) + 1
    decreases |s|
  {
    if s != [] {
      SplitCount(s[1..], sep);
    }
  }

  /** `split('\n').count() - 1`, the line count `from_file` stores: the number of line
      breaks. The subtraction cannot underflow, since splitting gives at least one piece. */
  function LineCount(content: string): (n: nat)
    ensures n == Occurrences(content, '\n')
    ensures n == multiset(content)['\n']
  {
    SplitCount(content, '\n');
    |Split(content, '\n')| - 1
  }

  /** The empty string has no line breaks, `"a\n"` one, and nine line breaks give 9. */
  lemma LineCountExamples()
    ensures LineCount("") == 0
    ensures LineCount("a\n") == 1
    ensures LineCount("1\n2\n3\n4\n5\n6\n7\n8\n9\n") == 9
  {
    assert Occurrences("", '\n') == 0;
    assert "a\n"[1..] == "\n";
    assert Occurrences("a\n", '\n') == 1;
    assert multiset("1\n2\n3\n4\n5\n6\n7\n8\n9\n")['\n'] == 9;
  }

  /** `Buffer`. The cursor is an object of its own that the buffer owns; the reference
      that `cursor()` and `cursor_mut()` return is `cursor`, so a move made through
      one is seen through the other. `content_mut` and `line_count_mut` become
      `SetContent` and `SetLineCount`. */
  class Buffer {
    const cursor: Cursor
    var content: string
    var lineCount: nat

    /** `Buffer::new` and `Default`: no content, no lines, cursor at the origin. */
    constructor ()
      ensures content == [] && lineCount == 0
      ensures fresh(cursor) && cursor.Position() == Origin
    {
      cursor := new Cursor();
      content := [];
      lineCount := 0;
    }

    /** The buffer `from_file` builds once the file has been read. */
    constructor Loaded(text: string)
      ensures content == text && lineCount == Occurrences(text, '\n')
      ensures fresh(cursor) && cursor.Position() == Origin
    {
      cursor := new Cursor();
      content := text;
      lineCount := LineCount(text);
    }

    /** `from_file`, given the outcome of `fs::read_to_string`: a failed read gives the
        error and no buffer; a successful one gives a fresh buffer holding the text
        verbatim, its line-break count and a cursor at the origin. */
    static method FromFile(read: Result<string, IoError>) returns (r: Result<Buffer, IoError>)
      ensures read.Err? ==> r == Err(read.error)
      ensures read.Ok? ==> r.Ok? && fresh(r.value) && fresh(r.value.cursor)
      ensures read.Ok? ==> r.value.content == read.value
      ensures read.Ok? ==> r.value.lineCount == Occurrences(read.value, '\n')
      ensures read.Ok? ==> r.value.cursor.Position() == Origin
    {
      if read.Err? {
        r := Err(read.error);
      } else {
        var b := new Buffer.Loaded(read.value);
        r := Ok(b);
      }
    }

    /** A write through `content_mut`: the line count is not recomputed. */
    method SetContent(text: string)
      modifies this
      ensures content == text && lineCount == old(lineCount)
    {
      content := text;
    }

    /** A write through `line_count_mut`: the content stays as it was. */
    method SetLineCount(n: nat)
      modifies this
      ensures lineCount == n && content == old(content)
    {
      lineCount := n;
    }
  }
}
