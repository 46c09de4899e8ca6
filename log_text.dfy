/**
 * The log area of the terminal, a Tk text widget, seen as the string it
 * holds. Tk keeps one extra newline after the last character; it is not part
 * of the string here, so `insert(END, data)` appends `data` to the string.
 */
module LogText {
  import opened Wrappers
  import Decimal

  /** Number of newline characters in `s`. */
  function Newlines(s: string): nat {
    if s == [] then 0 else (if s[0] == '\n' then 1 else 0) + Newlines(s[1..])
  }

  lemma {:induction false} NewlinesAppend(a: string, b: string)
    ensures Newlines(a + b) == Newlines(a) + Newlines(b)
  {
    if a != [] {
      assert (a + b)[0] == a[0];
      assert (a + b)[1..] == a[1..] + b;
      NewlinesAppend(a[1..], b);
    } else {
      assert a + b == b;
    }
  }

  /** Number of characters after the last newline. */
  function LastLineLength(s: string): nat {
    if s == [] || s[|s| - 1] == '\n' then 0 else 1 + LastLineLength(s[..|s| - 1])
  }

  /**
   * The Tk index `end-1c` of a widget holding `text`, as the string
   * "line.column": the position of the widget's own final newline, on line
   * 1 + (newlines in `text`), after the characters of the last line.
   */
  function EndIndex(text: string): (index: string)
    ensures Decimal.Parse(BeforeFirst(index, '.')) == Some(1 + Newlines(text))
    ensures var line := BeforeFirst(index, '.');
            |line| < |index| && Decimal.Parse(index[|line| + 1..]) == Some(LastLineLength(text))
  {
    var line := Decimal.Digits(1 + Newlines(text));
    var column := Decimal.Digits(LastLineLength(text));
    BeforeFirstSeparated(line, column);
    assert (line + "." + column)[|line| + 1..] == column;
    Decimal.ParseDigits(1 + Newlines(text));
    Decimal.ParseDigits(LastLineLength(text));
    line + "." + column
  }

  /** Python's `s.split(sep)[0]`: everything before the first `sep`, or all of `s`. */
  function BeforeFirst(s: string, sep: char): (r: string)
    ensures |r| <= |s| && r == s[..|r|]
    ensures sep !in r
    ensures |r| < |s| ==> s[|r|] == sep
  {
    if s == [] || s[0] == sep then [] else [s[0]] + BeforeFirst(s[1..], sep)
  }

  lemma BeforeFirstSeparated(d: string, rest: string)
    requires '.' !in d
    ensures BeforeFirst(d + "." + rest, '.') == d
  {
    var s := d + "." + rest;
    assert s[|d|] == '.';
  }

  /**
   * `get_log_lines_count`: the integer before the first '.' of the `end-1c`
   * index. It is the number of newlines plus one, so an empty log counts as
   * one line.
   */
  function LinesCount(text: string): (n: nat)
    ensures n == 1 + Newlines(text)
  {
    Decimal.Parse(BeforeFirst(EndIndex(text), '.')).value
  }

  /**
   * `delete('1.0', '2.0')`: removes the first line together with its newline.
   * When there is no newline, index 2.0 lies past the end and everything goes
   * (the widget's own final newline is never deleted).
   */
  function DropFirstLine(text: string): (r: string)
    ensures |r| <= |text| && r == text[|text| - |r|..]
    ensures '\n' !in text ==> r == []
    ensures '\n' in text ==> |r| < |text| && text[|text| - |r| - 1] == '\n'
                             && '\n' !in text[..|text| - |r| - 1]
    ensures Newlines(r) == if '\n' in text then Newlines(text) - 1 else 0
  {
    if text == [] then []
    else if text[0] == '\n' then text[1..]
    else
      var r := DropFirstLine(text[1..]);
      assert '\n' in text <==> '\n' in text[1..];
      assert '\n' in text ==> text[..|text| - |r| - 1] == [text[0]] + text[1..][..|text[1..]| - |r| - 1];
      r
  }

  /**
   * The log after `add_to_log(entry)` with the buffer limit `maxLines`: when
   * the line count has reached the limit the first line is deleted, then
   * `entry` is appended at the end.
   */
  function Appended(text: string, maxLines: int, entry: string): (r: string)
    ensures |entry| <= |r| && r[|r| - |entry|..] == entry
    ensures var kept := r[..|r| - |entry|];
            |kept| <= |text| && kept == text[|text| - |kept|..]
    ensures LinesCount(text) < maxLines ==> r == text + entry
    ensures LinesCount(text) >= maxLines ==> r == DropFirstLine(text) + entry
    // a corollary of the clause above and `DropFirstLine`'s contract, kept as
    // a named consequence: at the limit a non-empty log loses something
    ensures LinesCount(text) >= maxLines && text != [] ==> |r| < |text| + |entry|
    ensures LinesCount(r) == LinesCount(text) + Newlines(entry)
                             - (if LinesCount(text) >= maxLines && '\n' in text then 1 else 0)
  {
    var kept := if LinesCount(text) >= maxLines then DropFirstLine(text) else text;
    NewlineIffCounted(text);
    NewlinesAppend(kept, entry);
    assert (kept + entry)[..|kept|] == kept;
    kept + entry
  }

  /**
   * While every entry carries at most one newline, a log within a limit of at
   * least two lines stays within it.
   */
  lemma SingleLineEntriesKeepBound(text: string, maxLines: int, entry: string)
    requires 2 <= maxLines && LinesCount(text) <= maxLines
    requires Newlines(entry) <= 1
    ensures LinesCount(Appended(text, maxLines, entry)) <= maxLines
  {
    NewlineIffCounted(text);
  }

  lemma {:induction false} NewlineIffCounted(s: string)
    ensures '\n' in s <==> Newlines(s) > 0
  {
    if s != [] {
      assert '\n' in s <==> s[0] == '\n' || '\n' in s[1..];
      NewlineIffCounted(s[1..]);
    }
  }

  /** One entry holding several newlines overshoots the limit: only one line is evicted. */
  lemma MultiLineEntryExceedsBound()
    ensures LinesCount(Appended("", 2, "a\nb\n")) == 3
  {
    assert Newlines("a\nb\n") == 2;
  }

  /** With a limit of one line, a single-line entry still leaves two lines. */
  lemma LimitOneExceedsBound()
    ensures LinesCount(Appended("x", 1, "y\n")) == 2
  {
    assert Newlines("y\n") == 1;
    assert '\n' !in "x";
  }

  /** A limit of one or less (0 included) evicts on every call. */
  lemma SmallLimitAlwaysEvicts(text: string, maxLines: int, entry: string)
    requires maxLines <= 1
    ensures Appended(text, maxLines, entry) == DropFirstLine(text) + entry
  {
  }

  /**
   * Three newline-terminated entries into a log limited to two lines: the
   * empty line after the last newline is counted, so only the newest entry
   * survives.
   */
  lemma LimitTwoKeepsNewestEntry()
    ensures Appended(Appended(Appended("", 2, "A\n"), 2, "B\n"), 2, "C\n") == "C\n"
  {
    assert Appended("", 2, "A\n") == "A\n";
    assert Newlines("A\n") == 1;
    OneLineReplaced("A\n", "B\n");
    assert Newlines("B\n") == 1;
    OneLineReplaced("B\n", "C\n");
  }

  /** A log holding one newline-terminated line, at a limit of two, is replaced by the entry. */
  lemma OneLineReplaced(line: string, entry: string)
    requires Newlines(line) == 1 && |line| > 0 && line[|line| - 1] == '\n'
    ensures Appended(line, 2, entry) == entry
  {
    NewlineIffCounted(line);
    var r := DropFirstLine(line);
    if r != [] {
      assert r[|r| - 1] == '\n';
      NewlineIffCounted(r);
    }
  }
}
