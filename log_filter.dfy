/**
 * `filter_logs`: whether a line received from the device is written to the
 * log, and the entry written. The wall clock is replaced by the already
 * formatted timestamp string.
 */
module LogFilter {
  import opened Wrappers

  /** The three choices of the "Filtro de Log" combobox. */
  const RAW := "Bruto"
  const ERROR := "Erro"
  const DIAGNOSTIC := "Diagn\U{F3}stico"

  /** `pattern` occurs in `text` starting at position `i`. */
  ghost predicate OccursAt(pattern: string, text: string, i: int) {
    0 <= i && i + |pattern| <= |text| && text[i..i + |pattern|] == pattern
  }

  ghost predicate Occurs(pattern: string, text: string) {
    exists i :: OccursAt(pattern, text, i)
  }

  /** Python's case-sensitive `pattern in text` on strings. */
  function Contains(text: string, pattern: string): (b: bool)
    ensures b <==> Occurs(pattern, text)
  {
    if pattern <= text then
      assert OccursAt(pattern, text, 0);
      true
    else if text == [] then
      assert forall i :: !OccursAt(pattern, text, i);
      false
    else
      OccursInTail(pattern, text);
      Contains(text[1..], pattern)
  }

  /** An occurrence not at the start of `text` is an occurrence in its tail. */
  lemma OccursInTail(pattern: string, text: string)
    requires text != [] && !(pattern <= text)
    ensures Occurs(pattern, text) <==> Occurs(pattern, text[1..])
  {
    if Occurs(pattern, text) {
      var i :| OccursAt(pattern, text, i);
      assert i != 0;
      assert text[1..][i - 1..i - 1 + |pattern|] == text[i..i + |pattern|];
      assert OccursAt(pattern, text[1..], i - 1);
    }
    if Occurs(pattern, text[1..]) {
      var i :| OccursAt(pattern, text[1..], i);
      assert text[i + 1..i + 1 + |pattern|] == text[1..][i..i + |pattern|];
      assert OccursAt(pattern, text, i + 1);
    }
  }

  /** The timestamp that starts an entry: empty when timestamps are switched off. */
  function Timestamp(showTimestamps: bool, now: string): (t: string)
    ensures !showTimestamps ==> t == ""
  {
    if showTimestamps then now else ""
  }

  /**
   * The entry `filter_logs` hands to `add_to_log`, or `None` when the line is
   * dropped. "Bruto" keeps every line; "Erro" and "Diagnóstico" keep a line
   * exactly when the filter's own word occurs in it; any other filter value
   * keeps nothing.
   */
  function FilterEntry(filter: string, timestamp: string, data: string): (r: Option<string>)
    ensures r.Some? ==> r.value == timestamp + " " + data
    ensures filter == RAW ==> r.Some?
    ensures filter == ERROR || filter == DIAGNOSTIC ==> (r.Some? <==> Occurs(filter, data))
    ensures filter != RAW && filter != ERROR && filter != DIAGNOSTIC ==> r.None?
  {
    if filter == RAW then Some(timestamp + " " + data)
    else if filter == ERROR && Contains(data, ERROR) then Some(timestamp + " " + data)
    else if filter == DIAGNOSTIC && Contains(data, DIAGNOSTIC) then Some(timestamp + " " + data)
    else None
  }

  /** Matching is case sensitive: an upper-case "ERRO" line is dropped by the "Erro" filter. */
  lemma ErrorFilterIsCaseSensitive()
    ensures FilterEntry(ERROR, "", "ERRO: PMIC") == None
  {
    var line := "ERRO: PMIC";
    assert forall i :: 0 <= i < |line| ==> line[i] != 'r';
    forall i | 0 <= i && i + |ERROR| <= |line|
      ensures !OccursAt(ERROR, line, i)
    {
      assert line[i..i + |ERROR|][1] == line[i + 1];
      assert ERROR[1] == 'r';
    }
    assert !Occurs(ERROR, line);
  }
}
