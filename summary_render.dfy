/**
 * The end-of-run summary of the failed_summary callback: the lines that
 * `v2_playbook_on_stats` hands, one by one, to the display. Colour codes are
 * the ANSI escape strings the callback hard-codes.
 */
module SummaryRender {
  import opened HostTable

  const Esc: char := '\U{1B}'
  const Reset: string := [Esc] + "[0m"
  const Red: string := [Esc] + "[31m"
  const Yellow: string := [Esc] + "[33m"
  const BrightGray: string := [Esc] + "[90m"

  const FailedHeader: string := "Failed hosts:"
  const IgnoredHeader: string := "Soft failed hosts (errors ignored):"
  const FailedLabel: string := "Failed tasks: "
  const IgnoredLabel: string := "Ignored failed tasks: "

  /** Python's `sep.join(parts)`. */
  function Join(sep: string, parts: seq<string>): string
  {
    if |parts| == 0 then ""
    else if |parts| == 1 then parts[0]
    else parts[0] + sep + Join(sep, parts[1..])
  }

  /** Joining one more part adds the separator and that part at the end. */
  lemma {:induction false} JoinSnoc(sep: string, parts: seq<string>, x: string)
    requires parts != []
    ensures Join(sep, parts + [x]) == Join(sep, parts) + sep + x
  {
    if |parts| > 1 {
      assert (parts + [x])[1..] == parts[1..] + [x];
      JoinSnoc(sep, parts[1..], x);
    }
  }

  /** The line for one host: colour, host, reset, " | ", grey caption, reset, joined tasks. */
  function HostLine(colour: string, caption: string, e: Entry): string
  {
    colour + e.host + Reset + " | " + BrightGray + caption + Reset + Join(", ", e.tasks)
  }

  /** One line per entry of the table, in the table's iteration order. */
  function HostLines(colour: string, caption: string, t: Table): (r: seq<string>)
    ensures |r| == |t|
    ensures forall k :: 0 <= k < |t| ==> r[k] == HostLine(colour, caption, t[k])
  {
    if t == [] then [] else [HostLine(colour, caption, t[0])] + HostLines(colour, caption, t[1..])
  }

  /** A section: its header, one line per host, then an empty line. */
  function Section(header: string, colour: string, caption: string, t: Table): seq<string>
  {
    [header] + HostLines(colour, caption, t) + [""]
  }

  /**
   * Everything `v2_playbook_on_stats` displays: the failed section when
   * `failed_tasks` is non-empty, then the ignored section when
   * `ignored_failed_tasks` is non-empty and `display_ignored_errors` is set.
   */
  function SummaryLines(failed: Table, ignored: Table, displayIgnored: bool): seq<string>
  {
    (if failed != [] then Section(FailedHeader, Red, FailedLabel, failed) else [])
    + (if ignored != [] && displayIgnored then Section(IgnoredHeader, Yellow, IgnoredLabel, ignored) else [])
  }

  /**
   * One section, built the way the callback emits it: the header, then a
   * loop over the table's items, then the empty line.
   */
  method EmitSection(header: string, colour: string, caption: string, t: Table) returns (lines: seq<string>)
    ensures lines == Section(header, colour, caption, t)
  {
    lines := [header];
    var i := 0;
    while i < |t|
      invariant 0 <= i <= |t|
      invariant lines == [header] + HostLines(colour, caption, t[..i])
    {
      lines := lines + [HostLine(colour, caption, t[i])];
      i := i + 1;
    }
    assert t[..i] == t;
    lines := lines + [""];
  }

  /** Every host line starts with the escape character of its colour code. */
  lemma HostLineStartsWithEscape(colour: string, caption: string, e: Entry)
    requires |colour| > 0 && colour[0] == Esc
    ensures |HostLine(colour, caption, e)| > 0 && HostLine(colour, caption, e)[0] == Esc
  {
  }

  /** A header line is never a host line nor the blank line, since host lines start with an escape. */
  lemma {:induction false} HeaderOnlyAsHeader(header: string, h2: string, colour: string, caption: string, t: Table, i: int)
    requires |header| > 0 && header[0] != Esc && header != h2
    requires |colour| > 0 && colour[0] == Esc
    requires 0 <= i < |Section(h2, colour, caption, t)|
    ensures Section(h2, colour, caption, t)[i] != header
  {
    var sec := Section(h2, colour, caption, t);
    if 0 < i <= |t| {
      assert sec[i] == HostLine(colour, caption, t[i - 1]);
      HostLineStartsWithEscape(colour, caption, t[i - 1]);
    }
  }

  /** The number of lines: each displayed section has one line per host plus two. */
  lemma SummaryLength(failed: Table, ignored: Table, displayIgnored: bool)
    ensures |SummaryLines(failed, ignored, displayIgnored)|
         == (if failed != [] then |failed| + 2 else 0)
          + (if ignored != [] && displayIgnored then |ignored| + 2 else 0)
  {
  }

  /** The "Failed hosts:" header is displayed exactly when some host has a non-ignored failure. */
  lemma FailedSectionIff(failed: Table, ignored: Table, displayIgnored: bool)
    ensures (exists i :: 0 <= i < |SummaryLines(failed, ignored, displayIgnored)|
                      && SummaryLines(failed, ignored, displayIgnored)[i] == FailedHeader)
        <==> failed != []
  {
    var s := SummaryLines(failed, ignored, displayIgnored);
    if failed != [] {
      assert s[0] == FailedHeader;
    } else {
      forall i | 0 <= i < |s| ensures s[i] != FailedHeader {
        HeaderOnlyAsHeader(FailedHeader, IgnoredHeader, Yellow, IgnoredLabel, ignored, i);
      }
    }
  }

  /** A line of the failed section is never the ignored-errors header, and conversely. */
  lemma SectionsDisjoint(failed: Table, ignored: Table)
    ensures forall i :: 0 <= i < |Section(FailedHeader, Red, FailedLabel, failed)|
                    ==> Section(FailedHeader, Red, FailedLabel, failed)[i] != IgnoredHeader
    ensures forall j :: 0 <= j < |Section(IgnoredHeader, Yellow, IgnoredLabel, ignored)|
                    ==> Section(IgnoredHeader, Yellow, IgnoredLabel, ignored)[j] != FailedHeader
  {
    forall i | 0 <= i < |Section(FailedHeader, Red, FailedLabel, failed)|
      ensures Section(FailedHeader, Red, FailedLabel, failed)[i] != IgnoredHeader
    {
      HeaderOnlyAsHeader(IgnoredHeader, FailedHeader, Red, FailedLabel, failed, i);
    }
    forall j | 0 <= j < |Section(IgnoredHeader, Yellow, IgnoredLabel, ignored)|
      ensures Section(IgnoredHeader, Yellow, IgnoredLabel, ignored)[j] != FailedHeader
    {
      HeaderOnlyAsHeader(FailedHeader, IgnoredHeader, Yellow, IgnoredLabel, ignored, j);
    }
  }

  /**
   * The ignored-errors header is displayed exactly when some host has an
   * ignored failure and the display of ignored errors is switched on.
   */
  lemma IgnoredSectionIff(failed: Table, ignored: Table, displayIgnored: bool)
    ensures (exists j :: 0 <= j < |SummaryLines(failed, ignored, displayIgnored)|
                      && SummaryLines(failed, ignored, displayIgnored)[j] == IgnoredHeader)
        <==> ignored != [] && displayIgnored
  {
    var s := SummaryLines(failed, ignored, displayIgnored);
    var first := if failed != [] then Section(FailedHeader, Red, FailedLabel, failed) else [];
    SectionsDisjoint(failed, ignored);
    if ignored != [] && displayIgnored {
      assert s[|first|] == IgnoredHeader;
    }
  }

  /** When both headers are displayed, the failed one comes first. */
  lemma SectionsOrdered(failed: Table, ignored: Table, displayIgnored: bool, i: int, j: int)
    requires 0 <= i < |SummaryLines(failed, ignored, displayIgnored)|
    requires 0 <= j < |SummaryLines(failed, ignored, displayIgnored)|
    requires SummaryLines(failed, ignored, displayIgnored)[i] == FailedHeader
    requires SummaryLines(failed, ignored, displayIgnored)[j] == IgnoredHeader
    ensures i < j
  {
    var first := if failed != [] then Section(FailedHeader, Red, FailedLabel, failed) else [];
    SectionsDisjoint(failed, ignored);
    assert i < |first|;
    assert j >= |first|;
  }

  /**
   * Line `k + 1` of the summary is the failed-tasks line of the `k`-th host of
   * `failed_tasks`: red host, reset, " | ", grey label, reset, then the tasks
   * recorded for that host joined by ", ". The section ends with a blank line.
   */
  lemma FailedLineAt(failed: Table, ignored: Table, displayIgnored: bool, k: int)
    requires WellFormed(failed) && 0 <= k < |failed|
    ensures |SummaryLines(failed, ignored, displayIgnored)| > |failed| + 1
    ensures SummaryLines(failed, ignored, displayIgnored)[0] == "Failed hosts:"
    ensures SummaryLines(failed, ignored, displayIgnored)[k + 1]
         == Red + failed[k].host + Reset + " | " + BrightGray + "Failed tasks: " + Reset
            + Join(", ", TasksOf(failed, failed[k].host))
    ensures SummaryLines(failed, ignored, displayIgnored)[|failed| + 1] == ""
  {
    TasksOfEntry(failed, k);
    var sec := Section(FailedHeader, Red, FailedLabel, failed);
    var s := SummaryLines(failed, ignored, displayIgnored);
    assert |sec| == |failed| + 2;
    assert s[..|sec|] == sec;
    assert sec[k + 1] == HostLine(Red, FailedLabel, failed[k]);
    assert s[k + 1] == sec[k + 1];
    assert s[|failed| + 1] == sec[|failed| + 1];
  }

  /**
   * When displayed, the ignored section starts right after the failed one (or
   * at the top), and its line for the `k`-th host of `ignored_failed_tasks` is
   * the yellow host, reset, " | ", grey label, reset, then its tasks joined by ", ".
   */
  lemma IgnoredLineAt(failed: Table, ignored: Table, k: int)
    requires WellFormed(ignored) && 0 <= k < |ignored|
    ensures var s, start := SummaryLines(failed, ignored, true), if failed != [] then |failed| + 2 else 0;
      && |s| == start + |ignored| + 2
      && s[start] == "Soft failed hosts (errors ignored):"
      && s[start + 1 + k]
         == Yellow + ignored[k].host + Reset + " | " + BrightGray + "Ignored failed tasks: " + Reset
            + Join(", ", TasksOf(ignored, ignored[k].host))
      && s[start + |ignored| + 1] == ""
  {
    TasksOfEntry(ignored, k);
    var first := if failed != [] then Section(FailedHeader, Red, FailedLabel, failed) else [];
    var sec := Section(IgnoredHeader, Yellow, IgnoredLabel, ignored);
    SectionLineAt(IgnoredHeader, Yellow, IgnoredLabel, ignored, k);
    assert |first| == (if failed != [] then |failed| + 2 else 0);
    ConcatAt(first, sec, 0);
    ConcatAt(first, sec, k + 1);
    ConcatAt(first, sec, |ignored| + 1);
  }

  /** Line `k + 1` of a section is the line of its `k`-th entry, and the last line is blank. */
  lemma SectionLineAt(header: string, colour: string, caption: string, t: Table, k: int)
    requires 0 <= k < |t|
    ensures |Section(header, colour, caption, t)| == |t| + 2
    ensures Section(header, colour, caption, t)[0] == header
    ensures Section(header, colour, caption, t)[k + 1] == HostLine(colour, caption, t[k])
    ensures Section(header, colour, caption, t)[|t| + 1] == ""
  {
  }

  /** Indexing the second half of a concatenation. */
  lemma ConcatAt(a: seq<string>, b: seq<string>, i: int)
    requires 0 <= i < |b|
    ensures (a + b)[|a| + i] == b[i]
  {
  }

  /**
   * Recording one more task for a host that already has a line extends that
   * line by ", " and the new task name.
   */
  lemma {:induction false} AppendExtendsLine(colour: string, caption: string, t: Table, h: string, x: string)
    requires WellFormed(t) && h in Hosts(t)
    ensures HostLine(colour, caption, Entry(h, TasksOf(Append(t, h, x), h)))
         == HostLine(colour, caption, Entry(h, TasksOf(t, h))) + ", " + x
  {
    TasksOfPresent(t, h);
    JoinSnoc(", ", TasksOf(t, h), x);
  }
}
