# failed_summary, modelled in Dafny

A model of the `failed_summary` Ansible notification callback
(`failed_summary.py`). The callback watches one playbook run. For every
failed task it files the task name under the host it failed on, in one of
two tables: `failed_tasks` for ordinary failures and `ignored_failed_tasks`
for failures whose errors were ignored. At the end of the run it displays a
summary: a "Failed hosts:" section when the first table is non-empty, then a
"Soft failed hosts (errors ignored):" section when the second table is
non-empty and `display_ignored_errors` is set. Each section has one coloured
line per host, listing that host's task names joined by ", ", and ends with
a blank line.

Files:

- `host_table.dfy` (module `HostTable`): a host-to-task-list table kept in
  insertion order, as a Python dict iterates. `Append` is
  `setdefault(host, []).append(task)`.
- `summary_render.dfy` (module `SummaryRender`): the ANSI colour codes, the
  headers and labels, Python's `", ".join`, the per-host line, the sections,
  and the whole summary as the function `SummaryLines`. `EmitSection` builds
  a section with a loop over the table, as the callback does.
- `failed_summary.dfy` (module `FailedSummary`): the callback object
  `Reporter`. Its two table fields are reassigned by `RecordFailure`
  (`v2_runner_on_failed`). `Summary` (`v2_playbook_on_stats`) returns the
  displayed lines instead of writing them. A ghost field `history` records the
  failure notifications received so far, and `Valid()` ties both tables to
  `Tally(history, flag)`. `ExampleRun` is a client that works out the exact
  summary of a three-failure run.

The colour codes are those of `failed_summary.py`: RESET `ESC[0m` (line 32),
BRIGHT_GRAY `ESC[90m` (line 35), RED `ESC[31m` (line 37), YELLOW `ESC[33m`
(line 42).

`failed_summary.py` has two tables, no JSON output and no environment
settings; this model covers exactly that.

## Model

| member | source | states |
|---|---|---|
| `HostTable.Append` | failed_summary.py:26-28 | `setdefault(h, []).append(x)` adds `x` at the end of `h`'s list. If `h` had no list, the new list is `[x]`. Every other host's list is unchanged. |
| `HostTable.AppendOrder` | failed_summary.py:26-28 | Appending never reorders the keys. A host that is already present keeps its place. A host seen for the first time goes last, with the entry `(h, [x])`. |
| `HostTable.AppendFrame` | failed_summary.py:26-28 | Every entry of another host stays at its index, unchanged. |
| `HostTable.AppendWellFormed` | failed_summary.py:26-28 | Appending keeps each host at most once in the table, and keeps every list non-empty. |
| `HostTable.AppendTotal` | failed_summary.py:26-28 | Appending adds exactly one task name to the table's total. |
| `HostTable.TasksOfEntry` | failed_summary.py:48 | In a well-formed table, the pair seen when iterating `.items()` is exactly the host's stored list. |
| `HostTable.TasksOfPresent` | failed_summary.py:26-28 | In a well-formed table, a host has a non-empty list exactly when it is a key. |
| `FailedSummary.TallyWellFormed` | failed_summary.py:22-28 | Any sequence of failure notifications builds well-formed tables. |
| `FailedSummary.TallyTasksOf` | failed_summary.py:22-28 | For each host and flag, the table's list equals the task names reported for that host with that flag, in call order. So each task lands in exactly the table its `ignore_errors` flag selects. |
| `FailedSummary.TallyTotal` | failed_summary.py:22-28 | The two tables together hold exactly one task name per notification. |
| `FailedSummary.Reporter.constructor` | failed_summary.py:13-20 | A new callback has both tables empty and `display_ignored_errors` true. |
| `FailedSummary.Reporter.RecordFailure` | failed_summary.py:22-28 | The flag defaults to false, as `ignore_errors=False` does. With the flag true, the task is appended to the host's list in the ignored table and the failed table is unchanged. With the flag false, it is the reverse. The total task count grows by one, the display toggle is unchanged, and both tables stay equal to the tally of all notifications. |
| `FailedSummary.Reporter.Summary` | failed_summary.py:30-59 | Returns exactly `SummaryLines` of the two tables and the toggle. It has no `modifies` clause, so the tables are not changed. |
| `SummaryRender.EmitSection` | failed_summary.py:47-51 | The loop produces the header, then one host line per table entry in iteration order, then `""`. |
| `SummaryRender.SectionLineAt` | failed_summary.py:47-51 | A section has (hosts + 2) lines: the header, the line of entry `k` at position `k + 1`, and a blank last line. |
| `SummaryRender.HostLines` | failed_summary.py:48-50 | One line per table entry. Line `k` is the line for entry `k`. |
| `SummaryRender.JoinSnoc` | failed_summary.py:49 | `sep.join(parts + [x])` is `sep.join(parts) + sep + x` for non-empty `parts`. |
| `SummaryRender.HostLineStartsWithEscape` | failed_summary.py:49 | A host line starts with the escape character of its colour code. |
| `SummaryRender.HeaderOnlyAsHeader` | failed_summary.py:47-59 | A header is never a host line or the blank line of a section with another header. |
| `SummaryRender.SummaryLength` | failed_summary.py:46-59 | The summary has (hosts + 2) lines for each displayed section, and no lines when neither section is displayed. In particular, a fresh callback displays nothing. |
| `SummaryRender.FailedSectionIff` | failed_summary.py:46-51 | `"Failed hosts:"` is displayed if and only if `failed_tasks` is non-empty. |
| `SummaryRender.IgnoredSectionIff` | failed_summary.py:54-59 | `"Soft failed hosts (errors ignored):"` is displayed if and only if `ignored_failed_tasks` is non-empty and `display_ignored_errors` is true. |
| `SummaryRender.SectionsOrdered` | failed_summary.py:46-59 | When both headers are displayed, the failed one comes first. |
| `SummaryRender.SectionsDisjoint` | failed_summary.py:46-59 | No line of the failed section is the ignored-errors header, and no line of the ignored section is the failed header. |
| `SummaryRender.FailedLineAt` | failed_summary.py:46-51 | Line 0 is `"Failed hosts:"`. Line `k+1` is exactly RED + host + RESET + the separator (space, vertical bar, space) + BRIGHT_GRAY + `"Failed tasks: "` + RESET + the host's tasks joined by `", "`, where host is the `k`-th host. The section ends with `""`. |
| `SummaryRender.IgnoredLineAt` | failed_summary.py:54-59 | When displayed, the ignored section starts right after the failed section, or at the top. Its `k`-th host line is exactly YELLOW + host + RESET + the separator (space, vertical bar, space) + BRIGHT_GRAY + `"Ignored failed tasks: "` + RESET + the joined tasks, and it ends with `""`. |
| `FailedSummary.ExampleLines` | failed_summary.py:46-59 | For one failed host with tasks "deploy" and "restart" and one ignored host with task "migrate", the summary is exactly six lines. These are the two headers, the two host lines and a blank line after each section. The failed host's tasks read "deploy, restart". |
| `SummaryRender.AppendExtendsLine` | failed_summary.py:49 | Recording one more task for a host that already has a line extends that line by `", "` and the new task name. |

## Left out

- The `CallbackBase` superclass, the `super().__init__()` call and the `CALLBACK_VERSION`/`CALLBACK_TYPE`/`CALLBACK_NAME` metadata (lines 4-9, 17). This is framework plumbing; `CallbackBase` is not part of this model.
- Extracting the host and task name from the `result` object (`result._host.get_name()`, `result.task_name`, lines 23-24). These are calls into Ansible objects. `RecordFailure` takes the host and task name as strings.
- The display sink `self._display.display` (lines 47-59). This is I/O. `Summary` returns the lines it would write, in order.
- The `stats` argument of `v2_playbook_on_stats`. The code never reads it.
- The unused colour constants WHITE, BRIGHT_PURPLE, DARK_GRAY, PURPLE, CYAN, GREEN and BLUE (lines 34-43), and how a terminal renders ANSI codes.
- `display_ignored_errors` is a class attribute in Python, shared by all instances unless overridden. Here it is a field of each `Reporter`, initialised to true. Whoever holds the object may change it, as Python allows.
- Python strings are modelled as sequences of characters. Encoding is not modelled.
