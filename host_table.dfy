/**
 * An insertion-ordered table from host names to the list of task names that
 * failed on that host: the shape of `failed_tasks` and `ignored_failed_tasks`
 * in the failed_summary callback. Python dictionaries iterate in insertion
 * order, so the table is a sequence of entries, one per host, in the order in
 * which each host first failed.
 */
module HostTable {

  datatype Entry = Entry(host: string, tasks: seq<string>)

  type Table = seq<Entry>

  /** The hosts of a table, in iteration order (the dictionary's keys). */
  function Hosts(t: Table): seq<string>
  {
    seq(|t|, i requires 0 <= i < |t| => t[i].host)
  }

  /**
   * What every table the callback builds looks like: each host appears once,
   * and each list holds at least one task, because a list is only ever
   * created by the `setdefault` that immediately appends to it.
   */
  predicate WellFormed(t: Table)
  {
    && (forall i, j :: 0 <= i < j < |t| ==> t[i].host != t[j].host)
    && (forall i :: 0 <= i < |t| ==> t[i].tasks != [])
  }

  /** The task list stored for `h`, or the empty list when `h` has no entry. */
  function TasksOf(t: Table, h: string): seq<string>
  {
    if t == [] then []
    else if t[0].host == h then t[0].tasks
    else TasksOf(t[1..], h)
  }

  /** The number of task names held across all hosts of a table. */
  function TotalTasks(t: Table): nat
  {
    if t == [] then 0 else |t[0].tasks| + TotalTasks(t[1..])
  }

  /**
   * `table.setdefault(h, []).append(x)`: append `x` to the end of the list of
   * `h`, creating a one-element list when `h` has no entry yet. The list of
   * every other host is left as it was.
   */
  function Append(t: Table, h: string, x: string): (r: Table)
    ensures TasksOf(r, h) == TasksOf(t, h) + [x]
    ensures forall g :: g != h ==> TasksOf(r, g) == TasksOf(t, g)
  {
    if t == [] then [Entry(h, [x])]
    else if t[0].host == h then [Entry(h, t[0].tasks + [x])] + t[1..]
    else [t[0]] + Append(t[1..], h, x)
  }

  /**
   * Appending never reorders the table: a host already present keeps its
   * place and the keys are unchanged; a host seen for the first time is added
   * last, with the one-element list `[x]`.
   */
  lemma {:induction false} AppendOrder(t: Table, h: string, x: string)
    ensures Hosts(Append(t, h, x)) == if h in Hosts(t) then Hosts(t) else Hosts(t) + [h]
    ensures h !in Hosts(t) ==> |Append(t, h, x)| == |t| + 1 && Append(t, h, x)[|t|] == Entry(h, [x])
  {
    var r := Append(t, h, x);
    if t == [] {
    } else if t[0].host == h {
      assert Hosts(t)[0] == h;
      assert Hosts(r) == Hosts(t);
    } else {
      AppendOrder(t[1..], h, x);
      var rest := Append(t[1..], h, x);
      assert Hosts(t) == [t[0].host] + Hosts(t[1..]);
      assert Hosts(r) == [t[0].host] + Hosts(rest);
    }
  }

  /** Appending for `h` leaves every entry of another host where it was, as it was. */
  lemma {:induction false} AppendFrame(t: Table, h: string, x: string, i: int)
    requires 0 <= i < |t| && t[i].host != h
    ensures i < |Append(t, h, x)| && Append(t, h, x)[i] == t[i]
  {
    if i > 0 && t[0].host != h {
      AppendFrame(t[1..], h, x, i - 1);
    }
  }

  /** In a well-formed table, looking up the host of entry `i` finds that entry's list. */
  lemma {:induction false} TasksOfEntry(t: Table, i: int)
    requires WellFormed(t) && 0 <= i < |t|
    ensures TasksOf(t, t[i].host) == t[i].tasks
  {
    if i > 0 {
      assert t[1..][i - 1] == t[i];
      assert WellFormed(t[1..]);
      TasksOfEntry(t[1..], i - 1);
    }
  }

  /** A host has a non-empty list in a well-formed table exactly when it is one of its keys. */
  lemma {:induction false} TasksOfPresent(t: Table, h: string)
    requires WellFormed(t)
    ensures TasksOf(t, h) != [] <==> h in Hosts(t)
  {
    if t != [] {
      assert Hosts(t) == [t[0].host] + Hosts(t[1..]);
      assert WellFormed(t[1..]);
      TasksOfPresent(t[1..], h);
    }
  }

  /** A well-formed table splits into a head whose host is not among the tail's, and a well-formed tail. */
  lemma SplitWellFormed(t: Table)
    requires WellFormed(t) && t != []
    ensures t[0].host !in Hosts(t[1..]) && t[0].tasks != [] && WellFormed(t[1..])
  {
    var tail := t[1..];
    forall j | 0 <= j < |tail| ensures Hosts(tail)[j] != t[0].host {
      assert tail[j] == t[j + 1];
    }
  }

  /** Conversely, such a head and tail make a well-formed table. */
  lemma JoinWellFormed(e: Entry, tail: Table)
    requires WellFormed(tail) && e.tasks != [] && e.host !in Hosts(tail)
    ensures WellFormed([e] + tail)
  {
    var r := [e] + tail;
    forall j | 0 < j < |r| ensures r[0].host != r[j].host {
      assert Hosts(tail)[j - 1] == r[j].host;
    }
    forall i, j | 0 < i < j < |r| ensures r[i].host != r[j].host {
      assert r[i] == tail[i - 1] && r[j] == tail[j - 1];
    }
  }

  /** Appending keeps a table well-formed. */
  lemma {:induction false} AppendWellFormed(t: Table, h: string, x: string)
    requires WellFormed(t)
    ensures WellFormed(Append(t, h, x))
  {
    if t != [] {
      var tail := t[1..];
      SplitWellFormed(t);
      if t[0].host == h {
        JoinWellFormed(Entry(h, t[0].tasks + [x]), tail);
      } else {
        AppendWellFormed(tail, h, x);
        AppendOrder(tail, h, x);
        JoinWellFormed(t[0], Append(tail, h, x));
      }
    }
  }

  /** Appending adds exactly one task name to the table's total. */
  lemma {:induction false} AppendTotal(t: Table, h: string, x: string)
    ensures TotalTasks(Append(t, h, x)) == TotalTasks(t) + 1
  {
    if t != [] && t[0].host != h {
      AppendTotal(t[1..], h, x);
      var rest := Append(t[1..], h, x);
      assert ([t[0]] + rest)[1..] == rest;
    } else if t != [] {
      assert ([Entry(h, t[0].tasks + [x])] + t[1..])[1..] == t[1..];
    }
  }
}
