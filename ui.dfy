/**
  Terminal UI state: the table's column-width buffer, the multi-task progress bookkeeping,
  and the re-prompting yes/no dialog. Drawing is not modelled; the state each operation
  leaves behind is.
*/
module Ui {
  import opened Results
  import opened Strings

  function Max(a: nat, b: nat): nat {
    if a >= b then a else b
  }

  /** The byte length of a row's cell in column `i`, or 0 when the row is shorter. */
  function CellWidth(row: seq<string>, i: nat): nat {
    if i < |row| then Utf8Len(row[i]) else 0
  }

  /** The width column `i` needs: its header's byte length or its widest cell. */
  function ColumnWidth(header: string, rows: seq<seq<string>>, i: nat): (w: nat)
    ensures w >= Utf8Len(header)
    ensures forall k :: 0 <= k < |rows| ==> w >= CellWidth(rows[k], i)
  {
    if rows == [] then Utf8Len(header)
    else
      var init := rows[..|rows| - 1];
      var w := Max(ColumnWidth(header, init, i), CellWidth(rows[|rows| - 1], i));
      assert forall k :: 0 <= k < |rows| - 1 ==> rows[k] == init[k];
      w
  }

  /** The width needed is always one the column actually has: the header's or a cell's. */
  lemma {:induction false} ColumnWidthAttained(header: string, rows: seq<seq<string>>, i: nat)
    ensures ColumnWidth(header, rows, i) == Utf8Len(header)
         || exists k :: 0 <= k < |rows| && ColumnWidth(header, rows, i) == CellWidth(rows[k], i)
  {
    if rows != [] {
      var init := rows[..|rows| - 1];
      ColumnWidthAttained(header, init, i);
      if ColumnWidth(header, rows, i) != CellWidth(rows[|rows| - 1], i) {
        assert ColumnWidth(header, rows, i) == ColumnWidth(header, init, i);
        if ColumnWidth(header, init, i) != Utf8Len(header) {
          var k :| 0 <= k < |init| && ColumnWidth(header, init, i) == CellWidth(init[k], i);
          assert init[k] == rows[k];
        }
      }
    }
  }

  /** A table: its headers, the rows added so far, and one display width per header. */
  class Table {
    var headers: seq<string>
    var rows: seq<seq<string>>
    var maxWidths: array<nat>

    /** One width per header, each the width its column needs. */
    ghost predicate Valid()
      reads this, maxWidths
    {
      maxWidths.Length == |headers|
      && forall i :: 0 <= i < |headers| ==> maxWidths[i] == ColumnWidth(headers[i], rows, i)
    }

    /** `Table::new`: no rows, and each width is its header's byte length. */
    constructor(headers: seq<string>)
      ensures Valid()
      ensures this.headers == headers && rows == [] && fresh(maxWidths)
      ensures forall i :: 0 <= i < |headers| ==> maxWidths[i] == Utf8Len(headers[i])
    {
      this.headers := headers;
      rows := [];
      maxWidths := new nat[|headers|](i requires 0 <= i < |headers| => Utf8Len(headers[i]));
    }

    /** `add_row`: appends the row; each width within the header count grows to the row's
        cell if that is wider, and cells beyond the headers are ignored. */
    method AddRow(row: seq<string>)
      requires Valid()
      modifies this, maxWidths
      ensures Valid()
      ensures headers == old(headers) && rows == old(rows) + [row]
      ensures maxWidths == old(maxWidths) && maxWidths.Length == old(maxWidths.Length)
      ensures forall i :: 0 <= i < maxWidths.Length ==> maxWidths[i] == Max(old(maxWidths[i]), CellWidth(row, i))
    {
      var widths := maxWidths;
      for i := 0 to |row|
        modifies widths
        invariant forall j :: 0 <= j < widths.Length ==>
          widths[j] == (if j < i then Max(old(widths[j]), CellWidth(row, j)) else old(widths[j]))
      {
        if i < widths.Length {
          widths[i] := Max(widths[i], Utf8Len(row[i]));
        }
      }
      ghost var before := rows;
      rows := rows + [row];
      assert rows[..|rows| - 1] == before;
    }

    /** Every width covers its header and every stored cell of its column. */
    lemma WidthsCoverCells()
      requires Valid()
      ensures forall i, k :: 0 <= i < maxWidths.Length && 0 <= k < |rows| ==>
        maxWidths[i] >= Utf8Len(headers[i]) && maxWidths[i] >= CellWidth(rows[k], i)
    {
    }
  }

  /** One progress bar's state. */
  datatype ProgressTask = ProgressTask(name: string, length: nat, position: nat, message: string, finished: bool)

  /** Several progress bars, addressed by the index `add_task` returned. */
  class TaskProgressManager {
    var tasks: seq<ProgressTask>

    /** `TaskProgressManager::new`: no tasks. */
    constructor()
      ensures tasks == []
    {
      tasks := [];
    }

    /** `add_task`: appends a new bar and returns its index, the new last index. */
    method AddTask(name: string, length: nat) returns (id: nat)
      modifies this
      ensures tasks == old(tasks) + [ProgressTask(name, length, 0, "", false)]
      ensures id == |old(tasks)| && id == |tasks| - 1
    {
      tasks := tasks + [ProgressTask(name, length, 0, "", false)];
      id := |tasks| - 1;
    }

    /** `update_task`: sets the bar's position and message; an unknown index changes nothing. */
    method UpdateTask(id: nat, position: nat, message: string)
      modifies this
      ensures id < |old(tasks)| ==> tasks == old(tasks)[id := old(tasks)[id].(position := position, message := message)]
      ensures id >= |old(tasks)| ==> tasks == old(tasks)
    {
      if id < |tasks| {
        tasks := tasks[id := tasks[id].(position := position, message := message)];
      }
    }

    /** `finish_task`: marks the bar finished with a message; an unknown index changes nothing. */
    method FinishTask(id: nat, message: string)
      modifies this
      ensures id < |old(tasks)| ==> tasks == old(tasks)[id := old(tasks)[id].(message := message, finished := true)]
      ensures id >= |old(tasks)| ==> tasks == old(tasks)
    {
      if id < |tasks| {
        tasks := tasks[id := tasks[id].(message := message, finished := true)];
      }
    }
  }

  /** What a trimmed, lower-cased answer means to the dialog: yes, no, the default for an
      empty answer, or nothing (re-prompt) for anything else. */
  function AnswerMeaning(answer: string, default: bool): (r: Option<bool>)
    ensures r == Some(true) <==> answer == "y" || answer == "yes" || (answer == "" && default)
    ensures r == Some(false) <==> answer == "n" || answer == "no" || (answer == "" && !default)
    ensures r.None? <==> answer != "y" && answer != "yes" && answer != "n" && answer != "no" && answer != ""
  {
    if answer == "y" || answer == "yes" then Some(true)
    else if answer == "n" || answer == "no" then Some(false)
    else if answer == "" then Some(default)
    else None
  }

  /** What one typed line means to the dialog. */
  function DialogAnswer(line: string, default: bool): Option<bool> {
    AnswerMeaning(Lower(Trim(line)), default)
  }

  /** A line of nothing but white space takes the default. */
  lemma BlankLineTakesDefault(line: string, default: bool)
    requires forall k :: 0 <= k < |line| ==> IsWhitespace(line[k])
    ensures DialogAnswer(line, default) == Some(default)
  {
    TrimEmptyIff(line);
  }

  /** A read that settles the dialog. */
  predicate Decisive(read: Option<string>, default: bool) {
    ReadMeaning(read, default).Some?
  }

  /** What one read means: nothing for a failed read, else the line's meaning. */
  function ReadMeaning(read: Option<string>, default: bool): Option<bool> {
    if read.None? then None else DialogAnswer(read.value, default)
  }

  /** How many reads were typed but not understood (each one draws a warning). */
  function CountRejected(inputs: seq<Option<string>>): nat {
    if inputs == [] then 0
    else CountRejected(inputs[..|inputs| - 1]) + (if inputs[|inputs| - 1].Some? then 1 else 0)
  }

  /** `ConfirmDialog::confirm` over the successive results of `read_line` (`None` for a
      failed read, after which the dialog simply prompts again). The first decisive line's
      meaning is returned; `None` means the reads ran out first, where the original waits on. */
  method ConfirmDialog(inputs: seq<Option<string>>, default: bool)
    returns (answer: Option<bool>, consumed: nat, warnings: nat)
    ensures consumed <= |inputs|
    ensures answer.Some? ==> 1 <= consumed && answer == ReadMeaning(inputs[consumed - 1], default)
    ensures answer.None? ==> consumed == |inputs|
    ensures var before := if answer.Some? then consumed - 1 else consumed;
      (forall k :: 0 <= k < before ==> !Decisive(inputs[k], default))
      && warnings == CountRejected(inputs[..before])
  {
    var i := 0;
    warnings := 0;
    while i < |inputs| && ReadMeaning(inputs[i], default).None?
      invariant 0 <= i <= |inputs|
      invariant forall k :: 0 <= k < i ==> !Decisive(inputs[k], default)
      invariant warnings == CountRejected(inputs[..i])
    {
      CountRejectedSnoc(inputs, i);
      if inputs[i].Some? {
        warnings := warnings + 1;
      }
      i := i + 1;
    }
    if i < |inputs| {
      answer := ReadMeaning(inputs[i], default);
      consumed := i + 1;
    } else {
      answer := None;
      consumed := i;
    }
  }

  lemma CountRejectedSnoc(inputs: seq<Option<string>>, i: nat)
    requires i < |inputs|
    ensures CountRejected(inputs[..i + 1]) == CountRejected(inputs[..i]) + (if inputs[i].Some? then 1 else 0)
  {
    assert inputs[..i + 1][..i] == inputs[..i];
  }
}
