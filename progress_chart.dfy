/** The progress panel (frontend/src/components/ProgressChart.jsx): the bars by
    status, the slices by priority and the completion figures, all counted over
    the whole shared list. */
module ProgressChart {
  import opened JsValues
  import opened Lists
  import opened Rate
  import opened Constants

  /** One entry of a chart's data: `{ name, value, color }`. */
  datatype Bar = Bar(name: string, value: nat, color: string)

  /** `columnData`: one bar per column, in board order. */
  function ColumnData(tasks: seq<Record>): (bars: seq<Bar>)
    ensures |bars| == |Columns|
    ensures forall k :: 0 <= k < |Columns| ==>
      bars[k] == Bar(Columns[k].title, Count(tasks, FieldIs("column", Columns[k].id)), Columns[k].color)
  {
    [ Bar("To Do", Count(tasks, FieldIs("column", "todo")), "#4A90E2"),
      Bar("In Progress", Count(tasks, FieldIs("column", "inprogress")), "#F5A623"),
      Bar("Done", Count(tasks, FieldIs("column", "done")), "#7ED321") ]
  }

  /** `priorityData`: high, medium, low; the reverse of the priorities list. */
  function PriorityData(tasks: seq<Record>): (bars: seq<Bar>)
    ensures |bars| == |Priorities|
    ensures forall k :: 0 <= k < |Priorities| ==>
      bars[k] == Bar(Priorities[2 - k].caption, Count(tasks, FieldIs("priority", Priorities[2 - k].value)), Priorities[2 - k].color)
  {
    [ Bar("High", Count(tasks, FieldIs("priority", "high")), "#FF6B6B"),
      Bar("Medium", Count(tasks, FieldIs("priority", "medium")), "#FFD93D"),
      Bar("Low", Count(tasks, FieldIs("priority", "low")), "#6BCF7F") ]
  }

  /** Total, completed, remaining and the rate shown in the circle. */
  datatype Summary = Summary(total: nat, completed: nat, remaining: int, rate: nat)

  function Summarize(tasks: seq<Record>): (s: Summary)
    ensures s.total == |tasks|
    ensures s.completed == ColumnData(tasks)[2].value
    ensures 0 <= s.remaining == s.total - s.completed
    ensures s.rate <= 100
    ensures tasks == [] ==> s.rate == 0
    ensures tasks != [] ==> 2 * s.total * s.rate <= 200 * s.completed + s.total < 2 * s.total * (s.rate + 1)
  {
    var completed := Count(tasks, FieldIs("column", "done"));
    Summary(|tasks|, completed, |tasks| - completed, CompletionRate(completed, |tasks|))
  }

  /** The task's `column` is one of the board's column ids. */
  predicate InKnownColumn(t: Record)
  {
    "column" in t && t["column"].Str? && IsColumnId(t["column"].s)
  }

  /** The three bars add up to at most the total, and to the total exactly when
      every task sits in a known column. */
  lemma BarsSum(tasks: seq<Record>)
    ensures var bars := ColumnData(tasks);
            bars[0].value + bars[1].value + bars[2].value <= |tasks|
    ensures var bars := ColumnData(tasks);
            bars[0].value + bars[1].value + bars[2].value == |tasks| <==> forall t :: t in tasks ==> InKnownColumn(t)
  {
    ColumnOrder();
    CountThree(tasks, FieldIs("column", "todo"), FieldIs("column", "inprogress"), FieldIs("column", "done"));
  }

  /** The slices likewise add up to at most the total. */
  lemma SlicesSum(tasks: seq<Record>)
    ensures var bars := PriorityData(tasks);
            bars[0].value + bars[1].value + bars[2].value <= |tasks|
  {
    CountThree(tasks, FieldIs("priority", "high"), FieldIs("priority", "medium"), FieldIs("priority", "low"));
  }
}
