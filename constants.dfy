/** The enumerations of frontend/src/constants/index.js. */
module Constants {

  datatype Column = Column(id: string, title: string, color: string)
  datatype Priority = Priority(value: string, caption: string, color: string)
  datatype Category = Category(value: string, caption: string, icon: string)

  const Columns: seq<Column> := [
    Column("todo", "To Do", "#4A90E2"),
    Column("inprogress", "In Progress", "#F5A623"),
    Column("done", "Done", "#7ED321")
  ]

  const Priorities: seq<Priority> := [
    Priority("low", "Low", "#6BCF7F"),
    Priority("medium", "Medium", "#FFD93D"),
    Priority("high", "High", "#FF6B6B")
  ]

  const Categories: seq<Category> := [
    Category("bug", "\U{1F41B} Bug", "\U{1F41B}"),
    Category("feature", "\U{2728} Feature", "\U{2728}"),
    Category("enhancement", "\U{1F527} Enhancement", "\U{1F527}")
  ]

  /** The column a task may be in, by id. */
  predicate IsColumnId(c: string)
  {
    exists k :: 0 <= k < |Columns| && Columns[k].id == c
  }

  lemma ColumnOrder()
    ensures |Columns| == 3
    ensures Columns[0].id == "todo" && Columns[1].id == "inprogress" && Columns[2].id == "done"
    ensures forall c :: IsColumnId(c) <==> c == "todo" || c == "inprogress" || c == "done"
  {
  }

  lemma ColumnIdsDistinct()
    ensures forall j, k :: 0 <= j < k < |Columns| ==> Columns[j].id != Columns[k].id
  {
  }

  lemma PriorityOrder()
    ensures |Priorities| == 3
    ensures Priorities[0].value == "low" && Priorities[1].value == "medium" && Priorities[2].value == "high"
  {
  }

  lemma CategoryLabels()
    ensures |Categories| == 3
    ensures Categories[0].value == "bug" && Categories[1].value == "feature" && Categories[2].value == "enhancement"
    ensures forall k :: 0 <= k < |Categories| ==> Categories[k].icon <= Categories[k].caption
  {
  }
}
