/** The summary report output of classes/output/summary_report.php: the two
    header rows built from the flattened item list, and one row of measure
    values per learner. */
module SummaryReport {
  import opened Common
  import opened ItemTree
  import opened LearnerLists

  /** A header text: a language string by identifier, or literal text. */
  datatype Label = LangString(identifier: string) | Text(text: string)

  /** A header cell: its label, its colspan and its icon, each possibly unset. */
  datatype Column = Column(caption: Option<Label>, colspan: Option<nat>, icon: Option<string>)

  const LearnerExtraFields: seq<string> := ["idnumber", "coursegroups"]

  /** The width a column occupies: its colspan, 1 when it has none. */
  function Span(c: Column): nat {
    if c.colspan.Some? then c.colspan.value else 1
  }

  function Width(cs: seq<Column>): (w: nat)
    decreases |cs|
  {
    if cs == [] then 0 else Width(cs[..|cs| - 1]) + Span(cs[|cs| - 1])
  }

  lemma {:induction false} WidthAppend(a: seq<Column>, b: seq<Column>)
    ensures Width(a + b) == Width(a) + Width(b)
    decreases |b|
  {
    if b == [] {
      assert a + b == a;
    } else {
      WidthAppend(a, b[..|b| - 1]);
      assert (a + b)[..|a + b| - 1] == a + b[..|b| - 1];
    }
  }

  /** The items that produce columns: those at configuration depth 2, in order. */
  function Depth2(items: seq<Node>): (selected: seq<Node>)
    decreases |items|
  {
    if items == [] then []
    else
      var rest := Depth2(items[..|items| - 1]);
      if items[|items| - 1].depth == 2 then rest + [items[|items| - 1]] else rest
  }

  lemma {:induction false} Depth2Members(items: seq<Node>)
    ensures forall n :: n in Depth2(items) <==> n in items && n.depth == 2
  {
    if items != [] {
      Depth2Members(items[..|items| - 1]);
      assert items == items[..|items| - 1] + [items[|items| - 1]];
    }
  }

  lemma {:induction false} Depth2Append(a: seq<Node>, b: seq<Node>)
    ensures Depth2(a + b) == Depth2(a) + Depth2(b)
    decreases |b|
  {
    if b == [] {
      assert a + b == a;
    } else {
      Depth2Append(a, b[..|b| - 1]);
      assert (a + b)[..|a + b| - 1] == a + b[..|b| - 1];
    }
  }

  // ---------------------------------------------------------------- primary

  /** The first primary column: the learner heading, spanning the two
      learner columns and one per learner extra field. */
  const LearnerHeading := Column(Some(LangString("learner")), Some(2 + |LearnerExtraFields|), None)

  /** The primary column of one depth-2 item. */
  function PrimaryColumn(item: Node): Column {
    if item.isGrouping then Column(Some(Text(item.caption)), Some(Count(item)), None)
    else Column(Some(Text("")), Some(1), None)
  }

  function PrimaryItemColumns(items: seq<Node>): (columns: seq<Column>)
    decreases |items|
  {
    if items == [] then []
    else
      var rest := PrimaryItemColumns(items[..|items| - 1]);
      var last := items[|items| - 1];
      if last.depth != 2 then rest else rest + [PrimaryColumn(last)]
  }

  function PrimaryHeader(items: seq<Node>): seq<Column> {
    [LearnerHeading] + PrimaryItemColumns(items)
  }

  /** The primary row is the learner heading (colspan 4) followed by exactly
      one column per depth-2 item, in item order. */
  lemma {:induction false} PrimaryHeaderShape(items: seq<Node>)
    ensures |PrimaryHeader(items)| == 1 + |Depth2(items)|
    ensures PrimaryHeader(items)[0].colspan == Some(4)
    ensures forall k :: 0 <= k < |Depth2(items)| ==>
      PrimaryHeader(items)[k + 1] == PrimaryColumn(Depth2(items)[k])
  {
    PrimaryItemColumnsShape(items);
  }

  lemma {:induction false} PrimaryItemColumnsShape(items: seq<Node>)
    ensures |PrimaryItemColumns(items)| == |Depth2(items)|
    ensures forall k :: 0 <= k < |Depth2(items)| ==>
      PrimaryItemColumns(items)[k] == PrimaryColumn(Depth2(items)[k])
  {
    if items != [] {
      PrimaryItemColumnsShape(items[..|items| - 1]);
    }
  }

  /** summary_report::primary_header_columns. */
  method PrimaryHeaderColumns(items: seq<Node>) returns (columns: seq<Column>)
    ensures columns == PrimaryHeader(items)
  {
    columns := [LearnerHeading];
    var i := 0;
    while i < |items|
      invariant 0 <= i <= |items|
      invariant columns == [LearnerHeading] + PrimaryItemColumns(items[..i])
    {
      var item := items[i];
      assert items[..i + 1][..i] == items[..i];
      if item.depth != 2 {
        i := i + 1;
        continue;
      }
      var th := Column(Some(Text("")), Some(1), None);
      if item.isGrouping {
        th := Column(Some(Text(item.caption)), Some(Count(item)), None);
      }
      columns := columns + [th];
      i := i + 1;
    }
    assert items[..|items|] == items;
  }

  // -------------------------------------------------------------- secondary

  function ChildColumn(child: Node): Column {
    Column(Some(Text(child.caption)), None, child.icon)
  }

  /** One column per child, in child order. */
  function ChildColumns(children: seq<Node>): seq<Column> {
    seq(|children|, k requires 0 <= k < |children| => ChildColumn(children[k]))
  }

  /** The secondary columns of one depth-2 item: one per child of a
      grouping, in child order; one for any other item. */
  function SecondaryColumnsFor(item: Node): seq<Column> {
    if item.isGrouping then ChildColumns(item.children)
    else [Column(Some(Text(item.caption)), None, item.icon)]
  }

  /** The leading secondary columns: a colspan-2 cell, then one labelled
      cell per learner extra field, in order. */
  function SecondaryLead(): seq<Column> {
    [Column(None, Some(2), None)]
      + seq(|LearnerExtraFields|, k requires 0 <= k < |LearnerExtraFields| =>
              Column(Some(LangString(LearnerExtraFields[k])), None, None))
  }

  function SecondaryItemColumns(items: seq<Node>): (columns: seq<Column>)
    decreases |items|
  {
    if items == [] then []
    else
      var rest := SecondaryItemColumns(items[..|items| - 1]);
      var last := items[|items| - 1];
      if last.depth != 2 then rest else rest + SecondaryColumnsFor(last)
  }

  function SecondaryHeader(items: seq<Node>): seq<Column> {
    SecondaryLead() + SecondaryItemColumns(items)
  }

  /** Concatenation of the secondary columns of each node, in order. */
  function Expand(nodes: seq<Node>): (columns: seq<Column>)
    decreases |nodes|
  {
    if nodes == [] then [] else Expand(nodes[..|nodes| - 1]) + SecondaryColumnsFor(nodes[|nodes| - 1])
  }

  /** The secondary row is the lead followed by the expansion of the depth-2
      items alone, in item order. */
  lemma {:induction false} SecondaryHeaderShape(items: seq<Node>)
    ensures SecondaryHeader(items) == SecondaryLead() + Expand(Depth2(items))
    ensures |SecondaryLead()| == 1 + |LearnerExtraFields|
  {
    SecondaryItemColumnsExpand(items);
  }

  lemma {:induction false} SecondaryItemColumnsExpand(items: seq<Node>)
    ensures SecondaryItemColumns(items) == Expand(Depth2(items))
  {
    if items != [] {
      var p, x := items[..|items| - 1], items[|items| - 1];
      SecondaryItemColumnsExpand(p);
      if x.depth == 2 {
        assert (Depth2(p) + [x])[..|Depth2(p) + [x]| - 1] == Depth2(p);
      }
    }
  }

  /** The inner loop of secondary_header_columns: one column per child of a
      grouping, with the child's label and icon, in child order. */
  method ChildHeaderColumns(children: seq<Node>) returns (columns: seq<Column>)
    ensures |columns| == |children|
    ensures forall k :: 0 <= k < |children| ==>
      columns[k].caption == Some(Text(children[k].caption)) && columns[k].icon == children[k].icon
      && columns[k].colspan.None?
    ensures columns == ChildColumns(children)
  {
    columns := [];
    var c := 0;
    while c < |children|
      invariant 0 <= c <= |children|
      invariant columns == ChildColumns(children)[..c]
    {
      columns := columns + [ChildColumn(children[c])];
      c := c + 1;
    }
  }

  /** summary_report::secondary_header_columns. */
  method SecondaryHeaderColumns(items: seq<Node>) returns (columns: seq<Column>)
    ensures columns == SecondaryHeader(items)
  {
    columns := [Column(None, Some(2), None)];
    var f := 0;
    while f < |LearnerExtraFields|
      invariant 0 <= f <= |LearnerExtraFields|
      invariant columns == SecondaryLead()[..f + 1]
    {
      columns := columns + [Column(Some(LangString(LearnerExtraFields[f])), None, None)];
      f := f + 1;
    }
    var i := 0;
    while i < |items|
      invariant 0 <= i <= |items|
      invariant columns == SecondaryLead() + SecondaryItemColumns(items[..i])
    {
      var item := items[i];
      assert items[..i + 1][..i] == items[..i];
      if item.depth != 2 {
        i := i + 1;
        continue;
      }
      if item.isGrouping {
        var childColumns := ChildHeaderColumns(item.children);
        columns := columns + childColumns;
      } else {
        columns := columns + [Column(Some(Text(item.caption)), None, item.icon)];
      }
      i := i + 1;
    }
    assert items[..|items|] == items;
  }

  /** The two header rows cover the same number of table columns: each
      grouping spans in the primary row exactly the columns its children
      take in the secondary row. */
  lemma {:induction false} HeaderWidthsAgree(items: seq<Node>)
    ensures Width(PrimaryHeader(items)) == Width(SecondaryHeader(items))
  {
    ItemWidthsAgree(items);
    WidthAppend([LearnerHeading], PrimaryItemColumns(items));
    WidthAppend(SecondaryLead(), SecondaryItemColumns(items));
    assert Width(SecondaryLead()) == 4 by {
      var lead := SecondaryLead();
      assert lead[..2][..1] == lead[..1];
      assert lead[..|lead| - 1] == lead[..2];
    }
  }

  lemma {:induction false} ChildColumnsWidth(children: seq<Node>)
    ensures Width(ChildColumns(children)) == |children|
    decreases |children|
  {
    if children != [] {
      var p := children[..|children| - 1];
      ChildColumnsWidth(p);
      assert ChildColumns(children)[..|p|] == ChildColumns(p);
    }
  }

  lemma {:induction false} ItemWidthsAgree(items: seq<Node>)
    ensures Width(PrimaryItemColumns(items)) == Width(SecondaryItemColumns(items))
  {
    if items != [] {
      var p, x := items[..|items| - 1], items[|items| - 1];
      ItemWidthsAgree(p);
      if x.depth == 2 {
        WidthAppend(PrimaryItemColumns(p), [PrimaryColumn(x)]);
        WidthAppend(SecondaryItemColumns(p), SecondaryColumnsFor(x));
        if x.isGrouping {
          ChildColumnsWidth(x.children);
        } else {
          assert Width(SecondaryColumnsFor(x)) == 1 by {
            assert SecondaryColumnsFor(x)[..0] == [];
          }
        }
        assert Width([PrimaryColumn(x)]) == Span(PrimaryColumn(x)) by {
          assert [PrimaryColumn(x)][..0] == [];
        }
      }
    }
  }

  // ------------------------------------------------------------------- rows

  /** One report row: the learner as data_row_user decorates it, and one
      formatted value per measure. */
  datatype Row<L> = Row(learner: L, measures: seq<string>)

  datatype SummaryExport<L> =
    | NoFilteredCourseGroups
    | Report(primaryheader: seq<Column>, secondaryheader: seq<Column>, rows: seq<Row<L>>)

  /** summary_report::measure_data_for_user: the formatted value of every
      measure for the learner, in measure order. `value` stands for the
      measure's get_data_for_user followed by format_user_measure_data. */
  method MeasureDataForUser(learnerid: int, measures: seq<Node>, value: (Node, int) -> string)
    returns (row: seq<string>)
    ensures |row| == |measures|
    ensures forall j :: 0 <= j < |measures| ==> row[j] == value(measures[j], learnerid)
  {
    row := [];
    var j := 0;
    while j < |measures|
      invariant 0 <= j <= |measures|
      invariant |row| == j
      invariant forall k :: 0 <= k < j ==> row[k] == value(measures[k], learnerid)
    {
      row := row + [value(measures[j], learnerid)];
      j := j + 1;
    }
  }

  /** summary_report::export_for_template. Without filtered course groups
      the export is only the "no filtered course groups" marker. Otherwise
      it holds both header rows and one row per learner, each with one
      value per measure. `filtered` is the learner list's filter, `learners`
      the fetched learners, `decorate` stands for data_row_user. */
  method ExportForTemplate<L>(filtered: seq<int>, items: seq<Node>, measures: seq<Node>,
                              learners: seq<LearnerRecord>,
                              decorate: LearnerRecord -> L, value: (Node, int) -> string)
    returns (data: SummaryExport<L>)
    ensures filtered == [] <==> data == NoFilteredCourseGroups
    ensures data.Report? ==>
      && data.primaryheader == PrimaryHeader(items)
      && data.secondaryheader == SecondaryHeader(items)
      && |data.rows| == |learners|
      && forall i :: 0 <= i < |learners| ==>
           && data.rows[i].learner == decorate(learners[i])
           && |data.rows[i].measures| == |measures|
           && forall j :: 0 <= j < |measures| ==>
                data.rows[i].measures[j] == value(measures[j], learners[i].id)
  {
    if filtered == [] {
      return NoFilteredCourseGroups;
    }
    var primary := PrimaryHeaderColumns(items);
    var secondary := SecondaryHeaderColumns(items);
    var rows: seq<Row<L>> := [];
    var i := 0;
    while i < |learners|
      invariant 0 <= i <= |learners|
      invariant |rows| == i
      invariant forall k :: 0 <= k < i ==>
        && rows[k].learner == decorate(learners[k])
        && |rows[k].measures| == |measures|
        && forall j :: 0 <= j < |measures| ==>
             rows[k].measures[j] == value(measures[j], learners[k].id)
    {
      var m := MeasureDataForUser(learners[i].id, measures, value);
      rows := rows + [Row(decorate(learners[i]), m)];
      i := i + 1;
    }
    data := Report(primary, secondary, rows);
  }
}
