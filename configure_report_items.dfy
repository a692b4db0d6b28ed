/** The configure-items page data of classes/output/configure_report_items.php:
    the built item tree flattened into a root line item, one line item per
    child of the root, and, for grouping children only, one line item per
    grandchild. */
module ConfigureReportItems {
  import opened Common
  import opened ItemTree

  datatype LineItem = LineItem(id: int, caption: string)
  datatype RootLineItem = RootLineItem(id: int, caption: string, shortname: string)
  datatype ChildLineItem = ChildLineItem(id: int, caption: string, grandchildren: Option<seq<LineItem>>)
  /** The button offered to initialise a course that has no item tree yet. */
  datatype InitialiseButton = InitialiseButton(courseid: int)

  datatype ConfigureExport = ConfigureExport(
    courseid: int,
    coursestartdate: int,
    root: Option<RootLineItem>,
    children: seq<ChildLineItem>,
    initialisebutton: Option<InitialiseButton>,
    initialised: bool)

  /** The line item of one child of the root, as the export must produce it. */
  ghost predicate ChildLineFor(line: ChildLineItem, child: Node) {
    && line.id == child.id && line.caption == child.caption
    && (line.grandchildren.Some? <==> child.isGrouping)
    && (child.isGrouping ==>
          && |line.grandchildren.value| == |child.children|
          && forall j :: 0 <= j < |child.children| ==>
               line.grandchildren.value[j] == LineItem(child.children[j].id, child.children[j].caption))
  }

  /** configure_report_items::export_for_template. `root` is what the tree
      builder returns for the course's item configurations. */
  method ExportForTemplate(course: Course, root: Option<Node>) returns (data: ConfigureExport)
    ensures data.courseid == course.id && data.coursestartdate == course.startdate
    ensures root.None? ==>
      && data.root.None? && data.children == []
      && data.initialisebutton == Some(InitialiseButton(course.id)) && !data.initialised
    ensures root.Some? ==>
      && data.root == Some(RootLineItem(root.value.id, root.value.caption, root.value.shortname))
      && data.initialised && data.initialisebutton.None?
      && |data.children| == |root.value.children|
      && forall i :: 0 <= i < |root.value.children| ==>
           ChildLineFor(data.children[i], root.value.children[i])
  {
    data := ConfigureExport(course.id, course.startdate, None, [], None, false);
    if root.None? {
      data := data.(initialisebutton := Some(InitialiseButton(course.id)));
      return;
    }
    var r := root.value;
    data := data.(root := Some(RootLineItem(r.id, r.caption, r.shortname)), initialised := true);
    if |r.children| > 0 {
      var i := 0;
      while i < |r.children|
        invariant 0 <= i <= |r.children|
        invariant data.courseid == course.id && data.coursestartdate == course.startdate
        invariant data.root == Some(RootLineItem(r.id, r.caption, r.shortname))
        invariant data.initialised && data.initialisebutton.None?
        invariant |data.children| == i
        invariant forall k :: 0 <= k < i ==> ChildLineFor(data.children[k], r.children[k])
      {
        var child := r.children[i];
        var line := ChildLineItem(child.id, child.caption, None);
        if child.isGrouping {
          var grandchildren: seq<LineItem> := [];
          if |child.children| > 0 {
            var j := 0;
            while j < |child.children|
              invariant 0 <= j <= |child.children|
              invariant |grandchildren| == j
              invariant forall m :: 0 <= m < j ==>
                grandchildren[m] == LineItem(child.children[m].id, child.children[m].caption)
            {
              var grandchild := child.children[j];
              grandchildren := grandchildren + [LineItem(grandchild.id, grandchild.caption)];
              j := j + 1;
            }
          }
          line := line.(grandchildren := Some(grandchildren));
        }
        data := data.(children := data.children + [line]);
        i := i + 1;
      }
    }
  }
}
