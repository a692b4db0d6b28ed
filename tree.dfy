/** The item tree as the report pages receive it from the tree builder
    (report_lp\local\builders\item_tree, which is not part of this model):
    each node carries what the pages read from an item. */
module ItemTree {
  import opened Common

  /** One built item: its id, its resolved label, `caption` (get_label of a loaded
      item), its short name, its configuration depth, whether it is a
      grouping, its icon if it has one, and its children in order. */
  datatype Node = Node(
    id: int,
    caption: string,
    shortname: string,
    depth: int,
    isGrouping: bool,
    icon: Option<string>,
    children: seq<Node>)

  /** grouping::count, taken to be the number of the grouping's children. */
  function Count(n: Node): nat {
    |n.children|
  }
}
