/** The item wrapper of classes/local/item.php: a runtime object bound to one
    item configuration row, with the label, parent, root/child, visibility,
    lock, course-cache and plugin-enabled rules. */
module Items {
  import opened Common

  /** One persisted item configuration row (the item_configuration persistent). */
  datatype ItemConfiguration = ItemConfiguration(
    id: int,
    courseid: int,
    classname: string,
    shortname: string,
    isgrouping: int,
    parentitemid: int,
    depth: int,
    path: string,
    sortorder: int,
    islocked: int,
    visibletosummary: int,
    visibletoinstance: int,
    visibletolearner: int,
    usecustomlabel: int,
    customlabel: string,
    extraconfigurationdata: string)

  /** The static side of a concrete item class: its class name, its short
      name, whether it is the grouping class, and the COMPONENT_TYPE /
      COMPONENT_NAME constants that tie it to another plugin. */
  datatype ItemType = ItemType(
    classname: string,
    shortname: string,
    isGrouping: bool,
    componentType: Option<string>,
    componentName: Option<string>)

  const GroupingClassName := "report_lp\\local\\grouping"
  const GroupingShortName := "grouping"
  const GroupingType := ItemType(GroupingClassName, GroupingShortName, true, None, None)

  /** What get_label yields: the custom label text, or the class's default
      label (an uninterpreted string identified by the class's short name). */
  datatype LabelText = Custom(text: string) | DefaultLabel(shortname: string)

  /** A snapshot of core_plugin_manager: the present and the enabled plugins
      per plugin type. A type missing from a map is a call that returned no
      array. */
  datatype PluginManager = PluginManager(
    present: map<string, set<string>>,
    enabled: map<string, set<string>>)

  /** item::is_enabled. An item class that names no component is enabled;
      otherwise its component must be both present and enabled. */
  function IsEnabled(kind: ItemType, plugins: PluginManager): (r: bool)
    ensures kind.componentType.None? || kind.componentName.None? ==> r
    ensures kind.componentType.Some? && kind.componentName.Some? ==>
      (r <==> var t, n := kind.componentType.value, kind.componentName.value;
              t in plugins.present && n in plugins.present[t] &&
              t in plugins.enabled && n in plugins.enabled[t])
  {
    if kind.componentType.None? || kind.componentName.None? then true
    else
      var t, n := kind.componentType.value, kind.componentName.value;
      if t !in plugins.present then false
      else if n !in plugins.present[t] then false
      else if t !in plugins.enabled then false
      else n in plugins.enabled[t]
  }

  /** PHP truthiness of a nullable integer id. */
  predicate IdTruthy(id: Option<int>) {
    id.Some? && id.value != 0
  }

  /** A nullable id in a loose `!=` comparison with an integer: null acts as 0. */
  function IdValue(id: Option<int>): int {
    if id.Some? then id.value else 0
  }

  class Item {
    /** The concrete class this object is an instance of. */
    const kind: ItemType

    var course: Option<Course>
    var parent: Item?
    var configuration: Option<ItemConfiguration>

    var id: Option<int>
    var courseid: int
    var usecustomlabel: int
    var customlabel: string
    var parentitemid: int
    var depth: int
    var path: string
    var sortorder: int
    var islocked: int
    var visibletosummary: int
    var visibletoinstance: int
    var visibletolearner: int
    var extraconfigurationdata: string

    /** The properties copied from configuration `c` are the item's own. */
    ghost predicate Mirrors(c: ItemConfiguration)
      reads this
    {
      && id == Some(c.id) && courseid == c.courseid
      && usecustomlabel == c.usecustomlabel && customlabel == c.customlabel
      && parentitemid == c.parentitemid && depth == c.depth && path == c.path
      && sortorder == c.sortorder && islocked == c.islocked
      && visibletosummary == c.visibletosummary
      && visibletoinstance == c.visibletoinstance
      && visibletolearner == c.visibletolearner
      && extraconfigurationdata == c.extraconfigurationdata
    }

    /** An item either has no configuration and no id yet, or mirrors the
        configuration it holds. */
    ghost predicate Valid()
      reads this
    {
      match configuration
      case None => id.None?
      case Some(c) => Mirrors(c)
    }

    constructor (kind: ItemType, course: Option<Course>)
      ensures Valid()
      ensures this.kind == kind && this.course == course
      ensures parent == null && configuration.None? && id.None?
    {
      this.kind := kind;
      this.course := course;
      parent := null;
      configuration := None;
      id := None;
      courseid, usecustomlabel, customlabel, parentitemid := 0, 0, "", 0;
      depth, path, sortorder, islocked := 0, "", 0, 0;
      visibletosummary, visibletoinstance, visibletolearner := 0, 0, 0;
      extraconfigurationdata := "";
    }

    /** item::get_label: fails until a configuration is loaded; then the
        custom label when the custom-label flag is truthy, else the default. */
    function Label(): (r: Result<LabelText>)
      reads this
      ensures r.Err? <==> id.None?
      ensures r.Err? ==> r.error == ConfigurationNotLoaded
      ensures r.Ok? && usecustomlabel != 0 ==> r.value == Custom(customlabel)
      ensures r.Ok? && usecustomlabel == 0 ==> r.value == DefaultLabel(kind.shortname)
    {
      if id.None? then Err(ConfigurationNotLoaded)
      else if usecustomlabel != 0 then Ok(Custom(customlabel))
      else Ok(DefaultLabel(kind.shortname))
    }

    /** item::is_root: the item has no parent item id (null counts as 0). */
    predicate IsRoot()
      reads this
      ensures IsRoot() <==> parentitemid == 0
    {
      parentitemid == 0
    }

    /** item::is_child: exactly the items that are not the root. */
    predicate IsChild()
      reads this
      ensures IsChild() <==> !IsRoot()
    {
      parentitemid != 0
    }

    predicate IsLocked()
      reads this
      ensures IsLocked() <==> islocked != 0
    {
      if islocked != 0 then true else false
    }

    predicate IsVisibleInSummary()
      reads this
      ensures IsVisibleInSummary() <==> visibletosummary != 0
    {
      if visibletosummary != 0 then true else false
    }

    predicate IsVisibleInInstance()
      reads this
      ensures IsVisibleInInstance() <==> visibletoinstance != 0
    {
      if visibletoinstance != 0 then true else false
    }

    predicate IsVisibleToLearner()
      reads this
      ensures IsVisibleToLearner() <==> visibletolearner != 0
    {
      if visibletolearner != 0 then true else false
    }

    /** item::set_parent. An item with a (truthy) id only adopts a parent
        whose id equals its stored parent item id; a rejected parent leaves
        the current parent in place. */
    method SetParent(p: Item?) returns (outcome: Outcome)
      requires Valid()
      modifies this`parent
      ensures Valid()
      ensures outcome == Pass <==>
        !IdTruthy(id) || (p != null && IdValue(p.id) == parentitemid)
      ensures IdTruthy(id) && p == null ==> outcome == Fail(NullParent)
      ensures IdTruthy(id) && p != null && IdValue(p.id) != parentitemid ==>
        outcome == Fail(FailedAdoption)
      ensures outcome == Pass ==> parent == p
      ensures outcome != Pass ==> parent == old(parent)
    {
      if IdTruthy(id) {
        if p == null {
          return Fail(NullParent);
        }
        if IdValue(p.id) != parentitemid {
          return Fail(FailedAdoption);
        }
      }
      parent := p;
      outcome := Pass;
    }

    /** item::get_course: returns the cached course, or fetches it by the
        item's course id and caches it. With neither, the PHP return type is
        violated, which is the error here. */
    method GetCourse(fetch: int -> Course) returns (r: Result<Course>)
      requires Valid()
      modifies this`course
      ensures Valid()
      ensures old(course).Some? ==> course == old(course) && r == Ok(old(course).value)
      ensures old(course).None? && courseid != 0 ==>
        course == Some(fetch(courseid)) && r == Ok(fetch(courseid))
      ensures old(course).None? && courseid == 0 ==>
        course == None && r == Err(CourseNotAvailable)
    {
      if course.None? && courseid != 0 {
        course := Some(fetch(courseid));
      }
      if course.Some? {
        r := Ok(course.value);
      } else {
        r := Err(CourseNotAvailable);
      }
    }

    /** The tree-placement properties of load_configuration's copy. */
    method CopyPlacement(c: ItemConfiguration)
      modifies this`id, this`courseid, this`parentitemid, this`depth, this`path, this`sortorder
      ensures id == Some(c.id) && courseid == c.courseid && parentitemid == c.parentitemid
      ensures depth == c.depth && path == c.path && sortorder == c.sortorder
    {
      id, courseid, parentitemid := Some(c.id), c.courseid, c.parentitemid;
      depth, path, sortorder := c.depth, c.path, c.sortorder;
    }

    /** The label, lock, visibility and extra-data properties of
        load_configuration's copy. */
    method CopyDisplay(c: ItemConfiguration)
      modifies this`usecustomlabel, this`customlabel, this`islocked, this`visibletosummary,
        this`visibletoinstance, this`visibletolearner, this`extraconfigurationdata
      ensures usecustomlabel == c.usecustomlabel && customlabel == c.customlabel
      ensures islocked == c.islocked && visibletosummary == c.visibletosummary
      ensures visibletoinstance == c.visibletoinstance && visibletolearner == c.visibletolearner
      ensures extraconfigurationdata == c.extraconfigurationdata
    {
      usecustomlabel, customlabel, islocked := c.usecustomlabel, c.customlabel, c.islocked;
      visibletosummary, visibletoinstance := c.visibletosummary, c.visibletoinstance;
      visibletolearner, extraconfigurationdata := c.visibletolearner, c.extraconfigurationdata;
    }

    /** item::load_configuration: forgets the cached course, copies every
        defined property of the configuration and keeps the configuration. */
    method LoadConfiguration(c: ItemConfiguration)
      modifies this`course, this`configuration, this`id, this`courseid, this`usecustomlabel,
        this`customlabel, this`parentitemid, this`depth, this`path, this`sortorder, this`islocked,
        this`visibletosummary, this`visibletoinstance, this`visibletolearner, this`extraconfigurationdata
      ensures Valid()
      ensures Mirrors(c) && configuration == Some(c) && course == None
      ensures Label() == Ok(if c.usecustomlabel != 0 then Custom(c.customlabel)
                            else DefaultLabel(kind.shortname))
      ensures IsRoot() <==> c.parentitemid == 0
    {
      course := None;
      CopyPlacement(c);
      CopyDisplay(c);
      configuration := Some(c);
    }
  }
}
