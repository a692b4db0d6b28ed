/** The item factory of classes/local/factories/item.php: builds groupings
    and measures, new or from a stored configuration, and lists a course's
    groupings and items. Persistence and the measure registry are given as
    maps and functions. */
module ItemFactory {
  import opened Common
  import opened Items

  /** get_items' result: keyed by configuration id, or positional. */
  datatype ItemCollection = Keyed(byId: map<int, Item>) | Positional(list: seq<Item>)

  /** The configurations among `records` that belong to groupings, in order. */
  function GroupingRecords(records: seq<ItemConfiguration>): (groupings: seq<ItemConfiguration>)
    decreases |records|
  {
    if records == [] then []
    else
      var rest := GroupingRecords(records[..|records| - 1]);
      var last := records[|records| - 1];
      if last.shortname == GroupingShortName then rest + [last] else rest
  }

  lemma {:induction false} GroupingRecordsMembers(records: seq<ItemConfiguration>)
    ensures forall c :: c in GroupingRecords(records) <==>
      c in records && c.shortname == GroupingShortName
  {
    if records != [] {
      GroupingRecordsMembers(records[..|records| - 1]);
      assert records == records[..|records| - 1] + [records[|records| - 1]];
    }
  }

  /** Filtering keeps record order: the groupings of a concatenation are
      the groupings of each part, one after the other. */
  lemma {:induction false} GroupingRecordsAppend(a: seq<ItemConfiguration>, b: seq<ItemConfiguration>)
    ensures GroupingRecords(a + b) == GroupingRecords(a) + GroupingRecords(b)
    decreases |b|
  {
    if b == [] {
      assert a + b == a;
    } else {
      GroupingRecordsAppend(a, b[..|b| - 1]);
      assert (a + b)[..|a + b| - 1] == a + b[..|b| - 1];
    }
  }

  /** The configuration a new grouping is given on top of the constructed one. */
  function NewGroupingConfiguration(base: ItemConfiguration, courseid: int): ItemConfiguration {
    base.(courseid := courseid, classname := GroupingClassName,
          shortname := GroupingShortName, isgrouping := 1)
  }

  /** The configuration a new measure of type `t` is given on top of the
      constructed one. */
  function NewMeasureConfiguration(base: ItemConfiguration, courseid: int, t: ItemType): ItemConfiguration {
    base.(courseid := courseid, classname := t.classname, shortname := t.shortname)
  }

  class Factory {
    const course: Course
    /** measure_list::find_by_short_name, by short name. */
    const measurelist: map<string, ItemType>
    /** The item classes `new $classname` can instantiate, by class name. */
    const classes: map<string, ItemType>
    /** item_configuration's constructor: the configuration persisted under
        an id and/or built from a record. */
    const persisted: (int, Option<ItemConfiguration>) -> ItemConfiguration

    constructor (course: Course, measurelist: map<string, ItemType>, classes: map<string, ItemType>,
                 persisted: (int, Option<ItemConfiguration>) -> ItemConfiguration)
      ensures this.course == course && this.measurelist == measurelist
      ensures this.classes == classes && this.persisted == persisted
    {
      this.course := course;
      this.measurelist := measurelist;
      this.classes := classes;
      this.persisted := persisted;
    }

    /** The item type find_by_short_name yields, or its failure. */
    function FindMeasure(shortname: string): (r: Result<ItemType>)
      ensures r.Ok? <==> shortname in measurelist
      ensures r.Ok? ==> r.value == measurelist[shortname]
      ensures r.Err? ==> r.error == UnknownShortName(shortname)
    {
      if shortname in measurelist then Ok(measurelist[shortname]) else Err(UnknownShortName(shortname))
    }

    /** factories\item::create_item. A new item (id <= 0) needs a short
        name; it gets the factory's course id, and the grouping or the
        registered measure's class name and short name (a grouping also the
        grouping flag). An existing item's kind comes from its stored short
        name, and the `shortname` argument is not used. The item returned
        always carries the configuration built here. */
    method CreateItem(id: int, record: Option<ItemConfiguration>, shortname: Option<string>)
      returns (r: Result<Item>)
      ensures id <= 0 && shortname.None? ==> r == Err(ShortnameRequired)
      ensures id <= 0 && shortname.Some? && shortname.value != GroupingShortName ==>
        (r.Err? <==> shortname.value !in measurelist)
      ensures (id <= 0 && shortname.Some? && shortname.value != GroupingShortName &&
               shortname.value !in measurelist) ==> r == Err(UnknownShortName(shortname.value))
      ensures id <= 0 && shortname == Some(GroupingShortName) ==>
        && r.Ok? && r.value.kind == GroupingType
        && r.value.configuration == Some(NewGroupingConfiguration(persisted(id, record), course.id))
      ensures (id <= 0 && shortname.Some? && shortname.value != GroupingShortName && r.Ok?) ==>
        && r.value.kind == measurelist[shortname.value]
        && r.value.configuration ==
             Some(NewMeasureConfiguration(persisted(id, record), course.id, measurelist[shortname.value]))
      ensures id > 0 ==>
        var stored := persisted(id, record);
        && (stored.shortname == GroupingShortName ==> r.Ok? && r.value.kind == GroupingType)
        && (stored.shortname != GroupingShortName ==>
              (if stored.shortname in measurelist
               then r.Ok? && r.value.kind == measurelist[stored.shortname]
               else r == Err(UnknownShortName(stored.shortname))))
        && (r.Ok? ==> r.value.configuration == Some(stored))
      ensures r.Ok? ==>
        && fresh(r.value) && r.value.Valid() && r.value.parent == null && r.value.course.None?
    {
      var configuration := persisted(id, record);
      var kind: ItemType;
      if id <= 0 {
        if shortname.None? {
          return Err(ShortnameRequired);
        }
        configuration := configuration.(courseid := course.id);
        if shortname.value == GroupingShortName {
          kind := GroupingType;
          configuration := configuration.(classname := kind.classname);
          configuration := configuration.(shortname := kind.shortname);
          configuration := configuration.(isgrouping := 1);
        } else {
          var found := FindMeasure(shortname.value);
          if found.Err? {
            return Err(found.error);
          }
          kind := found.value;
          configuration := configuration.(classname := kind.classname);
          configuration := configuration.(shortname := kind.shortname);
        }
      } else {
        if configuration.shortname == GroupingShortName {
          kind := GroupingType;
        } else {
          var found := FindMeasure(configuration.shortname);
          if found.Err? {
            return Err(found.error);
          }
          kind := found.value;
        }
      }
      var item := new Item(kind, None);
      item.LoadConfiguration(configuration);
      r := Ok(item);
    }

    /** factories\item::create_grouping: create_item with the grouping
        short name; a result that is not a grouping breaks the declared
        return type. */
    method CreateGrouping(id: int, record: Option<ItemConfiguration>) returns (r: Result<Item>)
      ensures id <= 0 ==>
        && r.Ok? && r.value.kind == GroupingType
        && r.value.configuration == Some(NewGroupingConfiguration(persisted(id, record), course.id))
      ensures id > 0 && persisted(id, record).shortname == GroupingShortName ==>
        r.Ok? && r.value.kind == GroupingType && r.value.configuration == Some(persisted(id, record))
      ensures (id > 0 && persisted(id, record).shortname != GroupingShortName &&
               persisted(id, record).shortname !in measurelist) ==>
        r == Err(UnknownShortName(persisted(id, record).shortname))
      ensures r.Ok? ==> fresh(r.value) && r.value.Valid() && r.value.kind.isGrouping
      ensures (id > 0 && persisted(id, record).shortname in measurelist &&
               persisted(id, record).shortname != GroupingShortName &&
               !measurelist[persisted(id, record).shortname].isGrouping) ==>
        r == Err(ReturnTypeMismatch)
    {
      r := CreateItem(id, record, Some(GroupingShortName));
      if r.Ok? && !r.value.kind.isGrouping {
        r := Err(ReturnTypeMismatch);
      }
    }

    /** factories\item::create_measure: create_item with the given short
        name; a grouping result breaks the declared return type. */
    method CreateMeasure(id: int, record: Option<ItemConfiguration>, shortname: Option<string>)
      returns (r: Result<Item>)
      ensures id <= 0 && shortname.None? ==> r == Err(ShortnameRequired)
      ensures id <= 0 && shortname == Some(GroupingShortName) ==> r == Err(ReturnTypeMismatch)
      ensures (id <= 0 && shortname.Some? && shortname.value != GroupingShortName &&
               shortname.value in measurelist && !measurelist[shortname.value].isGrouping) ==>
        && r.Ok? && r.value.kind == measurelist[shortname.value]
        && r.value.configuration ==
             Some(NewMeasureConfiguration(persisted(id, record), course.id, measurelist[shortname.value]))
      ensures (id <= 0 && shortname.Some? && shortname.value != GroupingShortName &&
               shortname.value !in measurelist) ==> r == Err(UnknownShortName(shortname.value))
      ensures id > 0 && persisted(id, record).shortname == GroupingShortName ==> r == Err(ReturnTypeMismatch)
      ensures (id > 0 && persisted(id, record).shortname != GroupingShortName &&
               persisted(id, record).shortname !in measurelist) ==>
        r == Err(UnknownShortName(persisted(id, record).shortname))
      ensures (id > 0 && persisted(id, record).shortname != GroupingShortName &&
               persisted(id, record).shortname in measurelist &&
               !measurelist[persisted(id, record).shortname].isGrouping) ==>
        && r.Ok? && r.value.kind == measurelist[persisted(id, record).shortname]
        && r.value.configuration == Some(persisted(id, record))
      ensures r.Ok? ==> fresh(r.value) && r.value.Valid() && !r.value.kind.isGrouping
    {
      r := CreateItem(id, record, shortname);
      if r.Ok? && r.value.kind.isGrouping {
        r := Err(ReturnTypeMismatch);
      }
    }

    /** factories\item::get_groupings over the course's stored
        configurations `records`: one fresh grouping per grouping
        configuration, in record order. */
    method GetGroupings(records: seq<ItemConfiguration>) returns (groupings: seq<Item>)
      ensures |groupings| == |GroupingRecords(records)|
      ensures forall i :: 0 <= i < |groupings| ==>
        && fresh(groupings[i]) && groupings[i].Valid() && groupings[i].kind == GroupingType
        && groupings[i].configuration == Some(GroupingRecords(records)[i])
    {
      groupings := [];
      var n := 0;
      while n < |records|
        invariant 0 <= n <= |records|
        invariant |groupings| == |GroupingRecords(records[..n])|
        invariant forall i :: 0 <= i < |groupings| ==>
          && fresh(groupings[i]) && groupings[i].Valid() && groupings[i].kind == GroupingType
          && groupings[i].configuration == Some(GroupingRecords(records[..n])[i])
      {
        var itemconfiguration := records[n];
        assert records[..n + 1][..n] == records[..n];
        if GroupingShortName != itemconfiguration.shortname {
          n := n + 1;
          continue;
        }
        var grouping := new Item(GroupingType, None);
        grouping.LoadConfiguration(itemconfiguration);
        groupings := groupings + [grouping];
        n := n + 1;
      }
      assert records[..|records|] == records;
    }

    /** An item of the class `c` names, holding `c`: what `new $classname`
        followed by set_configuration builds. */
    ghost predicate Instantiates(item: Item, c: ItemConfiguration)
      reads item
    {
      && c.classname in classes && item.kind == classes[c.classname]
      && item.Valid() && item.configuration == Some(c)
    }

    /** `new $classname` and set_configuration for one configuration. */
    method Instantiate(c: ItemConfiguration) returns (r: Result<Item>)
      ensures r.Ok? <==> c.classname in classes
      ensures r.Err? ==> r.error == UnknownClassName(c.classname)
      ensures r.Ok? ==> fresh(r.value) && Instantiates(r.value, c)
    {
      if c.classname !in classes {
        return Err(UnknownClassName(c.classname));
      }
      var item := new Item(classes[c.classname], None);
      item.LoadConfiguration(c);
      r := Ok(item);
    }

    /** factories\item::get_items over the course's ordered configurations:
        each configuration instantiates its class; keyed, the items are
        indexed by configuration id, otherwise listed in order. An unknown
        class name is an error. */
    method GetItems(keyed: bool, configurations: seq<ItemConfiguration>) returns (r: Result<ItemCollection>)
      ensures r.Ok? <==> forall c :: c in configurations ==> c.classname in classes
      ensures r.Err? ==> r.error.UnknownClassName? && r.error.name !in classes
      ensures r.Ok? && keyed ==> r.value.Keyed?
      ensures r.Ok? && !keyed ==> r.value.Positional?
      ensures r.Ok? && r.value.Keyed? ==>
        && r.value.byId.Keys == (set c | c in configurations :: c.id)
        && forall k :: k in r.value.byId ==>
             var item := r.value.byId[k];
             && fresh(item) && item.configuration.Some? && item.configuration.value.id == k
             && item.configuration.value in configurations
             && Instantiates(item, item.configuration.value)
      ensures r.Ok? && r.value.Positional? ==>
        && |r.value.list| == |configurations|
        && forall i :: 0 <= i < |configurations| ==>
             fresh(r.value.list[i]) && Instantiates(r.value.list[i], configurations[i])
    {
      var byId: map<int, Item> := map[];
      var list: seq<Item> := [];
      var n := 0;
      while n < |configurations|
        invariant 0 <= n <= |configurations|
        invariant forall c :: c in configurations[..n] ==> c.classname in classes
        invariant keyed ==> list == [] && byId.Keys == (set c | c in configurations[..n] :: c.id)
        invariant !keyed ==> byId == map[] && |list| == n
        invariant forall k :: k in byId ==>
          var item := byId[k];
          && fresh(item) && item.configuration.Some? && item.configuration.value.id == k
          && item.configuration.value in configurations[..n]
          && Instantiates(item, item.configuration.value)
        invariant forall i :: 0 <= i < |list| ==>
          fresh(list[i]) && Instantiates(list[i], configurations[i])
      {
        var configuration := configurations[n];
        assert configurations[..n + 1] == configurations[..n] + [configuration];
        var made := Instantiate(configuration);
        if made.Err? {
          return Err(made.error);
        }
        if keyed {
          byId := byId[configuration.id := made.value];
        } else {
          list := list + [made.value];
        }
        n := n + 1;
      }
      assert configurations[..|configurations|] == configurations;
      if keyed {
        r := Ok(Keyed(byId));
      } else {
        r := Ok(Positional(list));
      }
    }
  }
}
