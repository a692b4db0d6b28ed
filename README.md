# report_lp core model

A Dafny model of the logic inside the Moodle "learner progress" report plugin
(`report_lp`). Course staff configure a tree of report items: a root, groupings
under it, measures under the groupings. The plugin then renders a summary table of
learners against those measures. Most of the plugin is glue over Moodle: pages,
SQL, string tables, templates and capability checks. This model covers the parts
whose behaviour can be stated precisely:

- `common.dfy` (module `Common`): `Option`, `Result`, `Outcome`, the plugin's
  error conditions as values, and the `Course` record.
- `item.dfy` (module `Items`, from `classes/local/item.php`): the item
  configuration row, and the `Item` class that wraps one row. The class covers:
  - the label fallback and its "Configuration not loaded" error;
  - the parent-adoption check;
  - the root/child predicates;
  - the lock and visibility flags;
  - copying a configuration row into the item;
  - the lazy course cache;
  - plugin-enabled gating.
- `learner_list.dfy` (module `LearnerLists`, from `classes/local/learner_list.php`):
  - the course-group filter, with merge, first-occurrence deduplication and reindexing;
  - the pagination window of a load;
  - the choice of optional query fragments (group membership join, learner exclusion);
  - the empty-group guard.
- `tree.dfy` (module `ItemTree`): the built item tree as the pages receive it.
  The tree builder itself is not part of this model, so its output is an input here.
- `summary_report.dfy` (module `SummaryReport`, from
  `classes/output/summary_report.php`): the two header rows and the per-learner
  rows of measure values.
- `item_factory.dfy` (module `ItemFactory`, from `classes/local/factories/item.php`):
  creating new and existing groupings and measures, listing groupings, and
  listing items keyed or in order.
- `configure_report_items.dfy` (module `ConfigureReportItems`, from
  `classes/output/configure_report_items.php`): flattening the tree into root,
  child and grandchild line items.

Modelling conventions:
- Ids are `int`. Nullable item properties other than `id` are 0 or `""`, because
  the code only tests them for truthiness or compares them loosely with 0, where
  PHP treats null like 0. `id` is an `Option<int>`, because `get_label` tests it
  with `is_null`.
- Labels, language strings, icons and formatted measure values are
  uninterpreted strings.
- The database, the measure registry, the class loader and other Moodle
  services are parameters: maps and functions.

The summary report draws columns only for items whose configuration depth is 2
(`depth == 2`), and it expands groupings found at that depth. The model keeps
that test and assumes no depth convention.

## Model

| member | source | states |
|---|---|---|
| `Items.IsEnabled` | classes/local/item.php:365-385 | an item class without a component type or name is enabled; otherwise it is enabled iff its component is both among the present and among the enabled plugins of its type (a type with no plugin list disables it) |
| `Items.Item.constructor` | classes/local/item.php:106-108 | a new item keeps the given course, has no parent, no configuration and a null id |
| `Items.Item.Label` | classes/local/item.php:253-261 | fails with "Configuration not loaded" exactly when the id is null; otherwise the custom label when the custom-label flag is truthy, else the class's default label |
| `Items.Item.IsRoot` | classes/local/item.php:399-401 | the item is the root iff its parent item id is 0 (null counts as 0) |
| `Items.Item.IsChild` | classes/local/item.php:352-354 | the item is a child iff it is not the root |
| `Items.Item.IsLocked` | classes/local/item.php:390-392 | locked iff the lock flag is truthy |
| `Items.Item.IsVisibleInSummary` | classes/local/item.php:403-405 | true iff the summary visibility flag is truthy |
| `Items.Item.IsVisibleInInstance` | classes/local/item.php:407-409 | true iff the instance visibility flag is truthy |
| `Items.Item.IsVisibleToLearner` | classes/local/item.php:411-413 | true iff the learner visibility flag is truthy |
| `Items.Item.SetParent` | classes/local/item.php:296-303 | an item with a truthy id accepts only a parent whose id equals its parent item id; a mismatch fails with "Failed adoption" (a null parent is a runtime error) and leaves the old parent in place; on success the parent is exactly the argument, which is what get_parent (lines 286-288) returns |
| `Items.Item.GetCourse` | classes/local/item.php:311-318 | a cached course is returned unchanged; else a truthy course id fetches and caches the course; else there is no course to return |
| `Items.Item.CopyPlacement` | classes/local/item.php:424-426 | copies the id, course id, parent item id, depth, path and sort order of the configuration |
| `Items.Item.CopyDisplay` | classes/local/item.php:424-426 | copies the custom-label flag and text, the lock and visibility flags and the extra configuration data |
| `Items.Item.LoadConfiguration` | classes/local/item.php:421-428 | after loading, every defined property equals the configuration's, the configuration is kept (get_configuration, lines 277-279), the cached course is dropped, and label and root-ness follow from the configuration |
| `LearnerLists.UniqueMembers` | classes/local/learner_list.php:73-74 | deduplication keeps exactly the values of the merged list |
| `LearnerLists.UniqueNoDuplicates` | classes/local/learner_list.php:74 | the deduplicated list never holds a value twice |
| `LearnerLists.UniqueFirstAppearanceOrder` | classes/local/learner_list.php:73-74 | values come out in the order of their first appearance in the merged list |
| `LearnerLists.UniqueExtends` | classes/local/learner_list.php:73-74 | deduplicating a longer list keeps the deduplication of its prefix as a prefix |
| `LearnerLists.UniqueOfDistinct` | classes/local/learner_list.php:74 | a list without duplicates is unchanged by deduplication |
| `LearnerLists.UniqueAbsorbs` | classes/local/learner_list.php:72-75 | appending ids that are all present already (or none) leaves a duplicate-free list unchanged |
| `LearnerLists.MergedFilter` | classes/local/learner_list.php:72-75 | the new filter has no duplicates, contains exactly the old and the added ids, starts with the old filter in its old order, and equals the old filter when nothing new is added |
| `LearnerLists.GroupMembershipJoin` | classes/local/learner_list.php:209-234 | an empty group id array fails with "No group identifiers"; otherwise the join binds exactly the given ids |
| `LearnerLists.Pagination.constructor` | classes/local/learner_list.php:114-120 | a pagination object holds the current page and limit that load reads |
| `LearnerLists.Pagination.SetTotal` | classes/local/learner_list.php:117 | stores the total on the pagination object |
| `LearnerLists.LearnerList.constructor` | classes/local/learner_list.php:34-50 | a new list has no filtered groups, no excluded list and no pagination |
| `LearnerLists.LearnerList.SetPagination` | classes/local/learner_list.php:55-57 | the list uses the given pagination |
| `LearnerLists.LearnerList.AddExcludedLearnersList` | classes/local/learner_list.php:81-83 | the list keeps the given excluded learners |
| `LearnerLists.LearnerList.AddCourseGroupsFilter` | classes/local/learner_list.php:72-76 | the filter becomes the first-occurrence deduplication of old ids followed by new ids: it holds every old and new id, keeps the old ids first in order, is unchanged when nothing new is added, and the method returns the list itself |
| `LearnerLists.LearnerList.FilteredCourseGroups` | classes/local/learner_list.php:90-92 | returns the stored filter, which has no duplicates |
| `LearnerLists.LearnerList.Plan` | classes/local/learner_list.php:124-140 | the group membership join is included iff the filter is non-empty (binding the filter), the exclusion clause iff an excluded list exists with a non-zero count (binding its user ids) |
| `LearnerLists.LearnerList.Total` | classes/local/learner_list.php:243-270 | the count is the database count over the same fragment choice |
| `LearnerLists.LearnerList.AddUser` | classes/local/learner_list.php:151-153 | each loaded record is appended to the list |
| `LearnerLists.LearnerList.Load` | classes/local/learner_list.php:111-155 | with pagination the total is stored first and the offset is page times limit with that limit; without pagination offset and limit are 0; the records read are appended in order |
| `SummaryReport.Depth2Members` | classes/output/summary_report.php:128-130 | the column-producing items are exactly the items at configuration depth 2 |
| `SummaryReport.Depth2Append` | classes/output/summary_report.php:126-130 | selecting the depth-2 items preserves item order |
| `SummaryReport.PrimaryItemColumnsShape` | classes/output/summary_report.php:126-139 | one primary column per depth-2 item, in order: a grouping's label with colspan its count, otherwise an empty label with colspan 1 |
| `SummaryReport.PrimaryHeaderShape` | classes/output/summary_report.php:120-141 | the primary row is the learner heading with colspan 2 + 2 = 4, then those item columns |
| `SummaryReport.PrimaryHeaderColumns` | classes/output/summary_report.php:120-141 | the loop builds exactly the primary row specified above |
| `SummaryReport.ChildHeaderColumns` | classes/output/summary_report.php:159-169 | one column per child of a grouping, in child order, with the child's label and icon |
| `SummaryReport.SecondaryItemColumnsExpand` | classes/output/summary_report.php:153-179 | the item part of the secondary row is the expansion of the depth-2 items only, in order |
| `SummaryReport.SecondaryHeaderShape` | classes/output/summary_report.php:143-181 | the secondary row is a colspan-2 column and one column per learner extra field, followed by one column per child of each depth-2 grouping and one per other depth-2 item |
| `SummaryReport.SecondaryHeaderColumns` | classes/output/summary_report.php:143-181 | the loops build exactly the secondary row specified above |
| `SummaryReport.ChildColumnsWidth` | classes/output/summary_report.php:159-169 | a grouping's child columns take one table column each |
| `SummaryReport.ItemWidthsAgree` | classes/output/summary_report.php:126-179 | each depth-2 item spans as many table columns in the primary row as it adds in the secondary row |
| `SummaryReport.HeaderWidthsAgree` | classes/output/summary_report.php:120-181 | the two header rows span the same number of table columns |
| `SummaryReport.MeasureDataForUser` | classes/output/summary_report.php:88-98 | one formatted value per measure for the learner, in measure order |
| `SummaryReport.ExportForTemplate` | classes/output/summary_report.php:56-86 | with no filtered course groups the export is only the "no filtered course groups" marker; otherwise both header rows, one row per learner in order, each with one value per measure in measure order |
| `ItemFactory.GroupingRecordsMembers` | classes/local/factories/item.php:125-133 | the grouping records are exactly the records whose short name is the grouping short name |
| `ItemFactory.GroupingRecordsAppend` | classes/local/factories/item.php:125-133 | filtering for groupings keeps record order |
| `ItemFactory.Factory.constructor` | classes/local/factories/item.php:41-44 | the factory keeps its course and measure list |
| `ItemFactory.Factory.FindMeasure` | classes/local/factories/item.php:83 | the measure list yields the registered type for a known short name and an error otherwise |
| `ItemFactory.Factory.CreateItem` | classes/local/factories/item.php:69-97 | a new item without a short name fails with "Valid shortname required"; a new item gets the factory's course id and the grouping class and short name with the grouping flag, or the class and short name of the registered measure; an existing item's kind comes from its stored short name and the argument is ignored; the returned item always holds the configuration built in the call |
| `ItemFactory.Factory.CreateGrouping` | classes/local/factories/item.php:55-57 | always a grouping: a new one is created and holds the new configuration with the factory's course id and the grouping class, short name and flag; a stored grouping is loaded and holds its stored configuration; a stored unknown short name is an error; a stored non-grouping breaks the declared return type |
| `ItemFactory.Factory.CreateMeasure` | classes/local/factories/item.php:109-111 | never a grouping: a new item with a registered non-grouping short name is built of that measure's type and holds the new configuration with the factory's course id and the measure's class and short name; a stored registered measure is loaded with its stored configuration; an unknown short name (given or stored) is an error, a missing short name for a new item is "Valid shortname required", and the grouping short name (given or stored) breaks the declared return type |
| `ItemFactory.Factory.GetGroupings` | classes/local/factories/item.php:120-135 | one fresh grouping per grouping record, in record order, each holding its record |
| `ItemFactory.Factory.Instantiate` | classes/local/factories/item.php:148-150 | `new $classname` with set_configuration: an item of the named class holding the configuration, or an error for an unknown class |
| `ItemFactory.Factory.GetItems` | classes/local/factories/item.php:144-158 | keyed: a map whose keys are exactly the configuration ids, each item holding a configuration with that id; positional: one item per configuration in order; any unknown class name is an error |
| `ConfigureReportItems.ExportForTemplate` | classes/output/configure_report_items.php:51-112 | without a root: no root, no children, an initialise button, not initialised; with a root: its id, label and short name, initialised, one child line item per child in order, and grandchild line items (one per child, in order) for grouping children only |

## Left out

- SQL text, `$DB` calls, recordsets and `get_in_or_equal`. Only the choice of fragments and the values bound into them are modelled. The database is the `countRecords` and `fetch` parameters, and stored configurations are input sequences.
- The static counters `$i` in `get_user_enrolment_join` and `get_course_group_membership_join`. They only make SQL aliases unique.
- `get_user_enrolment_join`: its output is SQL text only, and the enrolment join is always part of the query.
- `get_sort_by`: a constant ORDER BY string.
- Rendering: `build_header_cell`, `get_renderer`, `user_picture`, image URLs, `format_text` and `get_string`. Strings are uninterpreted, and a language string is represented by its identifier.
- `get_short_name` (reflection) and `get_class_name`: short and class names are given constants (`ItemType`).
- The tree builder (`builders\item_tree`), `grouping`, `measure`, `measure_list`, `item_configuration`, `user_list`, `pagination` and `excluded_learner_list` are not part of this model. Their behaviour is assumed as follows:
  - `grouping::count()` is the number of the grouping's children (`ItemTree.Count`);
  - the excluded list's `count()` is the number of its user ids;
  - `pagination` returns the page and limit it was given;
  - `user_list::add_user` appends a record;
  - `set_configuration`, which the factory calls, behaves like `load_configuration`;
  - `measure_list::find_by_short_name` returns a new, course-less instance of the registered measure. The factory configures that object and returns it. If the registry handed out one shared instance, the next `create_item` would overwrite it, and the model does not capture that aliasing;
  - the persistent's constructor is the `persisted` function;
  - an item that is not a grouping is treated as a measure.
- `ItemFactory.Factory.GetItems`: the keyed result is a `map` from configuration id to item. It does not keep the insertion order of PHP's keyed array, which follows the configurations' order by depth and sort order. The positional result does keep that order.
- `ItemFactory.Factory.CreateItem`: does not model a missing stored record or any other failure inside the persistence layer, because the persistent class is not part of this model.
- `SummaryReport.ExportForTemplate`: `data_row_user` is the abstract `decorate` parameter. Its full name, group list, picture URL and alt text are display formatting. When there are no learners, PHP never sets `rows`. The model gives an empty sequence.
- `SummaryReport.ExportForTemplate`: the image URL carried by the "no filtered course groups" marker is rendering and is not modelled.
- `SummaryReport.ExportForTemplate`: `fetch_all`, `get_flattened_tree` and `get_measures` are not modelled; their results are the `learners`, `items` and `measures` parameters.
- `Items.Item.GetCourse`: a missing course in the database is not modelled (Moodle's `get_course` throws); the fetch is the `fetch` parameter.
- `Items.Item.LoadConfiguration`: `properties_definition()` is taken to be the item's declared properties. The class name, short name and grouping flag that PHP would also copy as dynamic properties are not modelled. Neither are the persistent's standard `timecreated`, `timemodified` and `usermodified` fields, which `properties_definition()` also lists. The loop over property names is written as two straight-line copies.
- PHP loose comparison and `array_unique`'s string comparison: ids are integers compared as integers.
- `accept` (visitor dispatch), `get_icon`, `has_icon`, `has_url`, `get_url` and the trivial getters have no logic of their own.
- `locallib.php`: database writes and `time()`. Its `report_lp_build_learner_progress_records` stops at a debugging `print_object(...); exit` and uses an undefined `$userid`.
- `lib.php`, `index.php`, `configurereportitems.php`, `classes/output/renderer.php`, `db/access.php`, `lang/en/report_lp.php`, `classes/local/measures/attendance_sessions_summary.php` and `amd/src/item_configuration_tree.js`: navigation, page controllers, template dispatch, capabilities, strings, getters and browser drag-and-drop, with no logic to state.
