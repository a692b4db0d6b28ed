/** The learner list of classes/local/learner_list.php: the course-group
    filter it accumulates, the pagination window it loads, and the decision
    which optional query fragments (group membership join, learner
    exclusion) a load or a count includes. The SQL text itself is not
    modelled. */
module LearnerLists {
  import opened Common

  /** One user record as the learner query returns it. */
  datatype LearnerRecord = LearnerRecord(id: int, status: int, imagealt: string)

  /** array_values(array_unique(s)): the first occurrence of every value, in
      order, reindexed from 0. Defined on the last element so that a
      left-to-right scan can follow it. */
  function Unique(s: seq<int>): (u: seq<int>)
    decreases |s|
  {
    if s == [] then []
    else
      var u := Unique(s[..|s| - 1]);
      if s[|s| - 1] in u then u else u + [s[|s| - 1]]
  }

  lemma {:induction false} UniqueMembers(s: seq<int>)
    ensures forall x :: x in Unique(s) <==> x in s
  {
    if s != [] {
      UniqueMembers(s[..|s| - 1]);
      assert s == s[..|s| - 1] + [s[|s| - 1]];
    }
  }

  lemma {:induction false} UniqueNoDuplicates(s: seq<int>)
    ensures NoDuplicates(Unique(s))
  {
    if s != [] {
      UniqueNoDuplicates(s[..|s| - 1]);
    }
  }

  /** Before any occurrence in `s` of a later element of Unique(s), every
      earlier element of Unique(s) has already occurred: the values come out
      in the order of their first appearance. */
  lemma {:induction false} UniqueFirstAppearanceOrder(s: seq<int>)
    ensures forall i, j, q :: 0 <= i < j < |Unique(s)| && 0 <= q < |s| && s[q] == Unique(s)[j] ==>
      Unique(s)[i] in s[..q]
  {
    if s != [] {
      var p := s[..|s| - 1];
      var x := s[|s| - 1];
      UniqueFirstAppearanceOrder(p);
      UniqueMembers(p);
      var u, u' := Unique(p), Unique(s);
      forall i, j, q | 0 <= i < j < |u'| && 0 <= q < |s| && s[q] == u'[j]
        ensures u'[i] in s[..q]
      {
        assert u'[i] == u[i];
        if q < |p| {
          assert s[..q] == p[..q];
        } else if x in u {
          assert s[..q] == p;
        } else if j < |u| {
          assert false;
        } else {
          assert s[..q] == p;
        }
      }
    }
  }

  /** The deduplication of a prefix is a prefix of the deduplication. */
  lemma {:induction false} UniqueExtends(s: seq<int>, t: seq<int>)
    ensures |Unique(s)| <= |Unique(s + t)|
    ensures Unique(s + t)[..|Unique(s)|] == Unique(s)
    decreases |t|
  {
    if t == [] {
      assert s + t == s;
    } else {
      var t' := t[..|t| - 1];
      UniqueExtends(s, t');
      assert (s + t)[..|s + t| - 1] == s + t';
    }
  }

  /** A list without duplicates is its own deduplication. */
  lemma {:induction false} UniqueOfDistinct(s: seq<int>)
    requires NoDuplicates(s)
    ensures Unique(s) == s
  {
    if s != [] {
      var p := s[..|s| - 1];
      UniqueOfDistinct(p);
      UniqueMembers(p);
      assert s == p + [s[|s| - 1]];
    }
  }

  /** Appending values that are all already present changes nothing. */
  lemma {:induction false} UniqueAbsorbs(a: seq<int>, b: seq<int>)
    requires NoDuplicates(a)
    requires forall x :: x in b ==> x in a
    ensures Unique(a + b) == a
    decreases |b|
  {
    if b == [] {
      assert a + b == a;
      UniqueOfDistinct(a);
    } else {
      var b' := b[..|b| - 1];
      UniqueAbsorbs(a, b');
      assert (a + b)[..|a + b| - 1] == a + b';
      assert (a + b)[|a + b| - 1] == b[|b| - 1];
      assert b[|b| - 1] in b;
    }
  }

  /** What add_course_groups_filter promises about the new filter, given
      that the old one has no duplicates. */
  lemma MergedFilter(old_: seq<int>, ids: seq<int>)
    requires NoDuplicates(old_)
    ensures var r := Unique(old_ + ids);
      && NoDuplicates(r)
      && (forall x :: x in r <==> x in old_ || x in ids)
      && |old_| <= |r| && r[..|old_|] == old_
      && ((forall x :: x in ids ==> x in old_) ==> r == old_)
  {
    UniqueNoDuplicates(old_ + ids);
    UniqueMembers(old_ + ids);
    UniqueExtends(old_, ids);
    UniqueOfDistinct(old_);
    if forall x :: x in ids ==> x in old_ {
      UniqueAbsorbs(old_, ids);
    }
  }

  /** learner_list::get_course_group_membership_join, as far as the model
      goes: the group ids it binds into the join, or the error for none. */
  function GroupMembershipJoin(groupids: seq<int>): (r: Result<seq<int>>)
    ensures r.Err? <==> groupids == []
    ensures r.Err? ==> r.error == NoGroupIdentifiers
    ensures r.Ok? ==> r.value == groupids
  {
    if groupids == [] then Err(NoGroupIdentifiers) else Ok(groupids)
  }

  /** The optional parts of the learner query: the group ids of the group
      membership join and the user ids of the exclusion clause. The course
      enrolment join is always present. */
  datatype QueryPlan = QueryPlan(groupMembership: Option<seq<int>>, excludedUserIds: Option<seq<int>>)

  /** The paging object a learner list may carry. */
  class Pagination {
    var total: int
    var currentPage: nat
    var currentLimit: nat

    constructor (page: nat, limit: nat)
      ensures currentPage == page && currentLimit == limit && total == 0
    {
      currentPage, currentLimit, total := page, limit, 0;
    }

    method SetTotal(t: int)
      modifies this`total
      ensures total == t
    {
      total := t;
    }
  }

  class LearnerList {
    const course: Course
    /** The learners loaded so far (user_list::add_user appends). */
    var users: seq<LearnerRecord>
    var coursegroupids: seq<int>
    /** The excluded learner list's user ids, if one was added. */
    var excludedlearnerlist: Option<seq<int>>
    var pagination: Pagination?

    ghost predicate Valid()
      reads this`coursegroupids
    {
      NoDuplicates(coursegroupids)
    }

    constructor (course: Course)
      ensures Valid()
      ensures this.course == course && users == [] && coursegroupids == []
      ensures excludedlearnerlist.None? && pagination == null
    {
      this.course := course;
      users, coursegroupids := [], [];
      excludedlearnerlist, pagination := None, null;
    }

    method SetPagination(p: Pagination)
      modifies this`pagination
      ensures pagination == p
    {
      pagination := p;
    }

    method AddExcludedLearnersList(userids: seq<int>)
      modifies this`excludedlearnerlist
      ensures excludedlearnerlist == Some(userids)
    {
      excludedlearnerlist := Some(userids);
    }

    /** learner_list::add_course_groups_filter: merge the given ids after the
        current ones, keep the first occurrence of each, reindex; returns the
        list itself. */
    method AddCourseGroupsFilter(ids: seq<int>) returns (self: LearnerList)
      requires Valid()
      modifies this`coursegroupids
      ensures Valid() && self == this
      ensures coursegroupids == Unique(old(coursegroupids) + ids)
      ensures forall x :: x in coursegroupids <==> x in old(coursegroupids) || x in ids
      ensures |old(coursegroupids)| <= |coursegroupids|
      ensures coursegroupids[..|old(coursegroupids)|] == old(coursegroupids)
      ensures (forall x :: x in ids ==> x in old(coursegroupids)) ==>
        coursegroupids == old(coursegroupids)
    {
      var merged := coursegroupids + ids;
      var result: seq<int> := [];
      var i := 0;
      while i < |merged|
        invariant 0 <= i <= |merged|
        invariant result == Unique(merged[..i])
      {
        assert merged[..i + 1][..i] == merged[..i];
        if merged[i] !in result {
          result := result + [merged[i]];
        }
        i := i + 1;
      }
      assert merged[..|merged|] == merged;
      MergedFilter(coursegroupids, ids);
      coursegroupids := result;
      self := this;
    }

    /** learner_list::get_filtered_course_groups: the stored filter, which
        never holds an id twice. */
    function FilteredCourseGroups(): (r: seq<int>)
      requires Valid()
      reads this`coursegroupids
      ensures NoDuplicates(r)
      ensures r == coursegroupids
    {
      coursegroupids
    }

    /** The fragments load and total include: the group membership join
        exactly when the filter is non-empty, the exclusion clause exactly
        when an excluded list with a non-zero count exists. */
    function Plan(): (plan: QueryPlan)
      reads this`coursegroupids, this`excludedlearnerlist
      ensures plan.groupMembership.Some? <==> coursegroupids != []
      ensures plan.groupMembership.Some? ==> plan.groupMembership.value == coursegroupids
      ensures plan.excludedUserIds.Some? <==>
        excludedlearnerlist.Some? && |excludedlearnerlist.value| != 0
      ensures plan.excludedUserIds.Some? ==> plan.excludedUserIds == excludedlearnerlist
    {
      var groupJoin :=
        if coursegroupids != [] then Some(GroupMembershipJoin(coursegroupids).value) else None;
      var exclusion :=
        if excludedlearnerlist.Some? && |excludedlearnerlist.value| != 0
        then excludedlearnerlist else None;
      QueryPlan(groupJoin, exclusion)
    }

    /** learner_list::total: the count query over the current plan; the
        database is the `countRecords` parameter. */
    method Total(countRecords: QueryPlan -> nat) returns (n: nat)
      ensures n == countRecords(Plan())
    {
      n := countRecords(Plan());
    }

    /** user_list::add_user, which is not part of this model beyond
        appending the record. */
    method AddUser(u: LearnerRecord)
      modifies this`users
      ensures users == old(users) + [u]
    {
      users := users + [u];
    }

    /** learner_list::load. With pagination it first stores the total on
        the pagination object and reads the page `currentPage * currentLimit`
        of `currentLimit` records; without pagination it reads everything
        (offset and limit 0). Every record read is added in order. The
        database is the `countRecords` and `fetch` parameters. */
    method Load(countRecords: QueryPlan -> nat, fetch: (QueryPlan, nat, nat) -> seq<LearnerRecord>)
      modifies this`users, pagination
      ensures pagination == old(pagination)
      ensures pagination != null ==>
        && pagination.total == countRecords(Plan())
        && pagination.currentPage == old(pagination.currentPage)
        && pagination.currentLimit == old(pagination.currentLimit)
        && users == old(users) + fetch(Plan(), pagination.currentPage * pagination.currentLimit,
                                       pagination.currentLimit)
      ensures pagination == null ==> users == old(users) + fetch(Plan(), 0, 0)
    {
      var limitfrom: nat, limitnum: nat := 0, 0;
      if pagination != null {
        var t := Total(countRecords);
        pagination.SetTotal(t);
        limitnum := pagination.currentLimit;
        limitfrom := pagination.currentPage * limitnum;
      }
      var records := fetch(Plan(), limitfrom, limitnum);
      var i := 0;
      while i < |records|
        invariant 0 <= i <= |records|
        invariant users == old(users) + records[..i]
        invariant pagination == old(pagination)
        invariant pagination != null ==>
          && pagination.total == countRecords(Plan())
          && pagination.currentPage == old(pagination.currentPage)
          && pagination.currentLimit == old(pagination.currentLimit)
      {
        AddUser(records[i]);
        assert records[..i + 1] == records[..i] + [records[i]];
        i := i + 1;
      }
      assert records[..|records|] == records;
    }
  }
}
