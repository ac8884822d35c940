/**
 * The filters of the employees table in the admin pages: the detailed
 * member rows (one per user, space and role) and the per-user summary rows
 * are narrowed by the selected spaces and roles, three checkboxes and a
 * search string. The filter state is a value; the toggles build a new set
 * from the old one.
 */
module EmployeeFilters {
  import opened Wrappers
  import opened Strings
  import Seqs

  /**
   * A row of `v_space_members_detailed`. The nullable text columns are
   * options; `isInactive` is read by the inactive checkbox (a row without
   * that column reads as `false`).
   */
  datatype Member = Member(
    spaceId: int, userId: int, userName: Option<string>, userEmail: Option<string>,
    roleId: Option<string>, roleName: Option<string>,
    isFromGroup: bool, isCustomRole: bool, isInactive: bool)

  /** A row of `v_user_roles_summary`, with the columns the filter reads. */
  datatype SummaryRow = SummaryRow(userId: int, fullName: Option<string>, email: Option<string>)

  /** The filter state: selected spaces and roles, the three checkboxes and the search string. */
  datatype Filters = Filters(
    spaces: set<int>, roles: set<string>,
    customOnly: bool, groupOnly: bool, inactiveOnly: bool, search: string)

  /** `field?.toLowerCase().includes(q)`: a missing field never matches. */
  predicate Matches(field: Option<string>, q: string) {
    field.Some? && Contains(ToLower(field.value), q)
  }

  /** `m.role_id` is truthy: present and not empty. */
  predicate HasRole(m: Member) {
    m.roleId.Some? && m.roleId.value != ""
  }

  /** The search test of the member filter, on the lower-cased query. */
  predicate MemberMatches(m: Member, search: string) {
    var q := ToLower(search);
    Matches(m.userName, q) || Matches(m.userEmail, q) || Matches(m.roleName, q)
  }

  /** The search test of the summary filter, on the lower-cased query. */
  predicate SummaryMatches(s: SummaryRow, search: string) {
    var q := ToLower(search);
    Matches(s.fullName, q) || Matches(s.email, q)
  }

  /** The `members.filter` callback, its early returns in order. */
  predicate KeepsMember(f: Filters, m: Member) {
    if |f.spaces| > 0 && m.spaceId !in f.spaces then false
    else if |f.roles| > 0 && HasRole(m) && m.roleId.value !in f.roles then false
    else if f.customOnly && !m.isCustomRole then false
    else if f.groupOnly && !m.isFromGroup then false
    else if f.inactiveOnly && !m.isInactive then false
    else if f.search != "" && !MemberMatches(m, f.search) then false
    else true
  }

  /** `filteredMembers` */
  function FilteredMembers(members: seq<Member>, f: Filters): seq<Member> {
    Seqs.Filter(members, m => KeepsMember(f, m))
  }

  /** `members.filter(m => m.user_id === uid).map(m => m.space_id)` */
  function UserSpaceIds(members: seq<Member>, uid: int): (ids: seq<int>)
    ensures forall id :: id in ids <==> exists m :: m in members && m.userId == uid && m.spaceId == id
  {
    if members == [] then []
    else (if members[0].userId == uid then [members[0].spaceId] else []) + UserSpaceIds(members[1..], uid)
  }

  /** `userSpaceIds.some(id => selectedSpaces.has(id))` */
  predicate AnySelected(ids: seq<int>, spaces: set<int>) {
    exists k :: 0 <= k < |ids| && ids[k] in spaces
  }

  /** The `summary.filter` callback, its early returns in order. */
  predicate KeepsSummary(f: Filters, members: seq<Member>, s: SummaryRow) {
    if f.search != "" && !SummaryMatches(s, f.search) then false
    else if |f.spaces| > 0 && !AnySelected(UserSpaceIds(members, s.userId), f.spaces) then false
    else true
  }

  /** `filteredSummary` */
  function FilteredSummary(summary: seq<SummaryRow>, members: seq<Member>, f: Filters): seq<SummaryRow> {
    Seqs.Filter(summary, s => KeepsSummary(f, members, s))
  }

  /** `hasActiveFilters`, as the truth value of the expression. */
  predicate HasActiveFilters(f: Filters) {
    |f.spaces| > 0 || |f.roles| > 0 || f.customOnly || f.groupOnly || f.inactiveOnly || f.search != ""
  }

  /** `clearFilters`: the state the table starts from. */
  const Cleared: Filters := Filters({}, {}, false, false, false, "")

  /** A copy of the set with `id` removed when present and added when absent. */
  function Toggle<T(!new)>(s: set<T>, id: T): (r: set<T>)
    ensures id in r <==> id !in s
    ensures forall x :: x != id ==> (x in r <==> x in s)
  {
    if id in s then s - {id} else s + {id}
  }

  /** `toggleSpace` */
  function ToggleSpace(f: Filters, id: int): (g: Filters)
    ensures g == f.(spaces := g.spaces)
    ensures (id in g.spaces <==> id !in f.spaces) && forall x :: x != id ==> (x in g.spaces <==> x in f.spaces)
  {
    f.(spaces := Toggle(f.spaces, id))
  }

  /** `toggleRole` */
  function ToggleRole(f: Filters, id: string): (g: Filters)
    ensures g == f.(roles := g.roles)
    ensures (id in g.roles <==> id !in f.roles) && forall x :: x != id ==> (x in g.roles <==> x in f.roles)
  {
    f.(roles := Toggle(f.roles, id))
  }

  // ---------------------------------------------------------------------
  // properties

  /**
   * A member is kept exactly when every active filter lets it through; a
   * member without a role passes the role filter.
   */
  lemma KeepsMemberIff(f: Filters, m: Member)
    ensures KeepsMember(f, m) <==>
      && (f.spaces == {} || m.spaceId in f.spaces)
      && (f.roles == {} || !HasRole(m) || m.roleId.value in f.roles)
      && (f.customOnly ==> m.isCustomRole)
      && (f.groupOnly ==> m.isFromGroup)
      && (f.inactiveOnly ==> m.isInactive)
      && (f.search == "" || MemberMatches(m, f.search))
  {
    assert |f.spaces| > 0 <==> f.spaces != {};
    assert |f.roles| > 0 <==> f.roles != {};
  }

  /** The role filter never excludes a member whose role id is null or empty. */
  lemma RoleUnsetNeverExcluded(f: Filters, m: Member)
    requires !HasRole(m)
    ensures KeepsMember(f, m) <==> KeepsMember(f.(roles := {}), m)
  {
    KeepsMemberIff(f, m);
    KeepsMemberIff(f.(roles := {}), m);
  }

  /** Both filters keep a subsequence of their rows, in the rows' order. */
  lemma FilteredInOrder(members: seq<Member>, summary: seq<SummaryRow>, f: Filters)
    ensures Seqs.Subsequence(FilteredMembers(members, f), members)
    ensures Seqs.Subsequence(FilteredSummary(summary, members, f), summary)
  {
    Seqs.FilterEmbeds(members, m => KeepsMember(f, m));
    Seqs.FilterEmbeds(summary, s => KeepsSummary(f, members, s));
  }

  /** With no filter active every member and every summary row is kept. */
  lemma InactiveKeepsAll(members: seq<Member>, summary: seq<SummaryRow>, f: Filters)
    requires !HasActiveFilters(f)
    ensures FilteredMembers(members, f) == members
    ensures FilteredSummary(summary, members, f) == summary
  {
    Seqs.FilterAll(members, m => KeepsMember(f, m));
    Seqs.FilterAll(summary, s => KeepsSummary(f, members, s));
  }

  /** After `clearFilters` no filter is active, so both tables show every row. */
  lemma ClearedKeepsAll(members: seq<Member>, summary: seq<SummaryRow>)
    ensures !HasActiveFilters(Cleared)
    ensures FilteredMembers(members, Cleared) == members && FilteredSummary(summary, members, Cleared) == summary
  {
    InactiveKeepsAll(members, summary, Cleared);
  }

  /**
   * A summary row is kept exactly when it matches the search, if any, and
   * one of its user's member rows has a selected space, if any are selected.
   */
  lemma KeepsSummaryIff(f: Filters, members: seq<Member>, s: SummaryRow)
    ensures KeepsSummary(f, members, s) <==>
      && (f.search == "" || SummaryMatches(s, f.search))
      && (f.spaces == {} || exists m :: m in members && m.userId == s.userId && m.spaceId in f.spaces)
  {
    var ids := UserSpaceIds(members, s.userId);
    assert |f.spaces| > 0 <==> f.spaces != {};
    if AnySelected(ids, f.spaces) {
      var k :| 0 <= k < |ids| && ids[k] in f.spaces;
      assert ids[k] in ids;
    }
    if exists m :: m in members && m.userId == s.userId && m.spaceId in f.spaces {
      var m :| m in members && m.userId == s.userId && m.spaceId in f.spaces;
      assert m.spaceId in ids;
      var k :| 0 <= k < |ids| && ids[k] == m.spaceId;
    }
  }

  /** The role filter and the checkboxes never affect the summary. */
  lemma SummaryIgnoresRoles(f: Filters, roles: set<string>, customOnly: bool, groupOnly: bool, inactiveOnly: bool,
                            summary: seq<SummaryRow>, members: seq<Member>)
    ensures var g := f.(roles := roles, customOnly := customOnly, groupOnly := groupOnly, inactiveOnly := inactiveOnly);
      FilteredSummary(summary, members, g) == FilteredSummary(summary, members, f)
  {
    var g := f.(roles := roles, customOnly := customOnly, groupOnly := groupOnly, inactiveOnly := inactiveOnly);
    SameFilter(summary, s => KeepsSummary(g, members, s), s => KeepsSummary(f, members, s));
  }

  /** Two filters that agree on every element keep the same elements. */
  lemma {:induction false} SameFilter<T>(s: seq<T>, p: T -> bool, q: T -> bool)
    requires forall x :: x in s ==> p(x) == q(x)
    ensures Seqs.Filter(s, p) == Seqs.Filter(s, q)
  {
    if s != [] {
      SameFilter(s[1..], p, q);
    }
  }

  /** Lower-casing an upper-cased or a lower-cased character gives its lower case. */
  lemma LowerCharCase(c: char)
    ensures LowerChar(UpperChar(c)) == LowerChar(c)
    ensures LowerChar(LowerChar(c)) == LowerChar(c)
  {
  }

  /** Lower-casing forgets the case a text was written in. */
  lemma LowerCase(s: string)
    ensures ToLower(ToUpper(s)) == ToLower(s) && ToLower(ToLower(s)) == ToLower(s)
  {
    forall i | 0 <= i < |s| ensures ToLower(ToUpper(s))[i] == ToLower(s)[i] && ToLower(ToLower(s))[i] == ToLower(s)[i] {
      LowerCharCase(s[i]);
    }
  }

  /** The search ignores the case of the query. */
  lemma SearchIgnoresCase(f: Filters, m: Member, s: SummaryRow, members: seq<Member>)
    ensures KeepsMember(f.(search := ToUpper(f.search)), m) == KeepsMember(f.(search := ToLower(f.search)), m) == KeepsMember(f, m)
    ensures KeepsSummary(f.(search := ToUpper(f.search)), members, s) == KeepsSummary(f.(search := ToLower(f.search)), members, s)
      == KeepsSummary(f, members, s)
  {
    LowerCase(f.search);
  }

  /** A row matches a query whatever the case of its own text. */
  lemma MatchesIgnoresCase(field: string, q: string)
    ensures Matches(Some(ToUpper(field)), q) == Matches(Some(ToLower(field)), q) == Matches(Some(field), q)
  {
    LowerCase(field);
  }

  /** Toggling the same id twice gives back the set it started from. */
  lemma ToggleTwice<T(!new)>(s: set<T>, id: T)
    ensures Toggle(Toggle(s, id), id) == s
  {
  }

  /** Toggling a space twice gives back the filters it started from, and so does toggling a role twice. */
  lemma ToggleFiltersTwice(f: Filters, space: int, role: string)
    ensures ToggleSpace(ToggleSpace(f, space), space) == f
    ensures ToggleRole(ToggleRole(f, role), role) == f
  {
    ToggleTwice(f.spaces, space);
    ToggleTwice(f.roles, role);
  }
}
