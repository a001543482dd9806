/** `manageCiviCRMGroupSubcription` (CRM/Mailchimp/Page/WebHook.php): the
 *  CiviCRM group memberships a Mailchimp webhook asks for.  The code gathers
 *  the groups to add the contact to and the groups to remove it from, then
 *  applies every addition and after that every removal. */
module WebHook {
  import opened Base
  import opened Strings
  import opened PhpArray
  import opened MailchimpGroups

  /** One entry of the webhook's `GROUPINGS` merge field: the grouping's id
   *  and the names of the groups chosen in it, joined with ", ". */
  datatype Grouping = Grouping(id: string, groups: string)

  /** The contacts of CiviCRM's groups, as (group id, contact id) pairs. */
  class GroupContacts {
    var members: set<(int, int)>

    constructor(members: set<(int, int)>)
      ensures this.members == members
    {
      this.members := members;
    }
  }

  /** The names chosen in the groupings with id `id`: each `groups` string
   *  split on ", ". */
  function NamesOf(groupings: seq<Grouping>, id: string): set<string>
    decreases |groupings|
  {
    if groupings == [] then {}
    else
      var last := groupings[|groupings| - 1];
      NamesOf(groupings[..|groupings| - 1], id) +
      (if last.id == id then set n | n in Explode(last.groups, ", ") else {})
  }

  /** A name is chosen for a grouping exactly when some entry with that
   *  grouping's id lists it. */
  lemma {:induction false} NamesOfListed(groupings: seq<Grouping>, id: string, name: string)
    ensures name in NamesOf(groupings, id) <==>
      exists k :: 0 <= k < |groupings| && groupings[k].id == id && name in Explode(groupings[k].groups, ", ")
    decreases |groupings|
  {
    if groupings != [] {
      var n := |groupings| - 1;
      var init := groupings[..n];
      NamesOfListed(init, id, name);
      if name in NamesOf(groupings, id) {
        if name !in NamesOf(init, id) {
          assert groupings[n].id == id && name in Explode(groupings[n].groups, ", ");
        } else {
          var k :| 0 <= k < |init| && init[k].id == id && name in Explode(init[k].groups, ", ");
          assert groupings[k] == init[k];
        }
      } else {
        forall k | 0 <= k < |groupings| && groupings[k].id == id
          ensures name !in Explode(groupings[k].groups, ", ")
        {
          if k < n {
            assert init[k] == groupings[k];
          }
        }
      }
    }
  }

  /** `$mcGroupings[$grouping_id][$group] = 1` for every group named in every
   *  grouping: a grouping id is a key exactly when some grouping has it, and
   *  its names are those chosen for it. */
  method GroupingNames(groupings: seq<Grouping>) returns (m: map<string, set<string>>)
    ensures forall id :: id in m ==> m[id] == NamesOf(groupings, id)
    ensures forall id :: id !in m ==> NamesOf(groupings, id) == {}
  {
    m := map[];
    for k := 0 to |groupings|
      invariant forall id :: id in m ==> m[id] == NamesOf(groupings[..k], id)
      invariant forall id :: id !in m ==> NamesOf(groupings[..k], id) == {}
    {
      assert groupings[..k + 1][..k] == groupings[..k];
      var g := groupings[k];
      var names := Explode(g.groups, ", ");
      var m0 := m;
      for i := 0 to |names|
        invariant forall id :: id != g.id ==> (id in m <==> id in m0) && (id in m ==> m[id] == m0[id])
        invariant i == 0 ==> m == m0
        invariant i > 0 ==> g.id in m && m[g.id] == (if g.id in m0 then m0[g.id] else {}) + set n | n in names[..i]
      {
        assert names[..i + 1] == names[..i] + [names[i]];
        m := m[g.id := (if g.id in m then m[g.id] else {}) + {names[i]}];
      }
      assert names[..|names|] == names;
    }
    assert groupings[..|groupings|] == groupings;
  }

  /** A group the webhook may change: not the membership group, and its
   *  mapping allows Mailchimp to update it (`is_mc_update_grouping`). */
  predicate Updatable(g: (int, GroupDetails), membership: int) {
    g.0 != membership && !EmptyText(g.1.isMcUpdateGrouping)
  }

  /** The grouping of the group's category lists the group's name. */
  predicate Chosen(groupings: seq<Grouping>, d: GroupDetails) {
    KeyText(d.groupName) in NamesOf(groupings, KeyText(d.groupingId))
  }

  /** The updatable groups, in order, whose name is chosen (`chosen`) or not
   *  chosen (`!chosen`) in the groupings. */
  function Select(groups: GroupTable, membership: int, groupings: seq<Grouping>, chosen: bool): seq<int>
    decreases |groups|
  {
    if groups == [] then []
    else
      var last := groups[|groups| - 1];
      Select(groups[..|groups| - 1], membership, groupings, chosen) +
      (if Updatable(last, membership) && Chosen(groupings, last.1) == chosen then [last.0] else [])
  }

  /** An updatable group is selected exactly for the answer it gives; with
   *  the group ids distinct, no other entry can select it. */
  lemma {:induction false} SelectEntry(groups: GroupTable, membership: int, groupings: seq<Grouping>, chosen: bool, i: nat)
    requires UniqueKeys(groups) && i < |groups|
    ensures groups[i].0 in Select(groups, membership, groupings, chosen) <==>
      Updatable(groups[i], membership) && Chosen(groupings, groups[i].1) == chosen
    decreases |groups|
  {
    var n := |groups| - 1;
    var init := groups[..n];
    assert UniqueKeys(init) by {
      forall a, b | 0 <= a < b < |init| ensures init[a].0 != init[b].0 {
        assert init[a] == groups[a] && init[b] == groups[b];
      }
    }
    if i < n {
      assert init[i] == groups[i];
      SelectEntry(init, membership, groupings, chosen, i);
    } else {
      SelectOnlyGroups(init, membership, groupings, chosen, groups[i].0);
      forall j | 0 <= j < |init| ensures init[j].0 != groups[i].0 {
        assert init[j] == groups[j];
      }
    }
  }

  /** Only updatable groups of the table are selected. */
  lemma {:induction false} SelectOnlyGroups(groups: GroupTable, membership: int, groupings: seq<Grouping>, chosen: bool, g: int)
    ensures g in Select(groups, membership, groupings, chosen) ==>
      exists j :: 0 <= j < |groups| && groups[j].0 == g && Updatable(groups[j], membership)
    decreases |groups|
  {
    if groups != [] {
      var n := |groups| - 1;
      var init := groups[..n];
      SelectOnlyGroups(init, membership, groupings, chosen, g);
      if g in Select(init, membership, groupings, chosen) {
        var j :| 0 <= j < |init| && init[j].0 == g && Updatable(init[j], membership);
        assert groups[j] == init[j];
      }
    }
  }

  /** The loop over the mapped groups, collecting the ids whose `empty()`
   *  test on the grouping names gives `!chosen`. */
  method SelectGroups(groups: GroupTable, membership: int, names: map<string, set<string>>,
                      ghost groupings: seq<Grouping>, chosen: bool) returns (ids: seq<int>)
    requires forall id :: id in names ==> names[id] == NamesOf(groupings, id)
    requires forall id :: id !in names ==> NamesOf(groupings, id) == {}
    ensures ids == Select(groups, membership, groupings, chosen)
  {
    ids := [];
    for k := 0 to |groups|
      invariant ids == Select(groups[..k], membership, groupings, chosen)
    {
      assert groups[..k + 1][..k] == groups[..k];
      var (id, details) := groups[k];
      if id != membership && !EmptyText(details.isMcUpdateGrouping) {
        var grouping, name := KeyText(details.groupingId), KeyText(details.groupName);
        var named := grouping in names && name in names[grouping];
        if named == chosen {
          ids := ids + [id];
        }
      }
    }
    assert groups[..|groups|] == groups;
  }

  /** `$groupContactAdditions` and `$groupContactRemoves` once both are
   *  filled, or `None` when the code returns NULL first: no contact, no list
   *  id, no action, or no membership group mapped to the list.  The
   *  membership group is the first group mapped without a category. */
  function Delta(contactId: int, listId: Option<string>, action: string, groupings: seq<Grouping>,
                 membershipGroups: GroupTable, groups: GroupTable): Option<(seq<int>, seq<int>)>
  {
    if contactId == 0 || EmptyText(listId) || EmptyText(Some(action)) || membershipGroups == [] then None
    else
      var membership := membershipGroups[0].0;
      var chosen := Select(groups, membership, groupings, true);
      var dropped := Select(groups, membership, groupings, false);
      var adds := (if action == "subscribe" then [membership] else []) + chosen;
      var removes := (if action == "unsubscribe" then [membership] + chosen else []) + dropped;
      Some((adds, removes))
  }

  function Pairs(groupIds: seq<int>, contactId: int): set<(int, int)> {
    set g | g in groupIds :: (g, contactId)
  }

  lemma PairsAppend(groupIds: seq<int>, g: int, contactId: int)
    ensures Pairs(groupIds + [g], contactId) == Pairs(groupIds, contactId) + {(g, contactId)}
  {
    assert forall x :: x in groupIds + [g] <==> x in groupIds || x == g;
  }

  /** The memberships after the webhook: the additions applied first, the
   *  removals after them. */
  function Reconciled(contactId: int, listId: Option<string>, action: string, groupings: seq<Grouping>,
                      membershipGroups: GroupTable, groups: GroupTable, before: set<(int, int)>): set<(int, int)>
  {
    match Delta(contactId, listId, action, groupings, membershipGroups, groups)
    case None => before
    case Some((adds, removes)) => (before + Pairs(adds, contactId)) - Pairs(removes, contactId)
  }

  /** The two loops that apply the gathered changes: every addition, then
   *  every removal. */
  method Apply(adds: seq<int>, removes: seq<int>, contactId: int, store: GroupContacts)
    modifies store
    ensures store.members == (old(store.members) + Pairs(adds, contactId)) - Pairs(removes, contactId)
  {
    ghost var before := store.members;
    for i := 0 to |adds|
      invariant store.members == before + Pairs(adds[..i], contactId)
    {
      assert adds[..i + 1] == adds[..i] + [adds[i]];
      PairsAppend(adds[..i], adds[i], contactId);
      store.members := store.members + {(adds[i], contactId)};
    }
    assert adds[..|adds|] == adds;
    ghost var added := store.members;
    for i := 0 to |removes|
      invariant store.members == added - Pairs(removes[..i], contactId)
    {
      assert removes[..i + 1] == removes[..i] + [removes[i]];
      PairsAppend(removes[..i], removes[i], contactId);
      store.members := store.members - {(removes[i], contactId)};
    }
    assert removes[..|removes|] == removes;
  }

  /** `manageCiviCRMGroupSubcription`; `membershipGroups` and `groups` are
   *  what `getGroupsToSync` returns for the list with and without
   *  `$membership_only`. */
  method ManageGroupSubscription(contactId: int, listId: Option<string>, action: string, groupings: seq<Grouping>,
                                 membershipGroups: GroupTable, groups: GroupTable, store: GroupContacts)
    modifies store
    ensures store.members == Reconciled(contactId, listId, action, groupings, membershipGroups, groups, old(store.members))
  {
    if contactId == 0 || EmptyText(listId) || EmptyText(Some(action)) {
      return;
    }
    if membershipGroups == [] {
      return;
    }
    var membership := membershipGroups[0].0;
    var adds: seq<int> := [];
    var removes: seq<int> := [];
    if action == "subscribe" {
      adds := adds + [membership];
    } else if action == "unsubscribe" {
      removes := removes + [membership];
      var names := GroupingNames(groupings);
      var chosen := SelectGroups(groups, membership, names, groupings, true);
      removes := removes + chosen;
    }
    var names := GroupingNames(groupings);
    var chosen := SelectGroups(groups, membership, names, groupings, true);
    var dropped := SelectGroups(groups, membership, names, groupings, false);
    adds := adds + chosen;
    removes := removes + dropped;
    Apply(adds, removes, contactId, store);
  }

  /** Without a contact, a list id, an action or a membership group, no
   *  membership changes. */
  lemma NothingWithoutRequest(contactId: int, listId: Option<string>, action: string, groupings: seq<Grouping>,
                              membershipGroups: GroupTable, groups: GroupTable, before: set<(int, int)>)
    requires contactId == 0 || EmptyText(listId) || EmptyText(Some(action)) || membershipGroups == []
    ensures Reconciled(contactId, listId, action, groupings, membershipGroups, groups, before) == before
  {
  }

  /** A subscribe puts the contact into the membership group. */
  lemma SubscribeJoinsList(contactId: int, listId: Option<string>, groupings: seq<Grouping>,
                           membershipGroups: GroupTable, groups: GroupTable, before: set<(int, int)>)
    requires contactId != 0 && !EmptyText(listId) && membershipGroups != []
    ensures (membershipGroups[0].0, contactId) in Reconciled(contactId, listId, "subscribe", groupings, membershipGroups, groups, before)
  {
    var membership := membershipGroups[0].0;
    SelectOnlyGroups(groups, membership, groupings, false, membership);
  }

  /** Except on an unsubscribe, the contact ends up in an updatable group
   *  exactly when its grouping names it. */
  lemma InterestFollowsGroupings(contactId: int, listId: Option<string>, action: string, groupings: seq<Grouping>,
                                 membershipGroups: GroupTable, groups: GroupTable, before: set<(int, int)>, i: nat)
    requires contactId != 0 && !EmptyText(listId) && !EmptyText(Some(action)) && membershipGroups != []
    requires action != "unsubscribe"
    requires UniqueKeys(groups) && i < |groups| && Updatable(groups[i], membershipGroups[0].0)
    ensures (groups[i].0, contactId) in Reconciled(contactId, listId, action, groupings, membershipGroups, groups, before)
      <==> Chosen(groupings, groups[i].1)
  {
    var membership := membershipGroups[0].0;
    SelectEntry(groups, membership, groupings, true, i);
    SelectEntry(groups, membership, groupings, false, i);
  }

  /** An unsubscribe leaves the contact out of the membership group and out
   *  of every updatable group, whatever the groupings say: whatever is added
   *  is removed again afterwards. */
  lemma UnsubscribeLeavesAll(contactId: int, listId: Option<string>, groupings: seq<Grouping>,
                             membershipGroups: GroupTable, groups: GroupTable, before: set<(int, int)>, i: nat)
    requires contactId != 0 && !EmptyText(listId) && membershipGroups != []
    requires i < |groups| && Updatable(groups[i], membershipGroups[0].0)
    ensures var after := Reconciled(contactId, listId, "unsubscribe", groupings, membershipGroups, groups, before);
      (membershipGroups[0].0, contactId) !in after && (groups[i].0, contactId) !in after
  {
    var membership := membershipGroups[0].0;
    if Chosen(groupings, groups[i].1) {
      SelectHas(groups, membership, groupings, true, i);
    } else {
      SelectHas(groups, membership, groupings, false, i);
    }
  }

  /** An updatable entry is selected for the answer it gives, even when its
   *  id is not unique. */
  lemma {:induction false} SelectHas(groups: GroupTable, membership: int, groupings: seq<Grouping>, chosen: bool, i: nat)
    requires i < |groups| && Updatable(groups[i], membership) && Chosen(groupings, groups[i].1) == chosen
    ensures groups[i].0 in Select(groups, membership, groupings, chosen)
    decreases |groups|
  {
    var n := |groups| - 1;
    if i < n {
      assert groups[..n][i] == groups[i];
      SelectHas(groups[..n], membership, groupings, chosen, i);
    }
  }

  /** Other contacts, and groups that are neither the membership group nor
   *  updatable, keep their memberships. */
  lemma OthersUntouched(contactId: int, listId: Option<string>, action: string, groupings: seq<Grouping>,
                        membershipGroups: GroupTable, groups: GroupTable, before: set<(int, int)>, g: int, c: int)
    requires membershipGroups != [] ==> g != membershipGroups[0].0
    requires forall j :: 0 <= j < |groups| && groups[j].0 == g ==> EmptyText(groups[j].1.isMcUpdateGrouping)
    ensures (g, c) in Reconciled(contactId, listId, action, groupings, membershipGroups, groups, before) <==> (g, c) in before
  {
    if membershipGroups != [] {
      var membership := membershipGroups[0].0;
      SelectOnlyGroups(groups, membership, groupings, true, g);
      SelectOnlyGroups(groups, membership, groupings, false, g);
    }
  }

  /** A webhook for another contact leaves this contact's memberships. */
  lemma OtherContactsUntouched(contactId: int, listId: Option<string>, action: string, groupings: seq<Grouping>,
                               membershipGroups: GroupTable, groups: GroupTable, before: set<(int, int)>, g: int, c: int)
    requires c != contactId
    ensures (g, c) in Reconciled(contactId, listId, action, groupings, membershipGroups, groups, before) <==> (g, c) in before
  {
  }
}
