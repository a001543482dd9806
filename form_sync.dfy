/** The bookkeeping of a push run (CRM/Mailchimp/Form/Sync.php): the
 *  `push_stats` setting and its merge, the queue `getRunner` and
 *  `syncPushList` plan (one task per list, then five stages per list in a
 *  fixed order), and the interest information `syncCollectCiviCRM` stores
 *  for every contact of a list's membership group. */
module FormSync {
  import opened Base
  import opened Strings
  import opened PhpArray
  import opened Http
  import opened MailchimpGroups
  import opened MailchimpSync

  // ----- push_stats -----

  /** The `push_stats` setting: for each list id, counters by name. */
  type Stats = map<string, map<string, int>>

  /** The counter `key` of list `list`, if the setting has one. */
  function Stat(stats: Stats, list: string, key: string): Option<int> {
    if list in stats && key in stats[list] then Some(stats[list][key]) else None
  }

  /** `$stats[$list][$key] = $val`: creates the list's entry when missing. */
  function Put(stats: Stats, list: string, key: string, val: int): Stats {
    stats[list := (if list in stats then stats[list] else map[])[key := val]]
  }

  /** The inner `foreach` of `updatePushStats`, over one list's settings. */
  function PutAll(stats: Stats, list: string, settings: seq<(string, int)>): Stats
    decreases |settings|
  {
    if settings == [] then stats
    else
      var last := settings[|settings| - 1];
      Put(PutAll(stats, list, settings[..|settings| - 1]), list, last.0, last.1)
  }

  /** Both `foreach` loops of `updatePushStats`. */
  function Merge(stats: Stats, updates: seq<(string, seq<(string, int)>)>): Stats
    decreases |updates|
  {
    if updates == [] then stats
    else
      var last := updates[|updates| - 1];
      PutAll(Merge(stats, updates[..|updates| - 1]), last.0, last.1)
  }

  /** The value the last setting for `key` gives, if any. */
  function LastFor(settings: seq<(string, int)>, key: string): Option<int>
    decreases |settings|
  {
    if settings == [] then None
    else if settings[|settings| - 1].0 == key then Some(settings[|settings| - 1].1)
    else LastFor(settings[..|settings| - 1], key)
  }

  /** The value the last update of list `list` and counter `key` gives. */
  function Assigned(updates: seq<(string, seq<(string, int)>)>, list: string, key: string): Option<int>
    decreases |updates|
  {
    if updates == [] then None
    else
      var last := updates[|updates| - 1];
      if last.0 == list && LastFor(last.1, key).Some? then LastFor(last.1, key)
      else Assigned(updates[..|updates| - 1], list, key)
  }

  lemma {:induction false} PutAllEntry(stats: Stats, list: string, settings: seq<(string, int)>, l: string, key: string)
    ensures Stat(PutAll(stats, list, settings), l, key) ==
      if l == list && LastFor(settings, key).Some? then LastFor(settings, key) else Stat(stats, l, key)
    ensures l in PutAll(stats, list, settings) <==> l in stats || (l == list && settings != [])
    decreases |settings|
  {
    if settings != [] {
      PutAllEntry(stats, list, settings[..|settings| - 1], l, key);
    }
  }

  /** After `updatePushStats`, every counter an update names holds the last
   *  value given for it; every other counter keeps its value. */
  lemma {:induction false} MergeEntry(stats: Stats, updates: seq<(string, seq<(string, int)>)>, list: string, key: string)
    ensures Stat(Merge(stats, updates), list, key) ==
      if Assigned(updates, list, key).Some? then Assigned(updates, list, key) else Stat(stats, list, key)
    decreases |updates|
  {
    if updates != [] {
      var last := updates[|updates| - 1];
      MergeEntry(stats, updates[..|updates| - 1], list, key);
      PutAllEntry(Merge(stats, updates[..|updates| - 1]), last.0, last.1, list, key);
    }
  }

  /** A list gets an entry only from an update that sets at least one of
   *  its counters; no list loses its entry. */
  lemma {:induction false} MergeLists(stats: Stats, updates: seq<(string, seq<(string, int)>)>, list: string)
    ensures list in Merge(stats, updates) <==>
      list in stats || exists i :: 0 <= i < |updates| && updates[i].0 == list && updates[i].1 != []
    decreases |updates|
  {
    if updates != [] {
      var n := |updates| - 1;
      var init := updates[..n];
      MergeLists(stats, init, list);
      PutAllEntry(Merge(stats, init), updates[n].0, updates[n].1, list, "");
      if exists i :: 0 <= i < |init| && init[i].0 == list && init[i].1 != [] {
        var i :| 0 <= i < |init| && init[i].0 == list && init[i].1 != [];
        assert updates[i] == init[i];
      }
      if exists i :: 0 <= i < |updates| && updates[i].0 == list && updates[i].1 != [] {
        var i :| 0 <= i < |updates| && updates[i].0 == list && updates[i].1 != [];
        if i < n {
          assert init[i] == updates[i];
        }
      }
    }
  }

  /** The settings store holding `push_stats`. */
  class Settings {
    var pushStats: Stats

    constructor(pushStats: Stats)
      ensures this.pushStats == pushStats
    {
      this.pushStats := pushStats;
    }

    /** `updatePushStats($updates)`. */
    method UpdatePushStats(updates: seq<(string, seq<(string, int)>)>)
      modifies this
      ensures pushStats == Merge(old(pushStats), updates)
    {
      ghost var start := pushStats;
      var stats := pushStats;
      for k := 0 to |updates|
        invariant stats == Merge(start, updates[..k])
      {
        assert updates[..k + 1][..k] == updates[..k];
        var (list, settings) := updates[k];
        ghost var before := stats;
        for i := 0 to |settings|
          invariant stats == PutAll(before, list, settings[..i])
        {
          assert settings[..i + 1][..i] == settings[..i];
          var (key, val) := settings[i];
          stats := stats[list := (if list in stats then stats[list] else map[])[key := val]];
        }
        assert settings[..|settings|] == settings;
      }
      assert updates[..|updates|] == updates;
      pushStats := stats;
    }
  }

  // ----- the queue -----

  /** The callbacks the queue runs. */
  datatype Stage =
    | SyncPushList
    | SyncPushCollectCiviCRM
    | SyncPushCollectMailchimp
    | SyncPushDifficultMatches
    | SyncPushIgnoreInSync
    | SyncPushToMailchimp

  /** The class a callback is a static method of. */
  datatype Owner =
    | FormSyncClass  // CRM_Mailchimp_Form_Sync
    | FormPullClass  // CRM_Mailchimp_Form_Pull

  /** A queue task: its callback (a class and a static method), the
   *  callback's arguments and the title shown while it runs. */
  datatype Task = Task(owner: Owner, stage: Stage, args: seq<string>, title: string)

  class Queue {
    var items: seq<Task>

    constructor()
      ensures items == []
    {
      items := [];
    }

    /** `createItem`. */
    method CreateItem(task: Task)
      modifies this
      ensures items == old(items) + [task]
    {
      items := items + [task];
    }
  }

  /** The runner `getRunner` sets up; `onEndUrl` is left out when called
   *  with `$skipEndUrl`. */
  datatype Runner = Runner(title: string, abortOnError: bool, hasEndUrl: bool)

  const RunnerTitle := "Mailchimp Sync: CiviCRM to Mailchimp"

  /** The counters every synced list starts with. */
  const Counters: seq<(string, int)> :=
    [("c_count", 0), ("mc_count", 0), ("in_sync", 0), ("updates", 0), ("additions", 0), ("unsubscribes", 0)]

  /** A membership group whose list could be named; the others are skipped. */
  predicate Synced(d: GroupDetails) {
    !EmptyText(d.listName)
  }

  /** The groups of the run, in order. */
  function SyncedGroups(groups: GroupTable): (r: GroupTable)
    ensures |r| <= |groups|
    decreases |groups|
  {
    if groups == [] then []
    else
      var last := groups[|groups| - 1];
      SyncedGroups(groups[..|groups| - 1]) + (if Synced(last.1) then [last] else [])
  }

  /** `$listCount++` renders the counter before incrementing it; it starts
   *  out undefined, which renders as "". */
  function CountText(n: nat): string {
    if n == 0 then "" else IntToString(n)
  }

  function Identifier(n: nat, title: string): string {
    "List " + CountText(n) + " " + title
  }

  function ListTask(listId: string, identifier: string): Task {
    Task(FormSyncClass, SyncPushList, [listId, identifier], "Preparing queue for " + identifier)
  }

  /** Queue items `getRunner` enqueues: one per synced group, numbered in
   *  order. */
  function ListTasks(groups: GroupTable): (r: seq<Task>)
    ensures |r| == |SyncedGroups(groups)|
    decreases |groups|
  {
    if groups == [] then []
    else
      var init := groups[..|groups| - 1];
      var last := groups[|groups| - 1];
      ListTasks(init) +
      (if Synced(last.1) then [ListTask(KeyText(last.1.listId), Identifier(|SyncedGroups(init)|, last.1.title))] else [])
  }

  /** The stats `getRunner` gathers: the counters at 0 for every synced
   *  group's list. */
  function InitialStats(groups: GroupTable): (r: seq<(string, seq<(string, int)>)>)
    ensures UniqueKeys(r)
    ensures r == [] <==> SyncedGroups(groups) == []
    decreases |groups|
  {
    if groups == [] then []
    else
      var init := groups[..|groups| - 1];
      var last := groups[|groups| - 1];
      var stats := InitialStats(init);
      if Synced(last.1) then Assign(stats, KeyText(last.1.listId), Counters) else stats
  }

  /** The synced groups are exactly the groups with a list name, in their
   *  order. */
  lemma {:induction false} SyncedGroupsExact(groups: GroupTable)
    ensures forall g :: g in SyncedGroups(groups) <==> g in groups && Synced(g.1)
    decreases |groups|
  {
    if groups != [] {
      var n := |groups| - 1;
      SyncedGroupsExact(groups[..n]);
      assert groups == groups[..n] + [groups[n]];
    }
  }

  /** The `k`-th task runs `syncPushList` for the `k`-th synced group. */
  lemma {:induction false} ListTaskAt(groups: GroupTable, k: nat)
    requires k < |SyncedGroups(groups)|
    ensures var g := SyncedGroups(groups)[k];
      ListTasks(groups)[k] == ListTask(KeyText(g.1.listId), Identifier(k, g.1.title))
    decreases |groups|
  {
    var n := |groups| - 1;
    if k < |SyncedGroups(groups[..n])| {
      ListTaskAt(groups[..n], k);
    }
  }

  /** Every list of a synced group has the six counters at 0, and no other
   *  list has an entry. */
  lemma {:induction false} InitialStatsLists(groups: GroupTable, list: string)
    ensures Lookup(InitialStats(groups), list) ==
      if exists g :: g in groups && Synced(g.1) && KeyText(g.1.listId) == list then Some(Counters) else None
    decreases |groups|
  {
    if groups != [] {
      var n := |groups| - 1;
      var init := groups[..n];
      InitialStatsLists(init, list);
      assert groups == init + [groups[n]];
      if Synced(groups[n].1) {
        LookupAssign(InitialStats(init), KeyText(groups[n].1.listId), Counters, list);
      }
    }
  }

  /** `getRunner($skipEndUrl)`; `groups` is what `getGroupsToSync` returns
   *  for membership groups of every list.  Returns `None` for FALSE. */
  method GetRunner(groups: GroupTable, skipEndUrl: bool, queue: Queue, settings: Settings) returns (r: Option<Runner>)
    modifies queue, settings
    ensures queue.items == ListTasks(groups)
    ensures r.None? <==> SyncedGroups(groups) == []
    ensures r.Some? ==> r.value == Runner(RunnerTitle, true, !skipEndUrl)
    ensures settings.pushStats == Merge(map[], InitialStats(groups))
  {
    queue.items := [];
    settings.pushStats := map[];
    var stats: seq<(string, seq<(string, int)>)> := [];
    var listCount: nat := 0;
    for k := 0 to |groups|
      invariant queue.items == ListTasks(groups[..k])
      invariant stats == InitialStats(groups[..k])
      invariant listCount == |SyncedGroups(groups[..k])|
      invariant settings.pushStats == map[]
    {
      assert groups[..k + 1][..k] == groups[..k];
      var (groupId, details) := groups[k];
      if EmptyText(details.listName) {
        continue;
      }
      stats := Assign(stats, KeyText(details.listId), Counters);
      var identifier := Identifier(listCount, details.title);
      listCount := listCount + 1;
      queue.CreateItem(ListTask(KeyText(details.listId), identifier));
    }
    assert groups[..|groups|] == groups;
    if stats == [] {
      return None;
    }
    settings.UpdatePushStats(stats);
    r := Some(Runner(RunnerTitle, true, !skipEndUrl));
  }

  /** The five stages of a list, in the order they must run: CiviCRM's data
   *  is collected before Mailchimp's. */
  function ListStages(listId: string, identifier: string): (r: seq<Task>)
  {
    [Task(FormSyncClass, SyncPushCollectCiviCRM, [listId], identifier + ": Fetched data from CiviCRM, fetching from Mailchimp..."),
     Task(FormSyncClass, SyncPushCollectMailchimp, [listId], identifier + ": Fetched data from Mailchimp. Matching..."),
     Task(FormPullClass, SyncPushDifficultMatches, [listId], identifier + ": Matched up contacts. Comparing..."),
     Task(FormSyncClass, SyncPushIgnoreInSync, [listId], identifier + ": Ignored any in-sync already. Updating Mailchimp..."),
     Task(FormSyncClass, SyncPushToMailchimp, [listId], identifier + ": Completed additions/updates/unsubscribes.")]
  }

  /** The stages of a list run in the order collect CiviCRM, collect
   *  Mailchimp, difficult matches, ignore in-sync, push; the difficult
   *  matches are a callback of the pull form, the others of the sync form;
   *  every one is for that list alone. */
  lemma StagesInOrder(listId: string, identifier: string)
    ensures var r := ListStages(listId, identifier);
      |r| == 5 &&
      [r[0].stage, r[1].stage, r[2].stage, r[3].stage, r[4].stage] ==
      [SyncPushCollectCiviCRM, SyncPushCollectMailchimp, SyncPushDifficultMatches, SyncPushIgnoreInSync, SyncPushToMailchimp] &&
      [r[0].owner, r[1].owner, r[2].owner, r[3].owner, r[4].owner] ==
      [FormSyncClass, FormSyncClass, FormPullClass, FormSyncClass, FormSyncClass] &&
      forall t :: t in r ==> t.args == [listId]
  {
  }

  /** `syncPushList($ctx, $listID, $identifier)`: appends the list's five
   *  stages to the queue; it always reports success. */
  method SyncPushListTask(queue: Queue, listId: string, identifier: string) returns (success: bool)
    modifies queue
    ensures queue.items == old(queue.items) + ListStages(listId, identifier)
    ensures success
  {
    var stages := ListStages(listId, identifier);
    for i := 0 to 5
      invariant queue.items == old(queue.items) + stages[..i]
    {
      assert stages[..i + 1] == stages[..i] + [stages[i]];
      queue.CreateItem(stages[i]);
    }
    assert stages[..5] == stages;
    success := true;
  }

  // ----- syncCollectCiviCRM -----

  /** Interest flags by grouping id, then by group id, in insertion order. */
  type Info = seq<(string, seq<(string, bool)>)>

  predicate WellFormed(info: Info) {
    UniqueKeys(info) && forall p :: p in info ==> UniqueKeys(p.1)
  }

  /** `$info[$grouping][$group]`, if set. */
  function Flag(info: Info, grouping: string, group: string): Option<bool> {
    match Lookup(info, grouping)
    case None => None
    case Some(flags) => Lookup(flags, group)
  }

  /** `$info[$grouping][$group] = $v`. */
  function SetFlag(info: Info, grouping: string, group: string, v: bool): (r: Info)
    requires WellFormed(info)
    ensures WellFormed(r)
  {
    var flags := Lookup(info, grouping).GetOr([]);
    Assign(info, grouping, Assign(flags, group, v))
  }

  lemma SetFlagEffect(info: Info, grouping: string, group: string, v: bool, a: string, b: string)
    requires WellFormed(info)
    ensures Flag(SetFlag(info, grouping, group, v), a, b) ==
      if a == grouping && b == group then Some(v) else Flag(info, a, b)
  {
    var flags := Lookup(info, grouping).GetOr([]);
    LookupAssign(info, grouping, Assign(flags, group, v), a);
    if a == grouping {
      LookupAssign(flags, group, v, b);
    }
  }

  /** A mapped group of an interest, not of the list's membership. */
  predicate IsInterest(d: GroupDetails) {
    !EmptyText(d.categoryId)
  }

  function InfoKeys(d: GroupDetails): (string, string) {
    (KeyText(d.groupingId), KeyText(d.groupId))
  }

  /** `$title2gid`: a title maps to the last group with that title. */
  function TitleIds(mapped: GroupTable): (r: seq<(string, int)>)
    ensures UniqueKeys(r)
    decreases |mapped|
  {
    if mapped == [] then []
    else
      var last := mapped[|mapped| - 1];
      Assign(TitleIds(mapped[..|mapped| - 1]), last.1.title, last.0)
  }

  /** `$membership_group_id`: the last group without a category; 0 stands
   *  for FALSE. */
  function MembershipId(mapped: GroupTable): int
    decreases |mapped|
  {
    if mapped == [] then 0
    else
      var last := mapped[|mapped| - 1];
      if !IsInterest(last.1) then last.0 else MembershipId(mapped[..|mapped| - 1])
  }

  /** `$grouping_group_ids`. */
  function InterestIds(mapped: GroupTable): seq<int>
    decreases |mapped|
  {
    if mapped == [] then []
    else
      var last := mapped[|mapped| - 1];
      InterestIds(mapped[..|mapped| - 1]) + (if IsInterest(last.1) then [last.0] else [])
  }

  /** `$default_info`: FALSE for every interest. */
  function DefaultInfo(mapped: GroupTable): (r: Info)
    ensures WellFormed(r)
    decreases |mapped|
  {
    if mapped == [] then []
    else
      var last := mapped[|mapped| - 1];
      var info := DefaultInfo(mapped[..|mapped| - 1]);
      if IsInterest(last.1) then SetFlag(info, InfoKeys(last.1).0, InfoKeys(last.1).1, false) else info
  }

  /** The flag a group title of a contact sets, if it names a mapped interest
   *  group. */
  function MarkedBy(mapped: GroupTable, title: string): Option<(string, string)> {
    match Lookup(TitleIds(mapped), title)
    case None => None
    case Some(gid) =>
      if gid !in InterestIds(mapped) then None
      else
        match Lookup(mapped, gid)
        case None => None
        case Some(d) => Some(InfoKeys(d))
  }

  /** The inner `foreach` over a contact's group titles. */
  function MarkTitles(info: Info, mapped: GroupTable, titles: seq<string>): (r: Info)
    requires WellFormed(info)
    ensures WellFormed(r)
    decreases |titles|
  {
    if titles == [] then info
    else
      var prev := MarkTitles(info, mapped, titles[..|titles| - 1]);
      match MarkedBy(mapped, titles[|titles| - 1])
      case None => prev
      case Some(keys) => SetFlag(prev, keys.0, keys.1, true)
  }

  /** The `$info` of one contact. */
  function ContactInfo(mapped: GroupTable, groups: string): Info {
    MarkTitles(DefaultInfo(mapped), mapped, Explode(groups, ","))
  }

  function InfoJson(info: Info): Json {
    JMap(seq(|info|, i requires 0 <= i < |info| =>
      (info[i].0, JMap(seq(|info[i].1|, j requires 0 <= j < |info[i].1| => (info[i].1[j].0, JBool(info[i].1[j].1)))))))
  }

  /** The row `syncCollectCiviCRM` stores for one contact. */
  function CollectedRow(contact: CiviContact, mapped: GroupTable, codec: Codec): CiviRow {
    var info := codec.serialize(InfoJson(ContactInfo(mapped, contact.groups)));
    CiviRow(contact.id, contact.emailId, contact.email, contact.firstName, contact.lastName,
            codec.md5(contact.email + contact.firstName + contact.lastName + info), info)
  }

  function CollectedRows(contacts: seq<CiviContact>, mapped: GroupTable, codec: Codec): (rows: seq<CiviRow>)
    ensures |rows| == |contacts|
  {
    seq(|contacts|, i requires 0 <= i < |contacts| => CollectedRow(contacts[i], mapped, codec))
  }

  /** Every mapped interest starts out FALSE; nothing else has a flag. */
  lemma {:induction false} DefaultFlags(mapped: GroupTable, a: string, b: string)
    ensures Flag(DefaultInfo(mapped), a, b) ==
      if exists g :: g in mapped && IsInterest(g.1) && InfoKeys(g.1) == (a, b) then Some(false) else None
    decreases |mapped|
  {
    if mapped != [] {
      var n := |mapped| - 1;
      var init := mapped[..n];
      DefaultFlags(init, a, b);
      assert mapped == init + [mapped[n]];
      if IsInterest(mapped[n].1) {
        SetFlagEffect(DefaultInfo(init), InfoKeys(mapped[n].1).0, InfoKeys(mapped[n].1).1, false, a, b);
      }
    }
  }

  /** A flag is TRUE exactly when one of the contact's titles names the
   *  interest group; otherwise it keeps its value. */
  lemma {:induction false} MarkTitlesFlags(info: Info, mapped: GroupTable, titles: seq<string>, a: string, b: string)
    requires WellFormed(info)
    ensures Flag(MarkTitles(info, mapped, titles), a, b) ==
      if exists t :: t in titles && MarkedBy(mapped, t) == Some((a, b)) then Some(true) else Flag(info, a, b)
    decreases |titles|
  {
    if titles != [] {
      var n := |titles| - 1;
      var init := titles[..n];
      MarkTitlesFlags(info, mapped, init, a, b);
      assert titles == init + [titles[n]];
      var prev := MarkTitles(info, mapped, init);
      match MarkedBy(mapped, titles[n])
      case None =>
      case Some(keys) => SetFlagEffect(prev, keys.0, keys.1, true, a, b);
    }
  }

  /** A title only ever marks a mapped interest group. */
  lemma {:induction false} InterestIdsExact(mapped: GroupTable, gid: int)
    ensures gid in InterestIds(mapped) <==> exists g :: g in mapped && g.0 == gid && IsInterest(g.1)
    decreases |mapped|
  {
    if mapped != [] {
      var n := |mapped| - 1;
      InterestIdsExact(mapped[..n], gid);
      assert mapped == mapped[..n] + [mapped[n]];
    }
  }

  /** The index of the last mapped group with a given title. */
  ghost predicate LastWithTitle(mapped: GroupTable, title: string, k: int) {
    0 <= k < |mapped| && mapped[k].1.title == title &&
    forall j :: k < j < |mapped| ==> mapped[j].1.title != title
  }

  /** `$title2gid[$title]` is the id of the last mapped group with that
   *  title, and is unset when no mapped group has it. */
  lemma {:induction false} TitleIdsLastWins(mapped: GroupTable, title: string)
    ensures Lookup(TitleIds(mapped), title).None? <==> forall g :: g in mapped ==> g.1.title != title
    ensures Lookup(TitleIds(mapped), title).Some? ==>
      exists k :: LastWithTitle(mapped, title, k) && mapped[k].0 == Lookup(TitleIds(mapped), title).value
    decreases |mapped|
  {
    if mapped != [] {
      var n := |mapped| - 1;
      var init := mapped[..n];
      TitleIdsLastWins(init, title);
      assert mapped == init + [mapped[n]];
      LookupAssign(TitleIds(init), mapped[n].1.title, mapped[n].0, title);
      if mapped[n].1.title == title {
        assert LastWithTitle(mapped, title, n);
      } else if Lookup(TitleIds(init), title).Some? {
        var k :| LastWithTitle(init, title, k) && init[k].0 == Lookup(TitleIds(init), title).value;
        assert LastWithTitle(mapped, title, k);
      }
    }
  }

  /** A title marks the interest flags of the last mapped group with that
   *  title, and only when that group is an interest group. */
  lemma MarkedIsInterest(mapped: GroupTable, title: string)
    requires UniqueKeys(mapped)
    ensures MarkedBy(mapped, title).Some? ==>
      exists k :: LastWithTitle(mapped, title, k) && IsInterest(mapped[k].1) &&
        InfoKeys(mapped[k].1) == MarkedBy(mapped, title).value
    ensures forall k :: LastWithTitle(mapped, title, k) && IsInterest(mapped[k].1) ==>
      MarkedBy(mapped, title) == Some(InfoKeys(mapped[k].1))
  {
    TitleIdsLastWins(mapped, title);
    match Lookup(TitleIds(mapped), title)
    case None =>
      forall k | 0 <= k < |mapped| ensures mapped[k].1.title != title {
        assert mapped[k] in mapped;
      }
    case Some(gid) =>
      var k :| LastWithTitle(mapped, title, k) && mapped[k].0 == gid;
      forall k' | LastWithTitle(mapped, title, k') ensures k' == k { }
      assert mapped[k] in mapped;
      LookupFinds(mapped, gid, mapped[k].1);
      InterestIdsExact(mapped, gid);
      if IsInterest(mapped[k].1) {
        assert gid in InterestIds(mapped);
      } else if gid in InterestIds(mapped) {
        var g :| g in mapped && g.0 == gid && IsInterest(g.1);
        KeyedEntryUnique(mapped, gid, g.1, mapped[k].1);
      }
  }

  /** A contact's info has a flag for exactly the mapped interests, TRUE for
   *  those one of its group titles names and FALSE for the rest. */
  lemma ContactFlags(mapped: GroupTable, groups: string, a: string, b: string)
    requires UniqueKeys(mapped)
    ensures var titles := Explode(groups, ",");
      Flag(ContactInfo(mapped, groups), a, b) ==
      if exists t :: t in titles && MarkedBy(mapped, t) == Some((a, b)) then Some(true)
      else if exists g :: g in mapped && IsInterest(g.1) && InfoKeys(g.1) == (a, b) then Some(false)
      else None
  {
    MarkTitlesFlags(DefaultInfo(mapped), mapped, Explode(groups, ","), a, b);
    DefaultFlags(mapped, a, b);
  }

  /** With no title shared by two mapped groups, a contact's flag is TRUE
   *  exactly for the interest groups whose title is one of the contact's
   *  group titles. */
  lemma ContactFlagsByTitle(mapped: GroupTable, groups: string, a: string, b: string)
    requires UniqueKeys(mapped) && TitlesTellApart(mapped)
    ensures Flag(ContactInfo(mapped, groups), a, b) == Some(true) <==>
      exists g :: g in mapped && IsInterest(g.1) && InfoKeys(g.1) == (a, b) && g.1.title in Explode(groups, ",")
  {
    var titles := Explode(groups, ",");
    ContactFlags(mapped, groups, a, b);
    if exists t :: t in titles && MarkedBy(mapped, t) == Some((a, b)) {
      var t :| t in titles && MarkedBy(mapped, t) == Some((a, b));
      MarkedIsInterest(mapped, t);
      var k :| LastWithTitle(mapped, t, k) && IsInterest(mapped[k].1) && InfoKeys(mapped[k].1) == (a, b);
      assert mapped[k] in mapped;
    }
    if exists g :: g in mapped && IsInterest(g.1) && InfoKeys(g.1) == (a, b) && g.1.title in titles {
      var g :| g in mapped && IsInterest(g.1) && InfoKeys(g.1) == (a, b) && g.1.title in titles;
      var k :| 0 <= k < |mapped| && mapped[k] == g;
      assert LastWithTitle(mapped, g.1.title, k) by {
        forall j | k < j < |mapped| ensures mapped[j].1.title != g.1.title {
          assert mapped[j] in mapped && mapped[j] != g;
        }
      }
      MarkedIsInterest(mapped, g.1.title);
    }
  }

  /** The membership group found is a mapped group without a category, and
   *  with every group id non-zero one is found whenever there is one. */
  lemma {:induction false} MembershipIdFound(mapped: GroupTable)
    ensures MembershipId(mapped) != 0 ==>
      exists g :: g in mapped && g.0 == MembershipId(mapped) && !IsInterest(g.1)
    ensures (forall g :: g in mapped ==> g.0 != 0) && (exists g :: g in mapped && !IsInterest(g.1)) ==>
      MembershipId(mapped) != 0
    decreases |mapped|
  {
    if mapped != [] {
      var n := |mapped| - 1;
      MembershipIdFound(mapped[..n]);
      assert mapped == mapped[..n] + [mapped[n]];
    }
  }

  const NoMembershipGroupMessage := "No CiviCRM group is mapped to determine membership of Mailchimp list "

  /** The scan of the mapped groups: `$title2gid`, the membership group,
   *  `$grouping_group_ids` and `$default_info`. */
  method ScanMappedGroups(mapped: GroupTable)
    returns (titleIds: seq<(string, int)>, membership: int, interestIds: seq<int>, defaults: Info)
    ensures titleIds == TitleIds(mapped) && membership == MembershipId(mapped)
    ensures interestIds == InterestIds(mapped) && defaults == DefaultInfo(mapped)
  {
    titleIds, membership, interestIds, defaults := [], 0, [], [];
    for k := 0 to |mapped|
      invariant titleIds == TitleIds(mapped[..k]) && membership == MembershipId(mapped[..k])
      invariant interestIds == InterestIds(mapped[..k]) && defaults == DefaultInfo(mapped[..k])
    {
      assert mapped[..k + 1][..k] == mapped[..k];
      var (gid, details) := mapped[k];
      titleIds := Assign(titleIds, details.title, gid);
      if EmptyText(details.categoryId) {
        membership := gid;
      } else {
        interestIds := interestIds + [gid];
        defaults := SetFlag(defaults, KeyText(details.groupingId), KeyText(details.groupId), false);
      }
    }
    assert mapped[..|mapped|] == mapped;
  }

  /** The `$info` of one contact, title by title. */
  method BuildInfo(mapped: GroupTable, titleIds: seq<(string, int)>, interestIds: seq<int>, defaults: Info,
                   groups: string) returns (info: Info)
    requires titleIds == TitleIds(mapped) && interestIds == InterestIds(mapped) && defaults == DefaultInfo(mapped)
    ensures info == ContactInfo(mapped, groups)
  {
    var titles := Explode(groups, ",");
    info := defaults;
    for i := 0 to |titles|
      invariant info == MarkTitles(defaults, mapped, titles[..i])
    {
      assert titles[..i + 1][..i] == titles[..i];
      var gid := Lookup(titleIds, titles[i]);
      if gid.Some? && gid.value in interestIds {
        var details := Lookup(mapped, gid.value);
        if details.Some? {
          info := SetFlag(info, KeyText(details.value.groupingId), KeyText(details.value.groupId), true);
        }
      }
    }
    assert titles[..|titles|] == titles;
  }

  /** `syncCollectCiviCRM($listID)`: `mapped` is what `getGroupsToSync`
   *  returns for the list and `contacts` what the Contact API returns for
   *  its membership group.  Returns the number of rows stored. */
  method SyncCollectCiviCRM(listId: string, mapped: GroupTable, contacts: seq<CiviContact>, codec: Codec,
                            tables: WorkingTables) returns (r: Result<int, Failure>)
    modifies tables`civi
    ensures MembershipId(mapped) == 0 ==>
      r == Failure(RuntimeError(NoMembershipGroupMessage + listId)) && tables.civi == []
    ensures MembershipId(mapped) != 0 ==>
      tables.civi == InsertCiviRows([], CollectedRows(contacts, mapped, codec)) && r == Success(|tables.civi|)
  {
    tables.civi := [];
    var titleIds, membership, interestIds, defaults := ScanMappedGroups(mapped);
    if membership == 0 {
      return Failure(RuntimeError(NoMembershipGroupMessage + listId));
    }
    ghost var rows := CollectedRows(contacts, mapped, codec);
    for k := 0 to |contacts|
      invariant InsertCiviRows(tables.civi, rows[k..]) == InsertCiviRows([], rows)
    {
      assert rows[k..][0] == rows[k] && rows[k..][1..] == rows[k + 1..];
      var contact := contacts[k];
      var info := BuildInfo(mapped, titleIds, interestIds, defaults, contact.groups);
      var serialized := codec.serialize(InfoJson(info));
      var hash := codec.md5(contact.email + contact.firstName + contact.lastName + serialized);
      var row := CiviRow(contact.id, contact.emailId, contact.email, contact.firstName, contact.lastName, hash, serialized);
      if !exists y :: y in tables.civi && SameCiviKey(row, y) {
        tables.civi := tables.civi + [row];
      }
    }
    assert rows[|contacts|..] == [];
    r := Success(|tables.civi|);
  }
}
