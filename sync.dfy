/** The reconciliation of one Mailchimp list with its CiviCRM groups
 *  (CRM/Mailchimp/Sync.php).  Both sides are reduced to rows of a working
 *  table: the e-mail address, the names and the contact's interests in a
 *  comparable form, with a hash of all of them.  Rows whose e-mail and hash
 *  agree need no work and are removed from both tables; what is left is
 *  pushed to Mailchimp.  The working tables are sequences of rows; the
 *  mapped groups, the CiviCRM contacts and the library functions are
 *  given; Mailchimp is the recording endpoint of `RemoteEndpoint`. */
module MailchimpSync {
  import opened Base
  import opened Strings
  import opened PhpArray
  import opened Http
  import opened RemoteEndpoint
  import opened MailchimpApi3
  import opened MailchimpGroups

  // ---------------------------------------------------------------------
  // The membership group and the interest groups

  /** The last group, in the order given, that decides membership of the
   *  list: the group the constructor's loop settles on. */
  function LastMembershipGroup(groups: GroupTable): (r: Option<int>)
    ensures r.None? <==> forall i :: 0 <= i < |groups| ==> !IsMembershipGroup(groups[i].1)
    ensures r.Some? ==> exists i :: (0 <= i < |groups| && groups[i].0 == r.value && IsMembershipGroup(groups[i].1)
      && forall j :: i < j < |groups| ==> !IsMembershipGroup(groups[j].1))
    decreases |groups|
  {
    var n := |groups|;
    if n == 0 then None
    else if IsMembershipGroup(groups[n - 1].1) then Some(groups[n - 1].0)
    else
      var r := LastMembershipGroup(groups[..n - 1]);
      assert forall i :: 0 <= i < n - 1 ==> groups[..n - 1][i] == groups[i];
      r
  }

  /** The loop of the constructor (and of `collectCiviCrm`) over the mapped
   *  groups. */
  method FindMembershipGroup(groups: GroupTable) returns (membership: Option<int>)
    ensures membership == LastMembershipGroup(groups)
  {
    membership := None;
    for k := 0 to |groups|
      invariant membership == LastMembershipGroup(groups[..k])
    {
      assert groups[..k + 1][..k] == groups[..k];
      if IsMembershipGroup(groups[k].1) {
        membership := Some(groups[k].0);
      }
    }
    assert groups[..|groups|] == groups;
  }

  /** The mapped groups without the membership group.  `unset` of the null
   *  id, when no group decides membership, removes nothing. */
  function InterestGroups(groups: GroupTable, membership: Option<int>): (r: GroupTable)
    ensures forall p :: p in r <==> p in groups && (membership.None? || p.0 != membership.value)
    ensures UniqueKeys(groups) ==> UniqueKeys(r)
  {
    if membership.None? then groups else Unset(groups, membership.value)
  }

  /** After construction the membership group is a mapped group that
   *  decides membership, and the interest groups are exactly the mapped
   *  groups under any other id. */
  lemma ConstructedGroups(groups: GroupTable)
    requires UniqueKeys(groups)
    ensures var m := LastMembershipGroup(groups);
      m.Some? ==> exists d :: (m.value, d) in groups && IsMembershipGroup(d)
    ensures var m := LastMembershipGroup(groups);
      m.Some? ==> m.value !in KeySet(InterestGroups(groups, m))
    ensures var m := LastMembershipGroup(groups);
      forall p :: p in groups && (m.None? || p.0 != m.value) ==> p in InterestGroups(groups, m)
  {
    var m := LastMembershipGroup(groups);
    if m.Some? {
      var i :| 0 <= i < |groups| && groups[i].0 == m.value && IsMembershipGroup(groups[i].1);
      assert (m.value, groups[i].1) in groups;
    }
  }

  // ---------------------------------------------------------------------
  // Comparable interests

  /** Interest flags keyed by Mailchimp interest id, as a PHP array. */
  type InterestFlags = seq<(string, bool)>

  /** The key `$info[$details['interest_id']]` writes: null becomes ''. */
  function InterestKey(d: GroupDetails): string {
    KeyText(d.interestId)
  }

  function InterestKeys(interest: GroupTable): set<string> {
    set p | p in interest :: InterestKey(p.1)
  }

  /** The flags as the JSON object sent to Mailchimp. */
  function InterestsJson(flags: InterestFlags): Json {
    JMap(seq(|flags|, i requires 0 <= i < |flags| => (flags[i].0, JBool(flags[i].1))))
  }

  /** The assignments the loop of `getComparableInterestsFromCiviCrmGroups`
   *  makes, in order: each interest group's flag is whether the titles
   *  string names that group. */
  function CiviPairs(titles: string, interest: GroupTable): InterestFlags {
    var found := SplitSpec(titles, interest);
    seq(|interest|, i requires 0 <= i < |interest| => (InterestKey(interest[i].1), interest[i].0 in found))
  }

  /** The assignments the loop of `getComparableInterestsFromMailchimp`
   *  makes, in order: each interest group's flag is whether Mailchimp's
   *  flag for that interest is non-empty. */
  function MailchimpPairs(interests: Json, interest: GroupTable): InterestFlags {
    seq(|interest|, i requires 0 <= i < |interest| =>
      (InterestKey(interest[i].1), Truthy(Prop(interests, InterestKey(interest[i].1)))))
  }

  lemma PairKeys(pairs: InterestFlags, interest: GroupTable)
    requires |pairs| == |interest|
    requires forall i :: 0 <= i < |interest| ==> pairs[i].0 == InterestKey(interest[i].1)
    ensures KeySet(pairs) == InterestKeys(interest)
  {
    forall k | k in InterestKeys(interest) ensures k in KeySet(pairs) {
      var p :| p in interest && InterestKey(p.1) == k;
      var i :| 0 <= i < |interest| && interest[i] == p;
      assert pairs[i] in pairs;
    }
    forall k | k in KeySet(pairs) ensures k in InterestKeys(interest) {
      var q :| q in pairs && q.0 == k;
      var i :| 0 <= i < |pairs| && pairs[i] == q;
      assert interest[i] in interest;
    }
  }

  /** `getComparableInterestsFromMailchimp($interests)`. */
  function MailchimpComparable(interests: Json, interest: GroupTable): InterestFlags {
    KSort(AssignAll([], MailchimpPairs(interests, interest)))
  }

  /** `getComparableInterestsFromCiviCrmGroups($groups)` with `$info`
   *  initialised to an empty array. */
  function CiviComparable(titles: string, interest: GroupTable): InterestFlags {
    KSort(AssignAll([], CiviPairs(titles, interest)))
  }

  /** The assignments of either loop, key-sorted: the keys are exactly the
   *  interest ids, ascending, and every entry is one the loop assigned. */
  lemma SortedFlags(pairs: InterestFlags, interest: GroupTable)
    requires |pairs| == |interest|
    requires forall i :: 0 <= i < |interest| ==> pairs[i].0 == InterestKey(interest[i].1)
    ensures KeysAscending(KSort(AssignAll([], pairs)))
    ensures KeySet(KSort(AssignAll([], pairs))) == InterestKeys(interest)
    ensures forall p :: p in KSort(AssignAll([], pairs)) ==> p in pairs
  {
    var info := AssignAll([], pairs);
    PairKeys(pairs, interest);
    AssignAllFrom([], pairs);
    KSortSameEntries(info);
    assert KeySet(KSort(info)) == KeySet(info) by {
      forall k | k in KeySet(info) ensures k in KeySet(KSort(info)) {
        var p :| p in info && p.0 == k;
      }
    }
  }

  /** `getComparableInterestsFromMailchimp` gives one flag per mapped
   *  interest, in ascending key order, true exactly when Mailchimp's flag
   *  for it is non-empty; interests Mailchimp reports that are not mapped
   *  are ignored. */
  lemma MailchimpComparableFlags(interests: Json, interest: GroupTable)
    ensures KeysAscending(MailchimpComparable(interests, interest))
    ensures KeySet(MailchimpComparable(interests, interest)) == InterestKeys(interest)
    ensures forall p :: p in MailchimpComparable(interests, interest) ==> p.1 == Truthy(Prop(interests, p.0))
  {
    SortedFlags(MailchimpPairs(interests, interest), interest);
  }

  /** A mapped interest Mailchimp says nothing about comes out false. */
  lemma MissingInterestIsFalse(interests: Json, interest: GroupTable, k: string)
    requires k in InterestKeys(interest)
    requires Prop(interests, k) == JNull
    ensures (k, false) in MailchimpComparable(interests, interest)
  {
    MailchimpComparableFlags(interests, interest);
    var r := MailchimpComparable(interests, interest);
    var p :| p in r && p.0 == k;
  }

  /** `getComparableInterestsFromCiviCrmGroups` gives one flag per interest
   *  group, in ascending key order, each assigned by the loop. */
  lemma CiviComparableFlags(titles: string, interest: GroupTable)
    ensures KeysAscending(CiviComparable(titles, interest))
    ensures KeySet(CiviComparable(titles, interest)) == InterestKeys(interest)
    ensures forall p :: p in CiviComparable(titles, interest) ==> p in CiviPairs(titles, interest)
  {
    SortedFlags(CiviPairs(titles, interest), interest);
  }

  /** When no two interest groups share an interest id, a group's flag is
   *  true exactly when `splitGroupTitles` finds that group in the titles. */
  lemma CiviFlagFollowsTitles(titles: string, interest: GroupTable, i: nat)
    requires i < |interest|
    requires forall j :: 0 <= j < |interest| && j != i ==> InterestKey(interest[j].1) != InterestKey(interest[i].1)
    ensures (InterestKey(interest[i].1), interest[i].0 in SplitSpec(titles, interest)) in CiviComparable(titles, interest)
    ensures (InterestKey(interest[i].1), !(interest[i].0 in SplitSpec(titles, interest))) !in CiviComparable(titles, interest)
  {
    var pairs := CiviPairs(titles, interest);
    AssignAllLastWins([], pairs, i);
    var info := AssignAll([], pairs);
    KSortSameEntries(info);
    CiviComparableFlags(titles, interest);
    AscendingIsUnique(CiviComparable(titles, interest));
  }

  /** With comma-free titles that tell the interest groups apart, an
   *  interest is TRUE on the CiviCRM side exactly when its group's title is
   *  one of the contact's comma-separated group titles. */
  lemma CiviFlagIsTitleListed(titles: string, interest: GroupTable, i: nat)
    requires i < |interest| && UniqueKeys(interest)
    requires forall j :: 0 <= j < |interest| && j != i ==> InterestKey(interest[j].1) != InterestKey(interest[i].1)
    requires (forall p :: p in interest ==> CommaFree(p.1.title)) && TitlesTellApart(interest)
    ensures (InterestKey(interest[i].1), true) in CiviComparable(titles, interest) <==>
      interest[i].1.title in Explode(titles, ",")
  {
    CiviFlagFollowsTitles(titles, interest, i);
    SplitFindsExplodedTitles(titles, interest, interest[i].0);
    assert interest[i] in interest;
    if exists d :: (interest[i].0, d) in interest && d.title in Explode(titles, ",") {
      var d :| (interest[i].0, d) in interest && d.title in Explode(titles, ",");
      KeyedEntryUnique(interest, interest[i].0, d, interest[i].1);
    }
  }

  /** When CiviCRM's groups and Mailchimp's flags agree on every interest
   *  group, both sides produce the same comparable interests, so the
   *  serialized forms and the hashes built from them agree too. */
  lemma AgreeingInterestsCompareEqual(titles: string, interests: Json, interest: GroupTable)
    requires forall i :: 0 <= i < |interest| ==>
      (interest[i].0 in SplitSpec(titles, interest)) == Truthy(Prop(interests, InterestKey(interest[i].1)))
    ensures CiviComparable(titles, interest) == MailchimpComparable(interests, interest)
  {
    assert CiviPairs(titles, interest) == MailchimpPairs(interests, interest);
  }

  /** `getComparableInterestsFromCiviCrmGroups($groups)` as written: `$info`
   *  is never initialised, so with no interest group the loop assigns
   *  nothing and `ksort` is handed null, which comes back as the result. */
  function CiviComparableAsWritten(titles: string, interest: GroupTable): Json {
    if interest == [] then JNull else InterestsJson(CiviComparable(titles, interest))
  }

  /** As written, a list with only a membership group gives CiviCRM rows an
   *  interest value (null) that never equals the Mailchimp one (an empty
   *  array), so their hashes are built from different serializations and
   *  no contact is ever found in sync.  The initialised version agrees. */
  lemma NoInterestGroupsAsWritten(titles: string, interests: Json)
    ensures CiviComparableAsWritten(titles, []) != InterestsJson(MailchimpComparable(interests, []))
    ensures InterestsJson(CiviComparable(titles, [])) == InterestsJson(MailchimpComparable(interests, []))
  {
    AgreeingInterestsCompareEqual(titles, interests, []);
  }

  // ---------------------------------------------------------------------
  // The working tables

  /** A row of `tmp_mailchimp_push_m`: a subscriber as Mailchimp has it. */
  datatype MailchimpRow = MailchimpRow(email: string, firstName: string, lastName: string, hash: string, interests: string)

  /** A row of `tmp_mailchimp_push_c`: a contact as CiviCRM has it. */
  datatype CiviRow = CiviRow(contactId: int, emailId: int, email: string, firstName: string, lastName: string,
                             hash: string, interests: string)

  /** The join condition `m.email = c.email AND m.hash = c.hash` under the
   *  tables' case-insensitive collation. */
  predicate InSync(m: MailchimpRow, c: CiviRow) {
    SameText(m.email, c.email) && SameText(m.hash, c.hash)
  }

  predicate HasCiviPartner(m: MailchimpRow, cs: seq<CiviRow>) {
    exists c :: c in cs && InSync(m, c)
  }

  predicate HasMailchimpPartner(c: CiviRow, ms: seq<MailchimpRow>) {
    exists m :: m in ms && InSync(m, c)
  }

  /** The number of CiviCRM rows the join pairs with one Mailchimp row. */
  function Partners(m: MailchimpRow, cs: seq<CiviRow>): nat
    decreases |cs|
  {
    if cs == [] then 0 else (if InSync(m, cs[0]) then 1 else 0) + Partners(m, cs[1..])
  }

  /** The number of rows of the inner join of the two tables. */
  function PairCount(ms: seq<MailchimpRow>, cs: seq<CiviRow>): nat
    decreases |ms|
  {
    if ms == [] then 0 else Partners(ms[0], cs) + PairCount(ms[1..], cs)
  }

  lemma {:induction false} PartnersZero(m: MailchimpRow, cs: seq<CiviRow>)
    ensures Partners(m, cs) == 0 <==> !HasCiviPartner(m, cs)
    decreases |cs|
  {
    if cs != [] {
      PartnersZero(m, cs[1..]);
      assert cs[0] in cs;
      assert forall c :: c in cs[1..] ==> c in cs;
      assert forall c :: c in cs ==> c == cs[0] || c in cs[1..];
    }
  }

  /** The join is empty exactly when no Mailchimp row has a partner. */
  lemma {:induction false} PairCountZero(ms: seq<MailchimpRow>, cs: seq<CiviRow>)
    ensures PairCount(ms, cs) == 0 <==> forall m :: m in ms ==> !HasCiviPartner(m, cs)
    decreases |ms|
  {
    if ms != [] {
      PartnersZero(ms[0], cs);
      PairCountZero(ms[1..], cs);
      assert ms[0] in ms;
      assert forall m :: m in ms[1..] ==> m in ms;
      assert forall m :: m in ms ==> m == ms[0] || m in ms[1..];
    }
  }

  /** `DELETE m, c ... INNER JOIN` on the Mailchimp side: the rows without a
   *  partner, in their order. */
  function UnpairedMailchimp(ms: seq<MailchimpRow>, cs: seq<CiviRow>): (r: seq<MailchimpRow>)
    ensures forall m :: m in r <==> m in ms && !HasCiviPartner(m, cs)
    ensures |r| <= |ms|
    decreases |ms|
  {
    if ms == [] then []
    else
      var rest := UnpairedMailchimp(ms[1..], cs);
      assert forall m :: m in ms <==> m == ms[0] || m in ms[1..];
      if HasCiviPartner(ms[0], cs) then rest else [ms[0]] + rest
  }

  /** The same on the CiviCRM side. */
  function UnpairedCivi(cs: seq<CiviRow>, ms: seq<MailchimpRow>): (r: seq<CiviRow>)
    ensures forall c :: c in r <==> c in cs && !HasMailchimpPartner(c, ms)
    ensures |r| <= |cs|
    decreases |cs|
  {
    if cs == [] then []
    else
      var rest := UnpairedCivi(cs[1..], ms);
      assert forall c :: c in cs <==> c == cs[0] || c in cs[1..];
      if HasMailchimpPartner(cs[0], ms) then rest else [cs[0]] + rest
  }

  /** With nothing to pair, both tables are left as they are. */
  lemma {:induction false} NothingPairedKeepsTables(ms: seq<MailchimpRow>, cs: seq<CiviRow>)
    requires forall m :: m in ms ==> !HasCiviPartner(m, cs)
    ensures UnpairedMailchimp(ms, cs) == ms
    ensures UnpairedCivi(cs, ms) == cs
  {
    KeepsUnpairedMailchimp(ms, cs);
    KeepsUnpairedCivi(cs, ms);
  }

  lemma {:induction false} KeepsUnpairedMailchimp(ms: seq<MailchimpRow>, cs: seq<CiviRow>)
    requires forall m :: m in ms ==> !HasCiviPartner(m, cs)
    ensures UnpairedMailchimp(ms, cs) == ms
    decreases |ms|
  {
    if ms != [] {
      assert ms[0] in ms;
      assert forall m :: m in ms[1..] ==> m in ms;
      KeepsUnpairedMailchimp(ms[1..], cs);
      assert ms == [ms[0]] + ms[1..];
    }
  }

  lemma {:induction false} KeepsUnpairedCivi(cs: seq<CiviRow>, ms: seq<MailchimpRow>)
    requires forall m :: m in ms ==> !HasCiviPartner(m, cs)
    ensures UnpairedCivi(cs, ms) == cs
    decreases |cs|
  {
    if cs != [] {
      assert cs[0] in cs;
      assert !HasMailchimpPartner(cs[0], ms) by {
        forall m | m in ms ensures !InSync(m, cs[0]) {
          assert !HasCiviPartner(m, cs);
        }
      }
      assert forall c :: c in cs[1..] ==> c in cs;
      KeepsUnpairedCivi(cs[1..], ms);
      assert cs == [cs[0]] + cs[1..];
    }
  }

  /** After `removeInSync` no row left in either table has a partner in the
   *  other, so a second run counts nothing and deletes nothing. */
  lemma NoPairsRemain(ms: seq<MailchimpRow>, cs: seq<CiviRow>)
    ensures forall m, c :: m in UnpairedMailchimp(ms, cs) && c in UnpairedCivi(cs, ms) ==> !InSync(m, c)
    ensures PairCount(UnpairedMailchimp(ms, cs), UnpairedCivi(cs, ms)) == 0
  {
    var ms', cs' := UnpairedMailchimp(ms, cs), UnpairedCivi(cs, ms);
    forall m, c | m in ms' && c in cs' ensures !InSync(m, c) {
      assert c in cs;
    }
    PairCountZero(ms', cs');
  }

  /** The e-mails of the Mailchimp rows that no CiviCRM row has (the query
   *  of `getEmailsNotInCiviButInMailchimp`). */
  predicate EmailInCivi(email: string, cs: seq<CiviRow>) {
    exists c :: c in cs && SameText(c.email, email)
  }

  function EmailsNotInCivi(ms: seq<MailchimpRow>, cs: seq<CiviRow>): (r: seq<string>)
    ensures forall e :: e in r <==> exists m :: m in ms && m.email == e && !EmailInCivi(e, cs)
    ensures |r| <= |ms|
    decreases |ms|
  {
    if ms == [] then []
    else
      var rest := EmailsNotInCivi(ms[1..], cs);
      assert forall m :: m in ms <==> m == ms[0] || m in ms[1..];
      if EmailInCivi(ms[0].email, cs) then rest else [ms[0].email] + rest
  }

  /** A subscriber CiviCRM does not have is one the query reports, so the
   *  list the method should return is not empty. */
  lemma MissingSubscriberReported(ms: seq<MailchimpRow>, cs: seq<CiviRow>, m: MailchimpRow)
    requires m in ms && !EmailInCivi(m.email, cs)
    ensures m.email in EmailsNotInCivi(ms, cs)
    ensures EmailsNotInCivi(ms, cs) != []
  {
  }

  class WorkingTables {
    var mailchimp: seq<MailchimpRow>
    var civi: seq<CiviRow>

    constructor()
      ensures mailchimp == [] && civi == []
    {
      mailchimp := [];
      civi := [];
    }
  }

  // ---------------------------------------------------------------------
  // Building the rows

  /** A merge field of a subscriber: '' unless it is set and not null. */
  function MergeField(member: Json, tag: string): (r: string)
    ensures Prop(Prop(member, "merge_fields"), tag) == JNull ==> r == ""
    ensures Prop(Prop(member, "merge_fields"), tag).JStr? ==> r == Prop(Prop(member, "merge_fields"), tag).s
  {
    var v := Prop(Prop(member, "merge_fields"), tag);
    if v == JNull then "" else Text(v)
  }

  /** The row `collectMailchimp` stores for one subscriber. */
  function MemberRow(member: Json, interest: GroupTable, codec: Codec): MailchimpRow {
    var email := Text(Prop(member, "email_address"));
    var first := MergeField(member, "FNAME");
    var last := MergeField(member, "LNAME");
    var interests := codec.serialize(InterestsJson(MailchimpComparable(Prop(member, "interests"), interest)));
    MailchimpRow(email, first, last, codec.md5(email + first + last + interests), interests)
  }

  /** A contact as CiviCRM's contact API returns it; `groups` is the titles
   *  of the contact's groups joined by commas. */
  datatype CiviContact = CiviContact(id: int, emailId: int, email: string, firstName: string, lastName: string, groups: string)

  /** The row `collectCiviCrm` stores for one contact. */
  function ContactRow(contact: CiviContact, interest: GroupTable, codec: Codec): (r: CiviRow)
    ensures (r.contactId, r.emailId, r.email, r.firstName, r.lastName) ==
      (contact.id, contact.emailId, contact.email, contact.firstName, contact.lastName)
    ensures r.interests == codec.serialize(InterestsJson(CiviComparable(contact.groups, interest)))
    ensures r.hash == codec.md5(r.email + r.firstName + r.lastName + r.interests)
  {
    var info := codec.serialize(InterestsJson(CiviComparable(contact.groups, interest)));
    CiviRow(contact.id, contact.emailId, contact.email, contact.firstName, contact.lastName,
            codec.md5(contact.email + contact.firstName + contact.lastName + info), info)
  }

  /** A subscriber and a contact with the same e-mail and names, whose
   *  interests agree on every interest group, produce rows the join pairs:
   *  `removeInSync` drops them and nothing is pushed for them. */
  lemma AgreeingContactIsInSync(member: Json, contact: CiviContact, interest: GroupTable, codec: Codec)
    requires Prop(member, "email_address") == JStr(contact.email)
    requires MergeField(member, "FNAME") == contact.firstName && MergeField(member, "LNAME") == contact.lastName
    requires forall i :: 0 <= i < |interest| ==>
      (interest[i].0 in SplitSpec(contact.groups, interest)) == Truthy(Prop(Prop(member, "interests"), InterestKey(interest[i].1)))
    ensures InSync(MemberRow(member, interest, codec), ContactRow(contact, interest, codec))
  {
    AgreeingInterestsCompareEqual(contact.groups, Prop(member, "interests"), interest);
  }

  /** The primary key of `tmp_mailchimp_push_m` is `(email, hash)`. */
  predicate SameMailchimpKey(a: MailchimpRow, b: MailchimpRow) {
    SameText(a.email, b.email) && SameText(a.hash, b.hash)
  }

  const DuplicateRowMessage := "DB Error: already exists"

  /** The prepared inserts of `collectMailchimp`, one row after another: a
   *  row whose key is taken makes the insert fail, and the exception
   *  thrown for it ends the collection with the rows before it stored. */
  function InsertMailchimpRows(table: seq<MailchimpRow>, rows: seq<MailchimpRow>)
    : (r: (seq<MailchimpRow>, Outcome<Failure>))
    ensures r.1.Pass? ==> r.0 == table + rows
    ensures r.1.Fail? ==> r.1.error == RuntimeError(DuplicateRowMessage)
    ensures |table| <= |r.0| && r.0[..|table|] == table
    decreases |rows|
  {
    if rows == [] then (table, Pass)
    else if exists x :: x in table && SameMailchimpKey(x, rows[0]) then (table, Fail(RuntimeError(DuplicateRowMessage)))
    else
      var r := InsertMailchimpRows(table + [rows[0]], rows[1..]);
      assert r.0[..|table|] == (table + [rows[0]])[..|table|] by {
        assert r.0[..|table|] == r.0[..|table| + 1][..|table|];
      }
      assert rows == [rows[0]] + rows[1..];
      r
  }

  /** The primary key of `tmp_mailchimp_push_c` is `(email_id, email, hash)`. */
  predicate SameCiviKey(a: CiviRow, b: CiviRow) {
    a.emailId == b.emailId && SameText(a.email, b.email) && SameText(a.hash, b.hash)
  }

  /** The inserts of `collectCiviCrm`, whose result is not checked: a row
   *  whose key is taken is not stored, and the loop goes on. */
  function InsertCiviRows(table: seq<CiviRow>, rows: seq<CiviRow>): (r: seq<CiviRow>)
    ensures |table| <= |r| && r[..|table|] == table
    ensures forall x :: x in r ==> x in table || x in rows
    ensures forall x :: x in rows ==> exists y :: y in r && SameCiviKey(x, y)
    decreases |rows|
  {
    if rows == [] then table
    else
      var next := if exists y :: y in table && SameCiviKey(rows[0], y) then table else table + [rows[0]];
      var r := InsertCiviRows(next, rows[1..]);
      assert r[..|table|] == next[..|table|] by {
        assert r[..|table|] == r[..|next|][..|table|];
      }
      assert forall x :: x in rows <==> x == rows[0] || x in rows[1..];
      assert exists y :: y in next && SameCiviKey(rows[0], y) by {
        if next == table + [rows[0]] {
          assert rows[0] in next;
        }
      }
      assert forall y :: y in next ==> y in r by {
        forall y | y in next ensures y in r {
          var k :| 0 <= k < |next| && next[k] == y;
          assert r[..|next|][k] == y;
        }
      }
      r
  }

  /** The rows of several subscribers, in order. */
  function MemberRows(items: seq<Json>, interest: GroupTable, codec: Codec): (rows: seq<MailchimpRow>)
    ensures |rows| == |items|
  {
    seq(|items|, i requires 0 <= i < |items| => MemberRow(items[i], interest, codec))
  }

  lemma MemberRowsAppend(a: seq<Json>, b: seq<Json>, interest: GroupTable, codec: Codec)
    ensures MemberRows(a + b, interest, codec) == MemberRows(a, interest, codec) + MemberRows(b, interest, codec)
  {
    var l, r := MemberRows(a + b, interest, codec), MemberRows(a, interest, codec) + MemberRows(b, interest, codec);
    assert |l| == |r|;
    forall i | 0 <= i < |l| ensures l[i] == r[i] {
      assert l[i] == MemberRow((a + b)[i], interest, codec);
      if i < |a| {
        assert (a + b)[i] == a[i];
        assert r[i] == MemberRows(a, interest, codec)[i] == MemberRow(a[i], interest, codec);
      } else {
        assert (a + b)[i] == b[i - |a|];
        assert r[i] == MemberRows(b, interest, codec)[i - |a|] == MemberRow(b[i - |a|], interest, codec);
      }
    }
  }

  /** The rows of several contacts, in order. */
  function ContactRows(contacts: seq<CiviContact>, interest: GroupTable, codec: Codec): (rows: seq<CiviRow>)
    ensures |rows| == |contacts|
  {
    seq(|contacts|, i requires 0 <= i < |contacts| => ContactRow(contacts[i], interest, codec))
  }

  /** Row `i` meets its key already stored: in the table, or among the
   *  rows inserted before it. */
  ghost predicate KeyTaken(table: seq<MailchimpRow>, rows: seq<MailchimpRow>, i: int) {
    0 <= i < |rows| && exists x :: x in table + rows[..i] && SameMailchimpKey(x, rows[i])
  }

  lemma KeyTakenShift(table: seq<MailchimpRow>, rows: seq<MailchimpRow>, i: int)
    requires 0 < i < |rows|
    ensures KeyTaken(table + [rows[0]], rows[1..], i - 1) == KeyTaken(table, rows, i)
  {
    assert (table + [rows[0]]) + rows[1..][..i - 1] == table + rows[..i];
    assert rows[1..][i - 1] == rows[i];
  }

  /** The first row whose key is taken stops the inserts with the duplicate
   *  error; the rows before it stay stored, it and the rows after it are
   *  not. */
  lemma {:induction false} DuplicateStopsInserts(table: seq<MailchimpRow>, rows: seq<MailchimpRow>, i: int)
    requires KeyTaken(table, rows, i)
    requires forall j :: 0 <= j < i ==> !KeyTaken(table, rows, j)
    ensures InsertMailchimpRows(table, rows) == (table + rows[..i], Fail(RuntimeError(DuplicateRowMessage)))
    decreases |rows|
  {
    assert table + rows[..0] == table;
    if i > 0 {
      assert !KeyTaken(table, rows, 0);
      forall j | 0 <= j < i - 1 ensures !KeyTaken(table + [rows[0]], rows[1..], j) {
        KeyTakenShift(table, rows, j + 1);
      }
      KeyTakenShift(table, rows, i);
      DuplicateStopsInserts(table + [rows[0]], rows[1..], i - 1);
      assert rows[..i] == [rows[0]] + rows[1..][..i - 1];
      assert (table + [rows[0]]) + rows[1..][..i - 1] == table + ([rows[0]] + rows[1..][..i - 1]);
    }
  }

  /** The inserts all succeed iff no row meets its key already stored. */
  lemma {:induction false} InsertsPassIffKeysFree(table: seq<MailchimpRow>, rows: seq<MailchimpRow>)
    ensures InsertMailchimpRows(table, rows).1.Pass? <==> forall i :: 0 <= i < |rows| ==> !KeyTaken(table, rows, i)
    decreases |rows|
  {
    if rows != [] {
      assert table + rows[..0] == table;
      if exists x :: x in table && SameMailchimpKey(x, rows[0]) {
        assert KeyTaken(table, rows, 0);
      } else {
        assert !KeyTaken(table, rows, 0);
        var t := table + [rows[0]];
        assert InsertMailchimpRows(table, rows) == InsertMailchimpRows(t, rows[1..]);
        InsertsPassIffKeysFree(t, rows[1..]);
        forall i | 0 < i < |rows| ensures KeyTaken(t, rows[1..], i - 1) == KeyTaken(table, rows, i) {
          KeyTakenShift(table, rows, i);
        }
        if forall i :: 0 <= i < |rows| ==> !KeyTaken(table, rows, i) {
          forall k | 0 <= k < |rows[1..]| ensures !KeyTaken(t, rows[1..], k) {
            assert !KeyTaken(table, rows, k + 1);
          }
        } else {
          var i :| 0 <= i < |rows| && KeyTaken(table, rows, i);
          assert KeyTaken(t, rows[1..], i - 1);
        }
      }
    }
  }

  predicate KeysDistinct(rows: seq<MailchimpRow>) {
    forall i, j :: 0 <= i < j < |rows| ==> !SameMailchimpKey(rows[i], rows[j])
  }

  /** One more row at the end: it is appended iff no row already stored
   *  shares its key. */
  lemma {:induction false} InsertCiviRowsLast(table: seq<CiviRow>, rows: seq<CiviRow>, x: CiviRow)
    ensures var before := InsertCiviRows(table, rows);
      InsertCiviRows(table, rows + [x]) ==
        if exists y :: y in before && SameCiviKey(x, y) then before else before + [x]
    decreases |rows|
  {
    if rows != [] {
      assert (rows + [x])[0] == rows[0] && (rows + [x])[1..] == rows[1..] + [x];
      var next := if exists y :: y in table && SameCiviKey(rows[0], y) then table else table + [rows[0]];
      InsertCiviRowsLast(next, rows[1..], x);
    }
  }

  predicate CiviKeysApart(s: seq<CiviRow>) {
    forall i, j :: 0 <= i < j < |s| ==> !SameCiviKey(s[i], s[j])
  }

  /** A table with no key twice keeps no key twice. */
  lemma {:induction false} InsertCiviRowsApart(table: seq<CiviRow>, rows: seq<CiviRow>)
    requires CiviKeysApart(table)
    ensures CiviKeysApart(InsertCiviRows(table, rows))
    decreases |rows|
  {
    if rows != [] {
      if !exists y :: y in table && SameCiviKey(rows[0], y) {
        var next := table + [rows[0]];
        forall i, j | 0 <= i < j < |next| ensures !SameCiviKey(next[i], next[j]) {
          if j == |table| {
            assert table[i] in table;
            assert !SameCiviKey(rows[0], table[i]);
          }
        }
        InsertCiviRowsApart(next, rows[1..]);
      } else {
        InsertCiviRowsApart(table, rows[1..]);
      }
    }
  }

  /** Rows whose keys are all different are all stored. */
  lemma {:induction false} DistinctRowsInserted(table: seq<MailchimpRow>, rows: seq<MailchimpRow>)
    requires KeysDistinct(table + rows)
    ensures InsertMailchimpRows(table, rows) == (table + rows, Pass)
    decreases |rows|
  {
    if rows != [] {
      var all := table + rows;
      assert all[|table|] == rows[0];
      forall x | x in table ensures !SameMailchimpKey(x, rows[0]) {
        var k :| 0 <= k < |table| && table[k] == x;
        assert all[k] == x;
      }
      assert (table + [rows[0]]) + rows[1..] == all;
      DistinctRowsInserted(table + [rows[0]], rows[1..]);
    }
  }

  // ---------------------------------------------------------------------
  // Paging through the list's members

  const PageSize := 1000
  const MemberFields := "total_items,members.email_address,members.merge_fields,members.interests"

  function MembersPath(listId: string): string {
    "/lists/" + listId + "/members"
  }

  function PageQuery(offset: int): Json {
    JMap([("offset", JNum(offset)), ("count", JNum(PageSize)), ("status", JStr("subscribed")), ("fields", JStr(MemberFields))])
  }

  /** The request for the page of subscribers starting at `offset`. */
  function PageCall(listId: string, offset: int): Call {
    Call("GET", MembersPath(listId), Some(PageQuery(offset)))
  }

  function Min(a: int, b: int): int {
    if a < b then a else b
  }

  /** The subscribers from `offset` on, and the page of them starting there. */
  function Rest(members: seq<Json>, offset: nat): seq<Json> {
    if offset >= |members| then [] else members[offset..]
  }

  function Page(members: seq<Json>, offset: nat): seq<Json> {
    if offset >= |members| then [] else members[offset..Min(offset + PageSize, |members|)]
  }

  /** What Mailchimp sends for a page of a listing of subscribers. */
  function PageData(members: seq<Json>, offset: nat): Json {
    JObj([("total_items", JNum(|members|)), ("members", JList(Page(members, offset)))])
  }

  /** Mailchimp answers every page request that succeeds with that page of
   *  one and the same listing. */
  ghost predicate Serves(reply: (nat, Call) -> Result<Response, Failure>, listId: string, members: seq<Json>) {
    forall n: nat, offset: nat :: reply(n, PageCall(listId, offset)).Success? ==>
      reply(n, PageCall(listId, offset)).value.data == PageData(members, offset)
  }

  /** A page request that succeeds gets the total and the page. */
  lemma PageAnswer(reply: (nat, Call) -> Result<Response, Failure>, listId: string, members: seq<Json>,
                   n: nat, offset: nat, resp: Response)
    requires Serves(reply, listId, members)
    requires reply(n, PageCall(listId, offset)) == Success(resp)
    ensures Prop(resp.data, "total_items") == JNum(|members|)
    ensures Prop(resp.data, "members") == JList(Page(members, offset))
  {
    var es := [("total_items", JNum(|members|)), ("members", JList(Page(members, offset)))];
    assert resp.data == JObj(es);
    LastValueAt(es, "total_items", 0);
    LastValueAt(es, "members", 1);
  }

  lemma AppendAssociates<T>(a: seq<T>, b: seq<T>, c: seq<T>)
    ensures (a + b) + c == a + (b + c)
  {
  }

  /** The page requests made from `offset` on, `count` of them. */
  function PageCalls(listId: string, offset: int, count: nat): (r: seq<Call>)
    ensures |r| == count
    decreases count
  {
    if count == 0 then [] else [PageCall(listId, offset)] + PageCalls(listId, offset + PageSize, count - 1)
  }

  /** The `i`-th of them requests the page `i` pages further on. */
  lemma {:induction false} PageCallsAt(listId: string, offset: int, count: nat, i: nat)
    requires i < count
    ensures PageCalls(listId, offset, count)[i] == PageCall(listId, offset + PageSize * i)
    decreases count
  {
    if i > 0 {
      PageCallsAt(listId, offset + PageSize, count - 1, i - 1);
      assert offset + PageSize + PageSize * (i - 1) == offset + PageSize * i;
    }
  }

  /** One more page request in front of the later ones. */
  lemma ExtendCalls(listId: string, offset: int, trace: seq<Call>, k: nat, after: seq<Call>)
    requires after == (trace + [PageCall(listId, offset)]) + PageCalls(listId, offset + PageSize, k)
    ensures |after| == |trace| + k + 1
    ensures trace <= after && after == trace + PageCalls(listId, offset, k + 1)
  {
    assert PageCalls(listId, offset, k + 1) == [PageCall(listId, offset)] + PageCalls(listId, offset + PageSize, k);
    AppendAssociates(trace, [PageCall(listId, offset)], PageCalls(listId, offset + PageSize, k));
  }

  /** A single page request. */
  lemma OneCall(listId: string, offset: int, trace: seq<Call>)
    ensures trace <= trace + [PageCall(listId, offset)]
    ensures trace + [PageCall(listId, offset)] == trace + PageCalls(listId, offset, 1)
  {
    assert PageCalls(listId, offset, 1) == [PageCall(listId, offset)] + PageCalls(listId, offset + PageSize, 0);
  }

  lemma PrefixTransitive<T>(a: seq<T>, b: seq<T>, c: seq<T>)
    requires a <= b && b <= c
    ensures a <= c
  {
    assert c[..|a|] == c[..|b|][..|a|];
  }

  /** A later state of the paging loop begun from `trace`, `offset` and
   *  `table`: calls and rows only appended, and every call made a page
   *  request, the first at `offset` and each one a page further on. */
  ghost predicate PagedOn(listId: string, trace: seq<Call>, offset: int, table: seq<MailchimpRow>,
                          r: (seq<Call>, seq<MailchimpRow>, Outcome<Failure>))
  {
    trace <= r.0 && table <= r.1 && r.0 == trace + PageCalls(listId, offset, |r.0| - |trace|)
  }

  lemma PagedOnStep(listId: string, trace: seq<Call>, offset: int, table: seq<MailchimpRow>,
                    t: seq<MailchimpRow>, r: (seq<Call>, seq<MailchimpRow>, Outcome<Failure>))
    requires table <= t
    requires PagedOn(listId, trace + [PageCall(listId, offset)], offset + PageSize, t, r)
    ensures PagedOn(listId, trace, offset, table, r)
  {
    var k := |r.0| - |trace + [PageCall(listId, offset)]|;
    assert |trace + [PageCall(listId, offset)]| == |trace| + 1;
    ExtendCalls(listId, offset, trace, k, r.0);
    PrefixTransitive(table, t, r.1);
  }

  lemma PagedOnFirst(listId: string, trace: seq<Call>, offset: int, table: seq<MailchimpRow>,
                     t: seq<MailchimpRow>, o: Outcome<Failure>)
    requires table <= t
    ensures PagedOn(listId, trace, offset, table, (trace + [PageCall(listId, offset)], t, o))
  {
    OneCall(listId, offset, trace);
  }

  /** The loop of `collectMailchimp` from a state of its fetch closure on:
   *  the calls made, the rows stored and how it ends.  A page is requested
   *  only while the offset is below the total seen last; each request
   *  advances the offset by a page; an empty page ends the loop. */
  function CollectFrom(listId: string, members: seq<Json>, interest: GroupTable, codec: Codec,
                       reply: (nat, Call) -> Result<Response, Failure>, trace: seq<Call>,
                       offset: nat, total: Option<int>, table: seq<MailchimpRow>)
    : (r: (seq<Call>, seq<MailchimpRow>, Outcome<Failure>))
    requires Serves(reply, listId, members)
    requires total.Some? ==> total.value == |members|
    decreases if total.None? then |members| + 1 else if offset >= |members| then 0 else |members| - offset
  {
    if total.Some? && offset >= total.value then (trace, table, Pass)
    else
      var call := PageCall(listId, offset);
      match reply(|trace|, call)
      case Failure(f) => (trace + [call], table, Fail(f))
      case Success(resp) =>
        var page := Prop(resp.data, "members");
        if !Truthy(page) then (trace + [call], table, Pass)
        else
          var (t, o) := InsertMailchimpRows(table, MemberRows(Items(page), interest, codec));
          if o.Fail? then (trace + [call], t, o)
          else
            PageAnswer(reply, listId, members, |trace|, offset, resp);
            CollectFrom(listId, members, interest, codec, reply, trace + [call], offset + PageSize,
                        Some(IntCast(Prop(resp.data, "total_items"))), t)
  }

  /** Once the offset reaches a known total nothing more is fetched; calls
   *  and rows are only ever appended; and every call made requests a page,
   *  the first at the offset the loop starts from and each one a page
   *  further on. */
  lemma {:induction false} CollectFromAppends(listId: string, members: seq<Json>, interest: GroupTable, codec: Codec,
                                              reply: (nat, Call) -> Result<Response, Failure>, trace: seq<Call>,
                                              offset: nat, total: Option<int>, table: seq<MailchimpRow>)
    requires Serves(reply, listId, members)
    requires total.Some? ==> total.value == |members|
    ensures var r := CollectFrom(listId, members, interest, codec, reply, trace, offset, total, table);
      (total.Some? && offset >= total.value ==> r == (trace, table, Pass)) &&
      PagedOn(listId, trace, offset, table, r)
    decreases if total.None? then |members| + 1 else if offset >= |members| then 0 else |members| - offset
  {
    var r := CollectFrom(listId, members, interest, codec, reply, trace, offset, total, table);
    if total.Some? && offset >= total.value {
      assert r == (trace, table, Pass);
      assert trace + PageCalls(listId, offset, 0) == trace;
    } else {
      var call := PageCall(listId, offset);
      match reply(|trace|, call)
      case Failure(f) =>
        assert r == (trace + [call], table, Fail(f));
        PagedOnFirst(listId, trace, offset, table, table, Fail(f));
      case Success(resp) =>
        var page := Prop(resp.data, "members");
        if !Truthy(page) {
          assert r == (trace + [call], table, Pass);
          PagedOnFirst(listId, trace, offset, table, table, Pass);
        } else {
          var (t, o) := InsertMailchimpRows(table, MemberRows(Items(page), interest, codec));
          assert table <= t;
          if o.Fail? {
            assert r == (trace + [call], t, o);
            PagedOnFirst(listId, trace, offset, table, t, o);
          } else {
            PageAnswer(reply, listId, members, |trace|, offset, resp);
            var more := Some(IntCast(Prop(resp.data, "total_items")));
            CollectFromAppends(listId, members, interest, codec, reply, trace + [call], offset + PageSize, more, t);
            assert r == CollectFrom(listId, members, interest, codec, reply, trace + [call], offset + PageSize, more, t);
            PagedOnStep(listId, trace, offset, table, t, r);
          }
        }
    }
  }

  /** One page of a listing whose pages are all answered: its rows are
   *  stored and the paging goes on from the next page. */
  lemma CollectStep(listId: string, members: seq<Json>, interest: GroupTable, codec: Codec,
                    reply: (nat, Call) -> Result<Response, Failure>, trace: seq<Call>,
                    offset: nat, total: Option<int>, table: seq<MailchimpRow>)
    requires Serves(reply, listId, members)
    requires total.Some? ==> total.value == |members|
    requires offset < |members|
    requires reply(|trace|, PageCall(listId, offset)).Success?
    requires KeysDistinct(table + MemberRows(Page(members, offset), interest, codec))
    ensures CollectFrom(listId, members, interest, codec, reply, trace, offset, total, table) ==
      CollectFrom(listId, members, interest, codec, reply, trace + [PageCall(listId, offset)], offset + PageSize,
                  Some(|members|), table + MemberRows(Page(members, offset), interest, codec))
  {
    var call := PageCall(listId, offset);
    var resp := reply(|trace|, call).value;
    PageAnswer(reply, listId, members, |trace|, offset, resp);
    var items := Page(members, offset);
    assert items != [] && Items(JList(items)) == items;
    assert IntCast(JNum(|members|)) == |members|;
    DistinctRowsInserted(table, MemberRows(items, interest, codec));
  }

  /** With every page request answered and no two subscribers giving rows
   *  with the same key, every subscriber from the offset on is stored, in
   *  the listing's order. */
  lemma {:induction false} EveryMemberCollected(listId: string, members: seq<Json>, interest: GroupTable, codec: Codec,
                                                reply: (nat, Call) -> Result<Response, Failure>, trace: seq<Call>,
                                                offset: nat, total: Option<int>, table: seq<MailchimpRow>)
    requires Serves(reply, listId, members)
    requires total.Some? ==> total.value == |members|
    requires total.None? ==> offset == 0
    requires forall n: nat, o: nat :: reply(n, PageCall(listId, o)).Success?
    requires KeysDistinct(table + MemberRows(Rest(members, offset), interest, codec))
    ensures var r := CollectFrom(listId, members, interest, codec, reply, trace, offset, total, table);
      r.1 == table + MemberRows(Rest(members, offset), interest, codec) && r.2 == Pass
    decreases if total.None? then |members| + 1 else if offset >= |members| then 0 else |members| - offset
  {
    var n := |members|;
    if total.Some? && offset >= total.value {
      assert Rest(members, offset) == [];
    } else if offset >= n {
      var call := PageCall(listId, offset);
      var resp := reply(|trace|, call).value;
      PageAnswer(reply, listId, members, |trace|, offset, resp);
      assert Rest(members, offset) == [];
    } else {
      var call := PageCall(listId, offset);
      var items := Page(members, offset);
      var next := offset + PageSize;
      assert Rest(members, offset) == items + Rest(members, next);
      MemberRowsAppend(items, Rest(members, next), interest, codec);
      var rows := MemberRows(items, interest, codec);
      var later := MemberRows(Rest(members, next), interest, codec);
      AppendAssociates(table, rows, later);
      KeysDistinctPrefix(table + rows, later);
      CollectStep(listId, members, interest, codec, reply, trace, offset, total, table);
      EveryMemberCollected(listId, members, interest, codec, reply, trace + [call], next, Some(n), table + rows);
    }
  }

  lemma KeysDistinctPrefix(a: seq<MailchimpRow>, b: seq<MailchimpRow>)
    requires KeysDistinct(a + b)
    ensures KeysDistinct(a)
  {
    forall i, j | 0 <= i < j < |a| ensures !SameMailchimpKey(a[i], a[j]) {
      assert (a + b)[i] == a[i] && (a + b)[j] == a[j];
    }
  }

  /** The inner `foreach` of `collectMailchimp`: one prepared insert per
   *  subscriber of the page. */
  method StoreMembers(items: seq<Json>, interest: GroupTable, codec: Codec, tables: WorkingTables)
    returns (o: Outcome<Failure>)
    modifies tables`mailchimp
    ensures (tables.mailchimp, o) == InsertMailchimpRows(old(tables.mailchimp), MemberRows(items, interest, codec))
  {
    ghost var rows := MemberRows(items, interest, codec);
    for k := 0 to |items|
      invariant InsertMailchimpRows(tables.mailchimp, rows[k..]) == InsertMailchimpRows(old(tables.mailchimp), rows)
    {
      assert rows[k..][0] == rows[k] && rows[k..][1..] == rows[k + 1..];
      var row := MemberRow(items[k], interest, codec);
      if exists x :: x in tables.mailchimp && SameMailchimpKey(x, row) {
        return Fail(RuntimeError(DuplicateRowMessage));
      }
      tables.mailchimp := tables.mailchimp + [row];
    }
    assert rows[|items|..] == [];
    o := Pass;
  }

  // ---------------------------------------------------------------------
  // Pushing to Mailchimp

  /** The member resource of an e-mail address: the MD5 hash of the
   *  address in lower case. */
  function MemberPath(listId: string, email: string, codec: Codec): string {
    "/lists/" + listId + "/members/" + codec.md5(Lower(email))
  }

  /** The batch operation `addFromCiviCrm` builds for one row: subscribe the
   *  address with the row's names and interests. */
  function PushOp(listId: string, row: CiviRow, codec: Codec): (op: RawOp)
    ensures op.verb == "PUT" && op.path == MemberPath(listId, row.email, codec)
    ensures Prop(op.payload, "status") == JStr("subscribed")
    ensures Prop(op.payload, "email_address") == JStr(row.email)
    ensures Prop(op.payload, "interests") == codec.unserialize(row.interests)
    ensures Prop(Prop(op.payload, "merge_fields"), "FNAME") == JStr(row.firstName)
    ensures Prop(Prop(op.payload, "merge_fields"), "LNAME") == JStr(row.lastName)
  {
    var names := [("FNAME", JStr(row.firstName)), ("LNAME", JStr(row.lastName))];
    var es := [("status", JStr("subscribed")),
               ("email_address", JStr(row.email)),
               ("interests", codec.unserialize(row.interests)),
               ("merge_fields", JMap(names))];
    LastValueAt(es, "status", 0);
    LastValueAt(es, "email_address", 1);
    LastValueAt(es, "interests", 2);
    LastValueAt(es, "merge_fields", 3);
    LastValueAt(names, "FNAME", 0);
    LastValueAt(names, "LNAME", 1);
    RawOp("PUT", MemberPath(listId, row.email, codec), JMap(es))
  }

  /** One subscribing PUT per row, in row order. */
  function PushOps(listId: string, rows: seq<CiviRow>, codec: Codec): (ops: seq<RawOp>)
    ensures |ops| == |rows|
    ensures forall i :: 0 <= i < |rows| ==> ops[i].verb == "PUT" && ops[i].path == MemberPath(listId, rows[i].email, codec)
  {
    seq(|rows|, i requires 0 <= i < |rows| => PushOp(listId, rows[i], codec))
  }

  /** What an exception thrown by the client does to a method that only
   *  passes it on. */
  function Thrown(r: Result<Response, Failure>): (o: Outcome<Failure>)
    ensures o.Fail? <==> r.Failure?
  {
    if r.Failure? then Fail(r.error) else Pass
  }

  const UnsubscribeData := JMap([("status", JStr("unsubscribed"))])

  /** The PUT body of `syncSingleContact`.  The merge fields are written
   *  under the lower-case tags `fname` and `lname`. */
  function SubscribeData(contact: CiviContact, flags: InterestFlags): (data: Json)
    ensures Prop(data, "status") == JStr("subscribed")
    ensures Prop(data, "email_address") == JStr(contact.email)
    ensures Prop(data, "merge_fields") == JMap([("fname", JStr(contact.firstName)), ("lname", JStr(contact.lastName))])
    ensures Prop(data, "interests") == InterestsJson(flags)
  {
    var es := [("status", JStr("subscribed")),
               ("email_address", JStr(contact.email)),
               ("merge_fields", JMap([("fname", JStr(contact.firstName)), ("lname", JStr(contact.lastName))])),
               ("interests", InterestsJson(flags))];
    LastValueAt(es, "status", 0);
    LastValueAt(es, "email_address", 1);
    LastValueAt(es, "merge_fields", 2);
    LastValueAt(es, "interests", 3);
    JMap(es)
  }

  /** `in_array($membership_group_id, $in_groups)`. */
  predicate IsMember(contact: CiviContact, groups: GroupTable, membership: Option<int>) {
    membership.Some? && membership.value in SplitSpec(contact.groups, groups)
  }

  /** The one call `syncSingleContact` makes, if any: none without an
   *  e-mail address; an unsubscribing PATCH for a contact outside the
   *  membership group; otherwise a subscribing PUT with the address and the
   *  contact's comparable interests. */
  function SingleContactCall(listId: string, groups: GroupTable, membership: Option<int>, interest: GroupTable,
                             contact: CiviContact, codec: Codec): (r: Option<Call>)
    ensures r.None? <==> EmptyText(Some(contact.email))
    ensures r.Some? ==> r.value.Call? && r.value.path == MemberPath(listId, contact.email, codec)
    ensures r.Some? ==> (r.value.verb == "PATCH" <==> !IsMember(contact, groups, membership))
    ensures r.Some? && !IsMember(contact, groups, membership) ==> r.value.data == Some(UnsubscribeData)
    ensures r.Some? && IsMember(contact, groups, membership) ==>
      r.value.verb == "PUT" && r.value.data.Some? &&
      Prop(r.value.data.value, "status") == JStr("subscribed") &&
      Prop(r.value.data.value, "email_address") == JStr(contact.email) &&
      Prop(r.value.data.value, "merge_fields") ==
        JMap([("fname", JStr(contact.firstName)), ("lname", JStr(contact.lastName))]) &&
      Prop(r.value.data.value, "interests") == InterestsJson(CiviComparable(contact.groups, interest))
    ensures r.Some? && IsMember(contact, groups, membership) ==>
      r.value.data == Some(SubscribeData(contact, CiviComparable(contact.groups, interest)))
  {
    if EmptyText(Some(contact.email)) then None
    else if !IsMember(contact, groups, membership) then
      Some(Call("PATCH", MemberPath(listId, contact.email, codec), Some(UnsubscribeData)))
    else
      Some(Call("PUT", MemberPath(listId, contact.email, codec),
                Some(SubscribeData(contact, CiviComparable(contact.groups, interest)))))
  }

  /** The calls a possible call adds to the trace. */
  function CallsOf(c: Option<Call>): seq<Call> {
    if c.None? then [] else [c.value]
  }

  const NoMembershipGroupPrefix := "No CiviCRM group is mapped to determine membership of Mailchimp list "

  // ---------------------------------------------------------------------
  // The synchronisation object of one list

  class Sync {
    var listId: string
    var groupDetails: GroupTable
    var membershipGroupId: Option<int>
    var interestGroupDetails: GroupTable

    /** `new CRM_Mailchimp_Sync($list_id)`, given the groups mapped to the
     *  list. */
    constructor(listId: string, groups: GroupTable)
      ensures this.listId == listId && groupDetails == groups
      ensures membershipGroupId == LastMembershipGroup(groups)
      ensures interestGroupDetails == InterestGroups(groups, membershipGroupId)
    {
      this.listId := listId;
      groupDetails := groups;
      var membership := FindMembershipGroup(groups);
      membershipGroupId := membership;
      interestGroupDetails := InterestGroups(groups, membership);
    }

    /** `collectMailchimp()`, against a Mailchimp that serves the listing
     *  `members`: the table is emptied, then filled page by page. */
    method CollectMailchimp(ghost members: seq<Json>, tables: WorkingTables, codec: Codec, api: Endpoint)
      returns (r: Outcome<Failure>)
      requires Serves(api.reply, listId, members)
      modifies tables`mailchimp, api`calls
      ensures (api.calls, tables.mailchimp, r) ==
        CollectFrom(listId, members, interestGroupDetails, codec, api.reply, old(api.calls), 0, None, [])
    {
      ghost var spec := CollectFrom(listId, members, interestGroupDetails, codec, api.reply, api.calls, 0, None, []);
      tables.mailchimp := [];
      var offset: nat := 0;
      var total: Option<int> := None;
      while true
        invariant total.Some? ==> total.value == |members|
        invariant CollectFrom(listId, members, interestGroupDetails, codec, api.reply, api.calls, offset, total, tables.mailchimp) == spec
        decreases if total.None? then |members| + 1 else if offset >= |members| then 0 else |members| - offset
      {
        if total.Some? && offset >= total.value {
          return Pass;
        }
        ghost var before := api.calls;
        var got := api.Get(MembersPath(listId), Some(PageQuery(offset)));
        if got.Failure? {
          return Fail(got.error);
        }
        PageAnswer(api.reply, listId, members, |before|, offset, got.value);
        total := Some(IntCast(Prop(got.value.data, "total_items")));
        ghost var at := offset;
        offset := offset + PageSize;
        var page := Prop(got.value.data, "members");
        if !Truthy(page) {
          return Pass;
        }
        r := StoreMembers(Items(page), interestGroupDetails, codec, tables);
        if r.Fail? {
          return;
        }
      }
    }

    /** `collectCiviCrm()`, given the contacts of the membership group: the
     *  table is emptied, and without a membership group the collection
     *  stops there. */
    method CollectCiviCrm(contacts: seq<CiviContact>, tables: WorkingTables, codec: Codec) returns (r: Outcome<Failure>)
      modifies tables`civi
      ensures LastMembershipGroup(groupDetails).None? ==>
        r == Fail(RuntimeError(NoMembershipGroupPrefix + listId)) && tables.civi == []
      ensures LastMembershipGroup(groupDetails).Some? ==>
        r == Pass && tables.civi == InsertCiviRows([], ContactRows(contacts, interestGroupDetails, codec))
    {
      tables.civi := [];
      var membership := FindMembershipGroup(groupDetails);
      if membership.None? {
        return Fail(RuntimeError(NoMembershipGroupPrefix + listId));
      }
      ghost var rows := ContactRows(contacts, interestGroupDetails, codec);
      for k := 0 to |contacts|
        invariant InsertCiviRows(tables.civi, rows[k..]) == InsertCiviRows([], rows)
      {
        assert rows[k..][0] == rows[k] && rows[k..][1..] == rows[k + 1..];
        var row := ContactRow(contacts[k], interestGroupDetails, codec);
        if !exists y :: y in tables.civi && SameCiviKey(row, y) {
          tables.civi := tables.civi + [row];
        }
      }
      assert rows[|contacts|..] == [];
      r := Pass;
    }

    /** `removeInSync()`: counts the pairs of rows with the same e-mail and
     *  hash and, if there are any, deletes every row that has a partner
     *  from both tables. */
    method RemoveInSync(tables: WorkingTables) returns (count: nat)
      modifies tables
      ensures count == PairCount(old(tables.mailchimp), old(tables.civi))
      ensures tables.mailchimp == UnpairedMailchimp(old(tables.mailchimp), old(tables.civi))
      ensures tables.civi == UnpairedCivi(old(tables.civi), old(tables.mailchimp))
    {
      var ms, cs := tables.mailchimp, tables.civi;
      count := PairCount(ms, cs);
      if count > 0 {
        tables.mailchimp := UnpairedMailchimp(ms, cs);
        tables.civi := UnpairedCivi(cs, ms);
      } else {
        PairCountZero(ms, cs);
        NothingPairedKeepsTables(ms, cs);
      }
    }

    /** `getEmailsNotInCiviButInMailchimp()` as written: the query's rows
     *  are appended to `$batch`, and `$emails`, never filled, is returned. */
    method EmailsNotInCiviButInMailchimpAsWritten(tables: WorkingTables) returns (emails: seq<string>)
      ensures emails == []
    {
      var found := EmailsNotInCivi(tables.mailchimp, tables.civi);
      emails := [];
      var batch: seq<string> := [];
      for k := 0 to |found|
        invariant batch == found[..k]
      {
        batch := batch + [found[k]];
      }
    }

    /** `getEmailsNotInCiviButInMailchimp()` returning the rows it reads. */
    method EmailsNotInCiviButInMailchimp(tables: WorkingTables) returns (emails: seq<string>)
      ensures emails == EmailsNotInCivi(tables.mailchimp, tables.civi)
    {
      var found := EmailsNotInCivi(tables.mailchimp, tables.civi);
      emails := [];
      for k := 0 to |found|
        invariant emails == found[..k]
      {
        emails := emails + [found[k]];
      }
      assert found[..|found|] == found;
    }

    /** `addFromCiviCrm()`: one batch holding a subscribing PUT for every
     *  row of the CiviCRM table, submitted and waited for. */
    method AddFromCiviCrm(tables: WorkingTables, codec: Codec, api: Endpoint) returns (r: Outcome<Failure>)
      modifies api`calls
      ensures api.calls == old(api.calls) + [Batch(PushOps(listId, tables.civi, codec))]
      ensures r == Thrown(old(api.Next(Batch(PushOps(listId, tables.civi, codec)))))
    {
      var rows := tables.civi;
      var operations: seq<RawOp> := [];
      for k := 0 to |rows|
        invariant operations == PushOps(listId, rows[..k], codec)
      {
        operations := operations + [PushOp(listId, rows[k], codec)];
      }
      assert rows[..|rows|] == rows;
      var result := api.BatchAndWait(operations);
      r := Thrown(result);
    }

    /** `syncSingleContact($contact_id)`, given the contact CiviCRM returns
     *  for that id. */
    method SyncSingleContact(contact: CiviContact, codec: Codec, api: Endpoint) returns (r: Outcome<Failure>)
      modifies api`calls
      ensures var c := SingleContactCall(listId, groupDetails, membershipGroupId, interestGroupDetails, contact, codec);
        api.calls == old(api.calls) + CallsOf(c) && r == (if c.None? then Pass else Thrown(old(api.Next(c.value))))
    {
      var inGroups := SplitGroupTitles(contact.groups, groupDetails);
      var member := membershipGroupId.Some? && membershipGroupId.value in inGroups;
      if EmptyText(Some(contact.email)) {
        return Pass;
      }
      var path := MemberPath(listId, contact.email, codec);
      if !member {
        var patched := api.Patch(path, UnsubscribeData);
        return Thrown(patched);
      }
      var data := SubscribeData(contact, CiviComparable(contact.groups, interestGroupDetails));
      var put := api.Put(path, data);
      r := Thrown(put);
    }
  }
}
