/**
 * The notice board of `/notices`: who sees which notice, the paged list
 * with its unread count, and the read receipts that reading, acknowledging
 * and opening a notice leave behind.
 *
 * As written, the list looks the notices' UUID keys up among the
 * stringified keys of the caller's receipts, finds none, and so shows every
 * notice as unread however often it is read. The model keeps that reading
 * (`NoticesPageAsWritten`) and otherwise compares keys with keys
 * (`NoticesPage`).
 */
module Notices {
  import opened Common
  import opened Handlers
  import opened IdentityModel
  import opened NoticeModel
  import SchedulingDb
  import Notifications

  const NOTICE_NOT_FOUND: string := "Notice not found"
  const NO_ACCESS: string := "You don't have access to this notice"
  const ALREADY_READ: string := "Notice already marked as read"
  const MARKED_READ: string := "Notice marked as read"
  const ACKNOWLEDGED: string := "Notice acknowledged"
  const MAX_PAGE_SIZE: nat := 100

  // ---------------------------------------------------------------------
  // Visibility
  // ---------------------------------------------------------------------

  /** A JSON list that is given and not empty, as Python's truth test reads it. */
  predicate Targets(list: Option<seq<string>>)
  {
    list.Some? && list.value != []
  }

  /** Published by `now`: a notice without a publish date always is. */
  predicate Published(n: Notice, now: Moment)
  {
    n.publishDate.None? || Stamp(n.publishDate.value) <= Stamp(now)
  }

  /** Not expired at `now`: a notice without an expiry date never is. */
  predicate Unexpired(n: Notice, now: Moment)
  {
    n.expireDate.None? || Stamp(now) <= Stamp(n.expireDate.value)
  }

  /**
   * `_check_if_user_should_see_notice`: active, within its window, and, when
   * the notice names roles or users, naming the user's role and the user.
   */
  predicate ShouldSee(n: Notice, user: Account, now: Moment)
  {
    && n.isActive
    && Published(n, now)
    && Unexpired(n, now)
    && (Targets(n.targetRoles) ==> MaybeIdText(user.roleId) in n.targetRoles.value)
    && (Targets(n.targetUsers) ==> IdText(user.id) in n.targetUsers.value)
  }

  /** A notice that targets nobody in particular is seen by everyone while it is active and in its window. */
  lemma UntargetedNoticeReachesEveryone(n: Notice, user: Account, now: Moment)
    requires !Targets(n.targetRoles) && !Targets(n.targetUsers)
    ensures ShouldSee(n, user, now) <==> n.isActive && Published(n, now) && Unexpired(n, now)
  {
  }

  /** Naming roles or users can only take readers away. */
  lemma TargetingOnlyNarrows(n: Notice, roles: Option<seq<string>>, users: Option<seq<string>>, user: Account,
                             now: Moment)
    ensures ShouldSee(n.(targetRoles := roles, targetUsers := users), user, now)
            ==> ShouldSee(n.(targetRoles := None, targetUsers := None), user, now)
  {
  }

  /**
   * A notice addressed to one user by key is seen by that user, while it is
   * active and in its window, and by no one else.
   */
  lemma AddressedNoticeReachesOnlyItsUser(n: Notice, user: Account, other: Account, now: Moment)
    requires n.isActive && Published(n, now) && Unexpired(n, now)
    requires !Targets(n.targetRoles) && n.targetUsers == Some([IdText(user.id)])
    ensures ShouldSee(n, user, now)
    ensures other.id != user.id ==> !ShouldSee(n, other, now)
  {
    if IdText(other.id) == IdText(user.id) {
      ParseIdText(other.id);
      ParseIdText(user.id);
    }
  }

  /**
   * `str(None)` is "None", so a user without a role sees no notice whose
   * target roles are all role keys.
   */
  lemma RolelessUserMissesRoleTargeted(n: Notice, user: Account, now: Moment)
    requires user.roleId.None? && Targets(n.targetRoles)
    requires forall s :: s in n.targetRoles.value ==> exists role: Id :: s == IdText(role)
    ensures !ShouldSee(n, user, now)
  {
    forall role: Id
      ensures IdText(role) != "None"
    {
      assert IsDigit(IdText(role)[0]) && !IsDigit("None"[0]);
    }
  }

  // ---------------------------------------------------------------------
  // The list
  // ---------------------------------------------------------------------

  /** The query parameters of `GET /notices`. */
  datatype NoticeQuery = NoticeQuery(page: nat, pageSize: nat, unreadOnly: bool, priority: Option<NoticePriority>,
                                     category: Option<NoticeCategory>)

  /** `Query(1, ge=1)` and `Query(20, ge=1, le=100)`; other values are refused with a 422. */
  predicate ValidQuery(q: NoticeQuery)
  {
    q.page >= 1 && 1 <= q.pageSize <= MAX_PAGE_SIZE
  }

  /** The rows the query fetches: active notices of the caller's organization, of the chosen priority and category. */
  function Queried(org: Option<Id>, priority: Option<NoticePriority>, category: Option<NoticeCategory>)
    : Notice -> bool
  {
    (n: Notice) => org.Some? && n.organizationId == org.value && n.isActive
                   && (priority.None? || n.priority == priority.value)
                   && (category.None? || n.category == category.value)
  }

  function CreatedKey(n: Notice): int
  {
    Stamp(n.createdAt)
  }

  /** A notice as the list or the detail answers it. */
  datatype NoticeItem = NoticeItem(notice: Notice, read: bool, acknowledged: bool)

  /** `NoticesList`. */
  datatype NoticesList = NoticesList(notices: seq<NoticeItem>, total: nat, page: nat, pageSize: nat, unreadCount: nat)

  /** `read_notice_ids` as written: the keys of the caller's receipts, stringified. */
  function ReadTexts(receipts: seq<Receipt>, userId: Id): (r: set<Value>)
    ensures forall v :: v in r ==> v.VStr?
  {
    set rc | rc in receipts && rc.userId == userId :: VStr(IdText(rc.noticeId))
  }

  /** `notice.id in read_notice_ids` as written: a UUID looked up among strings. */
  predicate ReadAsWritten(receipts: seq<Receipt>, userId: Id, n: Notice)
  {
    VUuid(IdText(n.id)) in ReadTexts(receipts, userId)
  }

  function ReadAsWrittenBy(receipts: seq<Receipt>, userId: Id): Notice -> bool
  {
    (n: Notice) => ReadAsWritten(receipts, userId, n)
  }

  /** The keys of the notices the user holds a receipt for, kept as keys. */
  function ReadIds(receipts: seq<Receipt>, userId: Id): (r: set<Id>)
    ensures forall id :: id in r <==> exists k :: 0 <= k < |receipts| && receipts[k].noticeId == id
                                                   && receipts[k].userId == userId
  {
    set rc | rc in receipts && rc.userId == userId :: rc.noticeId
  }

  /** The user has read the notice: a receipt of theirs names it. */
  predicate IsRead(receipts: seq<Receipt>, userId: Id, n: Notice)
  {
    n.id in ReadIds(receipts, userId)
  }

  function ReadBy(receipts: seq<Receipt>, userId: Id): Notice -> bool
  {
    (n: Notice) => IsRead(receipts, userId, n)
  }

  /** A notice the list may show: fetched by the query, seen by the caller, and unread when only unread ones are asked for. */
  predicate Listable(notices: seq<Notice>, user: Account, now: Moment, q: NoticeQuery, read: Notice -> bool, n: Notice)
  {
    n in notices && Queried(user.organizationId, q.priority, q.category)(n) && ShouldSee(n, user, now) && (q.unreadOnly ==> !read(n))
  }

  /** The notices the user should see, as a filter. */
  function Sees(user: Account, now: Moment): Notice -> bool
  {
    (n: Notice) => ShouldSee(n, user, now)
  }

  /** The notices not read, as a filter. */
  function Unread(read: Notice -> bool): Notice -> bool
  {
    (n: Notice) => !read(n)
  }

  /** Filtering keeps the order of what it keeps. */
  lemma {:induction false} FilterKeepsOrder<T>(xs: seq<T>, p: T -> bool, key: T -> int)
    requires SortedDesc(xs, key)
    ensures SortedDesc(Filter(xs, p), key)
  {
    if xs != [] {
      var rest := Filter(xs[1..], p);
      FilterKeepsOrder(xs[1..], p, key);
      if p(xs[0]) {
        assert rest != [] ==> rest[0] in xs[1..];
        ConsSortedDesc(xs[0], rest, key);
      }
    }
  }

  /**
   * The notices the page is cut from, newest first: exactly the listable
   * ones.
   */
  function Shown(notices: seq<Notice>, user: Account, now: Moment, q: NoticeQuery, read: Notice -> bool): (r: seq<Notice>)
    ensures SortedDesc(r, CreatedKey)
    ensures forall k :: 0 <= k < |r| ==> Listable(notices, user, now, q, read, r[k])
    ensures forall n :: Listable(notices, user, now, q, read, n) ==> n in r
  {
    var fetched := Queried(user.organizationId, q.priority, q.category);
    var ordered := SelectDesc(notices, fetched, CreatedKey);
    var sees := Sees(user, now);
    var unread := Unread(read);
    var visible := Filter(ordered, sees);
    FilterKeepsOrder(ordered, sees, CreatedKey);
    FilterKeepsOrder(visible, unread, CreatedKey);
    ShownHoldsListable(notices, user, now, q, read);
    if q.unreadOnly then Filter(visible, unread) else visible
  }

  /** Every listable notice passes each of the list's three filters. */
  lemma ShownHoldsListable(notices: seq<Notice>, user: Account, now: Moment, q: NoticeQuery, read: Notice -> bool)
    ensures var ordered := SelectDesc(notices, Queried(user.organizationId, q.priority, q.category), CreatedKey);
            var visible := Filter(ordered, Sees(user, now));
            forall n :: Listable(notices, user, now, q, read, n) ==>
                          n in visible && (q.unreadOnly ==> n in Filter(visible, Unread(read)))
  {
    var fetched := Queried(user.organizationId, q.priority, q.category);
    var ordered := SelectDesc(notices, fetched, CreatedKey);
    var sees := Sees(user, now);
    var visible := Filter(ordered, sees);
    forall n | Listable(notices, user, now, q, read, n)
      ensures n in visible && (q.unreadOnly ==> n in Filter(visible, Unread(read)))
    {
      var i :| 0 <= i < |notices| && notices[i] == n;
      assert n in multiset(Filter(notices, fetched));
      assert n in ordered;
      var j :| 0 <= j < |ordered| && ordered[j] == n;
      assert sees(ordered[j]);
      assert n in visible;
      var k :| 0 <= k < |visible| && visible[k] == n;
    }
  }

  /**
   * The body of `GET /notices` for a given reading of "read": `total` counts
   * the listable notices, `unread_count` those of them not read, and the page
   * is the slice `[(page - 1) * page_size, page * page_size)` of them,
   * newest first, never acknowledged.
   */
  function ListWith(notices: seq<Notice>, user: Account, now: Moment, q: NoticeQuery, read: Notice -> bool)
    : (r: NoticesList)
    requires ValidQuery(q)
    ensures var shown := Shown(notices, user, now, q, read);
            var skip := Notifications.Offset(q.page, q.pageSize);
            && r.total == |shown|
            && r.unreadCount == Count(shown, Unread(read))
            && r.page == q.page && r.pageSize == q.pageSize
            && |r.notices| == (if skip >= |shown| then 0 else if |shown| - skip < q.pageSize then |shown| - skip
                               else q.pageSize)
            && forall k :: 0 <= k < |r.notices| ==>
                             r.notices[k] == NoticeItem(shown[skip + k], read(shown[skip + k]), false)
    ensures r.unreadCount <= r.total
    ensures q.unreadOnly ==> r.unreadCount == r.total
  {
    var shown := Shown(notices, user, now, q, read);
    var unread := Unread(read);
    assert q.unreadOnly ==> Count(shown, unread) == |shown| by {
      if q.unreadOnly {
        FilterKeepsAll(shown, unread);
      }
    }
    var page := Window(shown, Notifications.Offset(q.page, q.pageSize), q.pageSize);
    NoticesList(MapSeq(page, ItemOf(read)), |shown|, q.page, q.pageSize,
                Count(shown, unread))
  }

  /** A notice of the list, read as `read` says and never acknowledged there. */
  function ItemOf(read: Notice -> bool): Notice -> NoticeItem
  {
    (n: Notice) => NoticeItem(n, read(n), false)
  }

  /** Two readings of "read" that agree on every notice give the same list. */
  lemma {:induction false} ListAlike(notices: seq<Notice>, user: Account, now: Moment, q: NoticeQuery,
                                     read: Notice -> bool, other: Notice -> bool)
    requires ValidQuery(q)
    requires forall n :: read(n) == other(n)
    ensures ListWith(notices, user, now, q, read) == ListWith(notices, user, now, q, other)
  {
    var unread := Unread(read);
    var unreadOther := Unread(other);
    var ordered := SelectDesc(notices, Queried(user.organizationId, q.priority, q.category), CreatedKey);
    var visible := Filter(ordered, Sees(user, now));
    FilterAlike(visible, unread, unreadOther);
    var shown := Shown(notices, user, now, q, read);
    assert shown == Shown(notices, user, now, q, other);
    FilterAlike(shown, unread, unreadOther);
    var a := ListWith(notices, user, now, q, read);
    var b := ListWith(notices, user, now, q, other);
    assert a.notices == b.notices;
  }

  /** `get_notices` as written: read ids are strings, notice ids UUIDs. */
  function NoticesPageAsWritten(notices: seq<Notice>, receipts: seq<Receipt>, user: Account, now: Moment,
                                q: NoticeQuery): NoticesList
    requires ValidQuery(q)
  {
    ListWith(notices, user, now, q, ReadAsWrittenBy(receipts, user.id))
  }

  /** `get_notices` with the read ids compared as keys. */
  function NoticesPage(notices: seq<Notice>, receipts: seq<Receipt>, user: Account, now: Moment, q: NoticeQuery)
    : NoticesList
    requires ValidQuery(q)
  {
    ListWith(notices, user, now, q, ReadBy(receipts, user.id))
  }

  /**
   * As written, no notice is ever read: the list is the same whatever
   * receipts the caller holds, every notice on it is unread, and the unread
   * count is the total.
   */
  lemma NoticesStayUnreadAsWritten(notices: seq<Notice>, receipts: seq<Receipt>, user: Account, now: Moment,
                                   q: NoticeQuery)
    requires ValidQuery(q)
    ensures var r := NoticesPageAsWritten(notices, receipts, user, now, q);
            && r == NoticesPageAsWritten(notices, [], user, now, q)
            && r.unreadCount == r.total
            && (forall k :: 0 <= k < |r.notices| ==> !r.notices[k].read)
            && r == NoticesPageAsWritten(notices, receipts, user, now, q.(unreadOnly := !q.unreadOnly))
  {
    var asWritten := ReadAsWrittenBy(receipts, user.id);
    var never := (n: Notice) => false;
    assert forall n :: asWritten(n) == never(n);
    ListAlike(notices, user, now, q, asWritten, never);
    assert forall n :: ReadAsWritten([], user.id, n) == never(n);
    ListAlike(notices, user, now, q, ReadAsWrittenBy([], user.id), never);
    var shown := Shown(notices, user, now, q, never);
    FilterKeepsAll(shown, Unread(never));
    var flipped := q.(unreadOnly := !q.unreadOnly);
    ListAlike(notices, user, now, flipped, asWritten, never);
    var visible := Filter(SelectDesc(notices, Queried(user.organizationId, q.priority, q.category), CreatedKey),
                          Sees(user, now));
    FilterKeepsAll(visible, Unread(never));
    assert Shown(notices, user, now, flipped, never) == shown;
  }

  /**
   * With keys compared as keys, the first reading of a notice on the list
   * takes it off the unread count and leaves the total alone.
   */
  lemma ReadingLowersUnreadCount(notices: seq<Notice>, receipts: seq<Receipt>, user: Account, now: Moment,
                                 q: NoticeQuery, n: Notice, at: Moment)
    requires ValidQuery(q) && !q.unreadOnly
    requires n in notices && Queried(user.organizationId, q.priority, q.category)(n) && ShouldSee(n, user, now)
    requires !IsRead(receipts, user.id, n)
    ensures var before := NoticesPage(notices, receipts, user, now, q);
            var after := NoticesPage(notices, AfterRead(receipts, n.id, user.id, at), user, now, q);
            after.total == before.total && after.unreadCount < before.unreadCount
  {
    var readBefore := ReadBy(receipts, user.id);
    var readAfter := ReadBy(AfterRead(receipts, n.id, user.id, at), user.id);
    var shown := Shown(notices, user, now, q, readBefore);
    assert shown == Shown(notices, user, now, q, readAfter);
    assert Listable(notices, user, now, q, readBefore, n);
    ReadingOnlyAdds(receipts, n.id, user.id, at);
    UnreadCountDrops(shown, readBefore, readAfter, n);
  }

  /** Reading keeps every notice the user had read, read. */
  lemma ReadingOnlyAdds(receipts: seq<Receipt>, noticeId: Id, userId: Id, at: Moment)
    ensures forall m: Notice :: ReadBy(receipts, userId)(m) ==> ReadBy(AfterRead(receipts, noticeId, userId, at), userId)(m)
  {
    assert ReadIds(receipts, userId) <= ReadIds(AfterRead(receipts, noticeId, userId, at), userId);
  }

  /** A notice that becomes read, while none becomes unread, lowers the unread count. */
  lemma UnreadCountDrops(shown: seq<Notice>, readBefore: Notice -> bool, readAfter: Notice -> bool, n: Notice)
    requires forall m :: readBefore(m) ==> readAfter(m)
    requires n in shown && !readBefore(n) && readAfter(n)
    ensures Count(shown, Unread(readAfter)) < Count(shown, Unread(readBefore))
  {
    var k :| 0 <= k < |shown| && shown[k] == n;
    CountNarrower(shown, Unread(readBefore), Unread(readAfter));
  }

  // ---------------------------------------------------------------------
  // Receipts
  // ---------------------------------------------------------------------

  /** The receipt of one user for one notice. */
  function Owns(noticeId: Id, userId: Id): Receipt -> bool
  {
    (rc: Receipt) => rc.noticeId == noticeId && rc.userId == userId
  }

  /** The position of the user's receipt for the notice (`.first()`): there is one exactly when the user has read it. */
  function ReceiptOf(receipts: seq<Receipt>, noticeId: Id, userId: Id): (r: Option<nat>)
    ensures r.Some? <==> noticeId in ReadIds(receipts, userId)
    ensures r.Some? ==> r.value < |receipts| && Owns(noticeId, userId)(receipts[r.value])
  {
    FirstMatch(receipts, Owns(noticeId, userId))
  }

  /** The user has acknowledged the notice: their receipt for it carries `acknowledged_at`. */
  predicate AcknowledgedBy(receipts: seq<Receipt>, noticeId: Id, userId: Id)
  {
    var i := ReceiptOf(receipts, noticeId, userId);
    i.Some? && receipts[i.value].acknowledgedAt.Some?
  }

  /** At most one receipt per user and notice. */
  predicate UniqueReceipts(receipts: seq<Receipt>)
  {
    forall i, j :: 0 <= i < j < |receipts| ==>
                     !(receipts[i].noticeId == receipts[j].noticeId && receipts[i].userId == receipts[j].userId)
  }

  /**
   * The receipts once the user has read the notice: kept as they are when
   * a receipt exists, else with one more, read `now` and not acknowledged.
   */
  function AfterRead(receipts: seq<Receipt>, noticeId: Id, userId: Id, now: Moment): (r: seq<Receipt>)
    ensures noticeId in ReadIds(r, userId)
    ensures receipts <= r && |r| <= |receipts| + 1
    ensures r == receipts <==> noticeId in ReadIds(receipts, userId)
    ensures |r| > |receipts| ==> r[|receipts|] == Receipt(noticeId, userId, now, None)
  {
    if ReceiptOf(receipts, noticeId, userId).Some? then receipts
    else
      var r := receipts + [Receipt(noticeId, userId, now, None)];
      assert r[|receipts|].noticeId == noticeId;
      r
  }

  /**
   * The receipts once the user has acknowledged the notice: their receipt,
   * found or made, carries `acknowledged_at = now`, and no other receipt
   * changes.
   */
  function AfterAcknowledge(receipts: seq<Receipt>, noticeId: Id, userId: Id, now: Moment): (r: seq<Receipt>)
    ensures AcknowledgedBy(r, noticeId, userId)
    ensures var i := ReceiptOf(r, noticeId, userId);
            i.Some? && r[i.value].acknowledgedAt == Some(now)
    ensures |r| == |receipts| + (if noticeId in ReadIds(receipts, userId) then 0 else 1)
    ensures forall k :: 0 <= k < |receipts| && !Owns(noticeId, userId)(receipts[k]) ==> r[k] == receipts[k]
  {
    var i := ReceiptOf(receipts, noticeId, userId);
    if i.None? then
      var r := receipts + [Receipt(noticeId, userId, now, Some(now))];
      assert forall k :: 0 <= k < |receipts| ==> r[k] == receipts[k];
      assert ReceiptOf(r, noticeId, userId) == Some(|receipts|);
      r
    else
      var r := receipts[i.value := receipts[i.value].(acknowledgedAt := Some(now))];
      assert forall k :: 0 <= k < |r| ==> Owns(noticeId, userId)(r[k]) == Owns(noticeId, userId)(receipts[k]);
      FirstMatchAlike(receipts, r, Owns(noticeId, userId));
      r
  }

  /** Reading twice leaves what reading once left. */
  lemma ReadIsIdempotent(receipts: seq<Receipt>, noticeId: Id, userId: Id, first: Moment, second: Moment)
    ensures var once := AfterRead(receipts, noticeId, userId, first);
            AfterRead(once, noticeId, userId, second) == once
  {
  }

  /** Reading adds the notice to the user's read ids and nothing else to anyone's. */
  lemma ReadAddsOnlyItsNotice(receipts: seq<Receipt>, noticeId: Id, userId: Id, now: Moment, otherUser: Id)
    ensures ReadIds(AfterRead(receipts, noticeId, userId, now), otherUser)
            == ReadIds(receipts, otherUser) + (if otherUser == userId then {noticeId} else {})
  {
    var r := AfterRead(receipts, noticeId, userId, now);
    if r != receipts {
      assert r == receipts + [Receipt(noticeId, userId, now, None)];
    }
  }

  /** Reading never sets or clears anyone's acknowledgement. */
  lemma ReadingKeepsAcknowledgements(receipts: seq<Receipt>, noticeId: Id, userId: Id, now: Moment,
                                     otherNotice: Id, otherUser: Id)
    ensures AcknowledgedBy(AfterRead(receipts, noticeId, userId, now), otherNotice, otherUser)
            == AcknowledgedBy(receipts, otherNotice, otherUser)
  {
    var r := AfterRead(receipts, noticeId, userId, now);
    if r != receipts {
      var p := Owns(otherNotice, otherUser);
      var i := ReceiptOf(receipts, otherNotice, otherUser);
      var j := ReceiptOf(r, otherNotice, otherUser);
      assert forall k :: 0 <= k < |receipts| ==> r[k] == receipts[k];
      if i.Some? {
        assert j == i;
      } else if j.Some? {
        assert j.value == |receipts|;
      }
    }
  }

  /** Reading and acknowledging keep one receipt per user and notice. */
  lemma ReceiptsStayUnique(receipts: seq<Receipt>, noticeId: Id, userId: Id, now: Moment)
    requires UniqueReceipts(receipts)
    ensures UniqueReceipts(AfterRead(receipts, noticeId, userId, now))
    ensures UniqueReceipts(AfterAcknowledge(receipts, noticeId, userId, now))
  {
    var owns := Owns(noticeId, userId);
    if noticeId !in ReadIds(receipts, userId) {
      assert forall k :: 0 <= k < |receipts| ==> !owns(receipts[k]);
    }
  }

  // ---------------------------------------------------------------------
  // One notice
  // ---------------------------------------------------------------------

  /** The notice with that key in the caller's organization (`Notice.id == notice_id`, same organization). */
  function InOrganization(noticeId: Id, org: Option<Id>): Notice -> bool
  {
    (n: Notice) => org.Some? && n.id == noticeId && n.organizationId == org.value
  }

  /**
   * The checks shared by reading, acknowledging and opening a notice: a
   * 404 when the caller's organization has no notice of that key, then a
   * 403 when the caller should not see it.
   */
  function Access(notices: seq<Notice>, user: Account, noticeId: Id, now: Moment): (r: Result<Notice>)
    ensures r.Ok? ==> r.value in notices && r.value.id == noticeId && user.organizationId == Some(r.value.organizationId)
                      && ShouldSee(r.value, user, now)
    ensures r.Err? ==> r == Err(NOT_FOUND, NOTICE_NOT_FOUND) || r == Err(FORBIDDEN, NO_ACCESS)
    ensures r == Err(NOT_FOUND, NOTICE_NOT_FOUND)
            <==> forall k :: 0 <= k < |notices| ==> !InOrganization(noticeId, user.organizationId)(notices[k])
    ensures r == Err(FORBIDDEN, NO_ACCESS)
            <==> exists k :: 0 <= k < |notices| && InOrganization(noticeId, user.organizationId)(notices[k])
                             && !ShouldSee(notices[k], user, now)
                             && forall j :: 0 <= j < k ==> !InOrganization(noticeId, user.organizationId)(notices[j])
  {
    var i := FirstMatch(notices, InOrganization(noticeId, user.organizationId));
    if i.None? then Err(NOT_FOUND, NOTICE_NOT_FOUND)
    else if !ShouldSee(notices[i.value], user, now) then Err(FORBIDDEN, NO_ACCESS)
    else Ok(notices[i.value])
  }

  /**
   * `get_notice_by_id`'s answer: the notice, read exactly when the caller
   * held a receipt for it before this call, acknowledged exactly when that
   * receipt carries `acknowledged_at`.
   */
  function NoticeById(notices: seq<Notice>, receipts: seq<Receipt>, user: Account, noticeId: Id, now: Moment)
    : (r: Result<NoticeItem>)
    ensures var a := Access(notices, user, noticeId, now);
            && (a.Err? ==> r == Err(a.status, a.detail))
            && (a.Ok? ==> r.Ok? && r.value.notice == a.value
                          && r.value.read == IsRead(receipts, user.id, a.value)
                          && r.value.acknowledged == AcknowledgedBy(receipts, noticeId, user.id))
  {
    var a := Access(notices, user, noticeId, now);
    if a.Err? then Err(a.status, a.detail)
    else
      var i := ReceiptOf(receipts, noticeId, user.id);
      Ok(NoticeItem(a.value, i.Some?, i.Some? && receipts[i.value].acknowledgedAt.Some?))
  }

  /** Opening a notice marks it read: opening it again answers "read", its acknowledgement unchanged. */
  lemma OpeningMarksRead(notices: seq<Notice>, receipts: seq<Receipt>, user: Account, noticeId: Id, now: Moment,
                         later: Moment)
    ensures var first := NoticeById(notices, receipts, user, noticeId, now);
            var second := NoticeById(notices, AfterRead(receipts, noticeId, user.id, now), user, noticeId, later);
            first.Ok? && Access(notices, user, noticeId, later).Ok? ==>
              second.Ok? && second.value.read && second.value.acknowledged == first.value.acknowledged
  {
    ReadingKeepsAcknowledgements(receipts, noticeId, user.id, now, noticeId, user.id);
  }

  /** Once acknowledged, a notice opens as read and acknowledged. */
  lemma AcknowledgedOpensAcknowledged(notices: seq<Notice>, receipts: seq<Receipt>, user: Account, noticeId: Id,
                                      now: Moment, later: Moment)
    ensures var r := NoticeById(notices, AfterAcknowledge(receipts, noticeId, user.id, now), user, noticeId, later);
            r.Ok? ==> r.value.read && r.value.acknowledged
  {
  }

  /**
   * `get_notice_by_id` as written: the answer puts the notice's UUID key
   * into `NoticeResponse.id`, a string field, so building the response
   * fails once every check has passed and the caller gets a 500. The 404
   * and the 403 are answered as intended.
   */
  function NoticeByIdAsWritten(notices: seq<Notice>, receipts: seq<Receipt>, user: Account, noticeId: Id, now: Moment)
    : (r: Result<NoticeItem>)
    ensures r.Err?
    ensures var a := Access(notices, user, noticeId, now);
            && (a.Err? ==> r == Err(a.status, a.detail))
            && (a.Ok? ==> r == Err(INTERNAL_ERROR, UNHANDLED))
  {
    var intended := NoticeById(notices, receipts, user, noticeId, now);
    if intended.Ok? then Err(INTERNAL_ERROR, UNHANDLED) else intended
  }

  /** As written, no caller ever reads a notice: every notice the intended endpoint shows is answered with a 500. */
  lemma ShownNoticeIsRefused(notices: seq<Notice>, receipts: seq<Receipt>, user: Account, noticeId: Id, now: Moment)
    requires NoticeById(notices, receipts, user, noticeId, now).Ok?
    ensures NoticeByIdAsWritten(notices, receipts, user, noticeId, now) == Err(INTERNAL_ERROR, UNHANDLED)
    ensures Access(notices, user, noticeId, now).Ok?
  {
  }

  /** A new notice: active, keyed `id`, in the caller's organization, created by the caller `now`. */
  function NewNotice(id: Id, org: Id, c: Account, body: NoticeCreate, now: Moment): (r: Notice)
    ensures r.id == id && r.organizationId == org && r.isActive && r.createdBy == c.id
    ensures r.createdAt == now && r.updatedAt == now
    ensures r.title == body.title && r.content == body.content && r.targetRoles == body.targetRoles
            && r.targetUsers == body.targetUsers && r.publishDate == body.publishDate && r.expireDate == body.expireDate
  {
    Notice(id, org, body.title, body.content, body.summary, body.priority, body.category, body.targetRoles,
           body.targetUsers, true, body.publishDate, body.expireDate, body.requiresAcknowledgment, body.attachmentUrls,
           now, now, c.id)
  }

  /**
   * A notice made without targets or dates reaches every member of its
   * organization, at any moment, and heads their list.
   */
  lemma OpenNoticeReachesOrganization(id: Id, c: Account, body: NoticeCreate, now: Moment, member: Account,
                                      later: Moment)
    requires c.organizationId.Some? && member.organizationId == c.organizationId
    requires !Targets(body.targetRoles) && !Targets(body.targetUsers)
    requires body.publishDate.None? && body.expireDate.None?
    ensures var n := NewNotice(id, c.organizationId.value, c, body, now);
            ShouldSee(n, member, later) && Queried(member.organizationId, None, None)(n)
  {
  }

  // ---------------------------------------------------------------------
  // The board
  // ---------------------------------------------------------------------

  /** The `notices` and `notice_read_receipts` tables. */
  class NoticeBoard {
    var notices: seq<Notice>
    var receipts: seq<Receipt>

    constructor(rows: seq<Notice>, read: seq<Receipt>)
      ensures notices == rows && receipts == read
    {
      notices := rows;
      receipts := read;
    }

    /**
     * `get_notices`: the page is built notice by notice, and is the list
     * `NoticesPage` describes.
     */
    method GetNotices(user: Account, q: NoticeQuery, now: Moment) returns (r: NoticesList)
      requires ValidQuery(q)
      ensures r == NoticesPage(notices, receipts, user, now, q)
    {
      var read := ReadBy(receipts, user.id);
      var shown := Shown(notices, user, now, q, read);
      var unreadCount := Count(shown, Unread(read));
      var page := Window(shown, Notifications.Offset(q.page, q.pageSize), q.pageSize);
      var items := Items(page, read);
      r := NoticesList(items, |shown|, q.page, q.pageSize, unreadCount);
      assert r == ListWith(notices, user, now, q, read);
    }

    /** The response of each notice of the page, built one by one. */
    static method Items(page: seq<Notice>, read: Notice -> bool) returns (items: seq<NoticeItem>)
      ensures items == MapSeq(page, ItemOf(read))
    {
      items := [];
      var k := 0;
      while k < |page|
        invariant 0 <= k <= |page| && |items| == k
        invariant forall j :: 0 <= j < k ==> items[j] == NoticeItem(page[j], read(page[j]), false)
      {
        items := items + [NoticeItem(page[k], read(page[k]), false)];
        k := k + 1;
      }
    }

    /** `create_notice`: anyone may post; a caller without an organization fails at the insert. */
    method CreateNotice(c: Account, body: NoticeCreate, now: Moment) returns (r: Result<NoticeItem>)
      requires NoticeCreateViolations(body) == []
      modifies this
      ensures receipts == old(receipts)
      ensures c.organizationId.None? ==> r == Err(INTERNAL_ERROR, UNHANDLED) && notices == old(notices)
      ensures c.organizationId.Some? ==>
                var n := NewNotice(SchedulingDb.NextKey(old(notices), NoticeIdOf), c.organizationId.value, c, body, now);
                notices == old(notices) + [n] && r == Ok(NoticeItem(n, false, false))
    {
      if c.organizationId.None? {
        return Err(INTERNAL_ERROR, UNHANDLED);
      }
      var n := NewNotice(SchedulingDb.NextKey(notices, NoticeIdOf), c.organizationId.value, c, body, now);
      notices := notices + [n];
      r := Ok(NoticeItem(n, false, false));
    }

    /** `mark_notice_as_read`: after the checks, a receipt exists; a second call adds none. */
    method MarkRead(c: Account, noticeId: Id, now: Moment) returns (r: Result<string>)
      modifies this
      ensures notices == old(notices)
      ensures var a := Access(old(notices), c, noticeId, now);
              && (a.Err? ==> r == Err(a.status, a.detail) && receipts == old(receipts))
              && (a.Ok? ==> receipts == AfterRead(old(receipts), noticeId, c.id, now)
                            && r == Ok(if noticeId in ReadIds(old(receipts), c.id) then ALREADY_READ else MARKED_READ))
    {
      var a := Access(notices, c, noticeId, now);
      if a.Err? {
        return Err(a.status, a.detail);
      }
      if ReceiptOf(receipts, noticeId, c.id).Some? {
        return Ok(ALREADY_READ);
      }
      receipts := receipts + [Receipt(noticeId, c.id, now, None)];
      r := Ok(MARKED_READ);
    }

    /** `acknowledge_notice`: after the checks, the caller's receipt, found or made, is acknowledged `now`. */
    method Acknowledge(c: Account, noticeId: Id, now: Moment) returns (r: Result<string>)
      modifies this
      ensures notices == old(notices)
      ensures var a := Access(old(notices), c, noticeId, now);
              && (a.Err? ==> r == Err(a.status, a.detail) && receipts == old(receipts))
              && (a.Ok? ==> receipts == AfterAcknowledge(old(receipts), noticeId, c.id, now) && r == Ok(ACKNOWLEDGED))
    {
      var a := Access(notices, c, noticeId, now);
      if a.Err? {
        return Err(a.status, a.detail);
      }
      var i := ReceiptOf(receipts, noticeId, c.id);
      if i.None? {
        receipts := receipts + [Receipt(noticeId, c.id, now, Some(now))];
      } else {
        receipts := receipts[i.value := receipts[i.value].(acknowledgedAt := Some(now))];
      }
      r := Ok(ACKNOWLEDGED);
    }

    /**
     * `get_notice_by_id` as written: the receipt is stored and committed as
     * intended, and only then does building the response fail, so the caller
     * gets a 500 for a notice that is now marked read.
     */
    method GetNoticeAsWritten(c: Account, noticeId: Id, now: Moment) returns (r: Result<NoticeItem>)
      modifies this
      ensures notices == old(notices)
      ensures r == NoticeByIdAsWritten(old(notices), old(receipts), c, noticeId, now)
      ensures receipts == if Access(old(notices), c, noticeId, now).Ok? then AfterRead(old(receipts), noticeId, c.id, now)
                          else old(receipts)
    {
      var shown := GetNotice(c, noticeId, now);
      if shown.Ok? {
        return Err(INTERNAL_ERROR, UNHANDLED);
      }
      r := shown;
    }

    /** `get_notice_by_id`: the answer reflects the receipts before the call, and a receipt exists after it. */
    method GetNotice(c: Account, noticeId: Id, now: Moment) returns (r: Result<NoticeItem>)
      modifies this
      ensures notices == old(notices)
      ensures r == NoticeById(old(notices), old(receipts), c, noticeId, now)
      ensures receipts == if r.Ok? then AfterRead(old(receipts), noticeId, c.id, now) else old(receipts)
    {
      r := NoticeById(notices, receipts, c, noticeId, now);
      if r.Ok? && ReceiptOf(receipts, noticeId, c.id).None? {
        receipts := receipts + [Receipt(noticeId, c.id, now, None)];
      }
    }
  }
}
