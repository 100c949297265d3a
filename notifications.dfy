/**
 * The in-app notifications of one user: the listing (live notifications
 * only, unread first, newest first), the counts, marking one or all read,
 * deleting, clearing old read ones, and creating one. Every handler runs
 * inside a catch-all, so its own 400s and 404s reach the client as 500s.
 */
module Notifications {
  import opened Common
  import opened NotificationSchemas
  import opened Handlers
  import IdentityModel
  import SchedulingDb

  type Account = IdentityModel.Account

  datatype Notification = Notification(
    id: Id,
    userId: Id,
    organizationId: Id,
    title: string,
    message: string,
    kind: NotificationType,
    category: NotificationCategory,
    isRead: bool,
    readAt: Option<Moment>,
    actionUrl: Option<string>,
    actionText: Option<string>,
    relatedEntityType: Option<string>,
    relatedEntityId: Option<Id>,
    createdAt: Moment,
    expiresAt: Option<Moment>)

  function IdOf(n: Notification): Id { n.id }

  /** Not expired: no expiry, or one still ahead of `now`. */
  predicate Live(n: Notification, now: Moment)
  {
    n.expiresAt.None? || Stamp(n.expiresAt.value) > Stamp(now)
  }

  // ---------------------------------------------------------------------
  // Query parameters
  // ---------------------------------------------------------------------

  /**
   * The `type` and `category` query parameters read as filters: an absent or
   * empty one filters nothing; otherwise it must be a value of its enum, and
   * the first that is not raises a 400 naming it.
   */
  function Filters(kindText: Option<string>, categoryText: Option<string>)
    : (r: Result<(Option<NotificationType>, Option<NotificationCategory>)>)
    ensures r.Ok? <==> (!Truthy(kindText) || ParseType(kindText.value).Some?)
                       && (!Truthy(categoryText) || ParseCategory(categoryText.value).Some?)
    ensures Truthy(kindText) && ParseType(kindText.value).None? ==>
              r == Err(BAD_REQUEST, "Invalid notification type: " + kindText.value)
    ensures r.Err? && !(Truthy(kindText) && ParseType(kindText.value).None?) ==>
              r == Err(BAD_REQUEST, "Invalid notification category: " + categoryText.value)
    ensures r.Ok? ==> (r.value.0.Some? <==> Truthy(kindText))
                      && (r.value.0.Some? ==> TypeValue(r.value.0.value) == kindText.value)
    ensures r.Ok? ==> (r.value.1.Some? <==> Truthy(categoryText))
                      && (r.value.1.Some? ==> CategoryValue(r.value.1.value) == categoryText.value)
  {
    var kind := if Truthy(kindText) then ParseType(kindText.value) else None;
    var category := if Truthy(categoryText) then ParseCategory(categoryText.value) else None;
    if Truthy(kindText) && kind.None? then Err(BAD_REQUEST, "Invalid notification type: " + kindText.value)
    else if Truthy(categoryText) && category.None? then Err(BAD_REQUEST, "Invalid notification category: " + categoryText.value)
    else Ok((kind, category))
  }

  predicate OfKinds(n: Notification, kind: Option<NotificationType>, category: Option<NotificationCategory>)
  {
    (kind.None? || n.kind == kind.value) && (category.None? || n.category == category.value)
  }

  // ---------------------------------------------------------------------
  // Listing
  // ---------------------------------------------------------------------

  /** The rows `get_notifications` selects for the caller. */
  function Listed(c: Account, now: Moment, isRead: Option<bool>, kind: Option<NotificationType>,
                  category: Option<NotificationCategory>): Notification -> bool
  {
    (n: Notification) => n.userId == c.id && Live(n, now)
                         && (isRead.None? || n.isRead == isRead.value) && OfKinds(n, kind, category)
  }

  function Unread(): Notification -> bool { (n: Notification) => !n.isRead }
  function AlreadyRead(): Notification -> bool { (n: Notification) => n.isRead }
  function CreatedKey(): Notification -> int { (n: Notification) => Stamp(n.createdAt) }

  /**
   * `order_by(is_read.asc(), created_at.desc())`: the same rows, every
   * unread one before every read one, and the newer first among rows of the
   * same read state.
   */
  function UnreadFirst(rows: seq<Notification>): (r: seq<Notification>)
    ensures multiset(r) == multiset(rows) && |r| == |rows|
    ensures ListingOrder(r)
  {
    var unread := SortDesc(Filter(rows, Unread()), CreatedKey());
    var read := SortDesc(Filter(rows, AlreadyRead()), CreatedKey());
    FilterSplits(rows, Unread(), AlreadyRead());
    SortedMatching(rows, Unread(), CreatedKey());
    SortedMatching(rows, AlreadyRead(), CreatedKey());
    UnreadThenRead(unread, read);
    unread + read
  }

  /** Every row of a sorted filter satisfies the filter. */
  lemma SortedMatching<T>(rows: seq<T>, p: T -> bool, key: T -> int)
    ensures forall k :: 0 <= k < |SortDesc(Filter(rows, p), key)| ==> p(SortDesc(Filter(rows, p), key)[k])
  {
    var s := SortDesc(Filter(rows, p), key);
    FilterMembers(rows, p);
    forall k | 0 <= k < |s| ensures p(s[k]) {
      assert s[k] in Filter(rows, p);
    }
  }

  /** Every unread row before every read row, and the newer first among rows of the same read state. */
  predicate ListingOrder(r: seq<Notification>)
  {
    (forall i, j :: 0 <= i < j < |r| && r[i].isRead ==> r[j].isRead)
    && (forall i, j :: 0 <= i < j < |r| && r[i].isRead == r[j].isRead ==>
          Stamp(r[i].createdAt) >= Stamp(r[j].createdAt))
  }

  /** Unread rows newest first, then read rows newest first, are in the listing's order. */
  lemma UnreadThenRead(unread: seq<Notification>, read: seq<Notification>)
    requires forall k :: 0 <= k < |unread| ==> Unread()(unread[k])
    requires forall k :: 0 <= k < |read| ==> AlreadyRead()(read[k])
    requires SortedDesc(unread, CreatedKey()) && SortedDesc(read, CreatedKey())
    ensures ListingOrder(unread + read)
  {
    var r := unread + read;
    forall i, j | 0 <= i < j < |r| && r[i].isRead == r[j].isRead
      ensures Stamp(r[i].createdAt) >= Stamp(r[j].createdAt)
    {
      if j < |unread| {
        assert r[i] == unread[i] && r[j] == unread[j];
      } else if i >= |unread| {
        assert r[i] == read[i - |unread|] && r[j] == read[j - |unread|];
      }
    }
  }

  const LIST_FAILED: string := "Failed to retrieve notifications"
  const MARK_READ_FAILED: string := "Failed to mark notification as read"
  const MARK_ALL_FAILED: string := "Failed to mark all notifications as read"
  const DELETE_FAILED: string := "Failed to delete notification"
  const CREATE_FAILED: string := "Failed to create notification"
  const NOT_FOUND_DETAIL: string := "Notification not found"

  /**
   * `get_notifications`: the caller's live notifications, narrowed by the
   * read state and the filters, ordered unread first, then cut to the page
   * asked for; a bad filter reaches the client as a 500.
   */
  function ListNotifications(rows: seq<Notification>, c: Account, now: Moment, isRead: Option<bool>,
                             kindText: Option<string>, categoryText: Option<string>,
                             page: nat, pageSize: nat): (r: Result<Page<Notification>>)
    requires page >= 1 && 1 <= pageSize <= 100
    ensures r.Err? <==> Filters(kindText, categoryText).Err?
    ensures r.Err? ==> var f := Filters(kindText, categoryText);
                       r == Caught(LIST_FAILED, f.status, f.detail)
    ensures r.Ok? ==> var f := Filters(kindText, categoryText).value;
                      var selected := Filter(rows, Listed(c, now, isRead, f.0, f.1));
                      r.value.total == |selected| && r.value.page == page && r.value.size == pageSize
                      && r.value.pages == PageCount(|selected|, pageSize)
                      && r.value.items == Window(UnreadFirst(selected), Offset(page, pageSize), pageSize)
    ensures r.Ok? ==> forall k :: 0 <= k < |r.value.items| ==>
                        r.value.items[k].userId == c.id && Live(r.value.items[k], now)
  {
    var f := Filters(kindText, categoryText);
    if f.Err? then Caught(LIST_FAILED, f.status, f.detail)
    else
      var p := Listed(c, now, isRead, f.value.0, f.value.1);
      var selected := Filter(rows, p);
      var r := ListingPage(selected, page, pageSize);
      FilterMembers(rows, p);
      assert forall k :: 0 <= k < |r.items| ==> p(r.items[k]);
      Ok(r)
  }

  /** `offset = (page - 1) * page_size`. */
  function Offset(page: nat, pageSize: nat): (r: nat)
    requires page >= 1
    ensures r == (page - 1) * pageSize
  {
    var q: nat := page - 1;
    assert q * pageSize >= 0;
    q * pageSize
  }

  /** The page of the ordered listing: its rows all come from the selection. */
  function ListingPage(selected: seq<Notification>, page: nat, pageSize: nat): (r: Page<Notification>)
    requires page >= 1 && pageSize >= 1
    ensures r.total == |selected| && r.page == page && r.size == pageSize
    ensures r.pages == PageCount(|selected|, pageSize)
    ensures r.items == Window(UnreadFirst(selected), Offset(page, pageSize), pageSize)
    ensures forall k :: 0 <= k < |r.items| ==> r.items[k] in selected
  {
    var ordered := UnreadFirst(selected);
    assert forall k :: 0 <= k < |ordered| ==> ordered[k] in multiset(selected);
    Page(Window(ordered, Offset(page, pageSize), pageSize), |selected|, page, pageSize, PageCount(|selected|, pageSize))
  }

  // ---------------------------------------------------------------------
  // Statistics
  // ---------------------------------------------------------------------

  datatype NotificationStats = NotificationStats(
    totalCount: nat,
    unreadCount: nat,
    criticalCount: nat,
    reminderCount: nat,
    infoCount: nat)

  function Visible(c: Account, now: Moment): Notification -> bool
  {
    (n: Notification) => n.userId == c.id && Live(n, now)
  }

  /** The caller's live unread notifications whose kind is one of `kinds`. */
  function UnreadAmong(c: Account, now: Moment, kinds: set<NotificationType>): Notification -> bool
  {
    (n: Notification) => n.userId == c.id && Live(n, now) && !n.isRead && n.kind in kinds
  }

  function VisibleUnread(c: Account, now: Moment): Notification -> bool
  {
    (n: Notification) => n.userId == c.id && Live(n, now) && !n.isRead
  }

  /** `get_notification_stats`: every count is over the caller's live notifications. */
  function Stats(rows: seq<Notification>, c: Account, now: Moment): (r: NotificationStats)
    ensures r.totalCount == Count(rows, Visible(c, now))
    ensures r.unreadCount == Count(rows, VisibleUnread(c, now))
    ensures r.criticalCount == Count(rows, UnreadAmong(c, now, {CRITICAL}))
    ensures r.reminderCount == Count(rows, UnreadAmong(c, now, {REMINDER}))
    ensures r.infoCount == Count(rows, UnreadAmong(c, now, {INFO}))
  {
    NotificationStats(Count(rows, Visible(c, now)), Count(rows, VisibleUnread(c, now)),
                      Count(rows, UnreadAmong(c, now, {CRITICAL})), Count(rows, UnreadAmong(c, now, {REMINDER})),
                      Count(rows, UnreadAmong(c, now, {INFO})))
  }

  /**
   * The counts nest: no more unread than live notifications, and the three
   * kinds counted are disjoint parts of the unread ones.
   */
  lemma StatsNest(rows: seq<Notification>, c: Account, now: Moment)
    ensures var s := Stats(rows, c, now);
            s.unreadCount <= s.totalCount && s.criticalCount + s.reminderCount + s.infoCount <= s.unreadCount
  {
    CountNarrower(rows, Visible(c, now), VisibleUnread(c, now));
    CountDisjoint(rows, UnreadAmong(c, now, {CRITICAL}), UnreadAmong(c, now, {REMINDER}),
                  UnreadAmong(c, now, {CRITICAL, REMINDER}));
    CountDisjoint(rows, UnreadAmong(c, now, {CRITICAL, REMINDER}), UnreadAmong(c, now, {INFO}),
                  UnreadAmong(c, now, {CRITICAL, REMINDER, INFO}));
    CountNarrower(rows, VisibleUnread(c, now), UnreadAmong(c, now, {CRITICAL, REMINDER, INFO}));
  }

  /** The unread count is the number of rows the unread-only listing reports. */
  lemma UnreadCountIsUnreadListing(rows: seq<Notification>, c: Account, now: Moment, page: nat, pageSize: nat)
    requires page >= 1 && 1 <= pageSize <= 100
    ensures ListNotifications(rows, c, now, Some(false), None, None, page, pageSize).value.total
            == Stats(rows, c, now).unreadCount
  {
    assert Filters(None, None) == Ok((None, None));
    var p := Listed(c, now, Some(false), None, None);
    assert forall n :: p(n) == VisibleUnread(c, now)(n);
    FilterAlike(rows, p, VisibleUnread(c, now));
  }

  // ---------------------------------------------------------------------
  // Reading
  // ---------------------------------------------------------------------

  /**
   * One notification marked read at `now`: already read, it stays as it
   * was; otherwise it becomes read, stamped `now`. Nothing else changes.
   */
  function ReadAt(n: Notification, now: Moment): (r: Notification)
    ensures r.isRead
    ensures r.readAt == if n.isRead then n.readAt else Some(now)
  {
    if n.isRead then n else n.(isRead := true, readAt := Some(now))
  }

  /** Marking read changes the read state and its stamp and nothing else. */
  lemma ReadAtChangesOnlyReadState(n: Notification, now: Moment)
    ensures ReadAt(n, now).(isRead := n.isRead, readAt := n.readAt) == n
  {
  }

  /** Marking read twice is marking read once: the first stamp stays. */
  lemma ReadAtIdempotent(n: Notification, first: Moment, second: Moment)
    ensures ReadAt(ReadAt(n, first), second) == ReadAt(n, first)
  {
  }

  /** The caller's notification with the given id. */
  function Owned(id: Id, userId: Id): Notification -> bool
  {
    (n: Notification) => n.id == id && n.userId == userId
  }

  /** What the read and delete handlers answer: a message and the id. */
  datatype Receipt = Receipt(message: string, id: Id)

  const MARKED_READ: string := "Notification marked as read"
  const DELETED: string := "Notification deleted"

  /** The message of `mark_all_notifications_as_read`. */
  function MarkedMessage(count: nat): string
  {
    "Marked " + NatToString(count) + " notifications as read"
  }

  /** The message of `clear_old_notifications`. */
  function DeletedMessage(count: nat): string
  {
    "Deleted " + NatToString(count) + " old notifications"
  }

  /** The rows the bulk update of `mark_all_notifications_as_read` matches: expiry is not consulted. */
  function Pending(c: Account, kind: Option<NotificationType>, category: Option<NotificationCategory>)
    : Notification -> bool
  {
    (n: Notification) => n.userId == c.id && !n.isRead && OfKinds(n, kind, category)
  }

  /** Every row satisfying `p` marked read at `now`; the others as they were. */
  function MarkAll(rows: seq<Notification>, p: Notification -> bool, now: Moment): seq<Notification>
  {
    seq(|rows|, k requires 0 <= k < |rows| => if p(rows[k]) then ReadAt(rows[k], now) else rows[k])
  }

  /** After the first `i` rows, the loop holds their marked copies and the count of the matched ones. */
  ghost predicate MarkedUpTo(rows: seq<Notification>, p: Notification -> bool, now: Moment, i: nat,
                             out: seq<Notification>, count: nat)
    requires i <= |rows|
  {
    && |out| == i
    && (forall k :: 0 <= k < i ==> out[k] == if p(rows[k]) then ReadAt(rows[k], now) else rows[k])
    && count == Count(rows[..i], p)
  }

  /** One more row, marked when matched and counted. */
  lemma MarkStep(rows: seq<Notification>, p: Notification -> bool, now: Moment, i: nat,
                 out: seq<Notification>, count: nat)
    requires i < |rows| && MarkedUpTo(rows, p, now, i, out, count)
    requires p(rows[i]) ==> !rows[i].isRead
    ensures MarkedUpTo(rows, p, now, i + 1,
                       out + [if p(rows[i]) then rows[i].(isRead := true, readAt := Some(now)) else rows[i]],
                       count + if p(rows[i]) then 1 else 0)
  {
    var n := rows[i];
    var next := out + [if p(n) then n.(isRead := true, readAt := Some(now)) else n];
    assert next[i] == if p(n) then ReadAt(n, now) else n;
    assert forall k :: 0 <= k < i ==> next[k] == out[k];
    CountPrefixStep(rows, i, p);
  }

  /** Once every row is done, the loop holds the bulk update's rows and count. */
  lemma MarkedAll(rows: seq<Notification>, p: Notification -> bool, now: Moment, out: seq<Notification>, count: nat)
    requires MarkedUpTo(rows, p, now, |rows|, out, count)
    ensures out == MarkAll(rows, p, now) && count == Count(rows, p)
  {
    var marked := MarkAll(rows, p, now);
    assert forall k :: 0 <= k < |rows| ==> out[k] == marked[k];
    assert rows[..|rows|] == rows;
  }

  /** After the bulk update no row it matched is left unread, and a second run matches nothing and changes nothing. */
  lemma MarkAllLeavesNonePending(rows: seq<Notification>, c: Account, kind: Option<NotificationType>,
                                 category: Option<NotificationCategory>, now: Moment, later: Moment)
    ensures Count(MarkAll(rows, Pending(c, kind, category), now), Pending(c, kind, category)) == 0
    ensures MarkAll(MarkAll(rows, Pending(c, kind, category), now), Pending(c, kind, category), later)
            == MarkAll(rows, Pending(c, kind, category), now)
  {
    var p := Pending(c, kind, category);
    var after := MarkAll(rows, p, now);
    assert forall k :: 0 <= k < |after| ==> !p(after[k]);
    NoneMatchingCountsZero(after, p);
  }

  /** The count the bulk update reports is the number of rows it changed. */
  lemma {:induction false} MarkAllCountsChangedRows(rows: seq<Notification>, c: Account,
                                                    kind: Option<NotificationType>,
                                                    category: Option<NotificationCategory>, now: Moment)
    ensures Count(rows, Pending(c, kind, category)) == RowsChanged(rows, MarkAll(rows, Pending(c, kind, category), now))
  {
    if rows != [] {
      var p := Pending(c, kind, category);
      MarkAllCountsChangedRows(rows[1..], c, kind, category, now);
      assert MarkAll(rows, p, now)[1..] == MarkAll(rows[1..], p, now);
    }
  }

  /**
   * Without filters the bulk update reaches at least every unread
   * notification the counts report: it also marks expired ones, which the
   * counts leave out.
   */
  lemma MarkAllCoversUnreadCount(rows: seq<Notification>, c: Account, now: Moment)
    ensures Count(rows, Pending(c, None, None)) >= Stats(rows, c, now).unreadCount
  {
    CountNarrower(rows, Pending(c, None, None), VisibleUnread(c, now));
  }

  /** Marking one unread live notification read lowers the unread count by one. */
  lemma MarkReadLowersUnread(rows: seq<Notification>, i: nat, c: Account, now: Moment, at: Moment)
    requires i < |rows| && rows[i].userId == c.id && Live(rows[i], now) && !rows[i].isRead
    ensures Count(rows[i := ReadAt(rows[i], at)], VisibleUnread(c, now)) + 1 == Count(rows, VisibleUnread(c, now))
  {
    var p := VisibleUnread(c, now);
    var after := rows[i := ReadAt(rows[i], at)];
    assert rows == rows[..i] + [rows[i]] + rows[i + 1..];
    assert after == rows[..i] + [after[i]] + rows[i + 1..];
    assert p(rows[i]) && !p(after[i]);
    CountAppend(rows[..i] + [rows[i]], rows[i + 1..], p);
    CountAppend(rows[..i] + [after[i]], rows[i + 1..], p);
    CountSnoc(rows[..i], rows[i], p);
    CountSnoc(rows[..i], after[i], p);
  }

  // ---------------------------------------------------------------------
  // Clearing
  // ---------------------------------------------------------------------

  /** The rows `clear_old_notifications` deletes: the caller's read ones created before `now` less `daysOld` days. */
  function Stale(c: Account, now: Moment, daysOld: nat): Notification -> bool
  {
    (n: Notification) => n.userId == c.id && n.isRead && Stamp(n.createdAt) < Stamp(now) - daysOld * SECONDS_PER_DAY
  }

  function Fresh(c: Account, now: Moment, daysOld: nat): Notification -> bool
  {
    (n: Notification) => !Stale(c, now, daysOld)(n)
  }

  /**
   * The deletion loop of `clear_old_notifications`: each row `doomed`
   * selects is deleted and counted, every other row stays, in order.
   */
  method Sweep<T>(rows: seq<T>, doomed: T -> bool, kept: T -> bool) returns (out: seq<T>, deleted: nat)
    requires forall x :: kept(x) == !doomed(x)
    ensures out == Filter(rows, kept) && deleted == Count(rows, doomed)
  {
    out, deleted := [], 0;
    var i := 0;
    while i < |rows|
      invariant 0 <= i <= |rows|
      invariant out == Filter(rows[..i], kept) && deleted == Count(rows[..i], doomed)
    {
      SweepStep(rows, i, doomed, kept);
      if doomed(rows[i]) {
        deleted := deleted + 1;
      } else {
        out := out + [rows[i]];
      }
      i := i + 1;
    }
    assert rows[..i] == rows;
  }

  lemma SweepStep<T>(rows: seq<T>, i: nat, doomed: T -> bool, kept: T -> bool)
    requires i < |rows| && kept(rows[i]) == !doomed(rows[i])
    ensures Filter(rows[..i + 1], kept) == Filter(rows[..i], kept) + if doomed(rows[i]) then [] else [rows[i]]
    ensures Count(rows[..i + 1], doomed) == Count(rows[..i], doomed) + if doomed(rows[i]) then 1 else 0
  {
    assert rows[..i + 1] == rows[..i] + [rows[i]];
    FilterSnoc(rows[..i], rows[i], kept);
    CountSnoc(rows[..i], rows[i], doomed);
  }

  /**
   * Clearing keeps every unread notification, every other user's, and
   * every one created at or after the cutoff; the kept and the deleted
   * rows account for all of them.
   */
  lemma ClearingKeeps(rows: seq<Notification>, c: Account, now: Moment, daysOld: nat)
    ensures forall n :: n in rows && (!n.isRead || n.userId != c.id
                                       || Stamp(n.createdAt) >= Stamp(now) - daysOld * SECONDS_PER_DAY) ==>
              n in Filter(rows, Fresh(c, now, daysOld))
    ensures forall n :: n in Filter(rows, Fresh(c, now, daysOld)) ==> n in rows && !Stale(c, now, daysOld)(n)
    ensures |Filter(rows, Fresh(c, now, daysOld))| + Count(rows, Stale(c, now, daysOld)) == |rows|
  {
    FilterMembers(rows, Fresh(c, now, daysOld));
    FilterSplits(rows, Stale(c, now, daysOld), Fresh(c, now, daysOld));
  }

  // ---------------------------------------------------------------------
  // Creation
  // ---------------------------------------------------------------------

  /** The row `create_notification` adds: unread, created now, in the caller's organization. */
  function NewNotification(id: Id, organizationId: Id, body: NotificationCreate, now: Moment): (r: Notification)
    ensures !r.isRead && r.readAt.None? && r.createdAt == now && r.id == id && r.organizationId == organizationId
    ensures r.userId == body.userId && r.kind == body.kind && r.category == body.category
    ensures r.title == body.title && r.message == body.message && r.expiresAt == body.expiresAt
  {
    Notification(id, body.userId, organizationId, body.title, body.message, body.kind, body.category, false, None,
                 body.actionUrl, body.actionText, body.relatedEntityType, body.relatedEntityId, now, body.expiresAt)
  }

  /** A notification created with no expiry is one more unread notification in its recipient's counts. */
  lemma CreatedIsCountedUnread(rows: seq<Notification>, recipient: Account, id: Id, organizationId: Id,
                               body: NotificationCreate, now: Moment, at: Moment)
    requires body.userId == recipient.id && body.expiresAt.None?
    ensures Stats(rows + [NewNotification(id, organizationId, body, at)], recipient, now).unreadCount
            == Stats(rows, recipient, now).unreadCount + 1
  {
    CountSnoc(rows, NewNotification(id, organizationId, body, at), VisibleUnread(recipient, now));
  }

  // ---------------------------------------------------------------------
  // The table and its handlers
  // ---------------------------------------------------------------------

  class Inbox {
    var notifications: seq<Notification>

    constructor(rows: seq<Notification>)
      ensures notifications == rows
    {
      notifications := rows;
    }

    /**
     * `mark_notification_as_read`: the caller's notification with that id,
     * marked read (stamped only on its first reading); a 404 for any other
     * id, reported as a 500.
     */
    method MarkRead(c: Account, id: Id, now: Moment) returns (r: Result<Receipt>)
      modifies this
      ensures var i := FirstMatch(old(notifications), Owned(id, c.id));
              (i.None? ==> r == Caught(MARK_READ_FAILED, NOT_FOUND, NOT_FOUND_DETAIL)
                           && notifications == old(notifications))
              && (i.Some? ==> r == Ok(Receipt(MARKED_READ, id))
                              && notifications == old(notifications)[i.value := ReadAt(old(notifications)[i.value], now)])
    {
      var i := FirstMatch(notifications, Owned(id, c.id));
      if i.None? {
        return Caught(MARK_READ_FAILED, NOT_FOUND, NOT_FOUND_DETAIL);
      }
      var n := notifications[i.value];
      if !n.isRead {
        notifications := notifications[i.value := n.(isRead := true, readAt := Some(now))];
      }
      r := Ok(Receipt(MARKED_READ, id));
    }

    /**
     * `mark_all_notifications_as_read`: every unread notification of the
     * caller that passes the filters is marked read at `now`, the others
     * stay as they were, and the message reports how many were matched.
     */
    method MarkAllRead(c: Account, kindText: Option<string>, categoryText: Option<string>, now: Moment)
      returns (r: Result<string>)
      modifies this
      ensures r.Err? <==> Filters(kindText, categoryText).Err?
      ensures r.Err? ==> var f := Filters(kindText, categoryText);
                         r == Caught(MARK_ALL_FAILED, f.status, f.detail) && notifications == old(notifications)
      ensures r.Ok? ==> var f := Filters(kindText, categoryText).value;
                        notifications == MarkAll(old(notifications), Pending(c, f.0, f.1), now)
                        && r.value == MarkedMessage(Count(old(notifications), Pending(c, f.0, f.1)))
    {
      var f := Filters(kindText, categoryText);
      if f.Err? {
        return Caught(MARK_ALL_FAILED, f.status, f.detail);
      }
      var p := Pending(c, f.value.0, f.value.1);
      assert forall n :: p(n) ==> !n.isRead;
      var out, count := MarkEach(notifications, p, now);
      notifications := out;
      r := Ok(MarkedMessage(count));
    }

    /**
     * The bulk update row by row: each row the update matches marked read,
     * counted as it goes.
     */
    static method MarkEach(rows: seq<Notification>, p: Notification -> bool, now: Moment)
      returns (out: seq<Notification>, count: nat)
      requires forall n :: p(n) ==> !n.isRead
      ensures out == MarkAll(rows, p, now) && count == Count(rows, p)
    {
      out := [];
      count := 0;
      var i := 0;
      while i < |rows|
        invariant 0 <= i <= |rows|
        invariant MarkedUpTo(rows, p, now, i, out, count)
      {
        var n := rows[i];
        MarkStep(rows, p, now, i, out, count);
        if p(n) {
          out := out + [n.(isRead := true, readAt := Some(now))];
          count := count + 1;
        } else {
          out := out + [n];
        }
        i := i + 1;
      }
      MarkedAll(rows, p, now, out, count);
    }

    /**
     * `delete_notification`: the caller's notification with that id is
     * removed; a 404 for any other id, reported as a 500.
     */
    method Delete(c: Account, id: Id) returns (r: Result<Receipt>)
      modifies this
      ensures var i := FirstMatch(old(notifications), Owned(id, c.id));
              (i.None? ==> r == Caught(DELETE_FAILED, NOT_FOUND, NOT_FOUND_DETAIL)
                           && notifications == old(notifications))
              && (i.Some? ==> r == Ok(Receipt(DELETED, id))
                              && notifications == old(notifications)[..i.value] + old(notifications)[i.value + 1..])
    {
      var i := FirstMatch(notifications, Owned(id, c.id));
      if i.None? {
        return Caught(DELETE_FAILED, NOT_FOUND, NOT_FOUND_DETAIL);
      }
      notifications := notifications[..i.value] + notifications[i.value + 1..];
      r := Ok(Receipt(DELETED, id));
    }

    /**
     * `clear_old_notifications`: the caller's read notifications created
     * before the cutoff are deleted, the rest kept in order, and the message
     * reports how many went.
     */
    method ClearOld(c: Account, daysOld: nat, now: Moment) returns (r: string)
      requires daysOld >= 1
      modifies this
      ensures notifications == Filter(old(notifications), Fresh(c, now, daysOld))
      ensures r == DeletedMessage(Count(old(notifications), Stale(c, now, daysOld)))
    {
      var out, deleted := Sweep(notifications, Stale(c, now, daysOld), Fresh(c, now, daysOld));
      notifications := out;
      r := DeletedMessage(deleted);
    }

    /**
     * `create_notification`, which checks no permission: the new row is
     * unread, created now and keyed above every existing key. The commit
     * fails, reported as a 500 carrying the database's message, when the
     * caller has no organization (the column is NOT NULL) or the recipient
     * is not a user.
     */
    method Create(c: Account, body: NotificationCreate, userIds: set<Id>, dbMessage: string, now: Moment)
      returns (r: Result<Notification>)
      requires NotificationCreateViolations(body) == []
      modifies this
      ensures r.Err? <==> c.organizationId.None? || body.userId !in userIds
      ensures r.Err? ==> r == Err(INTERNAL_ERROR, CREATE_FAILED + ": " + dbMessage)
                         && notifications == old(notifications)
      ensures r.Ok? ==> notifications == old(notifications) + [r.value]
                        && r.value == NewNotification(SchedulingDb.NextKey(old(notifications), IdOf),
                                                      c.organizationId.value, body, now)
      ensures r.Ok? ==> forall k :: 0 <= k < |old(notifications)| ==> old(notifications)[k].id < r.value.id
    {
      if c.organizationId.None? || body.userId !in userIds {
        return Err(INTERNAL_ERROR, CREATE_FAILED + ": " + dbMessage);
      }
      var row := NewNotification(SchedulingDb.NextKey(notifications, IdOf), c.organizationId.value, body, now);
      notifications := notifications + [row];
      r := Ok(row);
    }
  }
}
