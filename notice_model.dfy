/**
 * The notice board's tables and request body: a notice, with its targeting
 * and display window, and the read receipt that records one user's reading
 * and acknowledging of one notice.
 */
module NoticeModel {
  import opened Common
  import opened UserSchemas

  datatype NoticePriority = LOW | MEDIUM | HIGH

  datatype NoticeCategory = GENERAL | POLICY | SAFETY | TRAINING | SYSTEM | EMERGENCY

  /**
   * A row of `notices`. `targetRoles` and `targetUsers` are JSON lists of
   * stringified keys; an absent list means everyone.
   */
  datatype Notice = Notice(
    id: Id,
    organizationId: Id,
    title: string,
    content: string,
    summary: Option<string>,
    priority: NoticePriority,
    category: NoticeCategory,
    targetRoles: Option<seq<string>>,
    targetUsers: Option<seq<string>>,
    isActive: bool,
    publishDate: Option<Moment>,
    expireDate: Option<Moment>,
    requiresAcknowledgment: bool,
    attachmentUrls: Option<seq<string>>,
    createdAt: Moment,
    updatedAt: Moment,
    createdBy: Id)

  function NoticeIdOf(n: Notice): Id
  {
    n.id
  }

  /** A row of `notice_read_receipts`: `readAt` defaults to the moment the row is made. */
  datatype Receipt = Receipt(noticeId: Id, userId: Id, readAt: Moment, acknowledgedAt: Option<Moment>)

  /** The body of `POST /notices`, with the defaults of `NoticeBase`. */
  datatype NoticeCreate = NoticeCreate(
    title: string,
    content: string,
    summary: Option<string>,
    priority: NoticePriority,
    category: NoticeCategory,
    targetRoles: Option<seq<string>>,
    targetUsers: Option<seq<string>>,
    publishDate: Option<Moment>,
    expireDate: Option<Moment>,
    requiresAcknowledgment: bool,
    attachmentUrls: Option<seq<string>>)

  /** A body that gives only the required title and content. */
  function DefaultNoticeCreate(title: string, content: string): (r: NoticeCreate)
    ensures r.priority == MEDIUM && r.category == GENERAL && !r.requiresAcknowledgment
    ensures r.targetRoles.None? && r.targetUsers.None? && r.publishDate.None? && r.expireDate.None?
  {
    NoticeCreate(title, content, None, MEDIUM, GENERAL, None, None, None, None, false, None)
  }

  /** The field constraints of `NoticeBase`; a body with a violation is refused with a 422. */
  function NoticeCreateViolations(b: NoticeCreate): (r: seq<Violation>)
    ensures r == [] <==> 1 <= |b.title| <= 255 && 1 <= |b.content|
                         && (b.summary.None? || |b.summary.value| <= 500)
  {
    Then(Bounds("title", b.title, 1, 255),
    Then(if |b.content| < 1 then Some(TooShort("content", 1)) else None,
    Then(OptionalBounds("summary", b.summary, 0, 500), [])))
  }
}
