/**
 The auto-upload policy for posts whose upload failed (`PostAutoUploadInteractor`).

 Given a snapshot of a post it decides whether the app should upload the post
 as is, upload only a revision (an autosave), or leave it alone; and it answers
 three questions derived from the same snapshot: may the user cancel the
 pending auto-upload, does the legacy Retry button apply, and how far along the
 attempt counter is.
 */
module PostAutoUploadInteractor {
  import opened Wrappers
  import opened Posts

  /** What should happen to the post when failed uploads are retried. */
  datatype AutoUploadAction =
    | Upload    // upload the post as is (a locally published post gets published)
    | AutoSave  // upload a revision only
    | Nothing

  datatype AutoUploadAttemptState = Attempted | ReachedLimit | NotAttempted

  /** Statuses for which a post is never auto-uploaded. */
  const DisallowedStatuses: seq<Status> := [Trash, Deleted]

  /** The ceiling on automatic upload attempts. */
  const MaxNumberOfAttempts: int := 3

  // ---------------------------------------------------------------------------
  // The enum's String raw values and Swift's synthesised `init?(rawValue:)`.

  function RawValue(a: AutoUploadAction): (s: string)
    ensures s in {"upload", "autoSave", "nothing"}
  {
    match a
    case Upload => "upload"
    case AutoSave => "autoSave"
    case Nothing => "nothing"
  }

  function FromRawValue(s: string): (r: Option<AutoUploadAction>)
    ensures r.Some? ==> RawValue(r.value) == s
    ensures r.None? <==> s !in {"upload", "autoSave", "nothing"}
  {
    if s == "upload" then Some(Upload)
    else if s == "autoSave" then Some(AutoSave)
    else if s == "nothing" then Some(Nothing)
    else None
  }

  lemma RawValueRoundTrip(a: AutoUploadAction)
    ensures FromRawValue(RawValue(a)) == Some(a)
  {
  }

  lemma RawValueInjective(a: AutoUploadAction, b: AutoUploadAction)
    ensures RawValue(a) == RawValue(b) <==> a == b
  {
  }

  // ---------------------------------------------------------------------------
  // Membership in the disallowed-status list.

  /** Linear membership test, as `Array.contains` performs it. */
  function Contains(xs: seq<Status>, x: Status): (r: bool)
    ensures r <==> x in xs
  {
    if xs == [] then false
    else if xs[0] == x then true
    else Contains(xs[1..], x)
  }

  /** `disallowedStatuses.contains(status)`. */
  function IsDisallowed(status: Status): (r: bool)
    ensures r <==> status == Trash || status == Deleted
  {
    Contains(DisallowedStatuses, status)
  }

  // ---------------------------------------------------------------------------
  // The specification of the guard that every auto-upload must pass.

  /**
   A post may be auto-uploaded at all only when it failed, has a status that is
   neither trash nor deleted, is not a page, and still has attempts left.
   */
  predicate Eligible(post: AbstractPost) {
    && post.isFailed
    && post.status.Some?
    && post.status.value !in {Trash, Deleted}
    && !post.isPage
    && post.autoUploadAttemptsCount < MaxNumberOfAttempts
  }

  // ---------------------------------------------------------------------------
  // The four queries.

  /**
   `autoUploadAction(for:)`. An eligible post that is a local draft or that the
   user confirmed is uploaded; an unconfirmed one gets a revision upload only on
   WordPress.com, because on a self-hosted site an autosave publishes the post.
   */
  function AutoUploadActionFor(post: AbstractPost): (r: AutoUploadAction)
    ensures r == Upload <==>
              Eligible(post) && (post.isLocalDraft || post.shouldAttemptAutoUpload)
    ensures r == AutoSave <==>
              Eligible(post) && !post.isLocalDraft && !post.shouldAttemptAutoUpload
              && post.isHostedAtWPcom
    ensures r == Nothing <==>
              !Eligible(post)
              || (!post.isLocalDraft && !post.shouldAttemptAutoUpload && !post.isHostedAtWPcom)
  {
    if !post.isFailed then Nothing
    else
      match post.status
      case None => Nothing
      case Some(status) =>
        if IsDisallowed(status) || post.isPage
           || !(post.autoUploadAttemptsCount < MaxNumberOfAttempts)
        then Nothing
        else if post.isLocalDraft || post.shouldAttemptAutoUpload then Upload
        else if post.isHostedAtWPcom then AutoSave
        else Nothing
  }

  /**
   `canCancelAutoUpload(of:)`: the post list shows a Cancel button exactly for
   posts that will be uploaded as is and are not local drafts (local drafts are
   always uploaded).
   */
  function CanCancelAutoUpload(post: AbstractPost): (r: bool)
    ensures r <==> Eligible(post) && !post.isLocalDraft && post.shouldAttemptAutoUpload
  {
    if AutoUploadActionFor(post) != Upload then false
    else !post.isLocalDraft
  }

  /**
   `canRetryUpload(of:)`, kept for the old Retry button: true exactly for failed
   posts whose status is one of the disallowed ones.
   */
  function CanRetryUpload(post: AbstractPost): (r: bool)
    ensures r <==> post.isFailed && post.status.Some? && post.status.value in {Trash, Deleted}
  {
    if !post.isFailed then false
    else
      match post.status
      case None => false
      case Some(status) => IsDisallowed(status)
  }

  /** `autoUploadAttemptState(of:)`: sorts the attempt counter into three bands. */
  function AutoUploadAttemptStateOf(post: AbstractPost): (r: AutoUploadAttemptState)
    ensures r == ReachedLimit <==> post.autoUploadAttemptsCount >= 3
    ensures r == Attempted <==> 1 <= post.autoUploadAttemptsCount <= 2
    ensures r == NotAttempted <==> post.autoUploadAttemptsCount <= 0
  {
    var count := post.autoUploadAttemptsCount;
    if count >= MaxNumberOfAttempts then ReachedLimit
    else if count > 0 then Attempted
    else NotAttempted
  }

  // ---------------------------------------------------------------------------
  // Properties of the policy.

  /** Each failing guard condition on its own forces `Nothing`. */
  lemma GuardFailureMeansNothing(post: AbstractPost)
    requires || !post.isFailed
             || post.status.None?
             || post.status == Some(Trash)
             || post.status == Some(Deleted)
             || post.isPage
             || post.autoUploadAttemptsCount >= 3
    ensures AutoUploadActionFor(post) == Nothing
    ensures !CanCancelAutoUpload(post)
  {
  }

  /** Past the guard, a local draft or a confirmed post is uploaded, whatever the hosting. */
  lemma ConfirmedOrLocalDraftUploads(post: AbstractPost)
    requires Eligible(post)
    requires post.isLocalDraft || post.shouldAttemptAutoUpload
    ensures AutoUploadActionFor(post) == Upload
    ensures AutoUploadActionFor(post.(isHostedAtWPcom := !post.isHostedAtWPcom)) == Upload
  {
  }

  /**
   Past the guard, an unconfirmed post that is not a local draft gets a
   revision upload exactly when it is hosted at WordPress.com; in particular a
   self-hosted unconfirmed post is never uploaded in any form.
   */
  lemma UnconfirmedDependsOnHosting(post: AbstractPost)
    requires Eligible(post)
    requires !post.isLocalDraft && !post.shouldAttemptAutoUpload
    ensures AutoUploadActionFor(post) == AutoSave <==> post.isHostedAtWPcom
    ensures AutoUploadActionFor(post) == Nothing <==> !post.isHostedAtWPcom
    ensures AutoUploadActionFor(post) != Upload
  {
  }

  /** A cancellable auto-upload is always one the user confirmed. */
  lemma CancelImpliesConfirmed(post: AbstractPost)
    ensures CanCancelAutoUpload(post) <==>
              AutoUploadActionFor(post) == Upload && !post.isLocalDraft
    ensures CanCancelAutoUpload(post) ==> post.shouldAttemptAutoUpload
  {
  }

  /** The legacy Retry predicate and any automatic action never apply to the same post. */
  lemma RetryExcludesAutoUpload(post: AbstractPost)
    ensures CanRetryUpload(post) ==> AutoUploadActionFor(post) == Nothing
    ensures CanRetryUpload(post) ==> !CanCancelAutoUpload(post)
  {
  }

  /** The action and the attempt state share one ceiling. */
  lemma ActionBelowLimit(post: AbstractPost)
    ensures AutoUploadActionFor(post) != Nothing ==>
              AutoUploadAttemptStateOf(post) != ReachedLimit
  {
  }

  // ---------------------------------------------------------------------------
  // The ceiling across a sequence of snapshots of one post.

  /**
   The post store never lowers the attempt counter from one snapshot to the
   next. This is an assumption about code outside the policy, not something the
   policy itself enforces.
   */
  predicate CountNeverDecreases(history: seq<AbstractPost>) {
    forall k :: 0 <= k < |history| - 1 ==>
      history[k].autoUploadAttemptsCount <= history[k + 1].autoUploadAttemptsCount
  }

  lemma {:induction false} CountMonotone(history: seq<AbstractPost>, i: nat, j: nat)
    requires CountNeverDecreases(history)
    requires i <= j < |history|
    ensures history[i].autoUploadAttemptsCount <= history[j].autoUploadAttemptsCount
  {
    if i < j {
      CountMonotone(history, i, j - 1);
    }
  }

  /**
   Once a snapshot has reached the limit, every later snapshot has too, and the
   policy neither uploads it nor offers to cancel.
   */
  lemma {:induction false} LimitIsFinal(history: seq<AbstractPost>, i: nat, j: nat)
    requires CountNeverDecreases(history)
    requires i <= j < |history|
    requires AutoUploadAttemptStateOf(history[i]) == ReachedLimit
    ensures AutoUploadAttemptStateOf(history[j]) == ReachedLimit
    ensures AutoUploadActionFor(history[j]) == Nothing
    ensures !CanCancelAutoUpload(history[j])
  {
    CountMonotone(history, i, j);
  }

  // ---------------------------------------------------------------------------
  // Worked examples.

  function FailedPost(isLocalDraft: bool, confirmed: bool, wpcom: bool, count: int): AbstractPost {
    AbstractPost(true, Some(Draft), false, isLocalDraft, confirmed, wpcom, count)
  }

  lemma Examples()
    ensures AutoUploadActionFor(FailedPost(true, false, false, 0)) == Upload
    ensures !CanCancelAutoUpload(FailedPost(true, false, false, 0))
    ensures AutoUploadActionFor(FailedPost(false, true, false, 1)) == Upload
    ensures CanCancelAutoUpload(FailedPost(false, true, false, 1))
    ensures AutoUploadActionFor(FailedPost(false, false, true, 0)) == AutoSave
    ensures AutoUploadActionFor(FailedPost(false, false, false, 0)) == Nothing
    ensures AutoUploadActionFor(FailedPost(false, true, true, 3)) == Nothing
    ensures AutoUploadActionFor(FailedPost(false, true, true, 0).(isPage := true)) == Nothing
    ensures CanRetryUpload(FailedPost(false, true, true, 0).(status := Some(Trash)))
    ensures AutoUploadAttemptStateOf(FailedPost(false, false, false, 0)) == NotAttempted
    ensures AutoUploadAttemptStateOf(FailedPost(false, false, false, 1)) == Attempted
    ensures AutoUploadAttemptStateOf(FailedPost(false, false, false, 3)) == ReachedLimit
  {
  }
}
