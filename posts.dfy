/**
 The read-only view of a post that the auto-upload policy consults.

 The Core Data classes `AbstractPost` and `BasePost` compute these values from
 their stored attributes; here they are plain fields of a record snapshot.
 Swift's `post is Page` subclass test becomes the flag `isPage`.
 */
module Posts {
  import opened Wrappers

  /** The publishing status of a post (`BasePost.Status`). */
  datatype Status = Draft | Pending | Private | Publish | Scheduled | Trash | Deleted

  datatype AbstractPost = AbstractPost(
    isFailed: bool,                 // the last upload failed
    status: Option<Status>,         // nil when the post has no status yet
    isPage: bool,                   // the object is a `Page`, not an ordinary post
    isLocalDraft: bool,             // never synchronised with any server
    shouldAttemptAutoUpload: bool,  // the user pressed Publish or Update in the editor
    isHostedAtWPcom: bool,          // the site lives on WordPress.com rather than self-hosted
    autoUploadAttemptsCount: int    // `autoUploadAttemptsCount.intValue`
  )
}
