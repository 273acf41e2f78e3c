# Auto-upload policy for failed posts

A Dafny model of `PostAutoUploadInteractor` from the WordPress iOS app. This is the
rule the app applies to a post whose upload failed. It decides whether the post is
uploaded as is (`upload`), uploaded as a revision only (`autoSave`), or left alone
(`nothing`). It also answers three related questions:

- Can the user cancel the pending auto-upload? This decides whether the post list shows a Cancel button.
- Does the old Retry button apply?
- Which band is the post's attempt counter in: not attempted, attempted, or reached the limit?

The policy is pure: it reads a post snapshot and two constants. The constants are
the disallowed statuses (trash and deleted) and the ceiling of 3 attempts.

Files:

- `wrappers.dfy`: `Option`, which stands for Swift's optional.
- `posts.dfy`: `Status` and the `AbstractPost` record. The record holds the snapshot fields the policy reads. Swift's `post is Page` subclass test becomes the flag `isPage`.
- `interactor.dfy`: the two enums, the two constants and the four queries. It also holds `Eligible`, a direct statement of the guard, and the lemmas relating the queries to each other and to the guard.

The action enum's String raw values and Swift's synthesised `init?(rawValue:)`
are modelled as `RawValue` and `FromRawValue`.

## Model

| member | source | states |
|---|---|---|
| `PostAutoUploadInteractor.AutoUploadActionFor` | WordPress/Classes/Services/PostAutoUploadInteractor.swift:34-49 | `upload` exactly when the post passes the guard (failed, has a status, status not trash or deleted, not a page, fewer than 3 attempts) and is a local draft or confirmed. `autoSave` exactly when it passes the guard, is neither a local draft nor confirmed, and is hosted at WordPress.com. `nothing` in every other case. |
| `PostAutoUploadInteractor.CanCancelAutoUpload` | WordPress/Classes/Services/PostAutoUploadInteractor.swift:56-63 | True exactly when the post passes the guard, is not a local draft, and the user confirmed the upload. |
| `PostAutoUploadInteractor.CanRetryUpload` | WordPress/Classes/Services/PostAutoUploadInteractor.swift:68-75 | True exactly when the post failed, has a status, and that status is trash or deleted. |
| `PostAutoUploadInteractor.AutoUploadAttemptStateOf` | WordPress/Classes/Services/PostAutoUploadInteractor.swift:79-88 | `reachedLimit` exactly when the count is at least 3. `attempted` exactly when it is 1 or 2. `notAttempted` exactly when it is 0 or below. |
| `PostAutoUploadInteractor.Contains` | WordPress/Classes/Services/PostAutoUploadInteractor.swift:37 | The linear membership test on the status list is true exactly when the status is in the list. |
| `PostAutoUploadInteractor.IsDisallowed` | WordPress/Classes/Services/PostAutoUploadInteractor.swift:22 | Membership in `disallowedStatuses` holds exactly for trash and deleted. |
| `PostAutoUploadInteractor.RawValue` | WordPress/Classes/Services/PostAutoUploadInteractor.swift:6-14 | Every action's raw value is one of "upload", "autoSave" and "nothing". With the two lemmas below, `RawValue` is a one-to-one map onto these three strings, and `FromRawValue` is its inverse. |
| `PostAutoUploadInteractor.FromRawValue` | WordPress/Classes/Services/PostAutoUploadInteractor.swift:6-14 | Parsing a string yields an action whose raw value is that string. It fails exactly for strings other than "upload", "autoSave" and "nothing". |
| `PostAutoUploadInteractor.RawValueRoundTrip` | WordPress/Classes/Services/PostAutoUploadInteractor.swift:10-13 | Parsing an action's raw value gives back the same action. |
| `PostAutoUploadInteractor.RawValueInjective` | WordPress/Classes/Services/PostAutoUploadInteractor.swift:10-13 | Two actions have the same raw value only when they are the same action. |
| `PostAutoUploadInteractor.GuardFailureMeansNothing` | WordPress/Classes/Services/PostAutoUploadInteractor.swift:35-40 | Any single one of these means the action is `nothing` and no Cancel is offered: not failed, nil status, trash, deleted, a page, or at least 3 attempts. |
| `PostAutoUploadInteractor.ConfirmedOrLocalDraftUploads` | WordPress/Classes/Services/PostAutoUploadInteractor.swift:43-44 | Once past the guard, a local draft or a confirmed post is uploaded. Flipping the hosting flag does not change that. |
| `PostAutoUploadInteractor.UnconfirmedDependsOnHosting` | WordPress/Classes/Services/PostAutoUploadInteractor.swift:45-47 | Once past the guard, an unconfirmed post that is not a local draft gets `autoSave` exactly when it is hosted at WordPress.com, and `nothing` exactly when it is self-hosted. It never gets `upload`. |
| `PostAutoUploadInteractor.CancelImpliesConfirmed` | WordPress/Classes/Services/PostAutoUploadInteractor.swift:43-62 | Cancel is offered exactly when the action is `upload` and the post is not a local draft. Cancel therefore implies the user confirmed the upload. |
| `PostAutoUploadInteractor.RetryExcludesAutoUpload` | WordPress/Classes/Services/PostAutoUploadInteractor.swift:37-74 | A post for which the legacy Retry applies is never auto-uploaded and never offers Cancel. |
| `PostAutoUploadInteractor.ActionBelowLimit` | WordPress/Classes/Services/PostAutoUploadInteractor.swift:24-88 | Any action other than `nothing` means the attempt state is not `reachedLimit`. |
| `PostAutoUploadInteractor.CountMonotone` | WordPress/Classes/Services/PostAutoUploadInteractor.swift:80 | This rests on an assumed invariant of the post store, which no line of the policy states: the counter never decreases from one snapshot to the next. The cited line only reads the counter. Under that assumption, the counter in any later snapshot is no smaller than in any earlier one. |
| `PostAutoUploadInteractor.LimitIsFinal` | WordPress/Classes/Services/PostAutoUploadInteractor.swift:24-88 | This rests on the same assumed invariant of the post store, which no line of the policy states: the counter never decreases. The cited lines give the shared ceiling. Under that assumption, once a snapshot reaches the limit, every later snapshot is also `reachedLimit`, gets `nothing`, and offers no Cancel. |
| `PostAutoUploadInteractor.Examples` | WordPress/Classes/Services/PostAutoUploadInteractor.swift:34-88 | Concrete decisions for chosen posts. A failed local draft is uploaded and not cancellable. A confirmed post is uploaded and cancellable. An unconfirmed WordPress.com post gets `autoSave` and a self-hosted one `nothing`. A page or a post with 3 attempts gets `nothing`. The counts 0, 1 and 3 map to the three attempt states. |

## Left out

- `ReplyTextView.swift` is not modelled. It is UIKit view code: it loads a nib, forwards text-view delegate events, handles first-responder changes and applies styling. Its resizing arithmetic works on floating-point layout values. Its placeholder and button toggling depends on the platform's Unicode whitespace set.
- The `AbstractPost` and `BasePost` Core Data classes are not part of this model. They compute `isFailed`, `isLocalDraft`, `isHostedAtWPcom`, `shouldAttemptAutoUpload` and `status`, which appear here as opaque fields of a snapshot.
- `BasePost.Status` is defined with `BasePost`, which this model does not cover. Its cases here are the WordPress post statuses (draft, pending, private, publish, scheduled, trash, deleted). The policy only singles out trash and deleted, and treats all other cases alike.
- The Page subclass is a flag on the record, not an inheritance relation.
- The attempt counter is an `NSNumber` read through `intValue`. It is modelled as an unbounded `int`, and negative values are allowed. The policy only compares it with constants, so integer width plays no part.
- Who calls the policy, and what increments the attempt counter, are not modelled. `CountNeverDecreases` only states the property that the post store is expected to keep.
