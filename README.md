# Order comment aggregate

A Dafny model of the `Comment` entity of the Sylius order-comments plugin.
A comment belongs to an order. It holds:

- the author's e-mail, as an `Email` value object;
- a non-empty message and a creation time;
- two independent read flags, one for the customer ("user") and one for the administrator;
- at most one attached file;
- the log of domain events it records for an external dispatcher: `OrderCommented` when it is created and `FileAttached` each time a file is attached.

The project has three files:

- `wrappers.dfy` (module `Wrappers`): `Option`, `Result` and `Outcome`. They stand for PHP's `null` and for calls that throw.
- `comment.dfy` (module `DomainModel`): the value types, the events and the errors. `State` is every field of a comment as a value. It has the pure functions `Construct`, `Attach`, `WithReadByUser` and `WithReadByAdmin`, and the lifetime invariant `Inv`. All of these form the specification. The class `Comment` is the mutable object. Its five identity fields are `const`, so only the constructor can assign them. The constructor, `Create`, `AttachFile`, `SetReadByUser` and `SetReadByAdmin` are each tied by their postcondition to one of the pure functions. `Record` is the recorder's internal append, called only by the constructor and `AttachFile`; clients are not meant to call it. `Valid()` is the non-empty message, which every comment keeps. `LogIntact()` is `Inv` of the fields: the log as construction and the mutators left it. The mutators accept any comment and keep `LogIntact()` when it held before the call.
- `lifecycle.dfy` (module `CommentLifecycle`): the life of a comment as any sequence of mutator calls (`Run`). It has reference definitions of what such a life produces: the files attached successfully and the values written to each flag. Lemmas connect `Run` to those definitions. Three client methods exercise the class through its contracts alone.

The collaborators whose code is not part of this model are passed in as parameters:

- the UUID generator and the clock appear as the `id` and `now` arguments;
- `Email::fromString` is an `EmailFactory`;
- `AttachedFile::create` is an `AttachedFileFactory`.

Each factory is a total function returning `Option`, where `None` means the factory threw. No validation rules are invented for them.

The message guard is PHP's `null == $message` on a `string`, which holds only for `""`. So `"0"` and `" "` are accepted messages (`IsEmptyMessage`). The empty-message check comes before the e-mail factory is called. When both would fail, the error is `EmptyMessage`.

## Model

| member | source | states |
|---|---|---|
| `DomainModel.Construct` | src/Domain/Model/Comment.php:44-65 | Fails with `EmptyMessage` exactly when the message is `""`, and with `InvalidEmail` exactly when the message is non-empty and the e-mail factory rejects the address. Otherwise it succeeds with the given id, order, factory e-mail, message and time, both flags false, no attachment, a log of exactly one matching `OrderCommented`, and `Inv` holding. |
| `DomainModel.Attach` | src/Domain/Model/Comment.php:67-74 | Fails with `InvalidFilePath` exactly when the factory rejects the path. Otherwise the attachment becomes the factory's file and exactly one `FileAttached(file path)` is appended after the unchanged earlier events. Identity fields and flags are untouched, and `Inv` is preserved. |
| `DomainModel.WithReadByUser` | src/Domain/Model/Comment.php:116-119 | The user flag becomes the argument. The admin flag, identity fields, attachment and event log are unchanged, and `Inv` is preserved. |
| `DomainModel.WithReadByAdmin` | src/Domain/Model/Comment.php:132-135 | The admin flag becomes the argument. The user flag, identity fields, attachment and event log are unchanged, and `Inv` is preserved. |
| `DomainModel.ReadFlagSetters` | src/Domain/Model/Comment.php:116-135 | Each flag setter is idempotent, and the two setters commute, so the flags are independent. |
| `DomainModel.Comment.constructor` | src/Domain/Model/Comment.php:50-64 | Assigns every field and records one `OrderCommented`. The object afterwards is exactly the successful `Construct` result, and `Valid()` and `LogIntact()` hold. |
| `DomainModel.Comment.Create` | src/Domain/Model/Comment.php:44-65 | `new Comment(...)` with its throw paths. A failure carries the same error as `Construct` and yields no object. On success it gives a fresh object equal to `Construct`'s state, with `Valid()` and `LogIntact()` holding. |
| `DomainModel.Comment.Record` | src/Domain/Model/Comment.php:18 | Recording appends one event at the end of the log and changes no other field. |
| `DomainModel.Comment.AttachFile` | src/Domain/Model/Comment.php:67-74 | The new state is `Attach` of the old one. If the factory rejects the path, the result is `Fail(InvalidFilePath)` and the object is unchanged. Only the attachment and the log may change. Any comment is accepted, and `LogIntact()` is preserved when it held. |
| `DomainModel.Comment.SetReadByUser` | src/Domain/Model/Comment.php:116-119 | Its frame is the user flag alone. The new state is `WithReadByUser` of the old one. Any comment is accepted, and `LogIntact()` is preserved when it held. |
| `DomainModel.Comment.SetReadByAdmin` | src/Domain/Model/Comment.php:132-135 | Its frame is the admin flag alone. The new state is `WithReadByAdmin` of the old one. Any comment is accepted, and `LogIntact()` is preserved when it held. |
| `CommentLifecycle.RunKeepsInv` | src/Domain/Model/Comment.php:44-135 | Any sequence of calls keeps the lifetime invariant. The message stays non-empty. The log still starts with the comment's own `OrderCommented`, followed only by `FileAttached` events. A file is attached exactly when one of those exists, and the last one names its path. |
| `CommentLifecycle.RunKeepsIdentity` | src/Domain/Model/Comment.php:50-54 | No sequence of calls changes the id, order, author e-mail, message or creation time. |
| `CommentLifecycle.RunEvents` | src/Domain/Model/Comment.php:56-73 | The final log is the initial log, unchanged, followed by one `FileAttached` per successful attachment, in call order. |
| `CommentLifecycle.RunLastAttachmentWins` | src/Domain/Model/Comment.php:69 | The final attachment is the last file attached successfully, or the earlier attachment when there was none. |
| `CommentLifecycle.RunReadFlags` | src/Domain/Model/Comment.php:116-135 | Each final flag is the last value written by its own setter, or its earlier value when there was none. |
| `CommentLifecycle.LifeOfAComment` | src/Domain/Model/Comment.php:44-74 | After a successful construction and any calls, the log is the one `OrderCommented` of the constructor's arguments, followed by the `FileAttached` events of the successful attachments. No later event is an `OrderCommented`. |
| `CommentLifecycle.AttachTwice` | src/Domain/Model/Comment.php:67-74 | On the object, a second `attachFile` leaves only the second file visible. The log is `OrderCommented`, then `FileAttached` for the first file, then for the second. |
| `CommentLifecycle.ReadFlagsScenario` | src/Domain/Model/Comment.php:33-36 | On the object, a new comment is unread by both. The whole state after a second `setReadByUser(true)` equals the state after the first, and the admin flag stays false. Setting the admin flag leaves the user flag set. No setter records an event. |
| `CommentLifecycle.ConstructionScenario` | src/Domain/Model/Comment.php:76-104 | On the object, the getters return what construction stored: the id, the order, the factory's e-mail, the message and the time, with no attachment. An empty message or a rejected e-mail yields the matching error and no object. |

The getters (`GetId`, `Order`, `AuthorEmail`, `Message`, `CreatedAt`, `GetAttachedFile`, `IsReadByUser`, `IsReadByAdmin`, lines 76-127) are plain field reads in the class. `ConstructionScenario` and `ReadFlagsScenario` state what they return.

## Left out

- UUID generation and the wall clock are not modelled. They are ambient calls, and the model takes their values as the constructor's `id` and `now` parameters.
- The validation rules of `Email::fromString` and `AttachedFile::create` are not modelled, because their source is not part of this model. Each is a caller-supplied total function whose `None` result stands for its exception.
- `FileAttached` carries the stored file's own path, as the source does. Nothing is claimed about how that path relates to the string passed to `attachFile`, because that relation belongs to the `AttachedFile` factory.
- Draining and erasing the recorded messages are left out, because the message-recorder mixin's internals are not part of this model. The log is the public `events` sequence, which only `Record` appends to. The cost: `Inv`, `LogIntact()` and the lifecycle lemmas describe a comment built by the constructor whose log was never erased. A comment loaded through the ORM without running the constructor, or one whose log was erased, need not satisfy them. `AttachFile`, `SetReadByUser` and `SetReadByAdmin` accept such a comment, as the source does. For it, they promise only their effect on the fields, not `LogIntact()`.
- Resource identity, ORM mapping and the internals of the order are left out, because they belong to the framework. The order is an opaque `OrderRef` handle.
- The event classes are modelled only by their constructor arguments, as `Event` constructors.
- Exceptions are modelled as `Result` or `Outcome` values. A failed call leaves the state unchanged, and `Run` carries on after it.
