/**
 The `Comment` aggregate of the order-comments plugin: a comment left on an
 order by an author, with two read flags, at most one attached file and a log
 of the domain events it has recorded for later dispatch.

 The pure part of this module (`State` and the functions on it) is the
 specification; the class `Comment` is the mutable object, and each of its
 public operations is tied to one of those functions by its postcondition.
 */
module DomainModel {
  import opened Wrappers

  /** Identifier of a comment (a random version-4 UUID); the caller supplies it. */
  datatype Uuid = Uuid(bits: nat)

  /** Handle on the order the comment belongs to; stored and forwarded, never inspected. */
  datatype OrderRef = OrderRef(handle: nat)

  /** The creation instant; the caller supplies it in place of the wall clock. */
  datatype Instant = Instant(ticks: int)

  /** The e-mail value object, as produced by its own factory. */
  datatype Email = Email(address: string)

  /** The attached-file value object, as produced by its own factory. */
  datatype AttachedFile = AttachedFile(path: string)

  /**
   The value-object factories whose rules are not part of this model.
   `None` means the factory rejected its input (it threw).
   */
  type EmailFactory = string -> Option<Email>
  type AttachedFileFactory = string -> Option<AttachedFile>

  /** The domain events the aggregate records. */
  datatype Event =
    | OrderCommented(commentId: Uuid, order: OrderRef, authorEmail: Email, message: string, createdAt: Instant)
    | FileAttached(path: string)

  /** Why a call failed: the message guard, or one of the two factories. */
  datatype Error = EmptyMessage | InvalidEmail | InvalidFilePath

  /** Every field of a comment, as a value. */
  datatype State = State(
    id: Uuid,
    order: OrderRef,
    authorEmail: Email,
    message: string,
    createdAt: Instant,
    readByUser: bool,
    readByAdmin: bool,
    attachedFile: Option<AttachedFile>,
    events: seq<Event>)

  /**
   The message guard. PHP's loose `null == $message` on a string is true for
   the empty string only, so a message such as "0" or " " is accepted.
   */
  predicate IsEmptyMessage(message: string)
  {
    message == ""
  }

  /** The five fields that are set once, at construction, agree. */
  predicate SameIdentity(s: State, t: State)
  {
    && s.id == t.id
    && s.order == t.order
    && s.authorEmail == t.authorEmail
    && s.message == t.message
    && s.createdAt == t.createdAt
  }

  /** The event a comment records when it is created. */
  function CommentedEvent(s: State): Event
  {
    OrderCommented(s.id, s.order, s.authorEmail, s.message, s.createdAt)
  }

  /**
   What holds of a comment from construction on, while its log of recorded
   messages is not erased: the message is not empty; the log starts with
   exactly one `OrderCommented` carrying the comment's own identity fields
   and is followed only by `FileAttached` events; a file is attached exactly when such an event exists, and the last
   one names the attached file's path.
   */
  predicate Inv(s: State)
  {
    && !IsEmptyMessage(s.message)
    && |s.events| >= 1
    && s.events[0] == CommentedEvent(s)
    && (forall i :: 1 <= i < |s.events| ==> s.events[i].FileAttached?)
    && (s.attachedFile.None? <==> |s.events| == 1)
    && (s.attachedFile.Some? ==> s.events[|s.events| - 1] == FileAttached(s.attachedFile.value.path))
  }

  /**
   Creating a comment: the empty message is rejected first, then the e-mail
   factory may reject the address; otherwise the comment starts unread, with
   no attachment and a single `OrderCommented` event.
   */
  function Construct(order: OrderRef, authorEmail: string, message: string, id: Uuid, now: Instant,
                     emailFromString: EmailFactory): (r: Result<State, Error>)
    ensures r == Failure(EmptyMessage) <==> message == ""
    ensures r == Failure(InvalidEmail) <==> message != "" && emailFromString(authorEmail).None?
    ensures r.Success? <==> message != "" && emailFromString(authorEmail).Some?
    ensures r.Success? ==>
      && r.value.id == id
      && r.value.order == order
      && r.value.authorEmail == emailFromString(authorEmail).value
      && r.value.message == message
      && r.value.createdAt == now
      && !r.value.readByUser && !r.value.readByAdmin
      && r.value.attachedFile == None
      && r.value.events == [OrderCommented(id, order, emailFromString(authorEmail).value, message, now)]
      && Inv(r.value)
  {
    if IsEmptyMessage(message) then
      Failure(EmptyMessage)
    else
      match emailFromString(authorEmail)
      case None => Failure(InvalidEmail)
      case Some(email) =>
        var initial := State(id, order, email, message, now, false, false, None, []);
        Success(initial.(events := [CommentedEvent(initial)]))
  }

  /**
   Attaching a file: if the factory accepts the path, the new file replaces
   any earlier one and exactly one `FileAttached` event is appended; if it
   rejects the path, nothing changes.
   */
  function Attach(s: State, path: string, create: AttachedFileFactory): (r: Result<State, Error>)
    ensures r.Failure? <==> create(path).None?
    ensures r.Failure? ==> r.error == InvalidFilePath
    ensures r.Success? ==>
      && r.value.attachedFile == create(path)
      && r.value.events == s.events + [FileAttached(create(path).value.path)]
      && SameIdentity(s, r.value)
      && r.value.readByUser == s.readByUser
      && r.value.readByAdmin == s.readByAdmin
    ensures r.Success? && Inv(s) ==> Inv(r.value)
  {
    match create(path)
    case None => Failure(InvalidFilePath)
    case Some(file) => Success(s.(attachedFile := Some(file), events := s.events + [FileAttached(file.path)]))
  }

  /** Setting the user's read flag changes that flag and nothing else. */
  function WithReadByUser(s: State, flag: bool): (r: State)
    ensures r.readByUser == flag
    ensures r.readByAdmin == s.readByAdmin
    ensures SameIdentity(s, r) && r.attachedFile == s.attachedFile && r.events == s.events
    ensures Inv(s) ==> Inv(r)
  {
    s.(readByUser := flag)
  }

  /** Setting the admin's read flag changes that flag and nothing else. */
  function WithReadByAdmin(s: State, flag: bool): (r: State)
    ensures r.readByAdmin == flag
    ensures r.readByUser == s.readByUser
    ensures SameIdentity(s, r) && r.attachedFile == s.attachedFile && r.events == s.events
    ensures Inv(s) ==> Inv(r)
  {
    s.(readByAdmin := flag)
  }

  /** Each read-flag setter is idempotent, and the two setters commute. */
  lemma ReadFlagSetters(s: State, a: bool, b: bool)
    ensures WithReadByUser(WithReadByUser(s, a), a) == WithReadByUser(s, a)
    ensures WithReadByAdmin(WithReadByAdmin(s, b), b) == WithReadByAdmin(s, b)
    ensures WithReadByAdmin(WithReadByUser(s, a), b) == WithReadByUser(WithReadByAdmin(s, b), a)
  {
  }

  /** The mutable comment object. */
  class Comment {
    // Assigned once, in the constructor.
    const id: Uuid
    const order: OrderRef
    const authorEmail: Email
    const message: string
    const createdAt: Instant
    // Changed in place by the setters and by AttachFile.
    var readByUser: bool
    var readByAdmin: bool
    var attachedFile: Option<AttachedFile>
    // The messages recorded so far, in order.
    var events: seq<Event>

    /** The object's fields as a value. */
    function Snapshot(): State
      reads this
    {
      State(id, order, authorEmail, message, createdAt, readByUser, readByAdmin, attachedFile, events)
    }

    /**
     What every comment keeps: a non-empty message. The message is a `const`
     that only the constructor assigns, and it refuses the empty message.
     */
    ghost predicate Valid()
      reads this
    {
      !IsEmptyMessage(message)
    }

    /**
     The log is as construction and the mutators left it: `Inv` of the
     fields. A comment whose log was erased, or that was loaded without
     running the constructor, need not satisfy it.
     */
    ghost predicate LogIntact()
      reads this
    {
      Inv(Snapshot())
    }

    /**
     The body of the PHP constructor once the guard has passed and the e-mail
     factory has returned.
     */
    constructor (order: OrderRef, authorEmail: string, message: string, id: Uuid, now: Instant,
                 emailFromString: EmailFactory)
      requires !IsEmptyMessage(message)
      requires emailFromString(authorEmail).Some?
      ensures Valid() && LogIntact()
      ensures Construct(order, authorEmail, message, id, now, emailFromString) == Success(Snapshot())
    {
      this.id := id;
      this.authorEmail := emailFromString(authorEmail).value;
      this.order := order;
      this.message := message;
      this.createdAt := now;
      readByUser, readByAdmin := false, false;
      attachedFile := None;
      events := [];
      new;
      Record(OrderCommented(this.id, this.order, this.authorEmail, this.message, this.createdAt));
      assert Snapshot().events == [CommentedEvent(Snapshot())];
    }

    /**
     `new Comment(...)` with its failure paths: an empty message, or an
     address the e-mail factory rejects, yields no object.
     */
    static method Create(order: OrderRef, authorEmail: string, message: string, id: Uuid, now: Instant,
                         emailFromString: EmailFactory) returns (r: Result<Comment, Error>)
      ensures r.Success? ==> fresh(r.value) && r.value.Valid() && r.value.LogIntact()
      ensures r.Success? ==> Construct(order, authorEmail, message, id, now, emailFromString) == Success(r.value.Snapshot())
      ensures r.Failure? ==> Construct(order, authorEmail, message, id, now, emailFromString) == Failure(r.error)
    {
      if IsEmptyMessage(message) {
        return Failure(EmptyMessage);
      }
      if emailFromString(authorEmail).None? {
        return Failure(InvalidEmail);
      }
      var comment := new Comment(order, authorEmail, message, id, now, emailFromString);
      return Success(comment);
    }

    /**
     Appends one message to the log; touches nothing else. Only the
     constructor and `AttachFile` call it: it is the recorder's internal
     append, not an operation for clients.
     */
    method Record(e: Event)
      modifies this`events
      ensures events == old(events) + [e]
    {
      events := events + [e];
    }

    /**
     Replaces the attachment with the factory's file for `path` and records
     `FileAttached`; when the factory rejects the path the call fails and the
     object is unchanged.
     */
    method AttachFile(path: string, create: AttachedFileFactory) returns (r: Outcome<Error>)
      modifies this`attachedFile, this`events
      ensures old(LogIntact()) ==> LogIntact()
      ensures r.Pass? <==> Attach(old(Snapshot()), path, create).Success?
      ensures r.Pass? ==> Attach(old(Snapshot()), path, create) == Success(Snapshot())
      ensures r.Fail? ==> r.error == InvalidFilePath && Snapshot() == old(Snapshot())
    {
      match create(path)
      case None =>
        return Fail(InvalidFilePath);
      case Some(file) =>
        attachedFile := Some(file);
        Record(FileAttached(attachedFile.value.path));
        return Pass;
    }

    function GetId(): Uuid { id }

    function Order(): OrderRef { order }

    function AuthorEmail(): Email { authorEmail }

    function Message(): string { message }

    function CreatedAt(): Instant { createdAt }

    function GetAttachedFile(): Option<AttachedFile>
      reads this
    {
      attachedFile
    }

    function IsReadByUser(): bool
      reads this
    {
      readByUser
    }

    function IsReadByAdmin(): bool
      reads this
    {
      readByAdmin
    }

    /** Sets the user's read flag; records no event and touches no other field. */
    method SetReadByUser(flag: bool)
      modifies this`readByUser
      ensures old(LogIntact()) ==> LogIntact()
      ensures Snapshot() == WithReadByUser(old(Snapshot()), flag)
    {
      readByUser := flag;
    }

    /** Sets the admin's read flag; records no event and touches no other field. */
    method SetReadByAdmin(flag: bool)
      modifies this`readByAdmin
      ensures old(LogIntact()) ==> LogIntact()
      ensures Snapshot() == WithReadByAdmin(old(Snapshot()), flag)
    {
      readByAdmin := flag;
    }
  }
}
