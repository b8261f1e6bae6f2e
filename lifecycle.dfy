/**
 The life of a comment after construction: any sequence of calls to its three
 mutators. The lemmas here say what every such life keeps (the invariant and
 the identity fields), what the event log becomes, and that the last
 successful attachment and the last write to each read flag win.
 */
module CommentLifecycle {
  import opened Wrappers
  import opened DomainModel

  /** One call to a mutator of the comment. */
  datatype Call =
    | AttachFileCall(path: string)
    | SetReadByUserCall(flag: bool)
    | SetReadByAdminCall(flag: bool)

  /** The state after one call; a call that throws leaves the state as it was. */
  function Apply(s: State, call: Call, create: AttachedFileFactory): State
  {
    match call
    case AttachFileCall(p) =>
      (match Attach(s, p, create)
       case Success(t) => t
       case Failure(_) => s)
    case SetReadByUserCall(b) => WithReadByUser(s, b)
    case SetReadByAdminCall(b) => WithReadByAdmin(s, b)
  }

  /** The state after the calls, made one after the other. */
  function Run(s: State, calls: seq<Call>, create: AttachedFileFactory): State
    decreases |calls|
  {
    if calls == [] then s else Run(Apply(s, calls[0], create), calls[1..], create)
  }

  /** The files that the calls attach successfully, in call order. */
  function AttachedFiles(calls: seq<Call>, create: AttachedFileFactory): seq<AttachedFile>
    decreases |calls|
  {
    if calls == [] then []
    else
      var head :=
        if calls[0].AttachFileCall? && create(calls[0].path).Some?
        then [create(calls[0].path).value] else [];
      head + AttachedFiles(calls[1..], create)
  }

  /** One `FileAttached` event per file, in the same order. */
  function FileAttachedEvents(files: seq<AttachedFile>): (r: seq<Event>)
  {
    seq(|files|, i requires 0 <= i < |files| => FileAttached(files[i].path))
  }

  /** The values written to the user's read flag, in call order. */
  function UserFlagWrites(calls: seq<Call>): seq<bool>
    decreases |calls|
  {
    if calls == [] then []
    else (if calls[0].SetReadByUserCall? then [calls[0].flag] else []) + UserFlagWrites(calls[1..])
  }

  /** The values written to the admin's read flag, in call order. */
  function AdminFlagWrites(calls: seq<Call>): seq<bool>
    decreases |calls|
  {
    if calls == [] then []
    else (if calls[0].SetReadByAdminCall? then [calls[0].flag] else []) + AdminFlagWrites(calls[1..])
  }

  /** The last element of a sequence, or `default` when it is empty. */
  function LastOr<T>(xs: seq<T>, default: T): T
  {
    if xs == [] then default else xs[|xs| - 1]
  }

  /** Every call keeps the invariant. */
  lemma {:induction false} RunKeepsInv(s: State, calls: seq<Call>, create: AttachedFileFactory)
    requires Inv(s)
    ensures Inv(Run(s, calls, create))
    decreases |calls|
  {
    if calls != [] {
      var t := Apply(s, calls[0], create);
      assert Inv(t);
      RunKeepsInv(t, calls[1..], create);
    }
  }

  /** No call changes the id, the order, the author e-mail, the message or the creation time. */
  lemma {:induction false} RunKeepsIdentity(s: State, calls: seq<Call>, create: AttachedFileFactory)
    ensures SameIdentity(s, Run(s, calls, create))
    decreases |calls|
  {
    if calls != [] {
      RunKeepsIdentity(Apply(s, calls[0], create), calls[1..], create);
    }
  }

  /**
   The log only grows: the calls append one `FileAttached` per successful
   attachment, in call order, and leave every earlier event in place.
   */
  lemma {:induction false} RunEvents(s: State, calls: seq<Call>, create: AttachedFileFactory)
    ensures Run(s, calls, create).events == s.events + FileAttachedEvents(AttachedFiles(calls, create))
    decreases |calls|
  {
    if calls != [] {
      var t := Apply(s, calls[0], create);
      RunEvents(t, calls[1..], create);
      var head := if calls[0].AttachFileCall? && create(calls[0].path).Some?
                  then [create(calls[0].path).value] else [];
      var rest := AttachedFiles(calls[1..], create);
      assert AttachedFiles(calls, create) == head + rest;
      assert t.events == s.events + FileAttachedEvents(head);
      assert FileAttachedEvents(head + rest) == FileAttachedEvents(head) + FileAttachedEvents(rest);
    }
  }

  /** Last write wins: the attachment is the last file attached, or the one held before. */
  lemma {:induction false} RunLastAttachmentWins(s: State, calls: seq<Call>, create: AttachedFileFactory)
    ensures var files := AttachedFiles(calls, create);
            Run(s, calls, create).attachedFile == if files == [] then s.attachedFile else Some(files[|files| - 1])
    decreases |calls|
  {
    if calls != [] {
      RunLastAttachmentWins(Apply(s, calls[0], create), calls[1..], create);
    }
  }

  /** Each read flag holds the last value written to it, and only its own setter writes it. */
  lemma {:induction false} RunReadFlags(s: State, calls: seq<Call>, create: AttachedFileFactory)
    ensures Run(s, calls, create).readByUser == LastOr(UserFlagWrites(calls), s.readByUser)
    ensures Run(s, calls, create).readByAdmin == LastOr(AdminFlagWrites(calls), s.readByAdmin)
    decreases |calls|
  {
    if calls != [] {
      RunReadFlags(Apply(s, calls[0], create), calls[1..], create);
    }
  }

  /**
   Whatever happens after a successful construction, the log is the single
   `OrderCommented` of the comment's own fields followed by one `FileAttached`
   per successful attachment; no `OrderCommented` ever appears again.
   */
  lemma LifeOfAComment(order: OrderRef, authorEmail: string, message: string, id: Uuid, now: Instant,
                       emailFromString: EmailFactory, calls: seq<Call>, create: AttachedFileFactory)
    requires Construct(order, authorEmail, message, id, now, emailFromString).Success?
    ensures var s := Construct(order, authorEmail, message, id, now, emailFromString).value;
            var t := Run(s, calls, create);
            && Inv(t)
            && SameIdentity(s, t)
            && t.events == [OrderCommented(id, order, emailFromString(authorEmail).value, message, now)]
                           + FileAttachedEvents(AttachedFiles(calls, create))
            && (forall i :: 1 <= i < |t.events| ==> !t.events[i].OrderCommented?)
  {
    var s := Construct(order, authorEmail, message, id, now, emailFromString).value;
    RunKeepsInv(s, calls, create);
    RunKeepsIdentity(s, calls, create);
    RunEvents(s, calls, create);
  }

  /**
   On the object: attaching twice leaves only the second file visible, and
   the log holds the two `FileAttached` events in call order after the
   `OrderCommented`.
   */
  method AttachTwice(order: OrderRef, authorEmail: string, message: string, id: Uuid, now: Instant,
                     emailFromString: EmailFactory, first: string, second: string,
                     create: AttachedFileFactory)
    returns (file: Option<AttachedFile>, log: seq<Event>)
    requires message != "" && emailFromString(authorEmail).Some?
    requires create(first).Some? && create(second).Some?
    ensures file == create(second)
    ensures log == [OrderCommented(id, order, emailFromString(authorEmail).value, message, now),
                    FileAttached(create(first).value.path),
                    FileAttached(create(second).value.path)]
  {
    var comment := new Comment(order, authorEmail, message, id, now, emailFromString);
    var r1 := comment.AttachFile(first, create);
    var r2 := comment.AttachFile(second, create);
    file, log := comment.GetAttachedFile(), comment.events;
  }

  /**
   On the object: a new comment is unread by both; each setter changes its
   own flag only, records nothing, and calling it twice is the same as once.
   */
  method ReadFlagsScenario(order: OrderRef, authorEmail: string, message: string, id: Uuid, now: Instant,
                           emailFromString: EmailFactory)
    returns (initially: (bool, bool), once: State, twice: State, afterUser: (bool, bool),
             afterBoth: (bool, bool), log: seq<Event>)
    requires message != "" && emailFromString(authorEmail).Some?
    ensures initially == (false, false)
    ensures once == twice
    ensures afterUser == (true, false)
    ensures afterBoth == (true, true)
    ensures log == [OrderCommented(id, order, emailFromString(authorEmail).value, message, now)]
  {
    var comment := new Comment(order, authorEmail, message, id, now, emailFromString);
    initially := (comment.IsReadByUser(), comment.IsReadByAdmin());
    comment.SetReadByUser(true);
    once := comment.Snapshot();
    comment.SetReadByUser(true);
    twice := comment.Snapshot();
    afterUser := (comment.IsReadByUser(), comment.IsReadByAdmin());
    comment.SetReadByAdmin(true);
    afterBoth := (comment.IsReadByUser(), comment.IsReadByAdmin());
    log := comment.events;
  }

  /**
   On the object: the getters return what the constructor stored, and a
   failed construction yields no comment.
   */
  method ConstructionScenario(order: OrderRef, authorEmail: string, message: string, id: Uuid, now: Instant,
                              emailFromString: EmailFactory)
    returns (r: Result<(Uuid, OrderRef, Email, string, Instant, Option<AttachedFile>), Error>)
    ensures message == "" ==> r == Failure(EmptyMessage)
    ensures message != "" && emailFromString(authorEmail).None? ==> r == Failure(InvalidEmail)
    ensures message != "" && emailFromString(authorEmail).Some? ==>
      r == Success((id, order, emailFromString(authorEmail).value, message, now, None))
  {
    var created := Comment.Create(order, authorEmail, message, id, now, emailFromString);
    match created
    case Failure(e) =>
      r := Failure(e);
    case Success(comment) =>
      r := Success((comment.GetId(), comment.Order(), comment.AuthorEmail(), comment.Message(),
                    comment.CreatedAt(), comment.GetAttachedFile()));
  }
}
