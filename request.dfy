/**
 * The request conversation: a button starts it, the phone number and then
 * a comment are asked for, and the request is sent to every administrator.
 * It shares the per-user context with the other conversations.
 */
module Request {
  import opened Wrappers
  import opened SettingsTree
  import opened Fsm
  import Config

  datatype Reply = AskPhone | AskComment | RequestAccepted

  /** What the request conversation keeps in the bag: the phone, once it has been given. */
  predicate Stage(state: Option<StateId>, data: map<string, DataVal>) {
    match state
    case Some(WaitingForComment) => "phone" in data && data["phone"].DStr?
    case _ => true
  }

  /**
   * What goes wrong before the request is accepted: reading the phone from
   * the bag, then walking settings.bot.admin_ids to notify each
   * administrator and testing the sender's id against it for the keyboard.
   * A delivery that fails is caught and skipped.
   */
  function CommentError(data: map<string, DataVal>, tree: Node, uid: int): (r: Option<PyError>)
    ensures r == Some(KeyError) <==> "phone" !in data
    ensures "phone" in data ==> (r.None? <==> AdminIdsContain(tree, uid).Ok?)
    ensures "phone" in data && r.Some? ==> r.value == AdminIdsContain(tree, uid).error
  {
    if "phone" !in data then Some(KeyError)
    else match AdminIdsContain(tree, uid)
      case Err(e) => Some(e)
      case Ok(_) => None
  }

  /** start_request: the phone is asked for; the bag is kept, whatever conversation filled it. */
  method StartRequest(ctx: Context) returns (replies: seq<Reply>)
    modifies ctx
    ensures ctx.state == Some(WaitingForPhone) && ctx.data == old(ctx.data)
    ensures replies == [AskPhone]
  {
    replies := [AskPhone];
    ctx.SetState(WaitingForPhone);
  }

  /** process_phone: any text is stored as the phone and a comment is asked for. */
  method ProcessPhone(ctx: Context, text: string) returns (replies: seq<Reply>)
    modifies ctx
    ensures ctx.data == old(ctx.data)["phone" := DStr(text)]
    ensures ctx.state == Some(WaitingForComment)
    ensures Stage(ctx.state, ctx.data)
    ensures replies == [AskComment]
  {
    ctx.UpdateData("phone", DStr(text));
    replies := [AskComment];
    ctx.SetState(WaitingForComment);
  }

  /**
   * process_comment: the request is sent to the administrators, the sender
   * is thanked and the context is cleared. An exception on the way leaves
   * the context as it was and sends nothing to the sender.
   */
  method ProcessComment(ctx: Context, obj: SettingsObject, uid: int, text: string) returns (replies: seq<Reply>, raised: Option<PyError>)
    modifies ctx
    ensures raised == CommentError(old(ctx.data), obj.tree, uid)
    ensures raised.None? ==> ctx.state == None && ctx.data == map[] && replies == [RequestAccepted]
    ensures raised.Some? ==> ctx.state == old(ctx.state) && ctx.data == old(ctx.data) && replies == []
  {
    var error := CommentError(ctx.data, obj.tree, uid);
    if error.Some? {
      return [], error;
    }
    ctx.Clear();
    replies, raised := [RequestAccepted], None;
  }

  /** In the comment state the bag always holds the phone, so the request never fails on it. */
  lemma StagedCommentHasPhone(data: map<string, DataVal>, tree: Node, uid: int)
    requires Stage(Some(WaitingForComment), data)
    ensures CommentError(data, tree, uid) != Some(KeyError)
    ensures CommentError(data, tree, uid).None? <==> AdminIdsContain(tree, uid).Ok?
  {
  }

  /** On settings built from typed values a request with a phone is always accepted. */
  lemma TypedSettingsAcceptRequest(data: map<string, DataVal>, s: Config.Settings, uid: int)
    requires "phone" in data
    ensures CommentError(data, Encode(s), uid) == None
  {
    AdminIdsOfEncode(s, uid);
  }
}
