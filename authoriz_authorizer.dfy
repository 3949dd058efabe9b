/** `Authoriz::Authorizer` and its `Authoriz::UnauthorizedError`: the same
    dispatch as `Canny::Authorizer` but with no defaults, and an error whose
    message is rendered from its fields each time it is asked for. */
module AuthorizAuthorizer {
  import opened RubyCore
  import opened RubyHash
  import CannaResult
  import DenialMessage
  import CannyAuthorizer
  import CannyUnauthorized

  /** `Authoriz::UnauthorizedError`: the five fields, no stored message. */
  datatype UnauthorizedError = UnauthorizedError(
    reason: Value, action: Key, receiver: Value, args: seq<Value>, kwargs: Hash)
  {
    /** `message`, computed on demand from the fields: the same text that
        `Canny::Unauthorized` stores when built from them. */
    function Message(fmt: Formatter): (m: string)
      ensures m == CannyUnauthorized.New(fmt, reason, action, receiver, args, kwargs).message
      ensures m == DenialMessage.Spelled(fmt, reason, action, receiver, args, kwargs)
    {
      DenialMessage.Message(fmt, reason, action, receiver, args, kwargs)
    }
  }

  datatype AuthorizeError = MissingMethod(noMethod: NoMethodError) | Denied(unauthorized: UnauthorizedError)

  /** The private `authorize`: `authorize_to_<action>` is sent exactly the
      call's arguments, with no keyword Hash when there are no keywords. */
  function Authorize(action: Key, target: Target, args: seq<Value>, kwargs: Hash)
    : (o: Outcome<Value, NoMethodError>)
    ensures o.Returned? <==> "authorize_to_" + action in target.methods
    ensures o.Returned? ==>
      o.value == target.methods["authorize_to_" + action](Invocation(args, if kwargs == [] then None else Some(kwargs)))
    ensures o.Raised? ==> o.error == NoMethodError("authorize_to_" + action, target.self)
  {
    Send(target, "authorize_to_" + action, Invocation(args, Splat(kwargs)))
  }

  /** `can`: the raw answer, handed to `Result.can` with the block. */
  function Can(action: Key, target: Target, args: seq<Value>, kwargs: Hash, block: CannaResult.Block)
    : (o: Outcome<CannaResult.Constructed, NoMethodError>)
    ensures var d := Authorize(action, target, args, kwargs);
      (d.Raised? ==> o == Raised(d.error)) &&
      (d.Returned? ==> o == Returned(CannaResult.Can(d.value, block)))
  {
    match Authorize(action, target, args, kwargs)
    case Raised(e) => Raised(e)
    case Returned(answer) => Returned(CannaResult.Can(answer, block))
  }

  /** `cannot`: the raw answer, handed to `Result.cannot` with the block. */
  function Cannot(action: Key, target: Target, args: seq<Value>, kwargs: Hash, block: CannaResult.Block)
    : (o: Outcome<CannaResult.Constructed, NoMethodError>)
    ensures var d := Authorize(action, target, args, kwargs);
      (d.Raised? ==> o == Raised(d.error)) &&
      (d.Returned? ==> o == Returned(CannaResult.Cannot(d.value, block)))
  {
    match Authorize(action, target, args, kwargs)
    case Raised(e) => Raised(e)
    case Returned(answer) => Returned(CannaResult.Cannot(answer, block))
  }

  /** `can?`: whether the answer is exactly `true`. */
  function IsAllowed(action: Key, target: Target, args: seq<Value>, kwargs: Hash)
    : (o: Outcome<bool, NoMethodError>)
    ensures var d := Authorize(action, target, args, kwargs);
      (d.Raised? ==> o == Raised(d.error)) &&
      (d.Returned? ==> o.Returned? && (o.value <==> d.value == True))
  {
    match Authorize(action, target, args, kwargs)
    case Raised(e) => Raised(e)
    case Returned(answer) => Returned(answer == True)
  }

  /** `cannot?`: the negation of `can?`. */
  function IsDenied(action: Key, target: Target, args: seq<Value>, kwargs: Hash)
    : (o: Outcome<bool, NoMethodError>)
    ensures var q := IsAllowed(action, target, args, kwargs);
      (q.Raised? ==> o == q) && (q.Returned? ==> o == Returned(!q.value))
  {
    match IsAllowed(action, target, args, kwargs)
    case Raised(e) => Raised(e)
    case Returned(allowed) => Returned(!allowed)
  }

  /** `authorize!`: returns `nil` exactly when the answer is `true`, and
      otherwise raises an error holding the answer, the action, the receiver
      and the call's arguments. */
  function AuthorizeOrRaise(action: Key, target: Target, args: seq<Value>, kwargs: Hash)
    : (o: Outcome<Value, AuthorizeError>)
    ensures var d := Authorize(action, target, args, kwargs);
      (d.Raised? ==> o == Raised(MissingMethod(d.error))) &&
      (d.Returned? ==> (o.Returned? <==> d.value == True)) &&
      (o.Returned? ==> o.value == Nil) &&
      (d.Returned? && d.value != True ==>
        o == Raised(Denied(UnauthorizedError(d.value, action, target.self, args, kwargs))))
  {
    match Authorize(action, target, args, kwargs)
    case Raised(e) => Raised(MissingMethod(e))
    case Returned(answer) =>
      if answer == True then Returned(Nil)
      else Raised(Denied(UnauthorizedError(answer, action, target.self, args, kwargs)))
  }

  /** This authorizer decides exactly as a `Canny::Authorizer` built without
      defaults, and its errors carry the same fields and, when asked, the same
      message that the other error stores. */
  lemma AgreesWithCannyWithoutDefaults(fmt: Formatter, action: Key, target: Target, args: seq<Value>,
                                       kwargs: Hash, block: CannaResult.Block)
    ensures var auth := CannyAuthorizer.Authorizer([], []);
      Authorize(action, target, args, kwargs) == CannyAuthorizer.Authorize(auth, action, target, args, kwargs) &&
      Can(action, target, args, kwargs, block) == CannyAuthorizer.Can(auth, action, target, args, kwargs, block) &&
      Cannot(action, target, args, kwargs, block) == CannyAuthorizer.Cannot(auth, action, target, args, kwargs, block) &&
      IsAllowed(action, target, args, kwargs) == CannyAuthorizer.IsAllowed(auth, action, target, args, kwargs) &&
      IsDenied(action, target, args, kwargs) == CannyAuthorizer.IsDenied(auth, action, target, args, kwargs)
    ensures var auth := CannyAuthorizer.Authorizer([], []);
      var mine := AuthorizeOrRaise(action, target, args, kwargs);
      var theirs := CannyAuthorizer.AuthorizeOrRaise(fmt, auth, action, target, args, kwargs);
      mine.Returned? == theirs.Returned? &&
      (mine.Returned? ==> mine.value == theirs.value) &&
      (mine.Raised? && mine.error.MissingMethod? ==> theirs == Raised(CannyAuthorizer.MissingMethod(mine.error.noMethod))) &&
      (mine.Raised? && mine.error.Denied? ==>
        var e := mine.error.unauthorized;
        theirs.Raised? && theirs.error.Denied? &&
        theirs.error.unauthorized ==
          CannyAuthorizer.UnauthorizedError(e.reason, e.action, e.receiver, e.args, e.kwargs, e.Message(fmt)))
  {
    var auth := CannyAuthorizer.Authorizer([], []);
    MergeIdentity([], kwargs);
    assert CannyAuthorizer.EffectiveCall(auth, args, kwargs) == Invocation(args, Splat(kwargs));
  }
}
