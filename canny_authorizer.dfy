/** `Canny::Authorizer` and its `Canny::UnauthorizedError`. An authorizer holds
    default positional and keyword arguments, fixed when it is built; every
    decision puts the defaults in front of the call's positional arguments,
    merges the call's keywords over the default ones, and sends
    `authorize_to_<action>` to the receiver, whose raw answer is the decision. */
module CannyAuthorizer {
  import opened RubyCore
  import opened RubyHash
  import CannaResult
  import DenialMessage

  /** `Canny::UnauthorizedError`: its message is rendered once, at construction. */
  datatype UnauthorizedError = UnauthorizedError(
    reason: Value, action: Key, receiver: Value, args: seq<Value>, kwargs: Hash, message: string)

  /** `build_message`, over the fields already assigned: the denial text of
      the five fields, whatever message is stored. */
  function BuildMessage(fmt: Formatter, e: UnauthorizedError): (m: string)
    ensures m == DenialMessage.Spelled(fmt, e.reason, e.action, e.receiver, e.args, e.kwargs)
  {
    DenialMessage.Message(fmt, e.reason, e.action, e.receiver, e.args, e.kwargs)
  }

  /** `UnauthorizedError.new(reason, action, receiver, *args, **kwargs)`. */
  function NewUnauthorizedError(fmt: Formatter, reason: Value, action: Key, receiver: Value,
                                args: seq<Value>, kwargs: Hash): (e: UnauthorizedError)
    ensures e.reason == reason && e.action == action && e.receiver == receiver
    ensures e.args == args && e.kwargs == kwargs
    ensures e.message == BuildMessage(fmt, e)
  {
    var fields := UnauthorizedError(reason, action, receiver, args, kwargs, "");
    fields.(message := BuildMessage(fmt, fields))
  }

  /** What `authorize!` raises: the receiver lacks the decision method, or the
      decision was a denial. */
  datatype AuthorizeError = MissingMethod(noMethod: NoMethodError) | Denied(unauthorized: UnauthorizedError)

  /** `Authorizer.new(*default_args, **default_kwargs)`. No operation returns a
      changed authorizer, so the defaults stay as built. */
  datatype Authorizer = Authorizer(defaultArgs: seq<Value>, defaultKwargs: Hash)

  /** `"authorize_to_#{action}"`. */
  function MethodName(action: Key): (n: string)
    ensures |n| == 13 + |action| && n[..13] == "authorize_to_" && n[13..] == action
  {
    "authorize_to_" + action
  }

  /** The arguments `authorize` sends: `default_args + args`, and
      `default_kwargs.merge(kwargs)` unless that is empty. */
  function EffectiveCall(auth: Authorizer, args: seq<Value>, kwargs: Hash): (call: Invocation)
    ensures |call.positional| == |auth.defaultArgs| + |args|
    ensures call.positional[..|auth.defaultArgs|] == auth.defaultArgs
    ensures call.positional[|auth.defaultArgs|..] == args
    ensures call.keywords == None <==> auth.defaultKwargs == [] && kwargs == []
  {
    MergeEmpty(auth.defaultKwargs, kwargs);
    Invocation(auth.defaultArgs + args, Splat(Merge(auth.defaultKwargs, kwargs)))
  }

  /** The private `authorize`: the raw answer of the receiver's decision method,
      unmodified, or `NoMethodError` when it has none. */
  function Authorize(auth: Authorizer, action: Key, target: Target, args: seq<Value>, kwargs: Hash)
    : (o: Outcome<Value, NoMethodError>)
    ensures o.Returned? <==> "authorize_to_" + action in target.methods
    ensures o.Returned? ==> o.value == target.methods["authorize_to_" + action](EffectiveCall(auth, args, kwargs))
    ensures o.Raised? ==> o.error == NoMethodError("authorize_to_" + action, target.self)
  {
    Send(target, MethodName(action), EffectiveCall(auth, args, kwargs))
  }

  /** `can`: the raw answer, handed to `Result.can` with the block. */
  function Can(auth: Authorizer, action: Key, target: Target, args: seq<Value>, kwargs: Hash,
               block: CannaResult.Block): (o: Outcome<CannaResult.Constructed, NoMethodError>)
    ensures var d := Authorize(auth, action, target, args, kwargs);
      (d.Raised? ==> o == Raised(d.error)) &&
      (d.Returned? ==> o == Returned(CannaResult.Can(d.value, block)))
  {
    match Authorize(auth, action, target, args, kwargs)
    case Raised(e) => Raised(e)
    case Returned(answer) => Returned(CannaResult.Can(answer, block))
  }

  /** `cannot`: the raw answer, handed to `Result.cannot` with the block. */
  function Cannot(auth: Authorizer, action: Key, target: Target, args: seq<Value>, kwargs: Hash,
                  block: CannaResult.Block): (o: Outcome<CannaResult.Constructed, NoMethodError>)
    ensures var d := Authorize(auth, action, target, args, kwargs);
      (d.Raised? ==> o == Raised(d.error)) &&
      (d.Returned? ==> o == Returned(CannaResult.Cannot(d.value, block)))
  {
    match Authorize(auth, action, target, args, kwargs)
    case Raised(e) => Raised(e)
    case Returned(answer) => Returned(CannaResult.Cannot(answer, block))
  }

  /** `can?`: whether the answer is exactly `true`. */
  function IsAllowed(auth: Authorizer, action: Key, target: Target, args: seq<Value>, kwargs: Hash)
    : (o: Outcome<bool, NoMethodError>)
    ensures var d := Authorize(auth, action, target, args, kwargs);
      (d.Raised? ==> o == Raised(d.error)) &&
      (d.Returned? ==> o.Returned? && (o.value <==> d.value == True))
  {
    match Authorize(auth, action, target, args, kwargs)
    case Raised(e) => Raised(e)
    case Returned(answer) => Returned(answer == True)
  }

  /** `cannot?`: the negation of `can?`. */
  function IsDenied(auth: Authorizer, action: Key, target: Target, args: seq<Value>, kwargs: Hash)
    : (o: Outcome<bool, NoMethodError>)
    ensures var q := IsAllowed(auth, action, target, args, kwargs);
      (q.Raised? ==> o == q) && (q.Returned? ==> o == Returned(!q.value))
  {
    match IsAllowed(auth, action, target, args, kwargs)
    case Raised(e) => Raised(e)
    case Returned(allowed) => Returned(!allowed)
  }

  /** `authorize!`: returns `nil` exactly when the answer is `true`; otherwise
      raises an `UnauthorizedError` whose reason is the answer and whose
      arguments are the call site's, without the defaults. */
  function AuthorizeOrRaise(fmt: Formatter, auth: Authorizer, action: Key, target: Target,
                            args: seq<Value>, kwargs: Hash): (o: Outcome<Value, AuthorizeError>)
    ensures var d := Authorize(auth, action, target, args, kwargs);
      (d.Raised? ==> o == Raised(MissingMethod(d.error))) &&
      (d.Returned? ==> (o.Returned? <==> d.value == True)) &&
      (o.Returned? ==> o.value == Nil) &&
      (d.Returned? && d.value != True ==>
        o.Raised? && o.error.Denied? &&
        o.error.unauthorized == NewUnauthorizedError(fmt, d.value, action, target.self, args, kwargs))
  {
    match Authorize(auth, action, target, args, kwargs)
    case Raised(e) => Raised(MissingMethod(e))
    case Returned(answer) =>
      if answer == True then Returned(Nil)
      else Raised(Denied(NewUnauthorizedError(fmt, answer, action, target.self, args, kwargs)))
  }

  lemma MergeEmpty(a: Hash, b: Hash)
    ensures Merge(a, b) == [] <==> a == [] && b == []
  {
    MergeKeys(a, b);
    MergeIdentity(a, b);
  }

  /** The decision method receives the defaults followed by the call's own
      positional arguments; as a map, its keywords are the defaults overridden
      by the call's; the default keys keep their order and the call's new keys
      follow in theirs; and no keyword Hash is sent when both are empty. */
  lemma EffectiveArguments(auth: Authorizer, args: seq<Value>, kwargs: Hash)
    ensures var call := EffectiveCall(auth, args, kwargs);
      |call.positional| == |auth.defaultArgs| + |args| &&
      call.positional[..|auth.defaultArgs|] == auth.defaultArgs &&
      call.positional[|auth.defaultArgs|..] == args
    ensures var call := EffectiveCall(auth, args, kwargs);
      (call.keywords == None <==> auth.defaultKwargs == [] && kwargs == []) &&
      (call.keywords != None ==>
        ToMap(call.keywords.value) == ToMap(auth.defaultKwargs) + ToMap(kwargs) &&
        KeysOf(call.keywords.value) ==
          KeysOf(auth.defaultKwargs) + NewKeys(KeysOf(kwargs), KeysOf(auth.defaultKwargs)))
  {
    MergeEmpty(auth.defaultKwargs, kwargs);
    MergeAsMap(auth.defaultKwargs, kwargs);
    MergeKeys(auth.defaultKwargs, kwargs);
  }

  /** On a key the call site gives, the decision sees the call site's value;
      on any other key, the default's. */
  lemma CallSiteWins(auth: Authorizer, args: seq<Value>, kwargs: Hash, k: Key)
    ensures var call := EffectiveCall(auth, args, kwargs);
      (k in KeysOf(kwargs) ==> call.keywords != None && Get(call.keywords.value, k) == Get(kwargs, k)) &&
      (k !in KeysOf(kwargs) && call.keywords != None ==>
        Get(call.keywords.value, k) == Get(auth.defaultKwargs, k))
  {
    MergeGet(auth.defaultKwargs, kwargs, k);
    GetSomeIffKey(kwargs, k);
    if k in KeysOf(kwargs) {
      MergeEmpty(auth.defaultKwargs, kwargs);
    }
  }

  /** `can?` holds exactly when `authorize!` returns, and `cannot?` exactly
      when it raises a denial. */
  lemma QueriesAgreeWithAuthorizeOrRaise(fmt: Formatter, auth: Authorizer, action: Key, target: Target,
                                         args: seq<Value>, kwargs: Hash)
    ensures var q := IsAllowed(auth, action, target, args, kwargs);
      var a := AuthorizeOrRaise(fmt, auth, action, target, args, kwargs);
      (q == Returned(true) <==> a.Returned?) &&
      (IsDenied(auth, action, target, args, kwargs) == Returned(true) <==> a.Raised? && a.error.Denied?)
  {
  }

  /** `can` and `cannot` build their result from the same answer, so they
      agree on `success?` and `reason` and differ only in polarity. */
  lemma CanAndCannotShareTheAnswer(auth: Authorizer, action: Key, target: Target, args: seq<Value>, kwargs: Hash,
                                   block: CannaResult.Block)
    ensures Can(auth, action, target, args, kwargs, block).Returned? <==> "authorize_to_" + action in target.methods
    ensures var c := Can(auth, action, target, args, kwargs, block);
      var n := Cannot(auth, action, target, args, kwargs, block);
      c.Returned? == n.Returned? &&
      (c.Returned? ==>
        c.value.result.success == n.value.result.success &&
        c.value.result.reason == n.value.result.reason &&
        (c.value.result.success <==> IsAllowed(auth, action, target, args, kwargs) == Returned(true)))
  {
  }

  /** Defaults [1, 2] and {x: 1}; a call `(:show, target, 3, y: 2)` is sent
      [1, 2, 3] and {x: 1, y: 2}, and a denial reports only 3 and {y: 2}; with
      `x: 9` the keyword sent is {x: 9}. */
  lemma DefaultsExample(fmt: Formatter, target: Target)
    requires "authorize_to_show" in target.methods
    ensures var auth := Authorizer([Integer(1), Integer(2)], [("x", Integer(1))]);
      EffectiveCall(auth, [Integer(3)], [("y", Integer(2))]) ==
        Invocation([Integer(1), Integer(2), Integer(3)], Some([("x", Integer(1)), ("y", Integer(2))])) &&
      EffectiveCall(auth, [Integer(3)], [("x", Integer(9))]) ==
        Invocation([Integer(1), Integer(2), Integer(3)], Some([("x", Integer(9))]))
    ensures var auth := Authorizer([Integer(1), Integer(2)], [("x", Integer(1))]);
      var o := AuthorizeOrRaise(fmt, auth, "show", target, [Integer(3)], [("y", Integer(2))]);
      o.Raised? ==> o.error.Denied? && o.error.unauthorized.args == [Integer(3)] && o.error.unauthorized.kwargs == [("y", Integer(2))]
  {
    assert MethodName("show") == "authorize_to_show";
    var x1: Hash := [("x", Integer(1))];
    var y2: Hash := [("y", Integer(2))];
    var x9: Hash := [("x", Integer(9))];
    assert Store(x1, "y", Integer(2)) == [("x", Integer(1)), ("y", Integer(2))];
    assert Merge(x1, y2) == Merge(Store(x1, "y", Integer(2)), []);
    assert Store(x1, "x", Integer(9)) == x9;
    assert Merge(x1, x9) == Merge(Store(x1, "x", Integer(9)), []);
  }

  /** A document whose `authorize_to_delete(owner)` is `true` for its owner
      and "not owner" for anyone else: `authorize!` returns for the owner and
      raises, with that reason, the action and the document, for anyone else. */
  lemma OwnerExample(fmt: Formatter, doc: Value, owner: Value, other: Value)
    requires owner != other
    ensures var target := Target(doc, map["authorize_to_delete" :=
        (call: Invocation) => if call.positional == [owner] then True else Str("not owner")]);
      var auth := Authorizer([], []);
      AuthorizeOrRaise(fmt, auth, "delete", target, [owner], []) == Returned(Nil) &&
      var o := AuthorizeOrRaise(fmt, auth, "delete", target, [other], []);
      o.Raised? && o.error.Denied? && o.error.unauthorized.reason == Str("not owner") &&
      o.error.unauthorized.action == "delete" && o.error.unauthorized.receiver == doc
  {
    assert MethodName("delete") == "authorize_to_delete";
    var empty: Hash := [];
    var auth := Authorizer([], []);
    assert Merge(empty, empty) == [];
    assert EffectiveCall(auth, [owner], empty) == Invocation([owner], None);
    assert EffectiveCall(auth, [other], empty) == Invocation([other], None);
  }
}
