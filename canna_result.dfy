/** `Canna::Result`: the outcome of an authorization decision with a polarity.
    A result is built only by `Can` or `Cannot` from the raw answer; the
    block given to the constructor runs at once when the answer matches the
    polarity, and the block given to `Else` runs in the complementary case.
    The result's fields are set once and never change, so it is a value. */
module CannaResult {
  import opened RubyCore

  /** The `type` tag, `:can` or `:cannot`. */
  datatype Polarity = CanPolarity | CannotPolarity

  /** `@type`, `@success` and `@reason`. `reason` is `nil` on success. */
  datatype Result = Result(polarity: Polarity, success: bool, reason: Value)

  /** A block passed to a call, or none; a given block is known by what it
      would return. */
  datatype Block = NoBlock | BlockReturning(result: Value)

  /** Whether a block was called, and with which argument. */
  datatype Firing = NotCalled | CalledWithoutArgument | CalledWith(argument: Value)

  /** What `Result.can` / `Result.cannot` produce: the new result and what its
      constructor block did. */
  datatype Constructed = Constructed(result: Result, firing: Firing)

  /** What a call to `else` did: whether its block fired, and what `else`
      returned. */
  datatype ElseCall = ElseCall(firing: Firing, returned: Value)

  /** The private `new(type, true_or_reason, &block)`. */
  function New(polarity: Polarity, answer: Value, block: Block): (c: Constructed)
    ensures c.result.polarity == polarity
    ensures c.result.success <==> answer == True
    ensures c.result.reason == if answer == True then Nil else answer
    ensures c.firing != NotCalled <==> block != NoBlock && (polarity == CanPolarity <==> answer == True)
    ensures c.firing != NotCalled ==> (c.firing == CalledWithoutArgument <==> polarity == CanPolarity)
    ensures c.firing.CalledWith? ==> c.firing.argument == c.result.reason
  {
    var success := answer == True;
    var r := Result(polarity, success, if success then Nil else answer);
    if block == NoBlock then Constructed(r, NotCalled)
    else if polarity == CanPolarity && success then Constructed(r, CalledWithoutArgument)
    else if polarity == CannotPolarity && !success then Constructed(r, CalledWith(r.reason))
    else
      assert polarity == CanPolarity ==> !success;
      Constructed(r, NotCalled)
  }

  /** `Result.can(true_or_reason, &block)`. */
  function Can(answer: Value, block: Block): (c: Constructed)
    ensures c.result.polarity == CanPolarity
    ensures c.result.success <==> answer == True
    ensures c.result.reason == if answer == True then Nil else answer
    ensures c.firing == if block != NoBlock && answer == True then CalledWithoutArgument else NotCalled
  {
    New(CanPolarity, answer, block)
  }

  /** `Result.cannot(true_or_reason, &block)`. */
  function Cannot(answer: Value, block: Block): (c: Constructed)
    ensures c.result.polarity == CannotPolarity
    ensures c.result.success <==> answer == True
    ensures c.result.reason == if answer == True then Nil else answer
    ensures c.firing == if block != NoBlock && answer != True then CalledWith(answer) else NotCalled
  {
    New(CannotPolarity, answer, block)
  }

  /** `result.else(&block)`: `nil.call` raises when no block is given and the
      case matches; otherwise `else` returns `nil`, whatever the block returns. */
  function Else(r: Result, block: Block): (o: Outcome<ElseCall, NoMethodError>)
    ensures o.Raised? <==> block == NoBlock && (r.polarity == CanPolarity <==> !r.success)
    ensures o.Raised? ==> o.error == NoMethodError("call", Nil)
    ensures o.Returned? ==> o.value.returned == Nil
    ensures o.Returned? && r.polarity == CanPolarity && !r.success ==>
              o.value.firing == CalledWith(r.reason)
    ensures o.Returned? && r.polarity == CannotPolarity && r.success ==>
              o.value.firing == CalledWithoutArgument
    ensures o.Returned? && (r.polarity == CanPolarity <==> r.success) ==>
              o.value.firing == NotCalled
  {
    var fires := (r.polarity == CanPolarity && !r.success) || (r.polarity == CannotPolarity && r.success);
    if fires && block == NoBlock then Raised(NoMethodError("call", Nil))
    else if r.polarity == CanPolarity && !r.success then Returned(ElseCall(CalledWith(r.reason), Nil))
    else if r.polarity == CannotPolarity && r.success then Returned(ElseCall(CalledWithoutArgument, Nil))
    else Returned(ElseCall(NotCalled, Nil))
  }

  /** Results as the two constructors leave them: `reason` is unset on
      success, and on failure it is the answer, which is not `true`. */
  predicate Valid(r: Result) {
    (r.success ==> r.reason == Nil) && (!r.success ==> r.reason != True)
  }

  /** The answer a valid result was built from. */
  function AnswerOf(r: Result): Value {
    if r.success then True else r.reason
  }

  /** The constructor with a given polarity. */
  function Build(p: Polarity, answer: Value, block: Block): Constructed {
    if p == CanPolarity then Can(answer, block) else Cannot(answer, block)
  }

  /** `success?` holds exactly when the answer is the literal `true`; a truthy
      string such as "Unauthorized" is a failure and becomes the reason. */
  lemma SuccessIffTrue(p: Polarity, answer: Value, block: Block)
    ensures Build(p, answer, block).result.success <==> answer == True
    ensures answer != True ==> Build(p, answer, block).result.reason == answer
    ensures answer == True ==> Build(p, answer, block).result.reason == Nil
    ensures !Build(p, Str("Unauthorized"), block).result.success
  {
  }

  /** `Can` and `Cannot` are the only way to build a result: every valid result
      is what one of them returns for the answer it records, and the answer is
      recovered from the result. */
  lemma OnlyConstructors(r: Result, answer: Value, block: Block)
    ensures Valid(Build(r.polarity, answer, block).result)
    ensures Build(r.polarity, answer, block).result.polarity == r.polarity
    ensures AnswerOf(Build(r.polarity, answer, block).result) == answer
    ensures Valid(r) ==> Build(r.polarity, AnswerOf(r), block).result == r
  {
  }

  /** The constructor block fires without an argument exactly for `:can` and
      success, with the reason exactly for `:cannot` and failure, and otherwise
      not at all; it never fires when no block is given. */
  lemma ConstructorBlockFiring(p: Polarity, answer: Value, block: Block)
    requires block != NoBlock
    ensures var c := Build(p, answer, block);
      (c.firing == CalledWithoutArgument <==> p == CanPolarity && c.result.success) &&
      (c.firing.CalledWith? <==> p == CannotPolarity && !c.result.success) &&
      (c.firing.CalledWith? ==> c.firing.argument == c.result.reason)
    ensures Build(p, answer, NoBlock).firing == NotCalled
  {
  }

  /** The `else` block fires with the reason exactly for `:can` and failure,
      without an argument exactly for `:cannot` and success, and otherwise not. */
  lemma ElseBlockFiring(r: Result, block: Block)
    requires block != NoBlock
    ensures Else(r, block).Returned?
    ensures Else(r, block).value.firing.CalledWith? <==> r.polarity == CanPolarity && !r.success
    ensures Else(r, block).value.firing.CalledWith? ==> Else(r, block).value.firing.argument == r.reason
    ensures Else(r, block).value.firing == CalledWithoutArgument <==> r.polarity == CannotPolarity && r.success
  {
  }

  /** With both blocks given, exactly one of them fires, whatever the polarity
      and the answer. */
  lemma ExactlyOneBlockFires(p: Polarity, answer: Value, block: Block, elseBlock: Block)
    requires block != NoBlock && elseBlock != NoBlock
    ensures var c := Build(p, answer, block);
      Else(c.result, elseBlock).Returned? &&
      (c.firing != NotCalled <==> Else(c.result, elseBlock).value.firing == NotCalled)
  {
  }

  /** The two blocks never both fire, even when one of them is missing. */
  lemma BlocksExclusive(p: Polarity, answer: Value, block: Block, elseBlock: Block)
    ensures var c := Build(p, answer, block);
      Else(c.result, elseBlock).Returned? && c.firing != NotCalled ==>
        Else(c.result, elseBlock).value.firing == NotCalled
  {
  }

  /** `else` returns `nil` whatever its block returns, so it cannot be chained. */
  lemma ElseReturnsNil(r: Result, v: Value)
    ensures Else(r, BlockReturning(v)).Returned?
    ensures Else(r, BlockReturning(v)).value.returned == Nil
  {
  }
}
