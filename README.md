# Canna / Canny / Authoriz authorization core in Dafny

This project models the decision core of the `canna` Ruby gem: the two
dispatchers `Canny::Authorizer` and `Authoriz::Authorizer`, the two-polarity
outcome `Canna::Result`, and the denial errors that `authorize!` raises
(`Canny::UnauthorizedError`, `Canny::Unauthorized`,
`Authoriz::UnauthorizedError`).

A dispatcher answers "may this action be done on this receiver?" by sending
`authorize_to_<action>` to the receiver. Whatever that method returns is the
raw answer. Only the literal `true` means yes; any other value is a denial
reason. `Canny::Authorizer` also holds default positional and keyword
arguments. It puts the positional defaults in front of the call's own, and
merges the call's keywords over the default ones. `can`/`cannot` wrap the
answer in a `Result`, `can?`/`cannot?` compare it with `true`, and
`authorize!` raises a denial error carrying the reason, the action, the
receiver and the call site's arguments.

How the Ruby is represented:

- Ruby values are the datatype `RubyCore.Value`. `True` is the success
  sentinel. Actions and keyword keys are symbol names (`Key = string`).
- A receiver is a `RubyCore.Target`: its identity, plus a table from method
  name to a decision function over an `Invocation`. `receiver.send(...)` is
  `RubyCore.Send`, which raises `NoMethodError` when the name is missing.
- Raising is the `Outcome` datatype: `Returned(v)` or `Raised(e)`.
- Keyword arguments are Ruby Hashes. A Hash keeps insertion order, and the
  message prints keywords in that order. So a Hash is a sequence of pairs
  with unique keys (`RubyCore.Hash`). `merge` is Ruby's fold of `[]=`
  (`RubyHash.Merge`): a colliding key keeps its position and takes the
  argument's value, and new keys are appended.
- `**h` with an empty Hash transmits no keywords at all (`RubyCore.Splat`).
- A block is `CannaResult.Block`: no block, or a block known by what it would
  return. A call records what it did to the block as a `Firing`: not called,
  called without an argument, or called with an argument.
- `inspect` and `to_s` of arbitrary objects are not interpreted. They are
  the two fields of a `Formatter` parameter. `Array#inspect` is built from
  element `inspect`, as Ruby does it: `"[" + join(", ") + "]"`.
- No field of any core class changes after construction. So `Result`,
  `Authorizer` and the errors are datatypes, and "nothing changes the
  defaults, the polarity, `success?` or `reason`" holds by construction.
  `Authorizer.new(*default_args, **default_kwargs)` is the datatype
  constructor `CannyAuthorizer.Authorizer`. No operation returns a changed
  authorizer.

Points where the model follows the library code rather than its tests or
its likely intent:

- spec/canna/result_spec.rb expects a `value` accessor that holds what a
  block returned, e.g. at lines 14, 27 and 37. lib/canna/result.rb has no
  `value`, no `run` and no once-only gating. Its constructor calls the block
  at once (lines 22-29), and `else` returns `nil` (line 43), so `else` cannot
  be chained. Lines 22-27 of that test call `.value` on what `.else`
  returns.
- `authorize!` at lib/canny/authorizer.rb:57 builds its error from its own
  `args` and `kwargs`, the call site's, without the defaults. `authorize`
  rebinds `args` and `kwargs` to the effective arguments only in its own
  scope (lines 75-76).
- `Canny::Result` (lib/canny/authorizer.rb:37, 42) and `Authoriz::Result`
  (lib/authoriz/authorizer.rb:28, 33) are referenced by the code, but
  neither is among the library files. The model gives both the semantics of
  `Canna::Result`, which spec/authoriz/result_spec.rb exercises under the
  `Authoriz` name. `Canna::Authorizer` is not part of this model either.
  `Authoriz::Authorizer` is proved to decide exactly as a
  `Canny::Authorizer` without defaults.

## Model

| member | source | states |
|---|---|---|
| `CannaResult.Can` | lib/canna/result.rb:4-29 | `Result.can` gives polarity `:can`; `success?` holds iff the answer is exactly `true`; `reason` is `nil` on success and the raw answer otherwise; a given block fires without an argument iff the answer is `true`, and never when no block is given |
| `CannaResult.Cannot` | lib/canna/result.rb:8-29 | `Result.cannot` gives polarity `:cannot` with the same `success?` and `reason`; a given block fires with the answer as argument iff the answer is not `true` |
| `CannaResult.Else` | lib/canna/result.rb:36-44 | `else` fires its block with `reason` for `:can` and failure, without an argument for `:cannot` and success, and not otherwise; it returns `nil` whatever the block returns; with no block in a firing case it raises `NoMethodError` (`nil.call`) |
| `CannaResult.SuccessIffTrue` | lib/canna/result.rb:19-20 | for either polarity, `success?` iff the answer equals `true`; a truthy string like "Unauthorized" is a failure and becomes `reason`; `reason` is `nil` on success |
| `CannaResult.OnlyConstructors` | lib/canna/result.rb:3-20 | results built by `Result.can`/`Result.cannot` are valid and keep their polarity; the answer is recovered from the result; every valid result is exactly what the constructor of its polarity builds from that answer |
| `CannaResult.ConstructorBlockFiring` | lib/canna/result.rb:22-29 | the constructor block fires without an argument iff `:can` and success, with `reason` iff `:cannot` and failure, otherwise not; without a block nothing fires |
| `CannaResult.ElseBlockFiring` | lib/canna/result.rb:36-42 | with a block, `else` returns, and its block fires with `reason` iff `:can` and failure, without an argument iff `:cannot` and success |
| `CannaResult.ExactlyOneBlockFires` | lib/canna/result.rb:24-42 | when both blocks are given, for every polarity and answer, exactly one of the constructor block and the `else` block fires |
| `CannaResult.BlocksExclusive` | lib/canna/result.rb:24-42 | the constructor block and the `else` block never both fire, whichever blocks are given |
| `CannaResult.ElseReturnsNil` | lib/canna/result.rb:43 | when `else` is given a block, it returns `nil`, whatever that block returns |
| `RubyHash.MergeGet` | lib/canny/authorizer.rb:76 | in `default_kwargs.merge(kwargs)`, a key of the call site has the call site's value; any other key has the default's value; no other key appears |
| `RubyHash.MergeKeys` | lib/canny/authorizer.rb:76 | the merged keys are the default keys in their order, followed by the call site's new keys in theirs |
| `RubyHash.MergeAsMap` | lib/canny/authorizer.rb:65 | viewed as a map, the merge is `defaults + call site`: the union of keys, with the call site winning on a collision |
| `RubyHash.MergeIdentity` | lib/canny/authorizer.rb:65 | merging into an empty Hash gives the argument back, and merging an empty Hash changes nothing |
| `RubyHash.Merge` | lib/canny/authorizer.rb:65 | `Hash#merge`, as a fold of `[]=` over the argument; its contract is carried by `MergeGet`, `MergeKeys`, `MergeAsMap` and `MergeIdentity` above |
| `RubyCore.Send` | lib/canny/authorizer.rb:77 | `receiver.send(name, ...)` returns iff the receiver has a method of that name, and then the value that method returns for exactly the call given; otherwise it raises `NoMethodError` naming the method and the receiver |
| `RubyCore.Splat` | lib/canny/authorizer.rb:67-70 | `**h` transmits no keyword Hash iff `h` is empty, and otherwise exactly `h` |
| `CannaResult.New` | lib/canna/result.rb:17-30 | the private constructor keeps the polarity; `success?` iff the answer is `true`; `reason` is `nil` on success and the answer otherwise; a given block fires iff the polarity matches the answer (`:can` with `true`, `:cannot` otherwise), without an argument for `:can` and with `reason` for `:cannot` |
| `DenialMessage.MessageFrame` | lib/canny/unauthorized.rb:23 | the message starts with "Cannot " and ends with " because " and the reason's `to_s` |
| `DenialMessage.ArgumentList` | lib/canny/unauthorized.rb:16-20 | the bracketed list is `inspect` of the action symbol, then of the receiver, then of each positional argument in order, separated by ", " |
| `DenialMessage.KeywordsInOrder` | lib/canny/unauthorized.rb:21 | the keyword text is empty without keywords; otherwise the first pair contributes ", key: inspect(value)" followed by the text of the rest |
| `DenialMessage.KeywordsAppend` | lib/canny/unauthorized.rb:21 | the keyword text of two consecutive runs of pairs is the first run's text followed by the second's, so order is kept |
| `DenialMessage.MessageWithoutKeywords` | lib/canny/unauthorized.rb:21-23 | with no keywords the message is "Cannot " + the bracketed list + " because " + the reason's `to_s` |
| `DenialMessage.Message` | lib/canny/unauthorized.rb:15-24 | the rendered message is "Cannot [" + `inspect` of the action symbol, of the receiver and of each positional argument, separated by ", ", + "]" + ", key: inspect(value)" per keyword in the Hash's order + " because " + the reason's `to_s` (`DenialMessage.Spelled`) |
| `CannyUnauthorized.BuildMessage` | lib/canny/unauthorized.rb:15-24 | `build_message` renders that spelled-out text from the five fields alone |
| `CannyUnauthorized.New` | lib/canny/unauthorized.rb:5-11 | the accessors `reason`, `action`, `receiver`, `args`, `kwargs` return exactly the constructor arguments; the message is rendered once, at construction, from those fields |
| `CannyAuthorizer.NewUnauthorizedError` | lib/canny/authorizer.rb:5-24 | `UnauthorizedError.new` keeps the five fields as given and fixes the message rendered from them at construction |
| `CannyAuthorizer.BuildMessage` | lib/canny/authorizer.rb:15-24 | `build_message` renders the spelled-out denial text from the five fields alone |
| `CannyAuthorizer.MethodName` | lib/canny/authorizer.rb:77 | the decision method's name is "authorize_to_" followed by the action, so the action can be read back from it |
| `CannyAuthorizer.EffectiveCall` | lib/canny/authorizer.rb:75-77 | the positional arguments sent are the defaults followed by the call's, and no keyword Hash is sent iff the default and the call-site keywords are both empty |
| `CannyAuthorizer.Authorize` | lib/canny/authorizer.rb:74-78 | sends `"authorize_to_" + action`; returns that method's raw answer, unmodified, for the effective call; raises `NoMethodError` naming the method and receiver iff the method is absent |
| `CannyAuthorizer.EffectiveArguments` | lib/canny/authorizer.rb:64-71 | the effective positional arguments are the defaults followed by the call's, order kept; the keywords are the defaults merged with the call's (call site wins; default keys first in their order); no keyword Hash is sent iff both are empty |
| `CannyAuthorizer.CallSiteWins` | lib/canny/authorizer.rb:65 | a keyword given at the call site reaches the decision with the call site's value; any other transmitted keyword has the default's value |
| `CannyAuthorizer.Can` | lib/canny/authorizer.rb:35-38 | `can` hands the raw answer, unchanged, with the block, to `Result.can`; a missing decision method raises before any result exists |
| `CannyAuthorizer.Cannot` | lib/canny/authorizer.rb:40-43 | `cannot` hands the raw answer, unchanged, with the block, to `Result.cannot` |
| `CannyAuthorizer.IsAllowed` | lib/canny/authorizer.rb:45-47 | `can?` is true iff the dispatched answer equals `true` |
| `CannyAuthorizer.IsDenied` | lib/canny/authorizer.rb:49-51 | `cannot?` is exactly the negation of `can?`, and raises what `can?` raises |
| `CannyAuthorizer.AuthorizeOrRaise` | lib/canny/authorizer.rb:53-58 | `authorize!` returns `nil` iff the answer is `true`; otherwise it raises an `UnauthorizedError` holding the answer, the action, the receiver and the call site's `args` and `kwargs`, without the defaults; a missing method raises `NoMethodError` |
| `CannyAuthorizer.QueriesAgreeWithAuthorizeOrRaise` | lib/canny/authorizer.rb:45-58 | `can?` is true iff `authorize!` returns; `cannot?` is true iff `authorize!` raises a denial |
| `CannyAuthorizer.CanAndCannotShareTheAnswer` | lib/canny/authorizer.rb:35-47 | `can` returns iff the receiver has the decision method; `can` and `cannot` return in the same cases and agree on `success?` and `reason`; success holds iff `can?` is true |
| `CannyAuthorizer.DefaultsExample` | lib/canny/authorizer.rb:53-65 | with defaults `[1, 2]` and `{x: 1}`, the call `(3, y: 2)` sends `[1, 2, 3]` and `{x: 1, y: 2}`, and `x: 9` sends `{x: 9}`; a denial error records only `[3]` and `{y: 2}` |
| `CannyAuthorizer.OwnerExample` | lib/canny/authorizer.rb:53-58 | for a document that allows deletion only by its owner, `authorize!(:delete, doc, owner)` returns `nil`; the same call for another user raises with reason "not owner", action `:delete` and receiver `doc` |
| `AuthorizAuthorizer.Authorize` | lib/authoriz/authorizer.rb:52-54 | sends `"authorize_to_" + action` with exactly the call's positional arguments and keywords, no defaults; an empty keyword Hash is not transmitted; raises `NoMethodError` iff the method is absent |
| `AuthorizAuthorizer.Can` | lib/authoriz/authorizer.rb:26-29 | `can` wraps the raw answer, with the block, in `Result.can` |
| `AuthorizAuthorizer.Cannot` | lib/authoriz/authorizer.rb:31-34 | `cannot` wraps the raw answer, with the block, in `Result.cannot` |
| `AuthorizAuthorizer.IsAllowed` | lib/authoriz/authorizer.rb:36-38 | `can?` holds iff the answer equals `true` |
| `AuthorizAuthorizer.IsDenied` | lib/authoriz/authorizer.rb:40-42 | `cannot?` equals `!can?` |
| `AuthorizAuthorizer.AuthorizeOrRaise` | lib/authoriz/authorizer.rb:44-49 | `authorize!` returns `nil` iff the answer is `true`; otherwise it raises an error whose fields (captured at lines 5-11) are the answer, the action, the receiver and the call's `args` and `kwargs`; a missing method raises `NoMethodError` |
| `AuthorizAuthorizer.UnauthorizedError.Message` | lib/authoriz/authorizer.rb:13-22 | the on-demand `message` is the spelled-out denial text of the stored fields, the same text a `Canny::Unauthorized` stores when built from them |
| `AuthorizAuthorizer.AgreesWithCannyWithoutDefaults` | lib/authoriz/authorizer.rb:25-54 | every decision operation equals the one of a `Canny::Authorizer` with no defaults; the denial errors carry the same fields, and the computed message equals the stored one |

## Left out

- The Ruby-version branch at lib/canny/authorizer.rb:62: a single semantics is modelled, in which an empty keyword Hash is never transmitted. This is the explicit `kwargs.empty?` test of lines 67-71 and the `**{}` rule of Ruby 2.7 and later.
- AuthorizAuthorizer.Authorize and AuthorizAuthorizer.AgreesWithCannyWithoutDefaults: hold for Ruby 2.7 and later only. lib/authoriz/authorizer.rb:53 has no version branch, and before 2.7 `**{}` sends an empty Hash as an extra positional argument, as the comment at lib/canny/authorizer.rb:60-61 says.
- Exceptions raised inside a decision method or a block: decisions and blocks are total here, so their own errors are not modelled. Neither is Ruby's `ArgumentError` for an arity mismatch in `send`.
- `==` redefined by an answer object: `answer == true` is structural equality of the model's values.
- `inspect` and `to_s` of arbitrary objects: they are `Formatter` parameters. Ruby's formatting rules for them are not modelled.
- `StandardError` inheritance and `super(message)`: a `Canny` error stores its message as a field, and an `Authoriz` error computes it with `UnauthorizedError.Message`.
- Blocks as closures: a block is known only by whether it was given and what it returns, and a call records only whether it fired and with which argument. Block arity handling (a proc ignoring extra arguments) is not modelled.
- Actions that are strings rather than symbols: an action is a symbol name, and `inspect` sees it as `Symbol(action)`.
- `value`, `run` and once-only gating of blocks: lib/canna/result.rb has none of them. Only test expectations refer to `value` (spec/canna/result_spec.rb:14, 27, 37, 49, 62, 72, 86, 99, 109, 121, 134, 144).
- lib/canna/rails/controller_helper.rb, lib/canny/rails/view_helper.rb and lib/authoriz/rails/controller_additions.rb: Rails glue that forwards to the dispatchers with `current_user` prepended. They are not part of this model.
- `Canny::Result`, `Authoriz::Result` (lib/authoriz/authorizer.rb:28, 33) and `Canna::Authorizer` are not part of this model: `Canna::Result`'s semantics are used for both `Result` classes.
- Assignment in place: each constructor (lib/canna/result.rb:17-30, lib/canny/unauthorized.rb:5-12, lib/canny/authorizer.rb:5-12 and 30-33, lib/authoriz/authorizer.rb:5-11) assigns each field once and nothing reassigns it later, so the model builds values instead of updating objects. The `<<` that appends the keyword text to a fresh local string (lib/canny/unauthorized.rb:21, lib/authoriz/authorizer.rb:19) is modelled as string concatenation. No aliasing of those objects or strings is modelled.
