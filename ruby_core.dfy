/** The few pieces of Ruby's object model that the authorization core relies on:
    values, symbol keys, an outcome that is either a return or a raise, `send`
    through a method table, and the `**h` splat that omits an empty hash. */
module RubyCore {

  /** Symbol names: action identifiers and keyword-argument keys. */
  type Key = string

  /** A Ruby value as far as this core can observe it. `True` is the success
      sentinel; every other value is a denial reason when a decision returns it. */
  datatype Value =
    | True
    | False
    | Nil
    | Symbol(name: Key)
    | Str(text: string)
    | Integer(i: int)
    | Object(id: nat)

  /** A call either returns a value or raises an exception. */
  datatype Outcome<+T, +E> = Returned(value: T) | Raised(error: E)

  /** `NoMethodError`: `name` is not a method of `receiver`. */
  datatype NoMethodError = NoMethodError(name: string, receiver: Value)

  /** `inspect` and `to_s` of arbitrary objects are not interpreted: they are
      supplied by the caller. */
  datatype Formatter = Formatter(inspect: Value -> string, toS: Value -> string)

  /** The keys of an ordered keyword list, in order. */
  function KeysOf(h: seq<(Key, Value)>): (ks: seq<Key>)
    ensures |ks| == |h|
    ensures forall i :: 0 <= i < |h| ==> ks[i] == h[i].0
  {
    seq(|h|, i requires 0 <= i < |h| => h[i].0)
  }

  /** Ruby's keyword arguments: a Hash has each key at most once. */
  predicate UniqueKeys(h: seq<(Key, Value)>) {
    h == [] || (h[0].0 !in KeysOf(h[1..]) && UniqueKeys(h[1..]))
  }

  /** A Ruby Hash with symbol keys, in insertion order. */
  type Hash = h: seq<(Key, Value)> | UniqueKeys(h) witness []

  /** What a decision method receives: positional arguments, and keyword
      arguments only when some were transmitted. */
  datatype Invocation = Invocation(positional: seq<Value>, keywords: Option<Hash>)

  datatype Option<+T> = None | Some(value: T)

  /** `m(*args, **h)`: splatting an empty hash transmits no keywords at all. */
  function Splat(h: Hash): (o: Option<Hash>)
    ensures o == None <==> h == []
    ensures o != None ==> o.value == h && o.value != []
  {
    if h == [] then None else Some(h)
  }

  /** A target entity: its own identity (what `inspect` shows) and the methods it
      answers to by name, each a decision over the arguments it is sent. */
  datatype Target = Target(self: Value, methods: map<string, Invocation -> Value>)

  /** `receiver.send(name, ...)`: the method's raw return value, or
      `NoMethodError` when the target has no method of that name. */
  function Send(target: Target, name: string, call: Invocation): (o: Outcome<Value, NoMethodError>)
    ensures o.Returned? <==> name in target.methods
    ensures o.Returned? ==> o.value == target.methods[name](call)
    ensures o.Raised? ==> o.error == NoMethodError(name, target.self)
  {
    if name in target.methods then Returned(target.methods[name](call))
    else Raised(NoMethodError(name, target.self))
  }
}
