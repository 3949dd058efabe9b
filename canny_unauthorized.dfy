/** `Canny::Unauthorized`: a denial with its five fields and a message that is
    rendered once, when the error is built, from those fields. */
module CannyUnauthorized {
  import opened RubyCore
  import DenialMessage

  datatype Unauthorized = Unauthorized(
    reason: Value, action: Key, receiver: Value, args: seq<Value>, kwargs: Hash, message: string)

  /** `build_message`, over the fields already assigned: the denial text of
      the five fields, whatever message is stored. */
  function BuildMessage(fmt: Formatter, e: Unauthorized): (m: string)
    ensures m == DenialMessage.Spelled(fmt, e.reason, e.action, e.receiver, e.args, e.kwargs)
  {
    DenialMessage.Message(fmt, e.reason, e.action, e.receiver, e.args, e.kwargs)
  }

  /** `Unauthorized.new(reason, action, receiver, *args, **kwargs)`: the
      accessors give back exactly the arguments, and the message is the one
      rendered from them at construction. */
  function New(fmt: Formatter, reason: Value, action: Key, receiver: Value, args: seq<Value>, kwargs: Hash)
    : (e: Unauthorized)
    ensures e.reason == reason && e.action == action && e.receiver == receiver
    ensures e.args == args && e.kwargs == kwargs
    ensures e.message == BuildMessage(fmt, e)
  {
    var fields := Unauthorized(reason, action, receiver, args, kwargs, "");
    fields.(message := BuildMessage(fmt, fields))
  }
}
