/** The message of a denial, shared by the three error classes of the core:
    "Cannot " + `[action, receiver, *args].inspect` + one ", key: value" per
    keyword argument + " because " + the reason's `to_s`. */
module DenialMessage {
  import opened RubyCore

  /** `Array#join(sep)` on strings. */
  function Join(parts: seq<string>, sep: string): string
  {
    if |parts| == 0 then ""
    else if |parts| == 1 then parts[0]
    else parts[0] + sep + Join(parts[1..], sep)
  }

  /** The parts concatenated, each preceded by `sep`. */
  function Prefixed(sep: string, parts: seq<string>): string
  {
    if parts == [] then "" else sep + parts[0] + Prefixed(sep, parts[1..])
  }

  /** The parts concatenated. */
  function Concat(parts: seq<string>): string
  {
    if parts == [] then "" else parts[0] + Concat(parts[1..])
  }

  /** Joining puts the separator before every part but the first. */
  lemma {:induction false} JoinCons(x: string, rest: seq<string>, sep: string)
    ensures Join([x] + rest, sep) == x + Prefixed(sep, rest)
    decreases |rest|
  {
    if rest != [] {
      JoinCons(rest[0], rest[1..], sep);
      assert ([x] + rest)[1..] == [rest[0]] + rest[1..];
    }
  }

  /** `join` without a separator (Ruby's default) concatenates. */
  lemma {:induction false} JoinWithoutSeparator(parts: seq<string>)
    ensures Join(parts, "") == Concat(parts)
    decreases |parts|
  {
    if |parts| > 1 {
      JoinWithoutSeparator(parts[1..]);
    } else if |parts| == 1 {
      assert parts[1..] == [];
    }
  }

  lemma {:induction false} ConcatAppend(a: seq<string>, b: seq<string>)
    ensures Concat(a + b) == Concat(a) + Concat(b)
    decreases |a|
  {
    if a != [] {
      ConcatAppend(a[1..], b);
      assert (a + b)[1..] == a[1..] + b;
    } else {
      assert a + b == b;
    }
  }

  /** The `inspect` of each value, in order. */
  function InspectEach(fmt: Formatter, xs: seq<Value>): (r: seq<string>)
    ensures |r| == |xs|
    ensures forall i :: 0 <= i < |xs| ==> r[i] == fmt.inspect(xs[i])
  {
    seq(|xs|, i requires 0 <= i < |xs| => fmt.inspect(xs[i]))
  }

  /** `Array#inspect`: the elements' `inspect`, comma-separated, in brackets. */
  function InspectArray(fmt: Formatter, xs: seq<Value>): string
  {
    "[" + Join(InspectEach(fmt, xs), ", ") + "]"
  }

  /** `kwargs.map {|k, v| ", #{k}: #{v.inspect}" }`. */
  function KeywordPieces(fmt: Formatter, kwargs: seq<(Key, Value)>): (r: seq<string>)
    ensures |r| == |kwargs|
    ensures forall i :: 0 <= i < |kwargs| ==> r[i] == ", " + kwargs[i].0 + ": " + fmt.inspect(kwargs[i].1)
  {
    seq(|kwargs|, i requires 0 <= i < |kwargs| => ", " + kwargs[i].0 + ": " + fmt.inspect(kwargs[i].1))
  }

  /** `kwargs.map {...}.join`. */
  function KeywordsText(fmt: Formatter, kwargs: seq<(Key, Value)>): string
  {
    Join(KeywordPieces(fmt, kwargs), "")
  }

  /** The local `arguments` once the keyword text is appended to it. */
  function Arguments(fmt: Formatter, action: Key, receiver: Value, args: seq<Value>, kwargs: seq<(Key, Value)>): string
  {
    InspectArray(fmt, [Symbol(action), receiver] + args) + KeywordsText(fmt, kwargs)
  }

  /** The denial text written out piece by piece: "Cannot [", the action's
      symbol, the receiver and each positional argument separated by ", ",
      "]", one ", key: value" per keyword argument, " because ", the reason. */
  function Spelled(fmt: Formatter, reason: Value, action: Key, receiver: Value, args: seq<Value>,
                   kwargs: seq<(Key, Value)>): string
  {
    "Cannot " + "[" + fmt.inspect(Symbol(action)) + ", " + fmt.inspect(receiver)
      + Prefixed(", ", InspectEach(fmt, args)) + "]"
      + Concat(KeywordPieces(fmt, kwargs))
      + " because " + fmt.toS(reason)
  }

  /** "Cannot #{arguments} because #{reason}", where `arguments` is the
      `inspect` of `[action, receiver, *args]` followed by the keyword text. */
  function Message(fmt: Formatter, reason: Value, action: Key, receiver: Value, args: seq<Value>,
                   kwargs: seq<(Key, Value)>): (m: string)
    ensures m == Spelled(fmt, reason, action, receiver, args, kwargs)
  {
    ArgumentList(fmt, action, receiver, args);
    JoinWithoutSeparator(KeywordPieces(fmt, kwargs));
    "Cannot " + Arguments(fmt, action, receiver, args, kwargs) + " because " + fmt.toS(reason)
  }

  /** The message opens with "Cannot " and closes with " because " and the
      reason's `to_s`. */
  lemma MessageFrame(fmt: Formatter, reason: Value, action: Key, receiver: Value, args: seq<Value>,
                     kwargs: seq<(Key, Value)>)
    ensures var m := Message(fmt, reason, action, receiver, args, kwargs);
      var tail := " because " + fmt.toS(reason);
      |m| >= 7 + |tail| && m[..7] == "Cannot " && m[|m| - |tail|..] == tail
  {
    var m := Message(fmt, reason, action, receiver, args, kwargs);
    var tail := " because " + fmt.toS(reason);
    var middle := Arguments(fmt, action, receiver, args, kwargs);
    assert m == "Cannot " + middle + tail;
    assert m[|m| - |tail|..] == tail;
  }

  /** The bracketed list is the action's symbol, then the receiver, then each
      positional argument in order, all separated by ", ". */
  lemma ArgumentList(fmt: Formatter, action: Key, receiver: Value, args: seq<Value>)
    ensures InspectArray(fmt, [Symbol(action), receiver] + args) ==
      "[" + fmt.inspect(Symbol(action)) + ", " + fmt.inspect(receiver)
          + Prefixed(", ", InspectEach(fmt, args)) + "]"
  {
    var all := InspectEach(fmt, [Symbol(action), receiver] + args);
    var rest := InspectEach(fmt, args);
    assert all == [fmt.inspect(Symbol(action))] + ([fmt.inspect(receiver)] + rest);
    JoinCons(fmt.inspect(Symbol(action)), [fmt.inspect(receiver)] + rest, ", ");
    assert Prefixed(", ", [fmt.inspect(receiver)] + rest) == ", " + fmt.inspect(receiver) + Prefixed(", ", rest) by {
      assert ([fmt.inspect(receiver)] + rest)[1..] == rest;
    }
  }

  /** Each keyword argument contributes ", key: inspect(value)", in the
      Hash's order. */
  lemma KeywordsInOrder(fmt: Formatter, p: (Key, Value), rest: seq<(Key, Value)>)
    ensures KeywordsText(fmt, []) == ""
    ensures KeywordsText(fmt, [p] + rest) == ", " + p.0 + ": " + fmt.inspect(p.1) + KeywordsText(fmt, rest)
  {
    var pieces := KeywordPieces(fmt, [p] + rest);
    JoinWithoutSeparator(pieces);
    JoinWithoutSeparator(KeywordPieces(fmt, rest));
    assert pieces == [pieces[0]] + KeywordPieces(fmt, rest);
    ConcatAppend([pieces[0]], KeywordPieces(fmt, rest));
  }

  /** The keyword text of two consecutive runs of keyword arguments is the
      text of the first followed by the text of the second. */
  lemma KeywordsAppend(fmt: Formatter, a: seq<(Key, Value)>, b: seq<(Key, Value)>)
    ensures KeywordsText(fmt, a + b) == KeywordsText(fmt, a) + KeywordsText(fmt, b)
  {
    JoinWithoutSeparator(KeywordPieces(fmt, a + b));
    JoinWithoutSeparator(KeywordPieces(fmt, a));
    JoinWithoutSeparator(KeywordPieces(fmt, b));
    assert KeywordPieces(fmt, a + b) == KeywordPieces(fmt, a) + KeywordPieces(fmt, b);
    ConcatAppend(KeywordPieces(fmt, a), KeywordPieces(fmt, b));
  }

  /** Without keyword arguments nothing follows the closing bracket. */
  lemma MessageWithoutKeywords(fmt: Formatter, reason: Value, action: Key, receiver: Value, args: seq<Value>)
    ensures Message(fmt, reason, action, receiver, args, []) ==
      "Cannot " + InspectArray(fmt, [Symbol(action), receiver] + args) + " because " + fmt.toS(reason)
  {
    assert KeywordPieces(fmt, []) == [];
  }
}
