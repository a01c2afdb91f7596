/**
 * The pub/sub notification records of group_pubsub.go and the readable form of a
 * subscription acknowledgement, `"<kind>: <channel>"`.
 */
module PubSub {
  import opened Wrappers

  /** A message delivered on a channel, with the pattern it matched, if any. */
  datatype Message = Message(channel: string, pattern: string, payload: string, payloadSlice: seq<string>)

  /**
   * A subscription acknowledgement: its kind ("subscribe", "unsubscribe", "psubscribe" or
   * "punsubscribe"), the channel, and how many channels the connection is subscribed to.
   */
  datatype Subscription = Subscription(kind: string, channel: string, count: int)

  /**
   * Go's `fmt.Sprintf` restricted to string arguments and the verbs this package uses: `%s`
   * takes the next argument (`%!s(MISSING)` when there is none) and `%%` is a literal percent
   * sign; every other character is copied.
   */
  function Format(format: string, args: seq<string>): (out: string)
    decreases |format|
  {
    if format == [] then []
    else if |format| >= 2 && format[0] == '%' && format[1] == 's' then
      if args == [] then "%!s(MISSING)" + Format(format[2..], [])
      else args[0] + Format(format[2..], args[1..])
    else if |format| >= 2 && format[0] == '%' && format[1] == '%' then
      "%" + Format(format[2..], args)
    else [format[0]] + Format(format[1..], args)
  }

  /** A format without any `%` is reproduced as it is, whatever the arguments. */
  lemma {:induction false} FormatPlainText(format: string, args: seq<string>)
    requires '%' !in format
    ensures Format(format, args) == format
  {
    if format != [] {
      assert '%' !in format[1..];
      FormatPlainText(format[1..], args);
    }
  }

  /** A `%s` followed by verb-free text substitutes exactly one argument. */
  lemma FormatOneVerb(text: string, arg: string)
    requires '%' !in text
    ensures Format("%s" + text, [arg]) == arg + text
  {
    var f := "%s" + text;
    assert f[0] == '%' && f[1] == 's' && f[2..] == text;
    assert [arg][1..] == [];
    FormatPlainText(text, []);
  }

  /** `Subscription.String`: the kind and the channel, joined by a colon and a space. */
  function SubscriptionString(s: Subscription): (out: string)
    ensures out == s.kind + ": " + s.channel
    ensures |out| == |s.kind| + 2 + |s.channel|
    ensures out[..|s.kind|] == s.kind && out[|out| - |s.channel|..] == s.channel
  {
    var f := "%s: %s";
    assert f[2..] == ": %s";
    assert f[2..][1..] == " %s";
    assert f[2..][1..][1..] == "%s";
    FormatOneVerb([], s.channel);
    Format(f, [s.kind, s.channel])
  }

  /** The count never shows in the text. */
  lemma CountIsIgnored(s: Subscription, count: int)
    ensures SubscriptionString(s.(count := count)) == SubscriptionString(s)
  {
  }

  /** Splits `s` at its first `": "`, when it has one. */
  function CutAtSeparator(s: string): (p: Option<(string, string)>)
    ensures p.Some? ==> s == p.value.0 + ": " + p.value.1
    decreases |s|
  {
    if |s| < 2 then None
    else if s[0] == ':' && s[1] == ' ' then Some(([], s[2..]))
    else
      match CutAtSeparator(s[1..])
      case None => None
      case Some((before, after)) => Some(([s[0]] + before, after))
  }

  /** A kind that contains no colon, as the four kinds the server sends. */
  predicate PlainKind(kind: string) {
    ':' !in kind
  }

  /**
   * For a kind without a colon the text can be split back into the kind and the channel,
   * however the channel is spelled.
   */
  lemma {:induction false} StringSplitsBack(kind: string, channel: string)
    requires PlainKind(kind)
    ensures CutAtSeparator(kind + ": " + channel) == Some((kind, channel))
  {
    if kind != [] {
      var s := kind + ": " + channel;
      assert s[1..] == kind[1..] + ": " + channel;
      assert PlainKind(kind[1..]);
      StringSplitsBack(kind[1..], channel);
      assert [kind[0]] + kind[1..] == kind;
    } else {
      assert (kind + ": " + channel)[2..] == channel;
    }
  }

  /** The four kinds a subscription acknowledgement can have. */
  predicate KnownKind(kind: string) {
    kind in {"subscribe", "unsubscribe", "psubscribe", "punsubscribe"}
  }

  /**
   * Two acknowledgements with colon-free kinds print the same text only when they have the
   * same kind and channel; they may still differ in count.
   */
  lemma StringDeterminesKindAndChannel(s: Subscription, t: Subscription)
    requires PlainKind(s.kind) && PlainKind(t.kind)
    requires SubscriptionString(s) == SubscriptionString(t)
    ensures s.kind == t.kind && s.channel == t.channel
  {
    StringSplitsBack(s.kind, s.channel);
    StringSplitsBack(t.kind, t.channel);
  }

  /** Every known kind is plain, so known acknowledgements can be read back from their text. */
  lemma KnownKindsArePlain(s: Subscription)
    requires KnownKind(s.kind)
    ensures CutAtSeparator(SubscriptionString(s)) == Some((s.kind, s.channel))
  {
    assert PlainKind(s.kind);
    StringSplitsBack(s.kind, s.channel);
  }
}
