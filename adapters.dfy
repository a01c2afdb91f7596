/**
 * The collaborators the facade talks to but does not implement: the adapter (the real client,
 * registered from outside the package), its connections, the command-group handles it hands
 * out, configurations, contexts and the generic result value. All of them are opaque here;
 * only their identity matters to the facade.
 */
module Adapters {
  import opened Wrappers
  import opened Errors

  /** A cancellation/deadline context, passed through unchanged. */
  datatype Context = Context(token: nat)

  /** One positional command argument. */
  datatype Arg = Arg(token: nat)

  /** The generic result value an adapter returns from `Do`. */
  datatype Var = Var(token: nat)

  /** A dedicated connection handed out by an adapter. */
  datatype Conn = Conn(token: nat)

  /** One command-group implementation (string, hash, list, ... operations). */
  datatype GroupHandle = GroupHandle(token: nat)

  /** A client configuration; the facade only passes it on to the adapter factory. */
  datatype Config = Config(token: nat)

  /** Go's `(value, error)` result pair; either half may be nil. */
  datatype Reply<+T> = Reply(value: Option<T>, err: Option<Error>)

  /** The pair `nil, err` the facade returns for its own errors. */
  function Refused<T>(e: Error): (rep: Reply<T>)
    ensures rep.value.None? && rep.err == Some(e)
  {
    Reply(None, Some(e))
  }

  /** Go's `err != nil`. */
  predicate Failed<T>(rep: Reply<T>) {
    rep.err.Some?
  }

  /**
   * An adapter. What its `Do`, `Conn` and `Close` compute, and which group handles it
   * returns, is foreign code: each is a constant chosen when the adapter is made, so every
   * statement about the facade holds for every adapter.
   */
  class Adapter {
    const doFn: (Context, string, seq<Arg>) -> Reply<Var>
    const connFn: Context -> Reply<Conn>
    const closeFn: Context -> Option<Error>

    const groupGeneric: Option<GroupHandle>
    const groupHash: Option<GroupHandle>
    const groupList: Option<GroupHandle>
    const groupPubSub: Option<GroupHandle>
    const groupScript: Option<GroupHandle>
    const groupSet: Option<GroupHandle>
    const groupSortedSet: Option<GroupHandle>
    const groupString: Option<GroupHandle>

    constructor (
      doFn: (Context, string, seq<Arg>) -> Reply<Var>,
      connFn: Context -> Reply<Conn>,
      closeFn: Context -> Option<Error>,
      groupGeneric: Option<GroupHandle>, groupHash: Option<GroupHandle>,
      groupList: Option<GroupHandle>, groupPubSub: Option<GroupHandle>,
      groupScript: Option<GroupHandle>, groupSet: Option<GroupHandle>,
      groupSortedSet: Option<GroupHandle>, groupString: Option<GroupHandle>)
      ensures this.doFn == doFn && this.connFn == connFn && this.closeFn == closeFn
      ensures this.groupGeneric == groupGeneric && this.groupHash == groupHash
      ensures this.groupList == groupList && this.groupPubSub == groupPubSub
      ensures this.groupScript == groupScript && this.groupSet == groupSet
      ensures this.groupSortedSet == groupSortedSet && this.groupString == groupString
    {
      this.doFn, this.connFn, this.closeFn := doFn, connFn, closeFn;
      this.groupGeneric, this.groupHash, this.groupList, this.groupPubSub := groupGeneric, groupHash, groupList, groupPubSub;
      this.groupScript, this.groupSet, this.groupSortedSet, this.groupString := groupScript, groupSet, groupSortedSet, groupString;
    }
  }

  /** The process-wide function that builds an adapter from a configuration; nil means none. */
  type AdapterFunc = Config -> Adapter?
}
