/**
 * The two-tier error type of src/err.rs: an error is either `Internal`
 * (operator-facing, may wrap an underlying error) or `User`
 * (participant-facing, a short message only).
 */
module Errors {
  import opened Wrappers

  datatype ErrType = Internal | User

  /**
   * The boxed underlying `dyn Error`, known to the model only through its
   * `Debug` rendering.
   */
  datatype Cause = Cause(debug: string)

  datatype Err = Err(inner: Option<Cause>, errType: ErrType, msg: string)

  /** `Err::from_error`: an internal error wrapping `inner`. */
  function FromError(inner: Cause, msg: string): Err
  {
    Err(Some(inner), Internal, msg)
  }

  /** `Err::from_msg_internal`: an internal error with no cause. */
  function FromMsgInternal(msg: string): Err
  {
    Err(None, Internal, msg)
  }

  /** `Err::from_user`: a user error, never with a cause. */
  function FromUser(msg: string): Err
  {
    Err(None, User, msg)
  }

  /** `Error::source`: the wrapped cause, if any. */
  function Source(e: Err): (r: Option<Cause>)
    ensures r.Some? <==> e.inner.Some?
    ensures r.Some? ==> r.value == e.inner.value
  {
    match e.inner
    case None => None
    case Some(c) => Some(c)
  }

  /** `{:?}` of the `Option<Box<dyn Error>>` field. */
  function DebugInner(inner: Option<Cause>): string
  {
    match inner
    case None => "None"
    case Some(c) => "Some(" + c.debug + ")"
  }

  const InternalPrefix: string := "Internal error: "
  const UserPrefix: string := "User error: "

  /** `Display::fmt`. */
  function Display(e: Err): string
  {
    match e.errType
    case Internal => InternalPrefix + e.msg + "\nCause: " + DebugInner(e.inner)
    case User => UserPrefix + e.msg
  }

  /** The errors the three constructors can produce. */
  ghost predicate Constructed(e: Err)
  {
    || e == FromUser(e.msg)
    || e == FromMsgInternal(e.msg)
    || (e.inner.Some? && e == FromError(e.inner.value, e.msg))
  }

  /** `from_error` keeps the message, is internal, and its source is the wrapped error. */
  lemma FromErrorSpec(inner: Cause, msg: string)
    ensures var e := FromError(inner, msg);
      && e.errType == Internal && e.msg == msg && Source(e) == Some(inner)
      && Display(e) == InternalPrefix + msg + "\nCause: Some(" + inner.debug + ")"
  {
  }

  /** `from_msg_internal` keeps the message, is internal, and has no source. */
  lemma FromMsgInternalSpec(msg: string)
    ensures var e := FromMsgInternal(msg);
      && e.errType == Internal && e.msg == msg && Source(e) == None
      && Display(e) == InternalPrefix + msg + "\nCause: None"
  {
  }

  /** `from_user` keeps the message, is a user error, and has no source. */
  lemma FromUserSpec(msg: string)
    ensures var e := FromUser(msg);
      && e.errType == User && e.msg == msg && Source(e) == None
      && Display(e) == UserPrefix + msg
  {
  }

  /**
   * Among constructed errors only `from_error` ones have a source, and so
   * a user error never carries a cause.
   */
  lemma OnlyFromErrorHasSource(e: Err)
    requires Constructed(e)
    ensures Source(e).Some? <==> e.inner.Some? && e == FromError(e.inner.value, e.msg)
    ensures e.errType == User ==> Source(e) == None
  {
  }

  /**
   * Displaying a user error never shows its cause: two user errors with the
   * same message display the same, whatever they wrap.
   */
  lemma UserDisplayHidesCause(e1: Err, e2: Err)
    requires e1.errType == User && e2.errType == User && e1.msg == e2.msg
    ensures Display(e1) == Display(e2) == UserPrefix + e1.msg
  {
  }

  /**
   * The displayed text tells the two tiers apart: it starts with
   * "User error: " exactly for user errors, and the message follows it.
   */
  lemma DisplayRevealsTier(e: Err)
    ensures |Display(e)| >= |UserPrefix|
    ensures Display(e)[..|UserPrefix|] == UserPrefix <==> e.errType == User
    ensures e.errType == User ==> Display(e)[|UserPrefix|..] == e.msg
  {
    if e.errType == Internal {
      assert Display(e)[0] == 'I';
    }
  }
}
