/**
 * The session front (io/session/Session.php): sessionId() checks the identifier PHP
 * is using and, when it is malformed, regenerates it or throws; get() answers with
 * the default without opening a session when the request carries no session cookie.
 *
 * The PHP session extension is represented by a session object holding the current
 * identifier, whether the session is active, whether the request brought a cookie and
 * the data stored under the session's namespace; session_regenerate_id() is an outcome
 * passed in (None when it fails, otherwise the fresh identifier).
 */
module Sessions {
  import opened Wrappers
  import opened Entities

  /** A character of [-,a-zA-Z0-9]. */
  predicate SidChar(c: char)
  {
    c == '-' || c == ',' || ('a' <= c <= 'z') || ('A' <= c <= 'Z') || ('0' <= c <= '9')
  }

  /** An identifier of 1 to 128 characters, each drawn from [-,a-zA-Z0-9]. */
  predicate WellFormed(s: string)
  {
    1 <= |s| <= 128 && forall k :: 0 <= k < |s| ==> SidChar(s[k])
  }

  /** !$sid for a string: the empty string and "0" are falsy. */
  predicate FalsySid(s: string) { s == "" || s == "0" }

  /**
   * preg_match('/^[-,a-zA-Z0-9]{1,128}$/', $sid) as PCRE reads it: without the D
   * modifier, '$' also matches just before a newline that ends the subject.
   */
  predicate MatchesAsWritten(s: string)
  {
    WellFormed(s) || (|s| >= 2 && s[|s| - 1] == '\n' && WellFormed(s[..|s| - 1]))
  }

  /** The message of the exception sessionId() throws. */
  function FailureMessage(allowRegen: bool): (m: string)
    ensures allowRegen ==> m == "Session ID generation failed"
    ensures !allowRegen ==> m == "Session ID validation failed"
  {
    "Session ID " + (if allowRegen then "generation" else "validation") + " failed"
  }

  /**
   * sessionId($allowRegen) as written: the check lets a trailing newline through, and
   * after a successful regeneration the identifier read before it is returned.
   */
  function SessionIdAsWritten(sid: string, allowRegen: bool, regenerated: bool): (r: Result<string, Exception>)
    ensures r.Success? ==> r.value == sid
    ensures r.Failure? <==> !FalsySid(sid) && !MatchesAsWritten(sid) && (!allowRegen || !regenerated)
  {
    if FalsySid(sid) || MatchesAsWritten(sid) then Success(sid)
    else if !allowRegen || !regenerated then Failure(GenericException(FailureMessage(allowRegen)))
    else Success(sid)
  }

  /** The check as written accepts an identifier that is well-formed but for a final newline. */
  lemma TrailingNewlineAccepted()
    ensures MatchesAsWritten("abc\n") && !WellFormed("abc\n")
    ensures SessionIdAsWritten("abc\n", false, false) == Success("abc\n")
  {
    assert "abc\n"[..3] == "abc";
    assert !SidChar("abc\n"[3]);
  }

  /** Whenever regeneration succeeds, the identifier returned is the malformed one it replaced. */
  lemma StaleIdReturned(sid: string)
    requires !FalsySid(sid) && !MatchesAsWritten(sid)
    ensures SessionIdAsWritten(sid, true, true) == Success(sid)
    ensures !WellFormed(sid)
  {
  }

  /**
   * sessionId($allowRegen) with both defects mended: the identifier must be well-formed
   * to the last character, and a regenerated session answers with its new identifier.
   */
  function SessionId(sid: string, allowRegen: bool, regen: Option<string>): (r: Result<string, Exception>)
    ensures FalsySid(sid) || WellFormed(sid) ==> r == Success(sid)
    ensures !FalsySid(sid) && !WellFormed(sid) && !allowRegen ==> r == Failure(GenericException("Session ID validation failed"))
    ensures !FalsySid(sid) && !WellFormed(sid) && allowRegen && regen.None? ==> r == Failure(GenericException("Session ID generation failed"))
    ensures !FalsySid(sid) && !WellFormed(sid) && allowRegen && regen.Some? ==> r == Success(regen.value)
  {
    if FalsySid(sid) || WellFormed(sid) then Success(sid)
    else if !allowRegen || regen.None? then Failure(GenericException(FailureMessage(allowRegen)))
    else Success(regen.value)
  }

  /** The mended check rejects any identifier that ends in a newline. */
  lemma WellFormedHasNoNewline(sid: string)
    requires |sid| >= 1 && sid[|sid| - 1] == '\n'
    ensures !WellFormed(sid)
    ensures SessionId(sid, false, None).Failure?
  {
    assert !SidChar(sid[|sid| - 1]);
  }

  /**
   * An identifier the mended sessionId() returns is never a malformed one, provided
   * the fresh identifier of a regeneration is well-formed.
   */
  lemma RegeneratedIdReturned(sid: string, allowRegen: bool, regen: Option<string>)
    requires regen.Some? ==> WellFormed(regen.value)
    ensures SessionId(sid, allowRegen, regen).Success? ==>
              FalsySid(SessionId(sid, allowRegen, regen).value) || WellFormed(SessionId(sid, allowRegen, regen).value)
  {
  }

  /** Both versions agree on every identifier without a final newline, unless a regeneration succeeds. */
  lemma SessionIdAgrees(sid: string, allowRegen: bool, regen: Option<string>)
    requires |sid| == 0 || sid[|sid| - 1] != '\n'
    requires !allowRegen || regen.None? || FalsySid(sid) || WellFormed(sid)
    ensures SessionId(sid, allowRegen, regen) == SessionIdAsWritten(sid, allowRegen, regen.Some?)
  {
  }

  /** $this->accessor->has($key) ? $this->accessor->get($key) : $default, on a flat store. */
  function Lookup(store: map<string, Value>, key: string, default: Value): (r: Value)
    ensures key in store ==> r == store[key]
    ensures key !in store ==> r == default
  {
    if key in store then store[key] else default
  }

  /** The Error get() raises when it calls has() on an accessor that was never made. */
  const NullAccessor: Exception := PhpError("Call to a member function has() on null")

  /**
   * get($key, $default) as written, from whether the request brought a session cookie,
   * whether the PHP session was already active and whether this object's accessor was
   * made: start() makes the accessor only when it opens the session itself, so an
   * object that first reads an already active session calls has() on null.
   */
  function GetAsWritten(hasCookie: bool, active: bool, accessorSet: bool, store: map<string, Value>, key: string, default: Value)
    : (r: Result<Value, Exception>)
    ensures !hasCookie ==> r == Success(default)
    ensures hasCookie && (accessorSet || !active) ==> r == Success(Lookup(store, key, default))
    ensures hasCookie && active && !accessorSet ==> r == Failure(NullAccessor)
  {
    if !hasCookie then Success(default)
    else if active && !accessorSet then Failure(NullAccessor)
    else Success(Lookup(store, key, default))
  }

  /**
   * get() as evidently intended: with a session cookie the stored value (or the
   * default) comes back whether or not the session was already running.
   */
  function GetMended(hasCookie: bool, store: map<string, Value>, key: string, default: Value): (r: Value)
    ensures !hasCookie ==> r == default
    ensures hasCookie && key in store ==> r == store[key]
    ensures hasCookie && key !in store ==> r == default
  {
    if hasCookie then Lookup(store, key, default) else default
  }

  /** A Session object that first reads a session someone else already started fails, where the intended get() answers. */
  lemma AlreadyActiveGetFails(store: map<string, Value>, key: string, default: Value)
    ensures GetAsWritten(true, true, false, store, key, default) == Failure(NullAccessor)
    ensures GetMended(true, store, key, default) == Lookup(store, key, default)
  {
  }

  /** Whenever this object opened the session itself, or the session is not yet running, both versions answer alike. */
  lemma GetAgrees(hasCookie: bool, active: bool, accessorSet: bool, store: map<string, Value>, key: string, default: Value)
    requires !active || accessorSet
    ensures GetAsWritten(hasCookie, active, accessorSet, store, key, default) == Success(GetMended(hasCookie, store, key, default))
  {
  }

  /** Whether sessionId() calls session_regenerate_id(): the identifier fails the check as written and regeneration is allowed. */
  predicate Regenerates(sid: string, allowRegen: bool)
  {
    !FalsySid(sid) && !MatchesAsWritten(sid) && allowRegen
  }

  /**
   * The session as the PHP session extension keeps it for one request, seen through
   * one Session object: the current identifier, whether the session is active, whether
   * this object's accessor has been made, whether the request brought a cookie, and
   * the data stored under the object's namespace.
   */
  class Session {
    /** session_id() */
    var id: string
    /** session_status() === PHP_SESSION_ACTIVE */
    var active: bool
    /** $this->accessor !== null */
    var accessorSet: bool
    /** isset($_COOKIE[session_name()]) */
    const hasCookie: bool
    /** $_SESSION[$this->namespace], as the accessor reads it. */
    const store: map<string, Value>

    /** A new Session object: no accessor yet, over a PHP session that may already be running. */
    constructor(id: string, active: bool, hasCookie: bool, store: map<string, Value>)
      ensures this.id == id && this.active == active && !accessorSet
      ensures this.hasCookie == hasCookie && this.store == store
    {
      this.id := id;
      this.active := active;
      accessorSet := false;
      this.hasCookie := hasCookie;
      this.store := store;
    }

    /**
     * start(): a session that is already active is left alone and no accessor is made;
     * otherwise the session is started and the accessor made over the namespace's data.
     */
    method Start()
      modifies this
      ensures active
      ensures accessorSet == (old(accessorSet) || !old(active))
      ensures id == old(id)
    {
      if active {
        return;
      }
      active := true;
      accessorSet := true;
    }

    /**
     * get($key, $default): without a session cookie the default comes back and no
     * session is started; otherwise start() runs and the accessor is asked, which
     * fails when start() found the session already running and made no accessor.
     */
    method Get(key: string, default: Value) returns (r: Result<Value, Exception>)
      modifies this
      ensures r == GetAsWritten(hasCookie, old(active), old(accessorSet), store, key, default)
      ensures !hasCookie ==> active == old(active) && accessorSet == old(accessorSet)
      ensures hasCookie ==> active && accessorSet == (old(accessorSet) || !old(active))
      ensures id == old(id)
    {
      if !hasCookie {
        return Success(default);
      }
      Start();
      if !accessorSet {
        return Failure(NullAccessor);
      }
      r := Success(Lookup(store, key, default));
    }

    /**
     * The static sessionId($allowRegen) as written: the identifier read first is what
     * comes back, even when session_regenerate_id() has replaced it.
     */
    method SessionIdentifier(allowRegen: bool, regen: Option<string>) returns (r: Result<string, Exception>)
      modifies this
      ensures r == SessionIdAsWritten(old(id), allowRegen, regen.Some?)
      ensures Regenerates(old(id), allowRegen) && regen.Some? ==> id == regen.value
      ensures !(Regenerates(old(id), allowRegen) && regen.Some?) ==> id == old(id)
      ensures active == old(active) && accessorSet == old(accessorSet)
    {
      var sid := id;
      if FalsySid(sid) || MatchesAsWritten(sid) {
        return Success(sid);
      }
      if !allowRegen {
        return Failure(GenericException(FailureMessage(allowRegen)));
      }
      if regen.None? {
        return Failure(GenericException(FailureMessage(allowRegen)));
      }
      id := regen.value;
      r := Success(sid);
    }
  }
}
