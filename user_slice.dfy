/**
 * The user slice of the store: a five-field record that three reducers
 * update field by field, and its initial value read from the session.
 */
module UserSlice {
  import opened Wrappers
  import opened Auth

  class UserState {
    var email: Option<string>
    var userType: Option<UserType>
    var isLoggedIn: bool
    var sessionId: Option<string>
    var isInitialized: bool

    /** Logged in only with all three identity fields set. */
    predicate LoginConsistent()
      reads this
    {
      isLoggedIn ==> email.Some? && userType.Some? && sessionId.Some?
    }

    /** An arbitrary state, as a reducer may receive it. */
    constructor (email: Option<string>, userType: Option<UserType>, isLoggedIn: bool,
                 sessionId: Option<string>, isInitialized: bool)
      ensures this.email == email && this.userType == userType && this.isLoggedIn == isLoggedIn
      ensures this.sessionId == sessionId && this.isInitialized == isInitialized
    {
      this.email := email;
      this.userType := userType;
      this.isLoggedIn := isLoggedIn;
      this.sessionId := sessionId;
      this.isInitialized := isInitialized;
    }

    /**
     * `getInitialState`: logged in with the live session's fields when there
     * is one, otherwise logged out with every field null; initialized either
     * way. Reading the session may remove an expired one.
     */
    constructor Initial(sessions: SessionStore, now: int, removeFault: bool)
      modifies sessions
      ensures var live := LiveSession(old(sessions.GetItem(SESSION_STORAGE_KEY)), now);
        && (live.Some? ==>
              && email == Some(live.value.email) && userType == Some(live.value.userType)
              && sessionId == Some(live.value.sessionId) && isLoggedIn)
        && (live.None? ==> email.None? && userType.None? && sessionId.None? && !isLoggedIn)
      ensures isInitialized && LoginConsistent()
      ensures sessions.items ==
        if HoldsExpiredSession(old(sessions.GetItem(SESSION_STORAGE_KEY)), now) && !removeFault
        then old(sessions.items) - {SESSION_STORAGE_KEY}
        else old(sessions.items)
    {
      var session := GetSession(sessions, now, removeFault);
      if session.Some? {
        email := Some(session.value.email);
        userType := Some(session.value.userType);
        isLoggedIn := true;
        sessionId := Some(session.value.sessionId);
      } else {
        email := None;
        userType := None;
        isLoggedIn := false;
        sessionId := None;
      }
      isInitialized := true;
    }

    /** `setUserData`: copies the payload and marks the user logged in and initialized. */
    method SetUserData(email: string, userType: UserType, sessionId: string)
      modifies this
      ensures this.email == Some(email) && this.userType == Some(userType) && this.sessionId == Some(sessionId)
      ensures isLoggedIn && isInitialized
      ensures LoginConsistent()
    {
      this.email := Some(email);
      this.userType := Some(userType);
      this.sessionId := Some(sessionId);
      isLoggedIn := true;
      isInitialized := true;
    }

    /**
     * `clearUserData`: nulls the identity fields, logs out and marks
     * initialized. The result does not depend on the prior state, so clearing
     * twice is the same as clearing once.
     */
    method ClearUserData()
      modifies this
      ensures email.None? && userType.None? && sessionId.None?
      ensures !isLoggedIn && isInitialized
      ensures LoginConsistent()
    {
      email := None;
      userType := None;
      sessionId := None;
      isLoggedIn := false;
      isInitialized := true;
    }

    /**
     * `initializeAuth`: with a live session, copies its fields and logs in;
     * without one, changes only `isInitialized`, leaving any earlier login
     * fields as they were. Login consistency is preserved.
     */
    method InitializeAuth(sessions: SessionStore, now: int, removeFault: bool)
      modifies this, sessions
      ensures var live := LiveSession(old(sessions.GetItem(SESSION_STORAGE_KEY)), now);
        && (live.Some? ==>
              && email == Some(live.value.email) && userType == Some(live.value.userType)
              && sessionId == Some(live.value.sessionId) && isLoggedIn)
        && (live.None? ==>
              && email == old(email) && userType == old(userType)
              && sessionId == old(sessionId) && isLoggedIn == old(isLoggedIn))
      ensures isInitialized
      ensures old(LoginConsistent()) ==> LoginConsistent()
      ensures sessions.items ==
        if HoldsExpiredSession(old(sessions.GetItem(SESSION_STORAGE_KEY)), now) && !removeFault
        then old(sessions.items) - {SESSION_STORAGE_KEY}
        else old(sessions.items)
    {
      var session := GetSession(sessions, now, removeFault);
      if session.Some? {
        email := Some(session.value.email);
        userType := Some(session.value.userType);
        sessionId := Some(session.value.sessionId);
        isLoggedIn := true;
      }
      isInitialized := true;
    }
  }
}
